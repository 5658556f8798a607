/** Pagination shared by the Kids and Sale listings: twelve products a page,
    `Math.ceil` for the page count, `Array.prototype.slice` for the current page, and the
    Previous / numbered / Next buttons that move `currentPage`. */
module Pagination {

  /** `productsPerPage` */
  const ProductsPerPage: nat := 12

  function Min(a: int, b: int): int {
    if a <= b then a else b
  }

  /** `Math.ceil(count / productsPerPage)`: the fewest pages of twelve that hold `count`
      products. */
  function TotalPages(count: nat): (pages: nat)
    ensures pages * ProductsPerPage >= count
    ensures pages == 0 || (pages - 1) * ProductsPerPage < count
  {
    (count + ProductsPerPage - 1) / ProductsPerPage
  }

  /** How `slice` reads one of its positions on a list of length `len`: a negative
      position counts back from the end, and the result is clamped into `0..len`. */
  function SliceIndex(len: nat, k: int): (i: nat)
    ensures i <= len
    ensures 0 <= k ==> i == Min(k, len)
  {
    if k < 0 then (if len + k < 0 then 0 else len + k)
    else if k < len then k
    else len
  }

  /** `s.slice(start, end)`: the elements from position `start` up to, not including,
      position `end`, both read by `SliceIndex`; nothing when `end` is not after
      `start`. Every element of the slice comes from `s`. */
  function JsSlice<T>(s: seq<T>, start: int, end: int): (r: seq<T>)
    ensures |r| <= |s|
    ensures forall k :: 0 <= k < |r| ==> r[k] in s
    ensures 0 <= start <= end ==> r == s[Min(start, |s|)..Min(end, |s|)]
    ensures 0 <= end <= start ==> r == []
    ensures start <= -|s| && |s| <= end ==> r == s
  {
    var i, j := SliceIndex(|s|, start), SliceIndex(|s|, end);
    if i < j then s[i..j] else []
  }

  /** `currentProducts`: the slice from `indexOfFirstProduct = currentPage * 12 - 12` to
      `indexOfLastProduct = currentPage * 12`. A page holds at most twelve products; from
      page 1 on it is the run of positions `(p - 1) * 12 .. p * 12` that exist, and it is
      empty exactly when the page number is past the last page. */
  function PageOf<T>(s: seq<T>, currentPage: int): (page: seq<T>)
    ensures |page| <= ProductsPerPage
    ensures currentPage >= 1 ==>
              page == s[Min((currentPage - 1) * ProductsPerPage, |s|)..Min(currentPage * ProductsPerPage, |s|)]
    ensures currentPage >= 1 ==> (page == [] <==> currentPage > TotalPages(|s|))
    ensures forall k :: 0 <= k < |page| ==> page[k] in s
  {
    JsSlice(s, currentPage * ProductsPerPage - ProductsPerPage, currentPage * ProductsPerPage)
  }

  /** Pages 1 to `k`, one after the other. */
  function PagesUpTo<T>(s: seq<T>, k: nat): seq<T> {
    if k == 0 then [] else PagesUpTo(s, k - 1) + PageOf(s, k)
  }

  lemma {:induction false} PagesUpToIsPrefix<T>(s: seq<T>, k: nat)
    ensures PagesUpTo(s, k) == s[..Min(k * ProductsPerPage, |s|)]
  {
    if k > 0 {
      PagesUpToIsPrefix(s, k - 1);
      var a, b := Min((k - 1) * ProductsPerPage, |s|), Min(k * ProductsPerPage, |s|);
      assert s[..a] + s[a..b] == s[..b];
    }
  }

  /** Reading the pages 1 to `totalPages` in order gives back the whole list: no product
      is skipped or shown twice. */
  lemma PagesReassemble<T>(s: seq<T>)
    ensures PagesUpTo(s, TotalPages(|s|)) == s
  {
    PagesUpToIsPrefix(s, TotalPages(|s|));
  }

  /** The pagination bar's buttons. */
  datatype PagerButton = Previous | PageNumber(n: int) | Next

  /** The labels of the numbered buttons:
      `Array.from({ length: totalPages }, (_, i) => i + 1)`. */
  function PageLabels(totalPages: nat): seq<int> {
    seq(totalPages, i => i + 1)
  }

  /** The button exists in the bar: Previous and Next always do, and the numbered
      buttons are exactly the pages 1 to `totalPages`. */
  predicate Rendered(b: PagerButton, totalPages: nat)
    ensures Rendered(b, totalPages) <==> (b.PageNumber? ==> 1 <= b.n <= totalPages)
  {
    b.PageNumber? ==>
      assert 1 <= b.n <= totalPages ==> PageLabels(totalPages)[b.n - 1] == b.n;
      b.n in PageLabels(totalPages)
  }

  /** `disabled={currentPage === 1}` on Previous, `disabled={currentPage === totalPages}`
      on Next; numbered buttons are never disabled. From a page within `1..totalPages`,
      a button that is not disabled never leads out of that range. */
  predicate Disabled(b: PagerButton, currentPage: int, totalPages: nat)
    ensures b.PageNumber? ==> !Disabled(b, currentPage, totalPages)
    ensures 1 <= currentPage <= totalPages && b == Previous && !Disabled(b, currentPage, totalPages) ==>
              1 <= currentPage - 1
    ensures 1 <= currentPage <= totalPages && b == Next && !Disabled(b, currentPage, totalPages) ==>
              currentPage + 1 <= totalPages
    ensures b == Previous && 2 <= currentPage <= totalPages ==> !Disabled(b, currentPage, totalPages)
    ensures b == Next && 1 <= currentPage < totalPages ==> !Disabled(b, currentPage, totalPages)
    ensures b == Previous && currentPage == 1 ==> Disabled(b, currentPage, totalPages)
    ensures b == Next && currentPage == totalPages ==> Disabled(b, currentPage, totalPages)
  {
    match b
    case Previous => currentPage == 1
    case Next => currentPage == totalPages
    case PageNumber(_) => false
  }

  /** The page after a click on `b`: a disabled button does nothing, Previous and Next
      call `handlePageChange(currentPage - 1)` and `(currentPage + 1)`, a numbered button
      `handlePageChange(i + 1)`. From a page within `1..totalPages` every click on a
      button of the bar lands on a page within `1..totalPages`. */
  function AfterClick(b: PagerButton, currentPage: int, totalPages: nat): (page: int)
    ensures 1 <= currentPage <= totalPages && Rendered(b, totalPages) ==> 1 <= page <= totalPages
    ensures !b.PageNumber? ==> currentPage - 1 <= page <= currentPage + 1
    ensures b == Previous ==> page <= currentPage
    ensures b == Next ==> page >= currentPage
    ensures b.PageNumber? ==> page == b.n
    ensures b == Previous ==> page == (if currentPage == 1 then currentPage else currentPage - 1)
    ensures b == Next ==> page == (if currentPage == totalPages then currentPage else currentPage + 1)
  {
    if Disabled(b, currentPage, totalPages) then currentPage
    else
      match b
      case Previous => currentPage - 1
      case Next => currentPage + 1
      case PageNumber(n) => n
  }
}
