/** The Kids category listing: its local state (filter panel, price slider, sort select,
    current page), the slice of the store it reads (products, loading, error), what it
    derives from them, and its event handlers. */
module Kids {
  import opened Products
  import opened Listing
  import opened Pagination

  /** The `value`s of the "Sort By" select's options. */
  const SortOptions: seq<string> := ["default", "price-low", "price-high", "name"]

  /** A position of the price slider: `min="0" max="1000" step="50"`. */
  predicate SliderValue(v: int) {
    0 <= v <= 1000 && v % 50 == 0
  }

  /** The current page is one the pagination bar offers, whenever the bar has any page. */
  predicate PageInRange(products: seq<Product>, priceRange: int, sortBy: string, currentPage: int) {
    var n := |FilteredProducts(products, priceRange as real, sortBy)|;
    n > 0 ==> 1 <= currentPage <= TotalPages(n)
  }

  /** While the page is in range, the product grid has something to show exactly when the
      filtered list is non-empty. */
  lemma PageInRangeShowsProducts(products: seq<Product>, priceRange: int, sortBy: string, currentPage: int)
    requires currentPage >= 1 && PageInRange(products, priceRange, sortBy, currentPage)
    ensures var filtered := FilteredProducts(products, priceRange as real, sortBy);
            PageOf(filtered, currentPage) != [] <==> filtered != []
  {
  }

  /** Sorting does not change how many products pass the filter, so it keeps the page
      in range. */
  lemma SortKeepsPageInRange(products: seq<Product>, priceRange: int, sortBy: string, sortBy': string, currentPage: int)
    ensures PageInRange(products, priceRange, sortBy, currentPage) <==>
            PageInRange(products, priceRange, sortBy', currentPage)
  {
    var f := FilterByPrice(products, priceRange as real);
    assert |FilteredProducts(products, priceRange as real, sortBy)| == |multiset(f)|;
    assert |FilteredProducts(products, priceRange as real, sortBy')| == |multiset(f)|;
  }

  /** With the "Featured" order, a price range above every price lists every product in
      catalog order. */
  lemma FeaturedWithinRange(items: seq<Product>, priceRange: real)
    requires forall i :: 0 <= i < |items| ==> items[i].price <= priceRange
    ensures FilteredProducts(items, priceRange, "default") == items
  {
    FilterByPriceKeepsAll(items, priceRange);
    FeaturedKeepsOrder("default", items);
  }

  /** With the "Featured" order, a range that excludes only the last product lists the
      others in catalog order. */
  lemma FeaturedDropsLast(items: seq<Product>, last: Product, priceRange: real)
    requires forall i :: 0 <= i < |items| ==> items[i].price <= priceRange
    requires last.price > priceRange
    ensures FilteredProducts(items + [last], priceRange, "default") == items
  {
    FilterByPriceAppend(items, [last], priceRange);
    FilterByPriceKeepsAll(items, priceRange);
    assert [last][1..] == [];
    assert FilterByPrice([last], priceRange) == [];
    assert FilterByPrice(items + [last], priceRange) == items + [];
    assert items + [] == items;
    FeaturedKeepsOrder("default", items);
  }

  /** Narrowing the price range leaves `currentPage` where it was. Twelve T-shirts at 100
      and one coat at 300 make two pages at the initial range 500; on page 2, moving the
      slider to 200 leaves one page of twelve: the pagination bar is still shown, the grid
      is empty, and Next stays enabled because 2 is not equal to the single page. */
  lemma NarrowingPriceStrandsPage()
    ensures var coat := Product(13, "Coat", 300.0, None, "", None);
            var items := seq(12, i => Product(i + 1, "T-shirt", 100.0, None, "", None)) + [coat];
            var narrowed := FilteredProducts(items, 200.0, "default");
            && PageInRange(items, 500, "default", 2)
            && !PageInRange(items, 200, "default", 2)
            && |narrowed| == 12
            && PageOf(narrowed, 2) == []
            && !Disabled(Next, 2, TotalPages(|narrowed|))
            && AfterClick(Next, 2, TotalPages(|narrowed|)) == 3
  {
    var coat := Product(13, "Coat", 300.0, None, "", None);
    var shirts := seq(12, i => Product(i + 1, "T-shirt", 100.0, None, "", None));
    var items := shirts + [coat];
    FeaturedWithinRange(items, 500.0);
    FeaturedDropsLast(shirts, coat, 200.0);
    assert TotalPages(13) == 2 && TotalPages(12) == 1;
  }

  class KidsPage {
    /** `items` of the kids slice of the store. */
    var products: seq<Product>
    /** `loading` of the kids slice. */
    var loading: bool
    /** `error` of the kids slice; the empty string when there is none. */
    var error: string
    var isFiltering: bool
    var priceRange: int
    var sortBy: string
    var currentPage: int

    /** Page numbers never drop below 1. */
    ghost predicate Valid()
      reads this
    {
      currentPage >= 1
    }

    /** The component mounted over the current state of the kids slice. */
    constructor (items: seq<Product>, isLoading: bool, sliceError: string)
      ensures Valid()
      ensures products == items && loading == isLoading && error == sliceError
      ensures !isFiltering && priceRange == 500 && sortBy == "default" && currentPage == 1
    {
      products, loading, error := items, isLoading, sliceError;
      isFiltering, priceRange, sortBy, currentPage := false, 500, "default", 1;
    }

    /** `filteredProducts`: products of the store within the price range, no more of
      them than there are. */
    function Filtered(): (r: seq<Product>)
      reads this
      ensures |r| <= |products|
      ensures forall i :: 0 <= i < |r| ==> r[i] in products && r[i].price <= priceRange as real
    {
      var f := FilterByPrice(products, priceRange as real);
      var r := FilteredProducts(products, priceRange as real, sortBy);
      assert |r| == |multiset(r)| == |multiset(f)| == |f|;
      assert forall i :: 0 <= i < |r| ==> r[i] in multiset(f);
      r
    }

    /** `totalPages`: no page without products, and the current page is one of the
      numbered buttons whenever the page is in range. */
    function Total(): (pages: nat)
      reads this
      ensures pages == 0 <==> Filtered() == []
      ensures PageInRange(products, priceRange, sortBy, currentPage) && Filtered() != [] ==>
                1 <= currentPage <= pages
    {
      TotalPages(|Filtered()|)
    }

    /** `currentProducts`: at most twelve products of the filtered list. */
    function CurrentProducts(): (page: seq<Product>)
      reads this
      ensures |page| <= ProductsPerPage
      ensures forall k :: 0 <= k < |page| ==> page[k] in Filtered()
    {
      PageOf(Filtered(), currentPage)
    }

    /** `!loading && !error && currentProducts.length > 0`: the product grid. It never
      shows without the pagination bar. */
    predicate ShowsGrid()
      reads this
      ensures ShowsGrid() ==> ShowsPager()
    {
      !loading && error == "" && |CurrentProducts()| > 0
    }

    /** `!loading && products.length === 0 && !error`: "No products available at the
      moment." It looks at the unfiltered list and never shows beside the pagination bar. */
    predicate ShowsNoProductsMessage()
      reads this
      ensures ShowsNoProductsMessage() ==> !ShowsPager()
    {
      !loading && |products| == 0 && error == ""
    }

    /** `!loading && !error && filteredProducts.length > 0`: the pagination bar. Once
      settled without error it shows exactly when the first page has products. */
    predicate ShowsPager()
      reads this
      ensures ShowsPager() <==> !loading && error == "" && PageOf(Filtered(), 1) != []
    {
      !loading && error == "" && |Filtered()| > 0
    }

    /** Once the slice has settled without error, and with the page a positive one: the
      grid shows exactly when the pagination bar does and the page is in range, so a
      shown bar over an empty grid means the page was stranded past the last one. The
      "No products available" message looks at the unfiltered list, so it never shows
      beside the grid or the bar, but a filter that excludes every product leaves the
      page with none of the three. */
    lemma SettledView()
      requires Valid()
      ensures ShowsGrid() <==> ShowsPager() && PageInRange(products, priceRange, sortBy, currentPage)
      ensures ShowsNoProductsMessage() ==> !ShowsGrid() && !ShowsPager()
      ensures !loading && error == "" && |products| > 0 && Filtered() == [] ==>
                !ShowsGrid() && !ShowsPager() && !ShowsNoProductsMessage()
    {
      var f := FilterByPrice(products, priceRange as real);
      assert |Filtered()| == |multiset(Filtered())| == |multiset(f)| == |f| <= |products|;
    }

    /** The kids slice of the store changed (the fetch dispatched on mount settled). */
    method StoreChanged(items: seq<Product>, isLoading: bool, sliceError: string)
      requires Valid()
      modifies this`products, this`loading, this`error
      ensures Valid()
      ensures products == items && loading == isLoading && error == sliceError
    {
      products, loading, error := items, isLoading, sliceError;
    }

    /** `toggleFilter`: opens or closes the filter panel. */
    method ToggleFilter()
      requires Valid()
      modifies this`isFiltering
      ensures Valid()
      ensures isFiltering == !old(isFiltering)
    {
      isFiltering := !isFiltering;
    }

    /** `setPriceRange(Number(e.target.value))` from the slider, as written: the page
      number is kept, so the page may end up past the last one (see
      `NarrowingPriceStrandsPage`). */
    method SetPriceRange(v: int)
      requires Valid() && isFiltering && SliderValue(v)
      modifies this`priceRange
      ensures Valid()
      ensures priceRange == v
    {
      priceRange := v;
    }

    /** The slider change with the page reset to the first one: it keeps the page in
      range. */
    method SetPriceRangeFromFirstPage(v: int)
      requires Valid() && isFiltering && SliderValue(v)
      modifies this`priceRange, this`currentPage
      ensures priceRange == v && currentPage == 1
      ensures Valid() && PageInRange(products, priceRange, sortBy, currentPage)
    {
      priceRange, currentPage := v, 1;
    }

    /** `setSortBy(e.target.value)` from the select. The order changes, not the number of
      products, so a page in range stays in range. */
    method SetSortBy(v: string)
      requires Valid() && v in SortOptions
      modifies this`sortBy
      ensures Valid()
      ensures sortBy == v
      ensures old(PageInRange(products, priceRange, sortBy, currentPage)) ==>
                PageInRange(products, priceRange, sortBy, currentPage)
      ensures multiset(Filtered()) == multiset(old(Filtered()))
    {
      SortKeepsPageInRange(products, priceRange, sortBy, v, currentPage);
      sortBy := v;
    }

    /** A click on a button of the pagination bar, through `handlePageChange`. A
      disabled button does nothing; from a page in range the page stays in range. */
    method Click(b: PagerButton)
      requires Valid() && ShowsPager() && Rendered(b, Total())
      modifies this`currentPage
      ensures Valid()
      ensures currentPage == AfterClick(b, old(currentPage), Total())
      ensures old(PageInRange(products, priceRange, sortBy, currentPage)) ==>
                PageInRange(products, priceRange, sortBy, currentPage)
    {
      currentPage := AfterClick(b, currentPage, Total());
    }
  }
}
