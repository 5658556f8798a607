/** The Sale listing: products fetched once on mount, a loading flag and an error
    message set by the fetch's outcome, twelve products a page, and the pagination bar.
    The request itself is not modelled; its two outcomes are the methods `FetchSucceeded`
    and `FetchFailed`. */
module Sale {
  import opened Products
  import opened Pagination

  /** The message `setError` stores when the request fails. */
  const FetchErrorMessage := "Failed to load new arrivals"

  /** `!loading && !error && products.length > 0`: the pagination bar. Once settled
      without error it shows exactly when the first page has products. */
  predicate ShowsPager(loading: bool, error: string, products: seq<Product>)
    ensures ShowsPager(loading, error, products) <==> !loading && error == "" && PageOf(products, 1) != []
  {
    !loading && error == "" && |products| > 0
  }

  /** `!loading && !error && currentProducts.length > 0`: the product grid. It never
      shows without the pagination bar. */
  predicate ShowsGrid(loading: bool, error: string, products: seq<Product>, currentPage: int)
    ensures ShowsGrid(loading, error, products, currentPage) ==> ShowsPager(loading, error, products)
  {
    !loading && error == "" && |PageOf(products, currentPage)| > 0
  }

  /** `!loading && !error && currentProducts.length === 0`: "No products found". It never
      shows together with the grid, and always shows for an empty list once settled. */
  predicate ShowsEmptyState(loading: bool, error: string, products: seq<Product>, currentPage: int)
    ensures ShowsEmptyState(loading, error, products, currentPage) ==> !ShowsGrid(loading, error, products, currentPage)
    ensures !loading && error == "" && products == [] ==> ShowsEmptyState(loading, error, products, currentPage)
  {
    !loading && error == "" && |PageOf(products, currentPage)| == 0
  }

  /** Once loaded without error, and with the page in range, the empty state shows exactly
      when there are no products at all, and the grid exactly alongside the pagination
      bar. */
  lemma SettledView(products: seq<Product>, currentPage: int, loading: bool, error: string)
    requires currentPage >= 1
    requires |products| > 0 ==> currentPage <= TotalPages(|products|)
    ensures ShowsEmptyState(loading, error, products, currentPage) <==> !loading && error == "" && products == []
    ensures ShowsGrid(loading, error, products, currentPage) <==> ShowsPager(loading, error, products)
  {
  }

  class SalePage {
    var products: seq<Product>
    var loading: bool
    var error: string
    var currentPage: int

    /** Until the fetch settles there are no products, no error and the first page; after
      it, the page is one the pagination bar offers whenever it offers any. */
    ghost predicate Valid()
      reads this
    {
      && currentPage >= 1
      && (loading ==> products == [] && error == "" && currentPage == 1)
      && (|products| > 0 ==> currentPage <= TotalPages(|products|))
    }

    /** Mounting: `useState([])`, `useState(true)`, `useState("")`, `useState(1)`; the
      effect's `setLoading(true)` leaves this state as it is. */
    constructor ()
      ensures Valid()
      ensures products == [] && loading && error == "" && currentPage == 1
    {
      products, loading, error, currentPage := [], true, "", 1;
    }

    /** `totalPages`: no page without products, and the current page is one of the
      numbered buttons whenever there is any. */
    function Total(): (pages: nat)
      reads this
      ensures pages == 0 <==> products == []
      ensures Valid() && products != [] ==> 1 <= currentPage <= pages
    {
      TotalPages(|products|)
    }

    /** `currentProducts`: at most twelve of the fetched products, and some whenever
      there are any. */
    function CurrentProducts(): (page: seq<Product>)
      reads this
      ensures |page| <= ProductsPerPage
      ensures forall k :: 0 <= k < |page| ==> page[k] in products
      ensures Valid() ==> (page == [] <==> products == [])
    {
      PageOf(products, currentPage)
    }

    /** The request answered: `setProducts(response.data)`, `setLoading(false)`. */
    method FetchSucceeded(data: seq<Product>)
      requires Valid() && loading
      modifies this`products, this`loading
      ensures Valid()
      ensures products == data && !loading
    {
      products, loading := data, false;
    }

    /** The request failed: `setError(...)`, `setLoading(false)`; no products. */
    method FetchFailed()
      requires Valid() && loading
      modifies this`error, this`loading
      ensures Valid()
      ensures error == FetchErrorMessage && !loading && products == []
    {
      error, loading := FetchErrorMessage, false;
    }

    /** A click on a button of the pagination bar, through `handlePageChange`. */
    method Click(b: PagerButton)
      requires Valid() && ShowsPager(loading, error, products) && Rendered(b, Total())
      modifies this`currentPage
      ensures Valid()
      ensures currentPage == AfterClick(b, old(currentPage), Total())
    {
      currentPage := AfterClick(b, currentPage, Total());
    }
  }
}
