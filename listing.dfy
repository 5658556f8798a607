/** The Kids listing's derivation of what it shows: keep the products priced within the
    slider's range, then sort them with the comparator chosen by the "Sort By" select.
    JavaScript's `Array.prototype.sort` is stable, so the sort is modelled as a stable
    insertion sort; its result is the one sorted permutation that keeps tied products in
    their input order. */
module Listing {
  import opened Products
  import opened Strings

  /** `[...products].filter((product) => product.price <= priceRange)` */
  function FilterByPrice(products: seq<Product>, priceRange: real): (r: seq<Product>)
    ensures |r| <= |products|
    ensures multiset(r) <= multiset(products)
    ensures forall i :: 0 <= i < |r| ==> r[i].price <= priceRange
  {
    if products == [] then []
    else
      assert products == [products[0]] + products[1..];
      (if products[0].price <= priceRange then [products[0]] else []) + FilterByPrice(products[1..], priceRange)
  }

  /** The filter is exact: every product within the range is kept, as many times as it
      occurs, and nothing else is. */
  lemma {:induction false} FilterByPriceExact(products: seq<Product>, priceRange: real)
    ensures forall p :: multiset(FilterByPrice(products, priceRange))[p] ==
                          if p.price <= priceRange then multiset(products)[p] else 0
  {
    if products != [] {
      FilterByPriceExact(products[1..], priceRange);
      assert products == [products[0]] + products[1..];
    }
  }

  /** Filtering a concatenation filters each part. */
  lemma {:induction false} FilterByPriceAppend(a: seq<Product>, b: seq<Product>, priceRange: real)
    ensures FilterByPrice(a + b, priceRange) == FilterByPrice(a, priceRange) + FilterByPrice(b, priceRange)
  {
    if a == [] {
      assert a + b == b;
    } else {
      var head := if a[0].price <= priceRange then [a[0]] else [];
      assert (a + b)[0] == a[0] && (a + b)[1..] == a[1..] + b;
      assert FilterByPrice(a + b, priceRange) == head + FilterByPrice(a[1..] + b, priceRange);
      FilterByPriceAppend(a[1..], b, priceRange);
      assert FilterByPrice(a, priceRange) == head + FilterByPrice(a[1..], priceRange);
    }
  }

  /** A list whose prices are all within range passes the filter unchanged. */
  lemma {:induction false} FilterByPriceKeepsAll(products: seq<Product>, priceRange: real)
    requires forall i :: 0 <= i < |products| ==> products[i].price <= priceRange
    ensures FilterByPrice(products, priceRange) == products
  {
    if products != [] {
      FilterByPriceKeepsAll(products[1..], priceRange);
    }
  }

  /** The comparator of the sort: negative when `a` belongs before `b`, positive when
      after, zero for a tie. Any `sortBy` other than the three named orders (the select's
      "default", "Featured") ties every pair. */
  function Compare(sortBy: string, a: Product, b: Product): (c: real)
    ensures sortBy == "price-low" ==> (c < 0.0 <==> a.price < b.price) && (c == 0.0 <==> a.price == b.price)
    ensures sortBy == "price-high" ==> (c < 0.0 <==> b.price < a.price) && (c == 0.0 <==> a.price == b.price)
    ensures sortBy == "name" ==> -1.0 <= c <= 1.0 && (c == 0.0 <==> a.name == b.name)
    ensures sortBy != "price-low" && sortBy != "price-high" && sortBy != "name" ==> c == 0.0
  {
    if sortBy == "price-low" then a.price - b.price
    else if sortBy == "price-high" then b.price - a.price
    else if sortBy == "name" then NameCompare(a.name, b.name) as real
    else 0.0
  }

  lemma CompareFlip(sortBy: string, a: Product, b: Product)
    ensures Compare(sortBy, b, a) == -Compare(sortBy, a, b)
  {
    NameCompareFlip(a.name, b.name);
  }

  lemma CompareTransitive(sortBy: string, a: Product, b: Product, c: Product)
    requires Compare(sortBy, a, b) <= 0.0 && Compare(sortBy, b, c) <= 0.0
    ensures Compare(sortBy, a, c) <= 0.0
  {
    if sortBy == "name" {
      NameCompareTransitive(a.name, b.name, c.name);
    }
  }

  /** Every product comes no later, by the comparator, than every product after it. */
  ghost predicate SortedBy(sortBy: string, s: seq<Product>) {
    forall i, j :: 0 <= i < j < |s| ==> Compare(sortBy, s[i], s[j]) <= 0.0
  }

  /** Places `x` in front of the first product it does not compare after. */
  function Insert(sortBy: string, x: Product, s: seq<Product>): (r: seq<Product>)
    ensures multiset(r) == multiset(s) + multiset{x}
  {
    if s == [] || Compare(sortBy, x, s[0]) <= 0.0 then [x] + s
    else
      assert s == [s[0]] + s[1..];
      [s[0]] + Insert(sortBy, x, s[1..])
  }

  /** `.sort(comparator)`, stable. */
  function SortProducts(sortBy: string, s: seq<Product>): (r: seq<Product>)
    ensures multiset(r) == multiset(s)
  {
    if s == [] then []
    else
      assert s == [s[0]] + s[1..];
      Insert(sortBy, s[0], SortProducts(sortBy, s[1..]))
  }

  lemma {:induction false} InsertSorted(sortBy: string, x: Product, s: seq<Product>)
    requires SortedBy(sortBy, s)
    ensures SortedBy(sortBy, Insert(sortBy, x, s))
  {
    var r := Insert(sortBy, x, s);
    if s == [] {
    } else if Compare(sortBy, x, s[0]) <= 0.0 {
      forall j | 1 <= j < |r| ensures Compare(sortBy, x, r[j]) <= 0.0 {
        if j > 1 { CompareTransitive(sortBy, x, s[0], s[j - 1]); }
      }
    } else {
      var t := Insert(sortBy, x, s[1..]);
      InsertSorted(sortBy, x, s[1..]);
      CompareFlip(sortBy, x, s[0]);
      forall j | 0 <= j < |t| ensures Compare(sortBy, s[0], t[j]) <= 0.0 {
        assert t[j] in multiset(t);
        assert t[j] == x || t[j] in s[1..];
      }
    }
  }

  lemma {:induction false} SortProductsSorted(sortBy: string, s: seq<Product>)
    ensures SortedBy(sortBy, SortProducts(sortBy, s))
  {
    if s != [] {
      SortProductsSorted(sortBy, s[1..]);
      InsertSorted(sortBy, s[0], SortProducts(sortBy, s[1..]));
    }
  }

  /** The products of `s` that the comparator ties with `q`, in their order in `s`. */
  function TiedWith(sortBy: string, q: Product, s: seq<Product>): seq<Product> {
    if s == [] then []
    else (if Compare(sortBy, s[0], q) == 0.0 then [s[0]] else []) + TiedWith(sortBy, q, s[1..])
  }

  lemma TiedWithCons(sortBy: string, q: Product, s: seq<Product>)
    requires s != []
    ensures TiedWith(sortBy, q, s) == TiedWith(sortBy, q, [s[0]]) + TiedWith(sortBy, q, s[1..])
  {
    assert [s[0]][1..] == [];
  }

  lemma {:induction false} InsertStable(sortBy: string, q: Product, x: Product, s: seq<Product>)
    ensures TiedWith(sortBy, q, Insert(sortBy, x, s)) == TiedWith(sortBy, q, [x]) + TiedWith(sortBy, q, s)
  {
    if s == [] || Compare(sortBy, x, s[0]) <= 0.0 {
      assert ([x] + s)[1..] == s;
    } else {
      var t := Insert(sortBy, x, s[1..]);
      InsertStable(sortBy, q, x, s[1..]);
      assert ([s[0]] + t)[1..] == t;
      if Compare(sortBy, x, q) == 0.0 && Compare(sortBy, s[0], q) == 0.0 {
        // x and s[0] would both be tied with q, hence with each other, yet x sorts after s[0]
        CompareFlip(sortBy, s[0], q);
        CompareTransitive(sortBy, x, q, s[0]);
        assert false;
      }
    }
  }

  /** Stability: for every product `q`, the products tied with `q` keep their relative
      order through the sort. */
  lemma {:induction false} SortProductsStable(sortBy: string, q: Product, s: seq<Product>)
    ensures TiedWith(sortBy, q, SortProducts(sortBy, s)) == TiedWith(sortBy, q, s)
  {
    if s != [] {
      var rest := SortProducts(sortBy, s[1..]);
      SortProductsStable(sortBy, q, s[1..]);
      InsertStable(sortBy, q, s[0], rest);
      TiedWithCons(sortBy, q, s);
    }
  }

  /** With "default" (or any unrecognised value) the comparator returns 0, so the stable
      sort leaves the list exactly as it was. */
  lemma {:induction false} FeaturedKeepsOrder(sortBy: string, s: seq<Product>)
    requires sortBy != "price-low" && sortBy != "price-high" && sortBy != "name"
    ensures SortProducts(sortBy, s) == s
  {
    if s != [] {
      FeaturedKeepsOrder(sortBy, s[1..]);
    }
  }

  /** `filteredProducts`: the filter followed by the sort. */
  function FilteredProducts(products: seq<Product>, priceRange: real, sortBy: string): (r: seq<Product>)
    ensures multiset(r) == multiset(FilterByPrice(products, priceRange))
  {
    SortProducts(sortBy, FilterByPrice(products, priceRange))
  }

  /** What the listing shows, before pagination: exactly the products priced within the
      range (with their multiplicities), in the order the select asks for, ties kept in
      input order. */
  lemma FilteredProductsSpec(products: seq<Product>, priceRange: real, sortBy: string)
    ensures var r := FilteredProducts(products, priceRange, sortBy);
      && (forall i :: 0 <= i < |r| ==> r[i].price <= priceRange)
      && (forall p :: multiset(r)[p] == if p.price <= priceRange then multiset(products)[p] else 0)
      && (sortBy == "price-low" ==> forall i, j :: 0 <= i < j < |r| ==> r[i].price <= r[j].price)
      && (sortBy == "price-high" ==> forall i, j :: 0 <= i < j < |r| ==> r[i].price >= r[j].price)
      && (sortBy == "name" ==> forall i, j :: 0 <= i < j < |r| ==> NameCompare(r[i].name, r[j].name) <= 0)
      && (forall q :: TiedWith(sortBy, q, r) == TiedWith(sortBy, q, FilterByPrice(products, priceRange)))
  {
    var f := FilterByPrice(products, priceRange);
    var r := FilteredProducts(products, priceRange, sortBy);
    SortProductsSorted(sortBy, f);
    FilterByPriceExact(products, priceRange);
    forall i | 0 <= i < |r| ensures r[i].price <= priceRange {
      assert r[i] in multiset(f);
    }
    forall q ensures TiedWith(sortBy, q, r) == TiedWith(sortBy, q, f) {
      SortProductsStable(sortBy, q, f);
    }
  }

  /** With the "Featured" order the listing is the filtered list in catalog order. */
  lemma FeaturedListingIsFilter(products: seq<Product>, priceRange: real)
    ensures FilteredProducts(products, priceRange, "default") == FilterByPrice(products, priceRange)
  {
    FeaturedKeepsOrder("default", FilterByPrice(products, priceRange));
  }
}
