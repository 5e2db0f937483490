/**
 * Catalog search (`search_products`): one pass over the product list that keeps
 * every product passing all supplied filters, then truncates to the first two.
 * The catalog is a parameter here instead of being read from `products.json`.
 */
module Catalog {
  import opened Wrappers
  import opened Text

  type StockCode = string

  /** One catalog record: the `StockCode`, `Description`, `UnitPrice` and `Quantity` fields. */
  datatype Product = Product(stockCode: StockCode, description: string, unitPrice: real, quantity: int)

  /** The four optional keyword arguments of `search_products`; `None` means "not supplied". */
  datatype Filters = Filters(
    description: Option<string>,
    minPrice: Option<real>,
    maxPrice: Option<real>,
    quantity: Option<int>)

  /** A call with every argument left at its default. */
  const NoFilters := Filters(None, None, None, None)

  /** The search returns at most this many products (`filtered_products[:2]`). */
  const ResultLimit: nat := 2

  /**
   * The description filter is applied only when the argument is a non-empty
   * string (Python truthiness); it then asks for a case-insensitive substring.
   */
  predicate DescriptionPasses(description: Option<string>, p: Product)
  {
    match description
    case None => true
    case Some(d) => d == [] || Contains(Lower(p.description), Lower(d))
  }

  /** A product passes when it satisfies every supplied filter. */
  predicate Passes(f: Filters, p: Product)
  {
    && DescriptionPasses(f.description, p)
    && (f.minPrice.Some? ==> p.unitPrice >= f.minPrice.value)
    && (f.maxPrice.Some? ==> p.unitPrice <= f.maxPrice.value)
    && (f.quantity.Some? ==> p.quantity >= f.quantity.value)
  }

  /** The products of `catalog` that pass `f`, in catalog order (the list the loop builds). */
  function Matching(catalog: seq<Product>, f: Filters): seq<Product>
  {
    if catalog == [] then []
    else
      var last := catalog[|catalog| - 1];
      Matching(catalog[..|catalog| - 1], f) + (if Passes(f, last) then [last] else [])
  }

  /** Python's slice `s[:n]`: the first `n` elements, or all of them when there are fewer. */
  function Take<T>(s: seq<T>, n: nat): seq<T>
  {
    if |s| <= n then s else s[..n]
  }

  /** What `search_products` returns, before JSON serialisation. */
  function Search(catalog: seq<Product>, f: Filters): seq<Product>
  {
    Take(Matching(catalog, f), ResultLimit)
  }

  /**
   * The search loop as the source runs it: each filter is tested in turn and a
   * failing one skips the product; survivors are appended; the list is then cut
   * to its first two elements.
   */
  method SearchProducts(catalog: seq<Product>, f: Filters) returns (result: seq<Product>)
    ensures result == Search(catalog, f)
    ensures |result| <= ResultLimit
  {
    var filtered: seq<Product> := [];
    for i := 0 to |catalog|
      invariant filtered == Matching(catalog[..i], f)
    {
      var product := catalog[i];
      assert catalog[..i + 1][..i] == catalog[..i];
      if f.description.Some? && f.description.value != []
         && !Contains(Lower(product.description), Lower(f.description.value)) {
        continue;
      }
      if f.minPrice.Some? && product.unitPrice < f.minPrice.value {
        continue;
      }
      if f.maxPrice.Some? && product.unitPrice > f.maxPrice.value {
        continue;
      }
      if f.quantity.Some? && product.quantity < f.quantity.value {
        continue;
      }
      filtered := filtered + [product];
    }
    assert catalog[..|catalog|] == catalog;
    result := Take(filtered, ResultLimit);
  }

  /** `a` can be obtained from `b` by deleting elements, so `a` keeps `b`'s order. */
  ghost predicate IsSubsequence<T>(a: seq<T>, b: seq<T>)
  {
    if a == [] then true
    else if b == [] then false
    else
      (a[|a| - 1] == b[|b| - 1] && IsSubsequence(a[..|a| - 1], b[..|b| - 1]))
      || IsSubsequence(a, b[..|b| - 1])
  }

  /** Every subsequence of a prefix of `b` is a subsequence of `b + [x]`. */
  lemma {:induction false} SubsequenceExtend<T>(a: seq<T>, b: seq<T>, x: T)
    requires IsSubsequence(a, b)
    ensures IsSubsequence(a, b + [x])
  {
    if a != [] {
      assert (b + [x])[..|b|] == b;
    }
  }

  /**
   * `Matching` is exactly the catalog's passing products in catalog order: each
   * of its elements passes and comes from the catalog, it is a subsequence of the
   * catalog, no passing product of the catalog is missing from it, and each
   * passing product occurs as many times as in the catalog (repeated records
   * are all kept).
   */
  lemma {:induction false} MatchingIsFilter(catalog: seq<Product>, f: Filters)
    ensures forall p :: p in Matching(catalog, f) ==> Passes(f, p) && p in catalog
    ensures forall p :: p in catalog && Passes(f, p) ==> p in Matching(catalog, f)
    ensures forall p :: multiset(Matching(catalog, f))[p] == if Passes(f, p) then multiset(catalog)[p] else 0
    ensures IsSubsequence(Matching(catalog, f), catalog)
    ensures |Matching(catalog, f)| <= |catalog|
  {
    if catalog != [] {
      var init, last := catalog[..|catalog| - 1], catalog[|catalog| - 1];
      assert catalog == init + [last];
      assert multiset(catalog) == multiset(init) + multiset{last};
      MatchingIsFilter(init, f);
      var m := Matching(init, f);
      if Passes(f, last) {
        assert (m + [last])[..|m|] == m;
        assert IsSubsequence(m + [last], catalog);
      } else {
        SubsequenceExtend(m, init, last);
        assert m + [] == m;
      }
    }
  }

  /**
   * Every product the search returns comes from the catalog and satisfies every
   * supplied filter; an absent filter (or an empty description) imposes nothing.
   */
  lemma SearchSound(catalog: seq<Product>, f: Filters, p: Product)
    requires p in Search(catalog, f)
    ensures p in catalog
    ensures f.description.Some? && f.description.value != [] ==>
              IsSubstring(Lower(f.description.value), Lower(p.description))
    ensures f.minPrice.Some? ==> p.unitPrice >= f.minPrice.value
    ensures f.maxPrice.Some? ==> p.unitPrice <= f.maxPrice.value
    ensures f.quantity.Some? ==> p.quantity >= f.quantity.value
  {
    MatchingIsFilter(catalog, f);
    if f.description.Some? {
      ContainsIsSubstring(Lower(p.description), Lower(f.description.value));
    }
  }

  /** The prefix of a subsequence is a subsequence. */
  lemma {:induction false} SubsequencePrefix<T>(a: seq<T>, b: seq<T>, n: nat)
    requires IsSubsequence(a, b) && n <= |a|
    ensures IsSubsequence(a[..n], b)
    decreases |a| + |b|
  {
    if n == |a| {
      assert a[..n] == a;
    } else if a[|a| - 1] == b[|b| - 1] && IsSubsequence(a[..|a| - 1], b[..|b| - 1]) {
      SubsequencePrefix(a[..|a| - 1], b[..|b| - 1], n);
      assert a[..|a| - 1][..n] == a[..n];
      SubsequenceExtend(a[..n], b[..|b| - 1], b[|b| - 1]);
      assert b[..|b| - 1] + [b[|b| - 1]] == b;
    } else {
      SubsequencePrefix(a, b[..|b| - 1], n);
      SubsequenceExtend(a[..n], b[..|b| - 1], b[|b| - 1]);
      assert b[..|b| - 1] + [b[|b| - 1]] == b;
    }
  }

  /** The search result keeps catalog order: it is a subsequence of the catalog. */
  lemma SearchKeepsCatalogOrder(catalog: seq<Product>, f: Filters)
    ensures IsSubsequence(Search(catalog, f), catalog)
  {
    MatchingIsFilter(catalog, f);
    var m := Matching(catalog, f);
    if |m| > ResultLimit {
      SubsequencePrefix(m, catalog, ResultLimit);
    }
  }

  /**
   * The search returns exactly the first `min(2, #matches)` matching products:
   * a prefix of the full list of matches, of that length.
   */
  lemma SearchIsFirstMatches(catalog: seq<Product>, f: Filters)
    ensures var m := Matching(catalog, f);
            var r := Search(catalog, f);
            |r| == (if |m| < ResultLimit then |m| else ResultLimit) && r == m[..|r|]
  {
  }

  /** Extending the catalog only appends to the list of matches. */
  lemma {:induction false} MatchingPrefix(catalog: seq<Product>, f: Filters, k: nat)
    requires k <= |catalog|
    ensures Matching(catalog[..k], f) <= Matching(catalog, f)
    decreases |catalog| - k
  {
    if k < |catalog| {
      var init := catalog[..|catalog| - 1];
      assert init[..k] == catalog[..k];
      MatchingPrefix(init, f, k);
    } else {
      assert catalog[..k] == catalog;
    }
  }

  /**
   * Products after the second match never influence the result: once a
   * catalog prefix already holds two matches, the search over the prefix and
   * over the whole catalog agree.
   */
  lemma SearchDecidedByFirstMatches(catalog: seq<Product>, f: Filters, k: nat)
    requires k <= |catalog|
    requires |Matching(catalog[..k], f)| >= ResultLimit
    ensures Search(catalog, f) == Search(catalog[..k], f)
  {
    MatchingPrefix(catalog, f, k);
  }

  /** With no filters every product passes. */
  lemma {:induction false} MatchingNoFilters(catalog: seq<Product>)
    ensures Matching(catalog, NoFilters) == catalog
  {
    if catalog != [] {
      MatchingNoFilters(catalog[..|catalog| - 1]);
      assert catalog[..|catalog| - 1] + [catalog[|catalog| - 1]] == catalog;
    }
  }

  /** A search with no filters returns the first two catalog entries. */
  lemma SearchNoFilters(catalog: seq<Product>)
    ensures Search(catalog, NoFilters) == Take(catalog, ResultLimit)
  {
    MatchingNoFilters(catalog);
  }

  /** An empty description string imposes nothing, exactly like an absent one. */
  lemma EmptyDescriptionImposesNothing(f: Filters, p: Product)
    ensures Passes(f.(description := Some("")), p) == Passes(f.(description := None), p)
  {
  }
}
