/** The search results page's client-side refinement: a filter over brand
    and a price range, and the list of distinct brands offered. */
module Search {
  import opened Wrappers

  datatype Product = Product(id: string, name: string, brand: string, price: int)

  /** The three refinement inputs. An empty brand and an absent bound do
      not filter. */
  datatype Filter = Filter(brand: string, minPrice: Option<int>, maxPrice: Option<int>)

  predicate Matches(f: Filter, p: Product) {
    && (f.brand == "" || p.brand == f.brand)
    && (f.minPrice.None? || p.price >= f.minPrice.value)
    && (f.maxPrice.None? || p.price <= f.maxPrice.value)
  }

  /** `getFilteredProducts`: the products that match, in their order. */
  function FilterProducts(products: seq<Product>, f: Filter): (r: seq<Product>)
    ensures |r| <= |products|
  {
    if products == [] then []
    else (if Matches(f, products[0]) then [products[0]] else []) + FilterProducts(products[1..], f)
  }

  /** `a` is `b` with some elements left out and the rest kept in order. */
  predicate Subsequence<T(==)>(a: seq<T>, b: seq<T>)
    decreases |b|
  {
    if a == [] then true
    else if b == [] then false
    else (a[0] == b[0] && Subsequence(a[1..], b[1..])) || Subsequence(a, b[1..])
  }

  /** A product is in the result exactly when it is one of the products and
      its brand, lower bound and upper bound all pass. */
  lemma {:induction false} FilterMembership(products: seq<Product>, f: Filter, p: Product)
    ensures p in FilterProducts(products, f) <==>
      && p in products
      && (f.brand == "" || p.brand == f.brand)
      && (f.minPrice.None? || p.price >= f.minPrice.value)
      && (f.maxPrice.None? || p.price <= f.maxPrice.value)
  {
    if products != [] {
      FilterMembership(products[1..], f, p);
      assert products == [products[0]] + products[1..];
    }
  }

  /** The result keeps the order of the products. */
  lemma {:induction false} FilterIsSubsequence(products: seq<Product>, f: Filter)
    ensures Subsequence(FilterProducts(products, f), products)
  {
    if products != [] {
      var rest := FilterProducts(products[1..], f);
      FilterIsSubsequence(products[1..], f);
      if Matches(f, products[0]) {
        assert FilterProducts(products, f) == [products[0]] + rest;
        assert ([products[0]] + rest)[1..] == rest;
      } else {
        assert FilterProducts(products, f) == rest;
      }
    }
  }

  /** Filtering a concatenation filters each part. */
  lemma {:induction false} FilterAppend(a: seq<Product>, b: seq<Product>, f: Filter)
    ensures FilterProducts(a + b, f) == FilterProducts(a, f) + FilterProducts(b, f)
  {
    if a == [] {
      assert a + b == b;
    } else {
      var ab := a + b;
      assert ab[0] == a[0] && ab[1..] == a[1..] + b;
      FilterAppend(a[1..], b, f);
      var rest, fb := FilterProducts(a[1..], f), FilterProducts(b, f);
      if Matches(f, a[0]) {
        assert FilterProducts(ab, f) == [a[0]] + (rest + fb);
        assert FilterProducts(a, f) == [a[0]] + rest;
        assert [a[0]] + (rest + fb) == ([a[0]] + rest) + fb;
      } else {
        assert FilterProducts(ab, f) == [] + (rest + fb);
        assert FilterProducts(a, f) == [] + rest;
      }
    }
  }

  /** With no brand and no bounds every product is kept. */
  lemma {:induction false} FilterNoRefinement(products: seq<Product>)
    ensures FilterProducts(products, Filter("", None, None)) == products
  {
    if products != [] {
      FilterNoRefinement(products[1..]);
      assert products == [products[0]] + products[1..];
    }
  }

  /** An inverted price range keeps nothing. */
  lemma {:induction false} FilterEmptyRange(products: seq<Product>, f: Filter)
    requires f.minPrice.Some? && f.maxPrice.Some? && f.minPrice.value > f.maxPrice.value
    ensures FilterProducts(products, f) == []
  {
    if products != [] {
      FilterEmptyRange(products[1..], f);
    }
  }

  /** With a brand chosen, every result has that brand. */
  lemma FilterKeepsBrand(products: seq<Product>, f: Filter)
    requires f.brand != ""
    ensures forall i :: 0 <= i < |FilterProducts(products, f)| ==> FilterProducts(products, f)[i].brand == f.brand
  {
    var r := FilterProducts(products, f);
    forall i | 0 <= i < |r| ensures r[i].brand == f.brand {
      FilterMembership(products, f, r[i]);
    }
  }

  /** The brand of every product, in order. */
  function BrandsOf(products: seq<Product>): (r: seq<string>)
    ensures |r| == |products| && forall i :: 0 <= i < |r| ==> r[i] == products[i].brand
  {
    if products == [] then [] else BrandsOf(products[..|products| - 1]) + [products[|products| - 1].brand]
  }

  /** The position of the first occurrence of `x`. */
  function FirstIndex(s: seq<string>, x: string): (r: nat)
    requires x in s
    ensures r < |s| && s[r] == x
    ensures forall k :: 0 <= k < r ==> s[k] != x
  {
    if s[0] == x then 0 else 1 + FirstIndex(s[1..], x)
  }

  /** `Array.from(new Set(s))`: the strings of `s`, each once. */
  function Distinct(s: seq<string>): (r: seq<string>)
    ensures forall x :: x in r <==> x in s
    ensures forall i, j :: 0 <= i < j < |r| ==> r[i] != r[j]
  {
    if s == [] then []
    else
      var seen := Distinct(s[..|s| - 1]);
      assert forall x :: x in s <==> x in s[..|s| - 1] || x == s[|s| - 1] by {
        assert s == s[..|s| - 1] + [s[|s| - 1]];
      }
      if s[|s| - 1] in seen then seen else seen + [s[|s| - 1]]
  }

  /** In a prefix that already holds `x`, the first occurrence is the same. */
  lemma FirstIndexPrefix(s: seq<string>, n: nat, x: string)
    requires n <= |s| && x in s[..n]
    ensures FirstIndex(s, x) == FirstIndex(s[..n], x)
  {
    var k := FirstIndex(s[..n], x);
    var k' := FirstIndex(s, x);
    assert s[k] == s[..n][k];
    assert forall j :: 0 <= j < n ==> s[..n][j] == s[j];
  }

  /** The distinct strings come in the order of their first occurrences. */
  lemma {:induction false} DistinctFirstOccurrenceOrder(s: seq<string>)
    ensures forall i, j :: 0 <= i < j < |Distinct(s)| ==> FirstIndex(s, Distinct(s)[i]) < FirstIndex(s, Distinct(s)[j])
  {
    if s != [] {
      var n := |s| - 1;
      var init := s[..n];
      var seen := Distinct(init);
      DistinctFirstOccurrenceOrder(init);
      forall x | x in seen ensures FirstIndex(s, x) == FirstIndex(init, x) {
        assert s[..n] == init;
        FirstIndexPrefix(s, n, x);
      }
      var r := Distinct(s);
      if s[n] in seen {
        assert r == seen;
      } else {
        assert s[n] !in init;
        assert FirstIndex(s, s[n]) == n;
        assert r == seen + [s[n]];
      }
      forall i, j | 0 <= i < j < |r| ensures FirstIndex(s, r[i]) < FirstIndex(s, r[j]) {
        assert r[i] == seen[i] && FirstIndex(init, seen[i]) < |init|;
        if j < |seen| {
          assert r[j] == seen[j];
        }
      }
    }
  }

  /** `availableBrands`: each brand of the products once, in the order of
      first occurrence. */
  function AvailableBrands(products: seq<Product>): (r: seq<string>)
    ensures forall b :: b in r <==> exists i :: 0 <= i < |products| && products[i].brand == b
    ensures forall i, j :: 0 <= i < j < |r| ==> r[i] != r[j]
    ensures forall b :: b in r ==> b in BrandsOf(products)
    ensures forall i, j :: 0 <= i < j < |r| ==> FirstIndex(BrandsOf(products), r[i]) < FirstIndex(BrandsOf(products), r[j])
  {
    var brands := BrandsOf(products);
    DistinctFirstOccurrenceOrder(brands);
    assert forall b :: b in brands <==> exists i :: 0 <= i < |products| && products[i].brand == b by {
      forall b | b in brands ensures exists i :: 0 <= i < |products| && products[i].brand == b {
        var i :| 0 <= i < |brands| && brands[i] == b;
        assert products[i].brand == b;
      }
      forall b | exists i :: 0 <= i < |products| && products[i].brand == b ensures b in brands {
        var i :| 0 <= i < |products| && products[i].brand == b;
        assert brands[i] == b;
      }
    }
    Distinct(brands)
  }
}
