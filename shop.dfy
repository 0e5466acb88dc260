/** The shop page: the active category and the products shown for it. */
module Shop {
  import opened Types

  /** The tab value that shows every product. */
  const All := "all"

  /** `searchParams.get("category") || "all"`: a missing or empty parameter selects every product. */
  function InitialCategory(param: Option<string>): (c: string)
    ensures c != ""
    ensures !Truthy(param) ==> c == All
    ensures Truthy(param) ==> c == param.value
  {
    if Truthy(param) then param.value else All
  }

  /** `products.filter(p => p.category === c)`, from index `from` on. */
  function FilterFrom(products: seq<Product>, c: string, from: nat): (r: seq<Product>)
    requires from <= |products|
    ensures |r| <= |products| - from
    decreases |products| - from
  {
    if from == |products| then []
    else (if products[from].category == c then [products[from]] else []) + FilterFrom(products, c, from + 1)
  }

  /**
   * The indices from `from` on whose product has category `c`: strictly
   * increasing, and exactly those indices.
   */
  function MatchingIndices(products: seq<Product>, c: string, from: nat): (idx: seq<nat>)
    requires from <= |products|
    ensures forall k :: 0 <= k < |idx| ==> from <= idx[k] < |products|
    ensures forall k, l :: 0 <= k < l < |idx| ==> idx[k] < idx[l]
    ensures forall i :: from <= i < |products| ==> (i in idx <==> products[i].category == c)
    decreases |products| - from
  {
    if from == |products| then []
    else (if products[from].category == c then [from] else []) + MatchingIndices(products, c, from + 1)
  }

  /** The filtered list is the products read at the matching indices. */
  lemma {:induction false} FilterAtIndices(products: seq<Product>, c: string, from: nat)
    requires from <= |products|
    ensures |MatchingIndices(products, c, from)| == |FilterFrom(products, c, from)|
    ensures forall k :: 0 <= k < |MatchingIndices(products, c, from)| ==>
              FilterFrom(products, c, from)[k] == products[MatchingIndices(products, c, from)[k]]
    decreases |products| - from
  {
    if from < |products| {
      FilterAtIndices(products, c, from + 1);
    }
  }

  /** A product is kept exactly when it is in the list and has the category. */
  lemma FilterMembership(products: seq<Product>, c: string)
    ensures forall p :: p in FilterFrom(products, c, 0) <==> p in products && p.category == c
  {
    FilterAtIndices(products, c, 0);
    var r, idx := FilterFrom(products, c, 0), MatchingIndices(products, c, 0);
    forall p ensures p in r <==> p in products && p.category == c {
      if p in r {
        var k :| 0 <= k < |r| && r[k] == p;
        assert products[idx[k]] == p && idx[k] in idx;
      }
      if p in products && p.category == c {
        var i :| 0 <= i < |products| && products[i] == p;
        assert i in idx;
        var k :| 0 <= k < |idx| && idx[k] == i;
        assert r[k] == p;
      }
    }
  }

  /** `filteredProducts`. */
  function FilteredProducts(products: seq<Product>, active: string): (r: seq<Product>)
    ensures active == All ==> r == products
    ensures |r| <= |products|
    ensures active != All ==> forall p :: p in r <==> p in products && p.category == active
  {
    if active == All then products
    else
      FilterMembership(products, active);
      FilterFrom(products, active, 0)
  }

  /**
   * With a category other than "all", the shown list is the products of that
   * category in their original order: it is `products` read at a strictly
   * increasing sequence of indices, and those indices are exactly the ones
   * whose product has the category.
   */
  lemma FilterKeepsOrder(products: seq<Product>, active: string)
    requires active != All
    ensures exists idx: seq<nat> ::
      && |idx| == |FilteredProducts(products, active)|
      && (forall k :: 0 <= k < |idx| ==> idx[k] < |products| && FilteredProducts(products, active)[k] == products[idx[k]])
      && (forall k, l :: 0 <= k < l < |idx| ==> idx[k] < idx[l])
      && (forall i :: 0 <= i < |products| ==> (i in idx <==> products[i].category == active))
  {
    FilterAtIndices(products, active, 0);
    var idx := MatchingIndices(products, active, 0);
    assert |idx| == |FilteredProducts(products, active)|;
  }
}
