/**
 * The list operations both `select_best_vendor` variants are built from:
 * the in-stock comprehension and Python's `min`/`max` with a key, which
 * return the FIRST element whose key is extremal.
 */
module Selection {
  import opened Models

  /** `[p for p in products if p.stock > 0]`. */
  function InStock(products: seq<NormalizedProduct>): (r: seq<NormalizedProduct>)
    ensures |r| <= |products|
    ensures forall p :: p in r <==> p in products && p.stock > 0
  {
    if products == [] then []
    else (if products[0].stock > 0 then [products[0]] else []) + InStock(products[1..])
  }

  /** The comprehension keeps input order: filtering a concatenation filters each part. */
  lemma {:induction false} InStockAppend(a: seq<NormalizedProduct>, b: seq<NormalizedProduct>)
    ensures InStock(a + b) == InStock(a) + InStock(b)
  {
    if a == [] {
      assert a + b == b;
    } else {
      assert (a + b)[1..] == a[1..] + b;
      InStockAppend(a[1..], b);
    }
  }

  /** Index of `min(s, key=lambda p: p.price)`: a cheapest element, the first one on ties. */
  function FirstMinPriceIndex(s: seq<NormalizedProduct>): (i: nat)
    requires |s| > 0
    ensures i < |s|
    ensures forall j :: 0 <= j < |s| ==> s[i].price <= s[j].price
    ensures forall j :: 0 <= j < i ==> s[j].price > s[i].price
  {
    if |s| == 1 then 0
    else
      var k := FirstMinPriceIndex(s[1..]) + 1;
      if s[0].price <= s[k].price then 0 else k
  }

  /** Index of `max(s, key=lambda p: p.stock)`: a best-stocked element, the first one on ties. */
  function FirstMaxStockIndex(s: seq<NormalizedProduct>): (i: nat)
    requires |s| > 0
    ensures i < |s|
    ensures forall j :: 0 <= j < |s| ==> s[j].stock <= s[i].stock
    ensures forall j :: 0 <= j < i ==> s[j].stock < s[i].stock
  {
    if |s| == 1 then 0
    else
      var k := FirstMaxStockIndex(s[1..]) + 1;
      if s[0].stock >= s[k].stock then 0 else k
  }

  /** `min(p.price for p in s)`. */
  function MinPrice(s: seq<NormalizedProduct>): (m: Price)
    requires |s| > 0
    ensures exists i :: 0 <= i < |s| && s[i].price == m
    ensures forall j :: 0 <= j < |s| ==> m <= s[j].price
  {
    s[FirstMinPriceIndex(s)].price
  }

  /** `max(p.price for p in s)`. */
  function MaxPrice(s: seq<NormalizedProduct>): (m: Price)
    requires |s| > 0
    ensures exists i :: 0 <= i < |s| && s[i].price == m
    ensures forall j :: 0 <= j < |s| ==> s[j].price <= m
  {
    if |s| == 1 then s[0].price
    else
      var rest := MaxPrice(s[1..]);
      assert forall j :: 1 <= j < |s| ==> s[j] == s[1..][j - 1];
      if s[0].price >= rest then s[0].price else rest
  }
}
