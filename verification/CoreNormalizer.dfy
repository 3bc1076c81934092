/**
 * The current vendor normaliser (app/core/normalizer.py): three per-vendor
 * normalisers that discard stale, badly timestamped or non-positively priced
 * records, and the best-vendor selector with its 10% price-spread rule.
 */
module CoreNormalizer {
  import opened Wrappers
  import opened Models
  import opened Selection

  /** Records older than ten minutes are stale. */
  const StalenessWindow: int := 10 * 60

  /** Stock assumed when a vendor reports no count but says the item is available. */
  const AssumedStock: int := 5

  /** `_is_fresh`: the record is at most ten minutes old (exactly ten still counts). */
  function IsFresh(timestamp: Timestamp, now: Timestamp): (recent: bool)
    ensures recent <==> now - timestamp <= 600
  {
    timestamp >= now - StalenessWindow
  }

  /**
   * Stock rule shared by vendors A and B: a reported count is clamped at zero;
   * a missing count becomes 5 when the vendor flags the item available, else 0.
   */
  function FlaggedStock(count: Option<int>, availableFlag: bool): (stock: int)
    ensures stock >= 0
    ensures count.Some? && count.value >= 0 ==> stock == count.value
    ensures count.Some? && count.value < 0 ==> stock == 0
    ensures count.None? ==> (stock == AssumedStock <==> availableFlag)
    ensures count.None? && !availableFlag ==> stock == 0
  {
    match count
    case None => if availableFlag then AssumedStock else 0
    case Some(n) => if n > 0 then n else 0
  }

  /** Vendor A's availability flag: the status text is exactly "IN_STOCK". */
  predicate VendorAInStock(status: string) {
    status == "IN_STOCK"
  }

  /** Python's `str.lower()` restricted to ASCII letters. */
  function LowerChar(c: char): (d: char)
    ensures 'A' <= c <= 'Z' ==> d as int == c as int + 32
    ensures !('A' <= c <= 'Z') ==> d == c
  {
    if 'A' <= c <= 'Z' then (c as int + 32) as char else c
  }

  /**
   * `str.lower()` on ASCII text: no upper-case letter is left, and each
   * character either stays as it is or is an upper-case letter turned into
   * its lower-case form.
   */
  function Lower(s: string): (t: string)
    ensures |t| == |s|
    ensures forall i :: 0 <= i < |t| ==> !('A' <= t[i] <= 'Z')
    ensures forall i :: 0 <= i < |s| ==> t[i] == s[i] || ('A' <= s[i] <= 'Z' && t[i] as int == s[i] as int + 32)
  {
    seq(|s|, i requires 0 <= i < |s| => LowerChar(s[i]))
  }

  /** Lowering twice is lowering once, and text without upper-case letters is left unchanged. */
  lemma {:induction false} LowerIdempotent(s: string)
    ensures Lower(Lower(s)) == Lower(s)
    ensures (forall i :: 0 <= i < |s| ==> !('A' <= s[i] <= 'Z')) ==> Lower(s) == s
  {
    var t := Lower(s);
    assert forall i :: 0 <= i < |t| ==> Lower(t)[i] == t[i];
    if forall i :: 0 <= i < |s| ==> !('A' <= s[i] <= 'Z') {
      assert forall i :: 0 <= i < |s| ==> t[i] == s[i];
    }
  }

  /** `available.lower() == "no"` holds for exactly the four casings of "no". */
  lemma LowerIsNo(s: string)
    ensures Lower(s) == "no" <==> s in {"no", "No", "nO", "NO"}
  {
    if Lower(s) == "no" {
      assert |s| == 2;
      assert LowerChar(s[0]) == 'n' && LowerChar(s[1]) == 'o';
      assert s[0] == 'n' || s[0] == 'N';
      assert s[1] == 'o' || s[1] == 'O';
      assert s == [s[0], s[1]];
    }
  }

  /**
   * `stock = int(qty)` guarded by `if qty:`: an absent or empty text, or one
   * that `int()` rejects, leaves the stock at 0; a parsed value is kept as is.
   */
  function ParsedQty(qty: Option<string>, conv: Conversions): (stock: int)
    ensures qty.None? || qty == Some("") ==> stock == 0
    ensures qty.Some? && qty.value != "" && conv.toInt(qty.value).None? ==> stock == 0
    ensures qty.Some? && qty.value != "" && conv.toInt(qty.value).Some? ==> stock == conv.toInt(qty.value).value
  {
    match qty
    case None => 0
    case Some(text) => if text == "" then 0 else conv.toInt(text).GetOr(0)
  }

  /**
   * Vendor C stock: "no" (any casing) forces 0; a zero count with "yes" becomes 5;
   * otherwise the parsed count, NOT clamped at zero.
   */
  function VendorCStock(qty: Option<string>, available: string, conv: Conversions): (stock: int)
    ensures Lower(available) == "no" ==> stock == 0
    ensures Lower(available) != "no" && ParsedQty(qty, conv) == 0 && Lower(available) == "yes" ==> stock == AssumedStock
    ensures Lower(available) != "no" && ParsedQty(qty, conv) != 0 ==> stock == ParsedQty(qty, conv)
    ensures Lower(available) != "yes" && Lower(available) != "no" ==> stock == ParsedQty(qty, conv)
  {
    var parsed := ParsedQty(qty, conv);
    if Lower(available) == "no" then 0
    else if parsed == 0 && Lower(available) == "yes" then AssumedStock
    else parsed
  }

  /** `normalize_vendor_a`: freshness, then stock, then price validation. */
  function NormalizeVendorA(response: VendorAResponse, now: Timestamp): (r: Option<NormalizedProduct>)
    ensures r.Some? <==> IsFresh(response.lastUpdated, now) && response.unitPrice > 0.0
    ensures r.Some? ==>
      && r.value.sku == response.productCode
      && r.value.vendorName == "VendorA"
      && r.value.price == response.unitPrice
      && r.value.stock == FlaggedStock(response.inventoryCount, VendorAInStock(response.availabilityStatus))
      && r.value.sourceTimestamp == Some(response.lastUpdated)
      && r.value.isValid
  {
    if !IsFresh(response.lastUpdated, now) then None
    else
      var stock := FlaggedStock(response.inventoryCount, VendorAInStock(response.availabilityStatus));
      NewProduct(response.productCode, "VendorA", response.unitPrice, stock, Some(response.lastUpdated)).ToOption()
  }

  /**
   * `normalize_vendor_b`: an unparseable timestamp (its ValueError reaches the
   * outer handler), a stale one, or a price text that `float()` rejects or that
   * is not above zero each give `None`.
   */
  function NormalizeVendorB(response: VendorBResponse, now: Timestamp, conv: Conversions): (r: Option<NormalizedProduct>)
    ensures conv.fromIsoFormat(response.updatedAt).None? ==> r.None?
    ensures conv.toFloat(response.priceUsd).None? ==> r.None?
    ensures r.Some? <==>
      && conv.fromIsoFormat(response.updatedAt).Some?
      && IsFresh(conv.fromIsoFormat(response.updatedAt).value, now)
      && conv.toFloat(response.priceUsd).Some?
      && conv.toFloat(response.priceUsd).value > 0.0
    ensures r.Some? ==>
      && r.value.sku == response.sku
      && r.value.vendorName == "VendorB"
      && r.value.price == conv.toFloat(response.priceUsd).value
      && r.value.stock == FlaggedStock(response.stockLevel, response.inStock)
      && r.value.sourceTimestamp == conv.fromIsoFormat(response.updatedAt)
      && r.value.isValid
  {
    match conv.fromIsoFormat(response.updatedAt)
    case None => None
    case Some(timestamp) =>
      if !IsFresh(timestamp, now) then None
      else
        var stock := FlaggedStock(response.stockLevel, response.inStock);
        match conv.toFloat(response.priceUsd)
        case None => None
        case Some(price) => NewProduct(response.sku, "VendorB", price, stock, Some(timestamp)).ToOption()
  }

  /** `normalize_vendor_c`: timestamp parse, freshness, stock rule, price validation. */
  function NormalizeVendorC(response: VendorCResponse, now: Timestamp, conv: Conversions): (r: Option<NormalizedProduct>)
    ensures conv.fromIsoFormat(response.updatedAt).None? ==> r.None?
    ensures r.Some? <==>
      && conv.fromIsoFormat(response.updatedAt).Some?
      && IsFresh(conv.fromIsoFormat(response.updatedAt).value, now)
      && response.cost > 0.0
    ensures r.Some? ==>
      && r.value.sku == response.id
      && r.value.vendorName == "VendorC"
      && r.value.price == response.cost
      && r.value.stock == VendorCStock(response.qty, response.available, conv)
      && r.value.sourceTimestamp == conv.fromIsoFormat(response.updatedAt)
      && r.value.isValid
  {
    match conv.fromIsoFormat(response.updatedAt)
    case None => None
    case Some(timestamp) =>
      if !IsFresh(timestamp, now) then None
      else
        var stock := VendorCStock(response.qty, response.available, conv);
        NewProduct(response.id, "VendorC", response.cost, stock, Some(timestamp)).ToOption()
  }

  /** `price_diff_percentage > 10` with `((max - min) / min) * 100`. */
  predicate SpreadAboveTenPercent(minPrice: Price, maxPrice: real) {
    (maxPrice - minPrice) / minPrice * 100.0 > 10.0
  }

  /** The percentage test is the same as "the dearest costs over 1.1 times the cheapest". */
  lemma SpreadAboveTenPercentIff(minPrice: Price, maxPrice: real)
    ensures SpreadAboveTenPercent(minPrice, maxPrice) <==> 10.0 * maxPrice > 11.0 * minPrice
  {
    var q := (maxPrice - minPrice) / minPrice;
    assert q * minPrice == maxPrice - minPrice;
    if q * 100.0 > 10.0 {
      assert (q - 0.1) * minPrice > 0.0;
    } else {
      assert (0.1 - q) * minPrice >= 0.0;
    }
  }

  /**
   * The spread rule applies to the in-stock list `s`, stated without division
   * (equivalent to the percentage test by `SpreadAboveTenPercentIff`).
   */
  predicate WideSpread(s: seq<NormalizedProduct>) {
    |s| > 0 && 10.0 * MaxPrice(s) > 11.0 * MinPrice(s)
  }

  /**
   * Position of the winner in a non-empty in-stock list `c`: the first
   * best-stocked one under a wide spread, otherwise the first cheapest one.
   */
  function WinnerIndex(c: seq<NormalizedProduct>): (i: nat)
    requires |c| > 0
    ensures i < |c|
    ensures |c| == 1 ==> i == 0
    ensures WideSpread(c) ==> forall j :: 0 <= j < |c| ==> c[j].stock <= c[i].stock
    ensures WideSpread(c) ==> forall j :: 0 <= j < i ==> c[j].stock < c[i].stock
    ensures !WideSpread(c) ==> forall j :: 0 <= j < |c| ==> c[i].price <= c[j].price
    ensures !WideSpread(c) ==> forall j :: 0 <= j < i ==> c[j].price > c[i].price
  {
    SpreadAboveTenPercentIff(MinPrice(c), MaxPrice(c));
    if |c| == 1 then 0
    else if SpreadAboveTenPercent(MinPrice(c), MaxPrice(c)) then FirstMaxStockIndex(c)
    else FirstMinPriceIndex(c)
  }

  /**
   * `select_best_vendor`: `None` exactly when nothing is in stock; otherwise one
   * of the in-stock products (which one: the lemmas below).
   */
  function SelectBestVendor(products: seq<NormalizedProduct>): (r: Option<NormalizedProduct>)
    ensures r.None? <==> forall p :: p in products ==> p.stock <= 0
    ensures r.Some? ==> r.value in products && r.value.stock > 0
  {
    var candidates := InStock(products);
    if candidates == [] then
      None
    else
      var k := WinnerIndex(candidates);
      assert candidates[k] in candidates;
      Some(candidates[k])
  }

  /** The selector's choice is the in-stock product at the winning position. */
  lemma {:induction false} SelectPicksWinner(products: seq<NormalizedProduct>)
    requires InStock(products) != []
    ensures SelectBestVendor(products) == Some(InStock(products)[WinnerIndex(InStock(products))])
  {
  }

  /** A single in-stock product is returned as it is. */
  lemma {:induction false} SelectSingleInStock(products: seq<NormalizedProduct>)
    requires |InStock(products)| == 1
    ensures SelectBestVendor(products) == Some(InStock(products)[0])
  {
  }

  /**
   * Under a spread above 10% the winner has the most stock of all in-stock
   * products (which one among equals: `SelectWideSpreadFirstTie`).
   */
  lemma {:induction false} SelectWideSpread(products: seq<NormalizedProduct>)
    requires WideSpread(InStock(products))
    ensures SelectBestVendor(products).Some?
    ensures forall p :: p in products && p.stock > 0 ==> p.stock <= SelectBestVendor(products).value.stock
  {
    var c := InStock(products);
    SelectPicksWinner(products);
    MostStockedOfAll(products, c, c[WinnerIndex(c)]);
  }

  /**
   * Under a spread of at most 10% (exactly 10% included) the winner is the
   * cheapest in-stock product (which one among equals: `SelectNarrowSpreadFirstTie`).
   */
  lemma {:induction false} SelectNarrowSpread(products: seq<NormalizedProduct>)
    requires InStock(products) != [] && !WideSpread(InStock(products))
    ensures SelectBestVendor(products).Some?
    ensures forall p :: p in products && p.stock > 0 ==> SelectBestVendor(products).value.price <= p.price
  {
    var c := InStock(products);
    SelectPicksWinner(products);
    CheapestOfAll(products, c, c[WinnerIndex(c)]);
  }

  /** A product with at least the stock of every entry of `c` has at least that of every in-stock product. */
  lemma {:induction false} MostStockedOfAll(products: seq<NormalizedProduct>, c: seq<NormalizedProduct>, w: NormalizedProduct)
    requires forall p :: p in c <==> p in products && p.stock > 0
    requires forall j :: 0 <= j < |c| ==> c[j].stock <= w.stock
    ensures forall p :: p in products && p.stock > 0 ==> p.stock <= w.stock
  {
    forall p | p in products && p.stock > 0 ensures p.stock <= w.stock {
      var j :| 0 <= j < |c| && c[j] == p;
    }
  }

  /** A product no dearer than any entry of `c` is no dearer than any in-stock product. */
  lemma {:induction false} CheapestOfAll(products: seq<NormalizedProduct>, c: seq<NormalizedProduct>, w: NormalizedProduct)
    requires forall p :: p in c <==> p in products && p.stock > 0
    requires forall j :: 0 <= j < |c| ==> w.price <= c[j].price
    ensures forall p :: p in products && p.stock > 0 ==> w.price <= p.price
  {
    forall p | p in products && p.stock > 0 ensures w.price <= p.price {
      var j :| 0 <= j < |c| && c[j] == p;
    }
  }

  /** Position `k` of `r` in `c`, with strictly less stock everywhere before it, is a witness. */
  lemma EarliestByStock(c: seq<NormalizedProduct>, k: nat, r: Option<NormalizedProduct>)
    requires k < |c| && r == Some(c[k])
    requires forall j :: 0 <= j < k ==> c[j].stock < c[k].stock
    ensures exists i :: 0 <= i < |c| && Some(c[i]) == r && forall j :: 0 <= j < i ==> c[j].stock < c[i].stock
  {
  }

  /** Position `k` of `r` in `c`, with a strictly higher price everywhere before it, is a witness. */
  lemma EarliestByPrice(c: seq<NormalizedProduct>, k: nat, r: Option<NormalizedProduct>)
    requires k < |c| && r == Some(c[k])
    requires forall j :: 0 <= j < k ==> c[j].price > c[k].price
    ensures exists i :: 0 <= i < |c| && Some(c[i]) == r && forall j :: 0 <= j < i ==> c[j].price > c[i].price
  {
  }

  /** Under a spread above 10%, ties on stock go to the earliest in-stock product. */
  lemma {:induction false} SelectWideSpreadFirstTie(products: seq<NormalizedProduct>)
    requires WideSpread(InStock(products))
    ensures exists k :: 0 <= k < |InStock(products)| && Some(InStock(products)[k]) == SelectBestVendor(products) &&
                        forall j :: 0 <= j < k ==> InStock(products)[j].stock < InStock(products)[k].stock
  {
    var c := InStock(products);
    SelectPicksWinner(products);
    EarliestByStock(c, WinnerIndex(c), SelectBestVendor(products));
  }

  /** Under a spread of at most 10%, ties on price go to the earliest in-stock product. */
  lemma {:induction false} SelectNarrowSpreadFirstTie(products: seq<NormalizedProduct>)
    requires InStock(products) != [] && !WideSpread(InStock(products))
    ensures exists k :: 0 <= k < |InStock(products)| && Some(InStock(products)[k]) == SelectBestVendor(products) &&
                        forall j :: 0 <= j < k ==> InStock(products)[j].price > InStock(products)[k].price
  {
    var c := InStock(products);
    SelectPicksWinner(products);
    EarliestByPrice(c, WinnerIndex(c), SelectBestVendor(products));
  }
}

/** Worked decisions of the selector on concrete vendor records. */
module CoreNormalizerExamples {
  import opened Wrappers
  import opened Models
  import opened Selection
  import opened CoreNormalizer

  function Offer(vendor: string, price: Price, stock: int): NormalizedProduct {
    NormalizedProduct("SKU001", vendor, price, stock, Some(0))
  }

  /** Prices 100, 102 and 160 spread by 60%: the vendor holding 50 units wins over the cheapest. */
  lemma WideSpreadPrefersStock()
    ensures SelectBestVendor([Offer("VendorA", 100.0, 5), Offer("VendorB", 102.0, 3), Offer("VendorC", 160.0, 50)])
            == Some(Offer("VendorC", 160.0, 50))
  {
    var ps := [Offer("VendorA", 100.0, 5), Offer("VendorB", 102.0, 3), Offer("VendorC", 160.0, 50)];
    assert InStock(ps) == ps;
    assert MinPrice(ps) == 100.0;
    assert MaxPrice(ps) == 160.0;
    assert WideSpread(ps);
    SelectWideSpread(ps);
  }

  /** A spread of exactly 10% is not "above 10%": the cheaper vendor wins despite less stock. */
  lemma TenPercentSpreadPrefersPrice()
    ensures SelectBestVendor([Offer("VendorA", 110.0, 9), Offer("VendorB", 100.0, 1)])
            == Some(Offer("VendorB", 100.0, 1))
  {
    var ps := [Offer("VendorA", 110.0, 9), Offer("VendorB", 100.0, 1)];
    assert InStock(ps) == ps;
    assert MinPrice(ps) == 100.0;
    assert MaxPrice(ps) == 110.0;
    SelectNarrowSpread(ps);
  }

  /** Out-of-stock and negative-stock records are never chosen, whatever their price. */
  lemma NothingInStock()
    ensures SelectBestVendor([Offer("VendorA", 1.0, 0), Offer("VendorC", 2.0, -3)]) == None
  {
  }
}
