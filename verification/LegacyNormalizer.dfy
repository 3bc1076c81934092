/**
 * The older normaliser (app/normalizer.py), which the aggregation service
 * still uses: vendors A and B only, no freshness check, and a selector that
 * always takes the cheapest in-stock product. Its products carry no source
 * timestamp.
 */
module LegacyNormalizer {
  import opened Wrappers
  import opened Models
  import opened Selection
  import CoreNormalizer

  /** `normalize_vendor_a`: stock rule, then price validation; the timestamp is never read. */
  function NormalizeVendorA(response: VendorAResponse): (r: Option<NormalizedProduct>)
    ensures r.Some? <==> response.unitPrice > 0.0
    ensures r.Some? ==>
      && r.value.sku == response.productCode
      && r.value.vendorName == "VendorA"
      && r.value.price == response.unitPrice
      && r.value.sourceTimestamp.None?
      && r.value.isValid
    ensures r.Some? && response.inventoryCount.None? ==>
      r.value.stock == if response.availabilityStatus == "IN_STOCK" then 5 else 0
    ensures r.Some? && response.inventoryCount.Some? ==>
      r.value.stock == if response.inventoryCount.value > 0 then response.inventoryCount.value else 0
  {
    var stock := CoreNormalizer.FlaggedStock(response.inventoryCount,
                                             CoreNormalizer.VendorAInStock(response.availabilityStatus));
    NewProduct(response.productCode, "VendorA", response.unitPrice, stock, None).ToOption()
  }

  /** `normalize_vendor_b`: stock rule, `float()` on the price text, price validation. */
  function NormalizeVendorB(response: VendorBResponse, conv: Conversions): (r: Option<NormalizedProduct>)
    ensures conv.toFloat(response.priceUsd).None? ==> r.None?
    ensures r.Some? <==> conv.toFloat(response.priceUsd).Some? && conv.toFloat(response.priceUsd).value > 0.0
    ensures r.Some? ==>
      && r.value.sku == response.sku
      && r.value.vendorName == "VendorB"
      && r.value.price == conv.toFloat(response.priceUsd).value
      && r.value.sourceTimestamp.None?
      && r.value.isValid
    ensures r.Some? && response.stockLevel.None? ==>
      r.value.stock == if response.inStock then 5 else 0
    ensures r.Some? && response.stockLevel.Some? ==>
      r.value.stock == if response.stockLevel.value > 0 then response.stockLevel.value else 0
  {
    var stock := CoreNormalizer.FlaggedStock(response.stockLevel, response.inStock);
    match conv.toFloat(response.priceUsd)
    case None => None
    case Some(price) => NewProduct(response.sku, "VendorB", price, stock, None).ToOption()
  }

  /** Record age plays no part: any two timestamps give the same outcome. */
  lemma AgeNeverDiscards(a: VendorAResponse, b: VendorBResponse, conv: Conversions,
                         t: Timestamp, u: string)
    ensures NormalizeVendorA(a.(lastUpdated := t)) == NormalizeVendorA(a)
    ensures NormalizeVendorB(b.(updatedAt := u), conv) == NormalizeVendorB(b, conv)
  {
  }

  /**
   * `select_best_vendor`: `None` exactly when nothing is in stock, otherwise the
   * first in-stock product whose price no in-stock product undercuts.
   */
  function SelectBestVendor(products: seq<NormalizedProduct>): (r: Option<NormalizedProduct>)
    ensures r.None? <==> forall p :: p in products ==> p.stock <= 0
    ensures r.Some? ==> r.value in products && r.value.stock > 0
    ensures r.Some? ==> forall p :: p in products && p.stock > 0 ==> r.value.price <= p.price
    ensures r.Some? ==>
      exists k :: 0 <= k < |InStock(products)| && InStock(products)[k] == r.value &&
                  forall j :: 0 <= j < k ==> InStock(products)[j].price > r.value.price
  {
    var candidates := InStock(products);
    if candidates == [] then None
    else
      var k := FirstMinPriceIndex(candidates);
      assert candidates[k] in candidates;
      assert forall p :: p in products && p.stock > 0 ==> candidates[k].price <= p.price by {
        forall p | p in products && p.stock > 0 ensures candidates[k].price <= p.price {
          assert p in candidates;
          var j :| 0 <= j < |candidates| && candidates[j] == p;
        }
      }
      Some(candidates[k])
  }
}
