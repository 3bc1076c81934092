/**
 * The product view (app/views/product_view.py): turns the controller's
 * result into the response body. The response's creation time (`utcnow`) is a
 * parameter.
 */
module ProductView {
  import opened Wrappers
  import opened Models
  import Service

  /**
   * `render`: the requested SKU is echoed (never the product's own); with a
   * product the status is AVAILABLE and vendor, price and stock are the
   * product's; without one it is OUT_OF_STOCK and those three are empty.
   */
  function Render(sku: string, product: Option<NormalizedProduct>, now: Timestamp): (r: ProductResponse)
    ensures r.sku == sku && r.timestamp == now
    ensures r.status == Available <==> product.Some?
    ensures product.None? ==> r.vendor.None? && r.price.None? && r.stock.None?
    ensures product.Some? ==>
      && r.vendor == Some(product.value.vendorName)
      && r.price == Some(product.value.price as real) && r.stock == Some(product.value.stock)
  {
    match product
    case None => ProductResponse(sku := sku, status := OutOfStock, timestamp := now)
    case Some(p) =>
      ProductResponse(sku := sku, vendor := Some(p.vendorName), price := Some(p.price as real),
                      stock := Some(p.stock), status := Available, timestamp := now)
  }

  /**
   * Along the request path (vendors, selection, rendering), a response says
   * AVAILABLE exactly when some vendor reported the product in stock, and then
   * it carries a positive price and a positive stock.
   */
  lemma AvailableMeansInStock(a: Service.VendorOutcome<VendorAResponse>, b: Service.VendorOutcome<VendorBResponse>,
                              conv: Conversions, sku: string, now: Timestamp)
    ensures var r := Render(sku, Service.GetProduct(a, b, conv), now);
      && (r.status == Available <==> exists p :: p in Service.Survivors(a, b, conv) && p.stock > 0)
      && (r.status == Available ==> r.price.value > 0.0 && r.stock.value > 0)
  {
  }
}
