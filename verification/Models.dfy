/**
 * Record types of the product service (app/models.py).
 *
 * Timestamps are whole seconds since the Unix epoch (UTC); prices are reals.
 */
module Models {
  import opened Wrappers

  type Timestamp = int

  /** A price that passed `NormalizedProduct.validate_price`: strictly positive. */
  type Price = r: real | r > 0.0 witness 1.0

  /** Vendor A: integer inventory (may be null), float price, status text, parsed timestamp. */
  datatype VendorAResponse = VendorAResponse(
    productCode: string,
    inventoryCount: Option<int> := None,
    unitPrice: real,
    availabilityStatus: string,
    lastUpdated: Timestamp)

  /** Vendor B: integer stock level (may be null), price as text, boolean flag, ISO timestamp text. */
  datatype VendorBResponse = VendorBResponse(
    sku: string,
    stockLevel: Option<int> := None,
    priceUsd: string,
    inStock: bool,
    updatedAt: string)

  /** Vendor C: quantity as text (may be null), float cost, "yes"/"no" text, ISO timestamp text. */
  datatype VendorCResponse = VendorCResponse(
    id: string,
    qty: Option<string> := None,
    cost: real,
    available: string,
    updatedAt: string)

  /**
   * The unified record. `sourceTimestamp` is `None` only for records built by the
   * legacy normaliser, which never supplies one.
   */
  datatype NormalizedProduct = NormalizedProduct(
    sku: string,
    vendorName: string,
    price: Price,
    stock: int,
    sourceTimestamp: Option<Timestamp>,
    isValid: bool := true)

  /** The two values of the response's `status` literal. */
  datatype Status = Available | OutOfStock {
    function Text(): (t: string)
      ensures t == "AVAILABLE" || t == "OUT_OF_STOCK"
      ensures (t == "AVAILABLE") <==> Available?
    {
      match this
      case Available => "AVAILABLE"
      case OutOfStock => "OUT_OF_STOCK"
    }
  }

  /** Body of GET /products/{sku}; `timestamp` is the creation time (utcnow). */
  datatype ProductResponse = ProductResponse(
    sku: string,
    vendor: Option<string> := None,
    price: Option<real> := None,
    stock: Option<int> := None,
    status: Status,
    timestamp: Timestamp)

  /**
   * Python's own text conversions, which the model does not reproduce: `float(s)`,
   * `int(s)` and `datetime.fromisoformat(s)`. Each yields `None` where Python raises.
   */
  datatype Conversions = Conversions(
    toFloat: string -> Option<real>,
    toInt: string -> Option<int>,
    fromIsoFormat: string -> Option<Timestamp>)

  const PriceError: string := "Price must be greater than 0"

  /** The `price` field validator: rejects every price that is not above zero. */
  function ValidatePrice(v: real): (r: Result<Price>)
    ensures r.Ok? <==> v > 0.0
    ensures r.Ok? ==> r.value == v
    ensures r.Err? ==> r.error == PriceError
  {
    if v <= 0.0 then Err(PriceError) else Ok(v)
  }

  /** `NormalizedProduct(...)`: construction fails exactly when the price validator does. */
  function NewProduct(sku: string, vendorName: string, price: real, stock: int,
                      sourceTimestamp: Option<Timestamp>): (r: Result<NormalizedProduct>)
    ensures r.Ok? <==> price > 0.0
    ensures r.Err? ==> r.error == PriceError
    ensures r.Ok? ==> r.value.sku == sku && r.value.vendorName == vendorName
                      && r.value.price == price && r.value.stock == stock
                      && r.value.sourceTimestamp == sourceTimestamp && r.value.isValid
  {
    match ValidatePrice(price)
    case Err(e) => Err(e)
    case Ok(p) => Ok(NormalizedProduct(sku, vendorName, p, stock, sourceTimestamp))
  }
}
