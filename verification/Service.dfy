/**
 * The aggregation service (app/service.py): ask vendors A and B for a SKU,
 * normalise what comes back with the legacy normaliser, drop what failed, and
 * let the legacy selector decide. The two calls run concurrently in the
 * source; here each vendor's outcome is an input and the results are kept in
 * argument order [A, B], as `asyncio.gather` does.
 */
module Service {
  import opened Wrappers
  import opened Models
  import opened Selection
  import LegacyNormalizer

  /** What a vendor call did: raised, reported "not found", or returned a record. */
  datatype VendorOutcome<R> = Raised(error: string) | NotFound | Responded(response: R)

  /** `_fetch_from_vendor_a`: an exception or a miss becomes `None`; a record is normalised. */
  function FetchFromVendorA(outcome: VendorOutcome<VendorAResponse>): (r: Option<NormalizedProduct>)
    ensures !outcome.Responded? ==> r.None?
    ensures outcome.Responded? ==> r == LegacyNormalizer.NormalizeVendorA(outcome.response)
  {
    match outcome
    case Raised(_) => None
    case NotFound => None
    case Responded(response) => LegacyNormalizer.NormalizeVendorA(response)
  }

  /** `_fetch_from_vendor_b`: the same, for vendor B. */
  function FetchFromVendorB(outcome: VendorOutcome<VendorBResponse>, conv: Conversions): (r: Option<NormalizedProduct>)
    ensures !outcome.Responded? ==> r.None?
    ensures outcome.Responded? ==> r == LegacyNormalizer.NormalizeVendorB(outcome.response, conv)
  {
    match outcome
    case Raised(_) => None
    case NotFound => None
    case Responded(response) => LegacyNormalizer.NormalizeVendorB(response, conv)
  }

  /** `[product for product in vendor_results if product is not None]`. */
  function Present(results: seq<Option<NormalizedProduct>>): (r: seq<NormalizedProduct>)
    ensures |r| <= |results|
    ensures forall p :: p in r <==> Some(p) in results
  {
    if results == [] then []
    else (if results[0].Some? then [results[0].value] else []) + Present(results[1..])
  }

  /** Dropping the `None`s keeps the order: the survivors of `a + b` are those of `a`, then those of `b`. */
  lemma {:induction false} PresentAppend(a: seq<Option<NormalizedProduct>>, b: seq<Option<NormalizedProduct>>)
    ensures Present(a + b) == Present(a) + Present(b)
    decreases |a|
  {
    if a == [] {
      assert a + b == b;
    } else {
      assert (a + b)[0] == a[0] && (a + b)[1..] == a[1..] + b;
      PresentAppend(a[1..], b);
    }
  }

  /** The surviving products of one lookup, vendor A's first. */
  function Survivors(a: VendorOutcome<VendorAResponse>, b: VendorOutcome<VendorBResponse>,
                     conv: Conversions): seq<NormalizedProduct>
  {
    Present([FetchFromVendorA(a), FetchFromVendorB(b, conv)])
  }

  /**
   * `get_product`: never fails, whatever the vendors did; `None` exactly when
   * no surviving product is in stock; otherwise the legacy selector's choice
   * over the survivors in order [A, B].
   */
  function GetProduct(a: VendorOutcome<VendorAResponse>, b: VendorOutcome<VendorBResponse>,
                      conv: Conversions): (r: Option<NormalizedProduct>)
    ensures r.None? <==> forall p :: p in Survivors(a, b, conv) ==> p.stock <= 0
    ensures r.Some? ==> r.value in Survivors(a, b, conv) && r.value.stock > 0
    ensures r.Some? ==> forall p :: p in Survivors(a, b, conv) && p.stock > 0 ==> r.value.price <= p.price
  {
    LegacyNormalizer.SelectBestVendor(Survivors(a, b, conv))
  }

  /** With both vendors failing or missing, the lookup is out of stock. */
  lemma NoVendorNoProduct(a: VendorOutcome<VendorAResponse>, b: VendorOutcome<VendorBResponse>, conv: Conversions)
    requires !a.Responded? && !b.Responded?
    ensures GetProduct(a, b, conv).None?
  {
  }

  /**
   * When both vendors offer an in-stock product at the same price, vendor A's
   * wins: the selector takes the first cheapest and A comes first.
   */
  lemma {:induction false} EqualPriceFavoursVendorA(a: VendorOutcome<VendorAResponse>, b: VendorOutcome<VendorBResponse>,
                                                    conv: Conversions)
    requires FetchFromVendorA(a).Some? && FetchFromVendorA(a).value.stock > 0
    requires FetchFromVendorB(b, conv).Some? && FetchFromVendorB(b, conv).value.stock > 0
    requires FetchFromVendorA(a).value.price == FetchFromVendorB(b, conv).value.price
    ensures GetProduct(a, b, conv) == FetchFromVendorA(a)
  {
    var pa, pb := FetchFromVendorA(a).value, FetchFromVendorB(b, conv).value;
    assert Present([FetchFromVendorA(a), FetchFromVendorB(b, conv)]) == [pa, pb] by {
      assert [FetchFromVendorA(a), FetchFromVendorB(b, conv)][1..] == [FetchFromVendorB(b, conv)];
    }
    assert InStock([pa, pb]) == [pa, pb] by {
      assert [pa, pb][1..] == [pb];
    }
    assert FirstMinPriceIndex([pa, pb]) == 0;
  }
}
