/**
 * The background job manager (app/tasks/jobs.py): request popularity
 * counters, per-vendor call tallies, the top-SKU ranking, the counting loop of
 * cache prewarming, and the periodic performance report followed by a reset.
 *
 * `request_stats` is a `defaultdict(int)`; a Python dict iterates in insertion
 * order, so it is modelled as the order in which SKUs were first tracked
 * (`requestOrder`) beside the counts (`requestCounts`).
 */
module Jobs {
  import opened Wrappers
  import opened Models
  import opened Ranking

  /** How many SKUs the prewarming job asks for. */
  const PrewarmLimit := 10

  /** The three preset vendor names, in the dict's insertion order. */
  const VendorNames: seq<string> := ["VendorA", "VendorB", "VendorC"]

  // ---------------------------------------------------------------------------
  // Request popularity
  // ---------------------------------------------------------------------------

  /** `counts[sku]` on a `defaultdict(int)`: a missing SKU reads as 0. */
  function Get(counts: map<string, int>, sku: string): int {
    if sku in counts then counts[sku] else 0
  }

  /**
   * The shape of `request_stats`: every SKU appears once in the order, the
   * order and the keys agree, and every tracked SKU was requested at least once.
   */
  ghost predicate RequestsWellFormed(order: seq<string>, counts: map<string, int>) {
    && NoDuplicates(order)
    && (forall s :: s in counts <==> s in order)
    && (forall s :: s in counts ==> counts[s] >= 1)
  }

  /** `request_stats[sku] += 1`: a new SKU is appended to the iteration order. */
  function TrackStep(order: seq<string>, counts: map<string, int>, sku: string)
    : (r: (seq<string>, map<string, int>))
    ensures Get(r.1, sku) == Get(counts, sku) + 1
    ensures forall s :: s != sku ==> Get(r.1, s) == Get(counts, s)
    ensures order <= r.0
    ensures RequestsWellFormed(order, counts) ==> RequestsWellFormed(r.0, r.1)
  {
    var order' := if sku in counts then order else order + [sku];
    var counts' := counts[sku := Get(counts, sku) + 1];
    assert RequestsWellFormed(order, counts) ==> RequestsWellFormed(order', counts') by {
      if RequestsWellFormed(order, counts) && sku !in counts {
        assert forall i :: 0 <= i < |order| ==> order'[i] == order[i];
      }
    }
    (order', counts')
  }

  /** Number of times `sku` occurs in `skus`. */
  function Occurrences(skus: seq<string>, sku: string): nat {
    if skus == [] then 0
    else Occurrences(skus[..|skus| - 1], sku) + (if skus[|skus| - 1] == sku then 1 else 0)
  }

  /** The statistics after tracking `skus`, one after another, on a fresh manager. */
  function TrackAll(skus: seq<string>): (seq<string>, map<string, int>) {
    if skus == [] then ([], map[])
    else
      var prev := TrackAll(skus[..|skus| - 1]);
      TrackStep(prev.0, prev.1, skus[|skus| - 1])
  }

  /**
   * The counters tally the requests: each SKU's count is the number of times
   * it was tracked, a SKU is a key exactly when it was tracked, and the
   * statistics stay well formed.
   */
  lemma {:induction false} TrackAllTallies(skus: seq<string>, sku: string)
    ensures Get(TrackAll(skus).1, sku) == Occurrences(skus, sku)
    ensures sku in TrackAll(skus).1 <==> sku in skus
    ensures RequestsWellFormed(TrackAll(skus).0, TrackAll(skus).1)
  {
    if skus != [] {
      var init := skus[..|skus| - 1];
      TrackAllTallies(init, sku);
      assert skus == init + [skus[|skus| - 1]];
    }
  }

  /** The ranking items, one per tracked SKU in first-tracked order. */
  function Entries(order: seq<string>, counts: map<string, int>): (r: seq<SkuCount>)
    requires forall s :: s in order ==> s in counts
    ensures |r| == |order|
    ensures forall i :: 0 <= i < |r| ==> r[i] == SkuCount(order[i], counts[order[i]])
  {
    seq(|order|, i requires 0 <= i < |order| => SkuCount(order[i], counts[order[i]]))
  }

  /** The SKU column of a ranking. */
  function Skus(items: seq<SkuCount>): (r: seq<string>)
    ensures |r| == |items|
    ensures forall i :: 0 <= i < |r| ==> r[i] == items[i].sku
  {
    seq(|items|, i requires 0 <= i < |items| => items[i].sku)
  }

  /** The ranking items are distinct, and each pairs a tracked SKU with its count. */
  lemma EntriesOfTracked(order: seq<string>, counts: map<string, int>)
    requires RequestsWellFormed(order, counts)
    ensures NoDuplicates(Entries(order, counts))
    ensures forall x :: x in Entries(order, counts) ==> x.sku in order && x == SkuCount(x.sku, counts[x.sku])
  {
    var entries := Entries(order, counts);
    forall i, j | 0 <= i < j < |entries| ensures entries[i] != entries[j] {
      assert entries[i].sku == order[i] && entries[j].sku == order[j];
    }
    forall x | x in entries ensures x.sku in order && x == SkuCount(x.sku, counts[x.sku]) {
      var k :| 0 <= k < |entries| && entries[k] == x;
      assert x.sku == order[k];
    }
  }

  /** The top SKUs are tracked SKUs, each listed once. */
  lemma TopSkusDistinct(order: seq<string>, counts: map<string, int>, limit: int)
    requires RequestsWellFormed(order, counts)
    ensures forall s :: s in Skus(TopEntries(Entries(order, counts), limit)) ==> s in counts
    ensures NoDuplicates(Skus(TopEntries(Entries(order, counts), limit)))
  {
    EntriesOfTracked(order, counts);
    var top := TopEntries(Entries(order, counts), limit);
    var r := Skus(top);
    forall s | s in r ensures s in counts {
      var i :| 0 <= i < |r| && r[i] == s;
      assert top[i] in top;
    }
    forall i, j | 0 <= i < j < |r| ensures r[i] != r[j] {
      assert top[i] in top && top[j] in top;
    }
  }

  /** The top SKUs come in non-increasing count order. */
  lemma TopSkusOrdered(order: seq<string>, counts: map<string, int>, limit: int)
    requires RequestsWellFormed(order, counts)
    ensures var r := Skus(TopEntries(Entries(order, counts), limit));
      forall i, j :: 0 <= i < j < |r| ==> r[i] in counts && r[j] in counts && counts[r[i]] >= counts[r[j]]
  {
    EntriesOfTracked(order, counts);
    var top := TopEntries(Entries(order, counts), limit);
    var r := Skus(top);
    forall i, j | 0 <= i < j < |r| ensures r[i] in counts && r[j] in counts && counts[r[i]] >= counts[r[j]] {
      assert top[i] in top && top[j] in top;
    }
  }

  /** No tracked SKU left out of the top was requested more often than one kept. */
  lemma TopSkusDominate(order: seq<string>, counts: map<string, int>, limit: int)
    requires RequestsWellFormed(order, counts)
    ensures var r := Skus(TopEntries(Entries(order, counts), limit));
      forall s, t :: s in counts && s !in r && t in r ==> t in counts && counts[s] <= counts[t]
  {
    EntriesOfTracked(order, counts);
    var entries := Entries(order, counts);
    var top := TopEntries(entries, limit);
    var r := Skus(top);
    forall s, t | s in counts && s !in r && t in r ensures t in counts && counts[s] <= counts[t] {
      var k :| 0 <= k < |order| && order[k] == s;
      var x := entries[k];
      assert x in entries;
      var i :| 0 <= i < |r| && r[i] == t;
      assert top[i] in top && x.sku == s;
    }
  }

  // ---------------------------------------------------------------------------
  // Vendor performance
  // ---------------------------------------------------------------------------

  /** One entry of `vendor_performance`. Latencies are seconds. */
  datatype VendorStats = VendorStats(totalCalls: int, failures: int, totalLatency: real)

  const ZeroStats := VendorStats(0, 0, 0.0)

  /** The tally is consistent: no more failures than calls. */
  predicate WellFormedStats(s: VendorStats) {
    0 <= s.failures <= s.totalCalls
  }

  /** One call recorded by `track_vendor_call`. */
  function RecordCall(s: VendorStats, success: bool, latency: real): (r: VendorStats)
    ensures r.totalCalls == s.totalCalls + 1
    ensures r.failures - s.failures == (if success then 0 else 1)
    ensures r.totalLatency - s.totalLatency == latency
    ensures WellFormedStats(s) ==> WellFormedStats(r)
  {
    VendorStats(s.totalCalls + 1, if success then s.failures else s.failures + 1, s.totalLatency + latency)
  }

  /** The outcome and latency of one vendor call. */
  datatype VendorCall = VendorCall(success: bool, latency: real)

  function FailedCalls(calls: seq<VendorCall>): nat {
    if calls == [] then 0
    else FailedCalls(calls[..|calls| - 1]) + (if calls[|calls| - 1].success then 0 else 1)
  }

  function TotalLatency(calls: seq<VendorCall>): real {
    if calls == [] then 0.0
    else TotalLatency(calls[..|calls| - 1]) + calls[|calls| - 1].latency
  }

  /** The tally after recording `calls` in order, starting from `s`. */
  function RecordAll(s: VendorStats, calls: seq<VendorCall>): VendorStats {
    if calls == [] then s
    else
      var last := calls[|calls| - 1];
      RecordCall(RecordAll(s, calls[..|calls| - 1]), last.success, last.latency)
  }

  /**
   * Since the last reset, a vendor's tally counts every call, every failed
   * call and the sum of the latencies, and never shows more failures than calls.
   */
  lemma {:induction false} TallyCountsCalls(calls: seq<VendorCall>)
    ensures RecordAll(ZeroStats, calls) == VendorStats(|calls|, FailedCalls(calls), TotalLatency(calls))
    ensures WellFormedStats(RecordAll(ZeroStats, calls))
  {
    if calls != [] {
      TallyCountsCalls(calls[..|calls| - 1]);
    }
  }

  /** One vendor's lines of the performance report. */
  datatype VendorReport =
    | NoCalls(vendor: string)
    | Metrics(vendor: string, totalCalls: int, successful: int, successRate: real,
              failureRate: real, avgLatency: real, totalLatency: real)

  /**
   * The report for one vendor: a vendor without calls gets the "no calls" line
   * and no rate is computed for it; otherwise the success and failure rates
   * are percentages that add up to 100.
   */
  function ReportFor(vendor: string, s: VendorStats): (r: VendorReport)
    ensures r.vendor == vendor
    ensures r.NoCalls? <==> s.totalCalls == 0
    ensures r.Metrics? ==> r.successful + s.failures == s.totalCalls
    ensures r.Metrics? ==> r.successRate + r.failureRate == 100.0
    ensures r.Metrics? && WellFormedStats(s) ==> 0.0 <= r.failureRate <= 100.0 && 0.0 <= r.successRate <= 100.0
    ensures r.Metrics? ==> r.totalCalls == s.totalCalls && r.totalLatency == s.totalLatency
    ensures r.Metrics? ==> r.avgLatency * r.totalCalls as real == r.totalLatency
    ensures r.Metrics? ==> r.failureRate * s.totalCalls as real == 100.0 * s.failures as real
    ensures r.Metrics? ==> r.successRate * s.totalCalls as real == 100.0 * (s.totalCalls - s.failures) as real
  {
    if s.totalCalls == 0 then NoCalls(vendor)
    else
      var total := s.totalCalls as real;
      var failed := s.failures as real;
      var successRate := ((total - failed) / total) * 100.0;
      var failureRate := (failed / total) * 100.0;
      assert (total - failed) / total + failed / total == 1.0;
      assert WellFormedStats(s) ==> failed / total <= 1.0 && (total - failed) / total >= 0.0;
      assert failureRate * total == 100.0 * failed;
      assert successRate * total == 100.0 * (total - failed);
      Metrics(vendor, s.totalCalls, s.totalCalls - s.failures, successRate, failureRate,
              s.totalLatency / total, s.totalLatency)
  }

  /** The whole report, one entry per vendor in `names` order. */
  function PerformanceReport(perf: map<string, VendorStats>, names: seq<string>): (r: seq<VendorReport>)
    requires forall v :: v in names ==> v in perf
    ensures |r| == |names|
    ensures forall i :: 0 <= i < |r| ==> r[i].vendor == names[i]
    ensures forall i :: 0 <= i < |r| ==> (r[i].NoCalls? <==> perf[names[i]].totalCalls == 0)
    ensures forall i :: 0 <= i < |r| && r[i].Metrics? ==>
      && r[i].totalCalls == perf[names[i]].totalCalls
      && r[i].successful == perf[names[i]].totalCalls - perf[names[i]].failures
      && r[i].failureRate * r[i].totalCalls as real == 100.0 * perf[names[i]].failures as real
      && r[i].successRate * r[i].totalCalls as real == 100.0 * r[i].successful as real
      && r[i].totalLatency == perf[names[i]].totalLatency
  {
    seq(|names|, i requires 0 <= i < |names| => ReportFor(names[i], perf[names[i]]))
  }

  // ---------------------------------------------------------------------------
  // Prewarming
  // ---------------------------------------------------------------------------

  /** What `product_service.get_product(sku)` did: raised, or returned a product or `None`. */
  datatype LookupOutcome = LookupRaised(error: string) | LookupReturned(product: Option<NormalizedProduct>)

  /** SKUs among `skus` whose lookup returned a product. */
  function Prewarmed(fetch: string -> LookupOutcome, skus: seq<string>): nat {
    if skus == [] then 0
    else
      var o := fetch(skus[|skus| - 1]);
      Prewarmed(fetch, skus[..|skus| - 1]) + (if o.LookupReturned? && o.product.Some? then 1 else 0)
  }

  /** SKUs among `skus` whose lookup raised. */
  function Failed(fetch: string -> LookupOutcome, skus: seq<string>): nat {
    if skus == [] then 0
    else Failed(fetch, skus[..|skus| - 1]) + (if fetch(skus[|skus| - 1]).LookupRaised? then 1 else 0)
  }

  lemma CountsOfAppended(fetch: string -> LookupOutcome, skus: seq<string>, sku: string)
    ensures var o := fetch(sku);
      Prewarmed(fetch, skus + [sku]) == Prewarmed(fetch, skus) + (if o.LookupReturned? && o.product.Some? then 1 else 0)
    ensures Failed(fetch, skus + [sku]) == Failed(fetch, skus) + (if fetch(sku).LookupRaised? then 1 else 0)
  {
    assert (skus + [sku])[..|skus|] == skus;
  }

  /** Each SKU is counted at most once: as prewarmed, as failed, or as unavailable. */
  lemma {:induction false} CountsWithinFetched(fetch: string -> LookupOutcome, skus: seq<string>)
    ensures Prewarmed(fetch, skus) + Failed(fetch, skus) <= |skus|
  {
    if skus != [] {
      CountsWithinFetched(fetch, skus[..|skus| - 1]);
    }
  }

  /**
   * The loop of `prewarm_cache` over the top SKUs: a returned product counts
   * as prewarmed, a raised error as failed, `None` as neither.
   */
  method PrewarmEach(fetch: string -> LookupOutcome, skus: seq<string>) returns (prewarmed: nat, failed: nat)
    ensures prewarmed == Prewarmed(fetch, skus) && failed == Failed(fetch, skus)
    ensures prewarmed + failed <= |skus|
  {
    prewarmed, failed := 0, 0;
    for i := 0 to |skus|
      invariant prewarmed == Prewarmed(fetch, skus[..i]) && failed == Failed(fetch, skus[..i])
    {
      var outcome := fetch(skus[i]);
      if outcome.LookupRaised? {
        failed := failed + 1;
      } else if outcome.product.Some? {
        prewarmed := prewarmed + 1;
      }
      CountsOfAppended(fetch, skus[..i], skus[i]);
      assert skus[..i + 1] == skus[..i] + [skus[i]];
    }
    assert skus[..|skus|] == skus;
    CountsWithinFetched(fetch, skus);
  }

  // ---------------------------------------------------------------------------
  // The manager
  // ---------------------------------------------------------------------------

  class BackgroundJobManager {
    /** `request_stats`: SKUs in first-tracked order, and their counts. */
    var requestOrder: seq<string>
    var requestCounts: map<string, int>
    /** `vendor_performance`. */
    var vendorPerformance: map<string, VendorStats>

    ghost predicate Valid()
      reads this
    {
      && RequestsWellFormed(requestOrder, requestCounts)
      && (forall v :: v in vendorPerformance <==> v in VendorNames)
      && (forall v :: v in vendorPerformance ==> WellFormedStats(vendorPerformance[v]))
    }

    constructor ()
      ensures Valid()
      ensures requestOrder == [] && requestCounts == map[]
      ensures forall v :: v in VendorNames ==> vendorPerformance[v] == ZeroStats
    {
      requestOrder := [];
      requestCounts := map[];
      vendorPerformance := map["VendorA" := ZeroStats, "VendorB" := ZeroStats, "VendorC" := ZeroStats];
    }

    /** `track_request`: one more request for `sku`; all other counts unchanged. */
    method TrackRequest(sku: string)
      requires Valid()
      modifies this
      ensures Valid()
      ensures (requestOrder, requestCounts) == TrackStep(old(requestOrder), old(requestCounts), sku)
      ensures vendorPerformance == old(vendorPerformance)
    {
      if sku !in requestCounts {
        requestOrder := requestOrder + [sku];
      }
      requestCounts := requestCounts[sku := Get(requestCounts, sku) + 1];
    }

    /**
     * `track_vendor_call`: one more call for a preset vendor; any other name
     * raises `KeyError` (`Err` carrying the name) and changes nothing.
     */
    method TrackVendorCall(vendorName: string, success: bool, latency: real) returns (r: Result<VendorStats>)
      requires Valid()
      modifies this
      ensures Valid()
      ensures r.Err? <==> vendorName !in VendorNames
      ensures r.Err? ==> r.error == vendorName && vendorPerformance == old(vendorPerformance)
      ensures r.Ok? ==>
        && r.value == RecordCall(old(vendorPerformance)[vendorName], success, latency)
        && vendorPerformance == old(vendorPerformance)[vendorName := r.value]
      ensures requestOrder == old(requestOrder) && requestCounts == old(requestCounts)
    {
      if vendorName !in vendorPerformance {
        return Err(vendorName);
      }
      var stats := RecordCall(vendorPerformance[vendorName], success, latency);
      vendorPerformance := vendorPerformance[vendorName := stats];
      r := Ok(stats);
    }

    /**
     * `get_top_skus`: at most `limit` distinct tracked SKUs, most requested
     * first, none left out with more requests than one kept (ties in
     * first-tracked order, see `Ranking.TopEntriesKeepEarliestTies`).
     */
    function GetTopSkus(limit: int): (r: seq<string>)
      requires Valid()
      reads this
      ensures |r| == SliceLength(|requestOrder|, limit)
      ensures forall s :: s in r ==> s in requestCounts
      ensures NoDuplicates(r)
      ensures forall i, j :: 0 <= i < j < |r| ==> requestCounts[r[i]] >= requestCounts[r[j]]
      ensures forall s, t :: s in requestCounts && s !in r && t in r ==> requestCounts[s] <= requestCounts[t]
    {
      TopSkusDistinct(requestOrder, requestCounts, limit);
      TopSkusOrdered(requestOrder, requestCounts, limit);
      TopSkusDominate(requestOrder, requestCounts, limit);
      Skus(TopEntries(Entries(requestOrder, requestCounts), limit))
    }

    /**
     * `prewarm_cache`: no lookup at all when nothing was requested yet,
     * otherwise one lookup per top SKU in rank order (`fetched`), counted by
     * `PrewarmEach`.
     */
    method PrewarmCache(fetch: string -> LookupOutcome) returns (prewarmed: nat, failed: nat, fetched: seq<string>)
      requires Valid()
      ensures fetched == GetTopSkus(PrewarmLimit)
      ensures requestOrder == [] ==> fetched == []
      ensures prewarmed == Prewarmed(fetch, fetched) && failed == Failed(fetch, fetched)
      ensures prewarmed + failed <= |fetched|
    {
      var topSkus := GetTopSkus(PrewarmLimit);
      if topSkus == [] {
        return 0, 0, [];
      }
      fetched := topSkus;
      prewarmed, failed := PrewarmEach(fetch, topSkus);
    }

    /** `_reset_vendor_stats`: every vendor's tally back to zero, same vendors. */
    method ResetVendorStats()
      requires Valid()
      modifies this
      ensures Valid()
      ensures forall v :: v in vendorPerformance <==> v in old(vendorPerformance)
      ensures forall v :: v in vendorPerformance ==> vendorPerformance[v] == ZeroStats
      ensures requestOrder == old(requestOrder) && requestCounts == old(requestCounts)
    {
      for i := 0 to |VendorNames|
        invariant Valid()
        invariant forall v :: v in vendorPerformance <==> v in old(vendorPerformance)
        invariant forall j :: 0 <= j < i ==> vendorPerformance[VendorNames[j]] == ZeroStats
        invariant requestOrder == old(requestOrder) && requestCounts == old(requestCounts)
      {
        vendorPerformance := vendorPerformance[VendorNames[i] := ZeroStats];
      }
    }

    /**
     * `log_vendor_performance`: report every vendor in order (no rates for a
     * vendor without calls), then reset the tallies.
     */
    method LogVendorPerformance() returns (report: seq<VendorReport>)
      requires Valid()
      modifies this
      ensures Valid()
      ensures report == PerformanceReport(old(vendorPerformance), VendorNames)
      ensures forall v :: v in vendorPerformance ==> vendorPerformance[v] == ZeroStats
      ensures requestOrder == old(requestOrder) && requestCounts == old(requestCounts)
    {
      report := [];
      for i := 0 to |VendorNames|
        invariant report == PerformanceReport(vendorPerformance, VendorNames[..i])
      {
        report := report + [ReportFor(VendorNames[i], vendorPerformance[VendorNames[i]])];
      }
      assert VendorNames[..|VendorNames|] == VendorNames;
      ResetVendorStats();
    }
  }
}
