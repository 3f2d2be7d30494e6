/** The promise health summary over report rows, and why its weighted mean is the exact mean. */
module PromiseHealth {
  import A = Analytics
  import opened AnalyticsTheorems
  import opened AnalyticsSets

  datatype HealthRow = HealthRow(
    capability: int, leadTime: int, split: int, repromised: int, gapSeconds: real, gapSamples: int)

  datatype Health = Health(
    capability: int, leadTime: int, allocatedTotal: int,
    split: int, splitRate: real,
    repromised: int, repromiseRate: real,
    gapSeconds: real)

  datatype Totals = Totals(capability: int, leadTime: int, split: int, repromised: int, weighted: real, weight: int)

  function Times(x: real, n: int): real {
    x * n as real
  }

  function Weighted(r: HealthRow): real {
    if r.gapSamples > 0 then Times(r.gapSeconds, r.gapSamples) else 0.0
  }

  function Add(t: Totals, r: HealthRow): Totals {
    Totals(t.capability + r.capability, t.leadTime + r.leadTime, t.split + r.split, t.repromised + r.repromised,
      t.weighted + Weighted(r),
      t.weight + (if r.gapSamples > 0 then r.gapSamples else 0))
  }

  function TotalsOf(rows: seq<HealthRow>): Totals {
    if rows == [] then Totals(0, 0, 0, 0, 0.0, 0) else Add(TotalsOf(rows[..|rows| - 1]), rows[|rows| - 1])
  }

  function Rate(part: int, whole: int): real {
    if whole > 0 then part as real / whole as real else 0.0
  }

  method AggregatePromiseHealth(rows: seq<HealthRow>) returns (h: Health)
    ensures
      var t := TotalsOf(rows);
      h == Health(t.capability, t.leadTime, t.capability + t.leadTime,
             t.split, Rate(t.split, t.capability + t.leadTime),
             t.repromised, Rate(t.repromised, t.capability + t.leadTime),
             if t.weight > 0 then t.weighted / t.weight as real else 0.0)
  {
    var capability, leadTime, split, repromised := 0, 0, 0, 0;
    var gapWeightedSum, gapSampleWeight := 0.0, 0;
    for i := 0 to |rows|
      invariant TotalsOf(rows[..i]) == Totals(capability, leadTime, split, repromised, gapWeightedSum, gapSampleWeight)
    {
      assert rows[..i + 1][..i] == rows[..i];
      var row := rows[i];
      capability := capability + row.capability;
      leadTime := leadTime + row.leadTime;
      split := split + row.split;
      repromised := repromised + row.repromised;
      if row.gapSamples > 0 {
        gapWeightedSum := gapWeightedSum + Times(row.gapSeconds, row.gapSamples);
        gapSampleWeight := gapSampleWeight + row.gapSamples;
      }
    }
    assert rows[..|rows|] == rows;
    var total := capability + leadTime;
    var splitRate, repromiseRate, gapSeconds := 0.0, 0.0, 0.0;
    if total > 0 {
      splitRate := split as real / total as real;
      repromiseRate := repromised as real / total as real;
    }
    if gapSampleWeight > 0 {
      gapSeconds := gapWeightedSum / gapSampleWeight as real;
    }
    h := Health(capability, leadTime, total, split, splitRate, repromised, repromiseRate, gapSeconds);
  }

  // ---------------------------------------------------------------- the mean is exact

  function HealthOf(r: A.Row): HealthRow {
    HealthRow(r.counts.funnel.basisCapability, r.counts.funnel.basisLeadTime, r.counts.funnel.split, r.counts.repromised,
      r.gapSeconds, r.gapSamples)
  }

  function Reported(m: A.Memory, ks: seq<A.RowKey>): (rows: seq<HealthRow>)
    requires forall i :: 0 <= i < |ks| ==> ks[i] in m.rows
    ensures |rows| == |ks|
  {
    seq(|ks|, i requires 0 <= i < |ks| => HealthOf(A.RowOf(ks[i], m.rows[ks[i]].funnel, m.rows[ks[i]].repromised)))
  }

  /** The events that belong to one of the rows, and those of them that carry a gap. */
  function OfRows(s: set<A.Event>, ks: seq<A.RowKey>): set<A.Event> {
    set e | e in s && A.KeyOf(e) in ks
  }

  function GapsOf(s: set<A.Event>, ks: seq<A.RowKey>): set<A.Event> {
    set e | e in s && A.KeyOf(e) in ks && A.HasGap(e)
  }

  lemma {:induction false} SumUnion(x: set<A.Event>, y: set<A.Event>)
    requires x !! y
    ensures SumGaps(x + y) == SumGaps(x) + SumGaps(y)
  {
    if x == {} {
      assert x + y == y;
    } else {
      var e :| e in x;
      SumUnion(x - {e}, y);
      SumSplits(x, e);
      SumSplits(x + y, e);
      assert x + y - {e} == (x - {e}) + y;
    }
  }

  lemma {:induction false} NoGapNoSum(s: set<A.Event>)
    requires forall e :: e in s ==> !A.HasGap(e)
    ensures SumGaps(s) == 0.0
  {
    if s != {} {
      var e :| e in s;
      SumSplits(s, e);
      NoGapNoSum(s - {e});
      assert A.Gap(e) == 0.0;
    }
  }

  /** One row's mean times its samples is its sum again. */
  lemma RowWeight(m: A.Memory, s: set<A.Event>, k: A.RowKey)
    requires CountsExactly(m, s) && k in m.rows
    ensures
      var r := HealthOf(A.RowOf(k, m.rows[k].funnel, m.rows[k].repromised));
      Weighted(r) == SumGaps(OfRow(s, k)) && r.gapSamples == |WithGap(s, k)|
  {
    var f := m.rows[k].funnel;
    var r := HealthOf(A.RowOf(k, f, m.rows[k].repromised));
    assert RowCounts(s, k, m.rows[k]);
    if f.gapSamples > 0 {
      QuotientTimes(f.gapSum, f.gapSamples);
      assert r.gapSeconds == f.gapSum / f.gapSamples as real;
      assert Weighted(r) == f.gapSum;
    } else {
      assert WithGap(s, k) == {};
      forall e | e in OfRow(s, k) ensures !A.HasGap(e) {
        assert e !in WithGap(s, k);
      }
      NoGapNoSum(OfRow(s, k));
    }
  }

  lemma QuotientTimes(x: real, n: int)
    requires n > 0
    ensures Times(x / n as real, n) == x
  {
  }

  lemma OneRowMore(s: set<A.Event>, ks: seq<A.RowKey>, k: A.RowKey)
    requires k !in ks
    ensures SumGaps(OfRows(s, ks + [k])) == SumGaps(OfRows(s, ks)) + SumGaps(OfRow(s, k))
    ensures |GapsOf(s, ks + [k])| == |GapsOf(s, ks)| + |WithGap(s, k)|
  {
    assert OfRows(s, ks + [k]) == OfRows(s, ks) + OfRow(s, k);
    SumUnion(OfRows(s, ks), OfRow(s, k));
    assert GapsOf(s, ks + [k]) == GapsOf(s, ks) + WithGap(s, k);
  }

  lemma ReportedGrows(m: A.Memory, ks: seq<A.RowKey>, k: A.RowKey)
    requires forall i :: 0 <= i < |ks| ==> ks[i] in m.rows
    requires k in m.rows
    ensures
      var r := HealthOf(A.RowOf(k, m.rows[k].funnel, m.rows[k].repromised));
      TotalsOf(Reported(m, ks + [k])) == Add(TotalsOf(Reported(m, ks)), r)
  {
    assert Reported(m, ks + [k])[..|ks|] == Reported(m, ks);
  }

  lemma {:induction false} WeightsAreExact(m: A.Memory, s: set<A.Event>, ks: seq<A.RowKey>)
    requires CountsExactly(m, s)
    requires forall i :: 0 <= i < |ks| ==> ks[i] in m.rows
    requires forall i, j :: 0 <= i < j < |ks| ==> ks[i] != ks[j]
    ensures TotalsOf(Reported(m, ks)).weighted == SumGaps(OfRows(s, ks))
    ensures TotalsOf(Reported(m, ks)).weight == |GapsOf(s, ks)|
  {
    if ks == [] {
      assert OfRows(s, ks) == {} && GapsOf(s, ks) == {};
    } else {
      var n := |ks| - 1;
      var init, k := ks[..n], ks[n];
      WeightsAreExact(m, s, init);
      RowWeight(m, s, k);
      assert ks == init + [k];
      OneRowMore(s, init, k);
      ReportedGrows(m, init, k);
    }
  }

  /** The gap the summary shows, aggregated from the per-row means of any distinct rows
      after any stream with duplicates and reordering, is exactly the mean over all the gap samples
      of the distinct events in those rows. */
  lemma AggregatedGapIsTheExactMean(events: seq<A.Event>, ks: seq<A.RowKey>)
    requires Consistent(events) && AllWellFormed(events)
    requires forall i :: 0 <= i < |ks| ==> ks[i] in MemoryAfter(events).rows
    requires forall i, j :: 0 <= i < j < |ks| ==> ks[i] != ks[j]
    ensures
      var t := TotalsOf(Reported(MemoryAfter(events), ks));
      var samples := GapsOf(EventSet(events), ks);
      && t.weight == |samples|
      && (t.weight > 0 ==> t.weighted / t.weight as real == SumGaps(samples) / |samples| as real)
  {
    StreamCounts(events);
    var s := EventSet(events);
    WeightsAreExact(MemoryAfter(events), s, ks);
    var gaps, rest := GapsOf(s, ks), OfRows(s, ks) - GapsOf(s, ks);
    assert gaps + rest == OfRows(s, ks);
    SumUnion(gaps, rest);
    NoGapNoSum(rest);
  }

  // ---------------------------------------------------------------- the totals are exact

  function MovedIn(s: set<A.Event>, ks: seq<A.RowKey>, c: A.Column): set<A.Event> {
    set e | e in s && A.KeyOf(e) in ks && A.Moves(e, c)
  }

  ghost predicate TotalsCount(t: Totals, s: set<A.Event>, ks: seq<A.RowKey>) {
    && t.capability == |MovedIn(s, ks, A.BasisCapability)| && t.leadTime == |MovedIn(s, ks, A.BasisLeadTime)|
    && t.split == |MovedIn(s, ks, A.Split)| && t.repromised == |MovedIn(s, ks, A.Repromised)|
  }

  lemma MovedInOneRowMore(s: set<A.Event>, ks: seq<A.RowKey>, k: A.RowKey, c: A.Column)
    requires k !in ks
    ensures |MovedIn(s, ks + [k], c)| == |MovedIn(s, ks, c)| + |MovedBy(s, k, c)|
  {
    assert MovedIn(s, ks + [k], c) == MovedIn(s, ks, c) + MovedBy(s, k, c);
  }

  lemma RowTotals(m: A.Memory, s: set<A.Event>, k: A.RowKey)
    requires CountsExactly(m, s) && k in m.rows
    ensures
      var r := HealthOf(A.RowOf(k, m.rows[k].funnel, m.rows[k].repromised));
      && r.capability == |MovedBy(s, k, A.BasisCapability)| && r.leadTime == |MovedBy(s, k, A.BasisLeadTime)|
      && r.split == |MovedBy(s, k, A.Split)| && r.repromised == |MovedBy(s, k, A.Repromised)|
  {
    assert RowCounts(s, k, m.rows[k]);
    assert A.Value(m.rows[k], A.BasisCapability) == |MovedBy(s, k, A.BasisCapability)|;
    assert A.Value(m.rows[k], A.BasisLeadTime) == |MovedBy(s, k, A.BasisLeadTime)|;
    assert A.Value(m.rows[k], A.Split) == |MovedBy(s, k, A.Split)|;
    assert A.Value(m.rows[k], A.Repromised) == |MovedBy(s, k, A.Repromised)|;
  }

  lemma {:induction false} TotalsAreExact(m: A.Memory, s: set<A.Event>, ks: seq<A.RowKey>)
    requires CountsExactly(m, s)
    requires forall i :: 0 <= i < |ks| ==> ks[i] in m.rows
    requires forall i, j :: 0 <= i < j < |ks| ==> ks[i] != ks[j]
    ensures TotalsCount(TotalsOf(Reported(m, ks)), s, ks)
  {
    if ks == [] {
      forall c ensures MovedIn(s, ks, c) == {} {
      }
    } else {
      var n := |ks| - 1;
      var init, k := ks[..n], ks[n];
      TotalsAreExact(m, s, init);
      RowTotals(m, s, k);
      assert ks == init + [k];
      MovedInOneRowMore(s, init, k, A.BasisCapability);
      MovedInOneRowMore(s, init, k, A.BasisLeadTime);
      MovedInOneRowMore(s, init, k, A.Split);
      MovedInOneRowMore(s, init, k, A.Repromised);
      ReportedGrows(m, init, k);
    }
  }

  /** The totals that the summary shows for any distinct rows, after any stream with duplicates and
      reordering, are the numbers of distinct events in those rows that say so; and what it calls the
      allocated orders, which its rates are over, are those promised either way. */
  lemma SummaryCountsDistinctEvents(events: seq<A.Event>, ks: seq<A.RowKey>)
    requires Consistent(events) && AllWellFormed(events)
    requires forall i :: 0 <= i < |ks| ==> ks[i] in MemoryAfter(events).rows
    requires forall i, j :: 0 <= i < j < |ks| ==> ks[i] != ks[j]
    ensures TotalsCount(TotalsOf(Reported(MemoryAfter(events), ks)), EventSet(events), ks)
  {
    StreamCounts(events);
    TotalsAreExact(MemoryAfter(events), EventSet(events), ks);
  }

  /** A rate is the part over the whole, and zero without a whole. */
  lemma RateIsPartOfWhole(part: nat, whole: nat)
    ensures whole == 0 ==> Rate(part, whole) == 0.0
    ensures whole > 0 ==> Rate(part, whole) * whole as real == part as real
  {
  }
}
