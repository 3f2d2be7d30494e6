/** What a report shows, in terms of the events alone: which rows there are, and what each column of a
    row counts. */
module AnalyticsRows {
  import A = Analytics
  import opened Orders
  import opened PromisePolicies
  import opened AnalyticsTheorems
  import opened AnalyticsSets

  /** The event belongs to the path's row of the whole hour it happened in; one that an order was promised
      again belongs to the row without a path. */
  predicate FallsOn(e: A.Event, k: A.RowKey) {
    && k.hour % 3_600_000_000_000 == 0 && k.hour <= e.at < k.hour + 3_600_000_000_000
    && k.pathId == if e.fact.Moved? then "" else e.pathId
  }

  lemma FallsOnIff(e: A.Event, k: A.RowKey)
    ensures FallsOn(e, k) <==> A.KeyOf(e) == k
  {
    assert HOUR == 3_600_000_000_000;
    if FallsOn(e, k) {
      WholeHour(e.at, k.hour);
    }
  }

  lemma WholeHour(at: Instant, hour: Instant)
    requires hour % HOUR == 0 && hour <= at < hour + HOUR
    ensures A.HourBucket(at) == hour
  {
    var n := hour / HOUR;
    assert at == n * HOUR + (at - hour);
  }

  /** What a column counts. */
  datatype Kind =
    | StepOf(column: A.Column)
    | OutcomeOf(column: A.Column)
    | AtCapability
    | AtLeadTime
    | IsSplit
    | IsRepromise
    | HasCutoffInstant

  predicate Is(f: A.Fact, kind: Kind) {
    match kind
    case StepOf(c) => f == A.Simple(c)
    case OutcomeOf(c) => f.Outcome? && f.column == c
    case AtCapability => f.Outcome? && f.basis == "Capability"
    case AtLeadTime => f.Outcome? && f.basis == "LeadTime"
    case IsSplit => f.Outcome? && f.split
    case IsRepromise => f.Moved?
    case HasCutoffInstant => f.Outcome? && f.basis == "Capability" && f.cutoffAt.Some?
  }

  /** The distinct events of a row, by what they say. */
  function Tells(events: seq<A.Event>, k: A.RowKey, kind: Kind): set<A.Event> {
    set e | e in events && FallsOn(e, k) && Is(e.fact, kind)
  }

  ghost predicate CountsSteps(events: seq<A.Event>, k: A.RowKey, a: A.Acc) {
    && a.funnel.received == |Tells(events, k, StepOf(A.Received))|
    && a.funnel.failed == |Tells(events, k, StepOf(A.AllocationFailed))|
    && a.funnel.released == |Tells(events, k, StepOf(A.Released_))|
    && a.funnel.cancelled == |Tells(events, k, StepOf(A.Cancelled_))|
    && a.funnel.lineAllocated == |Tells(events, k, StepOf(A.LineAllocated))|
    && a.funnel.lineBackordered == |Tells(events, k, StepOf(A.LineBackordered))|
    && a.funnel.lineReleased == |Tells(events, k, StepOf(A.LineReleased))|
  }

  ghost predicate CountsOutcomes(events: seq<A.Event>, k: A.RowKey, a: A.Acc) {
    && a.funnel.allocated_ == |Tells(events, k, OutcomeOf(A.Allocated_))|
    && a.funnel.partially == |Tells(events, k, OutcomeOf(A.PartiallyAllocated))|
  }

  ghost predicate CountsPromises(events: seq<A.Event>, k: A.RowKey, a: A.Acc) {
    && a.funnel.basisCapability == |Tells(events, k, AtCapability)|
    && a.funnel.basisLeadTime == |Tells(events, k, AtLeadTime)|
  }

  ghost predicate CountsMoves(events: seq<A.Event>, k: A.RowKey, a: A.Acc) {
    && a.funnel.split == |Tells(events, k, IsSplit)|
    && a.repromised == |Tells(events, k, IsRepromise)|
  }

  ghost predicate CountsItsEvents(events: seq<A.Event>, k: A.RowKey, a: A.Acc) {
    CountsSteps(events, k, a) && CountsOutcomes(events, k, a) && CountsPromises(events, k, a)
    && CountsMoves(events, k, a)
  }

  /** The gap of an event, in seconds, is what is left from its time to the cutoff. */
  lemma GapIsTimeLeft(events: seq<A.Event>, k: A.RowKey, e: A.Event)
    requires e in Tells(events, k, HasCutoffInstant)
    ensures A.Gap(e) * 1_000_000_000.0 == (e.fact.cutoffAt.value - e.at) as real
    ensures SumGaps(Tells(events, k, HasCutoffInstant)) == A.Gap(e) + SumGaps(Tells(events, k, HasCutoffInstant) - {e})
  {
    SumSplits(Tells(events, k, HasCutoffInstant), e);
  }

  lemma {:induction false} WellFormedAt(events: seq<A.Event>, e: A.Event)
    requires AllWellFormed(events) && e in events
    ensures A.WellFormed(e)
  {
    var i :| 0 <= i < |events| && events[i] == e;
  }

  /** The column that events of this kind move, and no others. */
  predicate Counts(c: A.Column, kind: Kind) {
    match kind
    case StepOf(column) => A.SimpleColumn(c) && c == column
    case OutcomeOf(column) => A.OutcomeColumn(c) && c == column
    case AtCapability => c == A.BasisCapability
    case AtLeadTime => c == A.BasisLeadTime
    case IsSplit => c == A.Split
    case IsRepromise => c == A.Repromised
    case HasCutoffInstant => false
  }

  lemma {:induction false} KindMoves(e: A.Event, c: A.Column, kind: Kind)
    requires A.WellFormed(e) && Counts(c, kind)
    ensures A.Moves(e, c) <==> Is(e.fact, kind)
  {
  }

  lemma {:induction false} KindCounts(events: seq<A.Event>, k: A.RowKey, a: A.Acc, c: A.Column, kind: Kind)
    requires AllWellFormed(events) && RowCounts(EventSet(events), k, a) && Counts(c, kind)
    ensures A.Value(a, c) == |Tells(events, k, kind)|
  {
    forall e | e in events
      ensures A.Moves(e, c) <==> Is(e.fact, kind)
      ensures FallsOn(e, k) <==> A.KeyOf(e) == k
    {
      WellFormedAt(events, e);
      KindMoves(e, c, kind);
      FallsOnIff(e, k);
    }
    assert MovedBy(EventSet(events), k, c) == Tells(events, k, kind);
  }

  lemma {:induction false} StepsAreCounted(events: seq<A.Event>, k: A.RowKey, a: A.Acc)
    requires AllWellFormed(events) && RowCounts(EventSet(events), k, a)
    ensures CountsSteps(events, k, a)
  {
    KindCounts(events, k, a, A.Received, StepOf(A.Received));
    KindCounts(events, k, a, A.AllocationFailed, StepOf(A.AllocationFailed));
    KindCounts(events, k, a, A.Released_, StepOf(A.Released_));
    KindCounts(events, k, a, A.Cancelled_, StepOf(A.Cancelled_));
    KindCounts(events, k, a, A.LineAllocated, StepOf(A.LineAllocated));
    KindCounts(events, k, a, A.LineBackordered, StepOf(A.LineBackordered));
    KindCounts(events, k, a, A.LineReleased, StepOf(A.LineReleased));
  }

  lemma {:induction false} OutcomesAreCounted(events: seq<A.Event>, k: A.RowKey, a: A.Acc)
    requires AllWellFormed(events) && RowCounts(EventSet(events), k, a)
    ensures CountsOutcomes(events, k, a)
  {
    KindCounts(events, k, a, A.Allocated_, OutcomeOf(A.Allocated_));
    KindCounts(events, k, a, A.PartiallyAllocated, OutcomeOf(A.PartiallyAllocated));
  }

  lemma {:induction false} PromisesAreCounted(events: seq<A.Event>, k: A.RowKey, a: A.Acc)
    requires AllWellFormed(events) && RowCounts(EventSet(events), k, a)
    ensures CountsPromises(events, k, a)
  {
    KindCounts(events, k, a, A.BasisCapability, AtCapability);
    KindCounts(events, k, a, A.BasisLeadTime, AtLeadTime);
  }

  lemma {:induction false} MovesAreCounted(events: seq<A.Event>, k: A.RowKey, a: A.Acc)
    requires AllWellFormed(events) && RowCounts(EventSet(events), k, a)
    ensures CountsMoves(events, k, a)
  {
    KindCounts(events, k, a, A.Split, IsSplit);
    KindCounts(events, k, a, A.Repromised, IsRepromise);
  }

  lemma {:induction false} RowIsItsEvents(events: seq<A.Event>, k: A.RowKey, a: A.Acc)
    requires AllWellFormed(events) && RowCounts(EventSet(events), k, a)
    ensures CountsItsEvents(events, k, a)
  {
    StepsAreCounted(events, k, a);
    OutcomesAreCounted(events, k, a);
    PromisesAreCounted(events, k, a);
    MovesAreCounted(events, k, a);
  }

  lemma {:induction false} RowGaps(events: seq<A.Event>, k: A.RowKey, a: A.Acc)
    requires RowCounts(EventSet(events), k, a)
    ensures a.funnel.gapSamples == |Tells(events, k, HasCutoffInstant)| && a.funnel.gapSum == SumGaps(Tells(events, k, HasCutoffInstant))
  {
    forall e ensures FallsOn(e, k) <==> A.KeyOf(e) == k {
      FallsOnIff(e, k);
    }
    var s := EventSet(events);
    assert WithGap(s, k) == Tells(events, k, HasCutoffInstant);
    GapsOnly(OfRow(s, k), Tells(events, k, HasCutoffInstant));
  }

  /** Only events with a gap add to the sum. */
  lemma {:induction false} GapsOnly(s: set<A.Event>, gaps: set<A.Event>)
    requires gaps <= s && forall e :: e in s && e !in gaps ==> A.Gap(e) == 0.0
    ensures SumGaps(s) == SumGaps(gaps)
    decreases |s|
  {
    if s != gaps {
      var e :| e in s && e !in gaps;
      SumSplits(s, e);
      GapsOnly(s - {e}, gaps);
    }
  }

  /** After any stream, with duplicates and in any order, the projection reports a row for a path and hour if
      and only if some event falls on it, the hour is in the window, and the filter lets the path through. */
  lemma {:induction false} RowReportedIff(events: seq<A.Event>, q: A.Query, k: A.RowKey)
    requires Consistent(events) && AllWellFormed(events)
    ensures
      (exists r :: r in A.TablesQuery(TablesAfter(events), q) && r.key == k) <==>
        && (exists e :: e in events && FallsOn(e, k))
        && q.from <= k.hour < q.to && (q.pathId == "" || q.pathId == k.pathId)
  {
    ProjectionEqualsMemory(events, q);
    StreamCounts(events);
    var m := MemoryAfter(events);
    var s := EventSet(events);
    if k in m.rows {
      var e :| e in OfRow(s, k);
      FallsOnIff(e, k);
      assert A.Matches(q, k) ==> A.RowOf(k, m.rows[k].funnel, m.rows[k].repromised) in A.MemoryQuery(m, q);
    } else {
      forall e | e in events ensures !FallsOn(e, k) {
        FallsOnIff(e, k);
        assert e !in OfRow(s, k);
      }
    }
  }

  /** And what such a row shows: in each column the number of distinct events of its kind, and the mean gap
      over those that have one. */
  lemma {:induction false} ReportedRowIs(events: seq<A.Event>, q: A.Query, r: A.Row)
    requires Consistent(events) && AllWellFormed(events) && r in A.TablesQuery(TablesAfter(events), q)
    ensures CountsItsEvents(events, r.key, r.counts)
    ensures r.gapSamples == |Tells(events, r.key, HasCutoffInstant)|
    ensures r.gapSamples > 0 ==> r.gapSeconds == SumGaps(Tells(events, r.key, HasCutoffInstant)) / r.gapSamples as real
    ensures r.gapSamples == 0 ==> r.gapSeconds == 0.0
  {
    ProjectionEqualsMemory(events, q);
    StreamCounts(events);
    var m := MemoryAfter(events);
    var k :| k in m.rows && A.Matches(q, k) && r == A.RowOf(k, m.rows[k].funnel, m.rows[k].repromised);
    ShownRow(events, k, m.rows[k], r);
  }

  lemma {:induction false} ShownRow(events: seq<A.Event>, k: A.RowKey, a: A.Acc, r: A.Row)
    requires AllWellFormed(events) && RowCounts(EventSet(events), k, a) && r == A.RowOf(k, a.funnel, a.repromised)
    ensures r.key == k && CountsItsEvents(events, k, r.counts)
    ensures r.gapSamples == |Tells(events, k, HasCutoffInstant)|
    ensures r.gapSamples > 0 ==> r.gapSeconds == SumGaps(Tells(events, k, HasCutoffInstant)) / r.gapSamples as real
    ensures r.gapSamples == 0 ==> r.gapSeconds == 0.0
  {
    ShownCounts(events, k, a, r);
    ShownMean(events, k, a, r);
  }

  lemma {:induction false} ShownCounts(events: seq<A.Event>, k: A.RowKey, a: A.Acc, r: A.Row)
    requires AllWellFormed(events) && RowCounts(EventSet(events), k, a) && r == A.RowOf(k, a.funnel, a.repromised)
    ensures CountsItsEvents(events, k, r.counts)
  {
    RowIsItsEvents(events, k, a);
  }

  lemma {:induction false} ShownMean(events: seq<A.Event>, k: A.RowKey, a: A.Acc, r: A.Row)
    requires RowCounts(EventSet(events), k, a) && r == A.RowOf(k, a.funnel, a.repromised)
    ensures r.gapSamples == |Tells(events, k, HasCutoffInstant)|
    ensures r.gapSamples > 0 ==> r.gapSeconds == SumGaps(Tells(events, k, HasCutoffInstant)) / r.gapSamples as real
    ensures r.gapSamples == 0 ==> r.gapSeconds == 0.0
  {
    RowGaps(events, k, a);
  }
}
