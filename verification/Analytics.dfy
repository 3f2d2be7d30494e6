/** The analytics read model twice: the single-map store, and the two-table projection with its join
    and UNION ALL. Gap sums are exact reals. */
module Analytics {
  import opened Wrappers
  import opened Orders
  import opened PromisePolicies

  /** The counters that one event can move. The first ten are stages: every event moves exactly one. */
  datatype Column =
    | Received | Allocated_ | PartiallyAllocated | AllocationFailed | Released_ | Cancelled_
    | LineAllocated | LineBackordered | LineReleased | Repromised
    | BasisCapability | BasisLeadTime | Split

  datatype Fact =
    | Simple(column: Column)
    | Outcome(column: Column, basis: string, cutoffAt: Option<Instant>, split: bool)
    | Moved

  datatype Event = Event(id: string, pathId: string, at: Instant, fact: Fact)

  predicate SimpleColumn(c: Column) {
    c in {Received, AllocationFailed, Released_, Cancelled_, LineAllocated, LineBackordered, LineReleased}
  }

  predicate OutcomeColumn(c: Column) {
    c == Allocated_ || c == PartiallyAllocated
  }

  /** What the consumer's dispatch can hand to a store. */
  predicate WellFormed(e: Event) {
    match e.fact
    case Simple(c) => SimpleColumn(c)
    case Outcome(c, _, _, _) => OutcomeColumn(c)
    case Moved => true
  }

  datatype RowKey = RowKey(pathId: string, hour: Instant)

  function HourBucket(at: Instant): Instant {
    at - at % HOUR
  }

  /** A repromise has no path of its own: it counts on the row without a path. */
  function KeyOf(e: Event): RowKey {
    RowKey(if e.fact.Moved? then "" else e.pathId, HourBucket(e.at))
  }

  function Stage(e: Event): Column {
    match e.fact
    case Simple(c) => c
    case Outcome(c, _, _, _) => c
    case Moved => Repromised
  }

  predicate HasGap(e: Event) {
    e.fact.Outcome? && e.fact.basis == "Capability" && e.fact.cutoffAt.Some?
  }

  function Seconds(d: Duration): real {
    d as real / 1_000_000_000.0
  }

  function Gap(e: Event): real {
    if HasGap(e) then Seconds(e.fact.cutoffAt.value - e.at) else 0.0
  }

  predicate Moves(e: Event, c: Column) {
    || c == Stage(e)
    || (e.fact.Outcome? &&
         ((c == BasisCapability && e.fact.basis == "Capability")
          || (c == BasisLeadTime && e.fact.basis == "LeadTime")
          || (c == Split && e.fact.split)))
  }

  /** The columns of the funnel table; repromises are counted apart. */
  datatype Funnel = Funnel(
    received: nat, allocated_: nat, partially: nat, failed: nat, released: nat, cancelled: nat,
    lineAllocated: nat, lineBackordered: nat, lineReleased: nat,
    basisCapability: nat, basisLeadTime: nat, split: nat,
    gapSum: real, gapSamples: nat)

  const ZERO := Funnel(0, 0, 0, 0, 0, 0, 0, 0, 0, 0, 0, 0, 0.0, 0)

  datatype Acc = Acc(funnel: Funnel, repromised: nat)

  function Value(a: Acc, c: Column): nat {
    match c
    case Received => a.funnel.received
    case Allocated_ => a.funnel.allocated_
    case PartiallyAllocated => a.funnel.partially
    case AllocationFailed => a.funnel.failed
    case Released_ => a.funnel.released
    case Cancelled_ => a.funnel.cancelled
    case LineAllocated => a.funnel.lineAllocated
    case LineBackordered => a.funnel.lineBackordered
    case LineReleased => a.funnel.lineReleased
    case Repromised => a.repromised
    case BasisCapability => a.funnel.basisCapability
    case BasisLeadTime => a.funnel.basisLeadTime
    case Split => a.funnel.split
  }

  function Bump(f: Funnel, c: Column): Funnel {
    match c
    case Received => f.(received := f.received + 1)
    case Allocated_ => f.(allocated_ := f.allocated_ + 1)
    case PartiallyAllocated => f.(partially := f.partially + 1)
    case AllocationFailed => f.(failed := f.failed + 1)
    case Released_ => f.(released := f.released + 1)
    case Cancelled_ => f.(cancelled := f.cancelled + 1)
    case LineAllocated => f.(lineAllocated := f.lineAllocated + 1)
    case LineBackordered => f.(lineBackordered := f.lineBackordered + 1)
    case LineReleased => f.(lineReleased := f.lineReleased + 1)
    case BasisCapability => f.(basisCapability := f.basisCapability + 1)
    case BasisLeadTime => f.(basisLeadTime := f.basisLeadTime + 1)
    case Split => f.(split := f.split + 1)
    case Repromised => f
  }

  /** The promise facts, on the same row as the stage of the outcome. */
  function WithPromiseFacts(f: Funnel, e: Event): Funnel
    requires e.fact.Outcome?
  {
    var f := if e.fact.basis == "Capability" then Bump(f, BasisCapability)
             else if e.fact.basis == "LeadTime" then Bump(f, BasisLeadTime) else f;
    var f := if e.fact.split then Bump(f, Split) else f;
    if HasGap(e) then f.(gapSum := f.gapSum + Gap(e), gapSamples := f.gapSamples + 1) else f
  }

  function Counted(a: Acc, e: Event): Acc {
    match e.fact
    case Simple(c) => a.(funnel := Bump(a.funnel, c))
    case Outcome(c, _, _, _) => a.(funnel := WithPromiseFacts(Bump(a.funnel, c), e))
    case Moved => a.(repromised := a.repromised + 1)
  }

  // ---------------------------------------------------------------- the single-map store

  datatype Memory = Memory(seen: set<string>, rows: map<RowKey, Acc>)

  function RowIn(rows: map<RowKey, Acc>, k: RowKey): Acc {
    if k in rows then rows[k] else Acc(ZERO, 0)
  }

  function MemoryApply(m: Memory, e: Event): Memory {
    if e.id in m.seen then m
    else Memory(m.seen + {e.id}, m.rows[KeyOf(e) := Counted(RowIn(m.rows, KeyOf(e)), e)])
  }

  class MemoryStore {
    var seen: set<string>
    var rows: map<RowKey, Acc>
    var latest: Instant

    constructor ()
      ensures Contents() == Memory({}, map[])
    {
      seen, rows, latest := {}, map[], 0;
    }

    function Contents(): Memory
      reads this
    {
      Memory(seen, rows)
    }

    /** Marks the event as seen and advances the freshness watermark. */
    method FirstApply(e: Event) returns (first: bool)
      modifies this`seen, this`latest
      ensures first == (e.id !in old(seen)) && seen == old(seen) + {e.id}
      ensures latest == if first && e.at > old(latest) then e.at else old(latest)
    {
      if e.id in seen { return false; }
      seen := seen + {e.id};
      if e.at > latest { latest := e.at; }
      return true;
    }

    method ApplyPromiseKPIs(funnel: Funnel, e: Event) returns (f: Funnel)
      requires e.fact.Outcome?
      ensures f == WithPromiseFacts(funnel, e)
    {
      f := funnel;
      match e.fact.basis {
        case "Capability" => f := f.(basisCapability := f.basisCapability + 1);
        case "LeadTime" => f := f.(basisLeadTime := f.basisLeadTime + 1);
        case _ =>
      }
      if e.fact.split { f := f.(split := f.split + 1); }
      if e.fact.basis == "Capability" && e.fact.cutoffAt.Some? {
        f := f.(gapSum := f.gapSum + Seconds(e.fact.cutoffAt.value - e.at), gapSamples := f.gapSamples + 1);
      }
    }

    method Apply(e: Event)
      requires WellFormed(e)
      modifies this
      ensures Contents() == MemoryApply(old(Contents()), e)
    {
      var first := FirstApply(e);
      if !first {
        assert seen == old(seen);
        return;
      }
      var k := RowKey(if e.fact.Moved? then "" else e.pathId, HourBucket(e.at));
      var r := if k in rows then rows[k] else Acc(ZERO, 0);
      match e.fact {
        case Simple(c) => r := r.(funnel := Bump(r.funnel, c));
        case Moved => r := r.(repromised := r.repromised + 1);
        case Outcome(c, _, _, _) =>
          var f := ApplyPromiseKPIs(Bump(r.funnel, c), e);
          r := r.(funnel := f);
      }
      rows := rows[k := r];
    }
  }

  // ---------------------------------------------------------------- the two-table projection

  datatype Tables = Tables(processed: set<string>, funnel: map<RowKey, Funnel>, repromise: map<Instant, nat>)

  function FunnelIn(funnel: map<RowKey, Funnel>, k: RowKey): Funnel {
    if k in funnel then funnel[k] else ZERO
  }

  function RepromisesIn(repromise: map<Instant, nat>, hour: Instant): nat {
    if hour in repromise then repromise[hour] else 0
  }

  function TablesApply(t: Tables, e: Event): Tables {
    if e.id in t.processed then t
    else if e.fact.Moved? then
      Tables(t.processed + {e.id}, t.funnel,
        t.repromise[HourBucket(e.at) := RepromisesIn(t.repromise, HourBucket(e.at)) + 1])
    else
      Tables(t.processed + {e.id},
        t.funnel[KeyOf(e) := Counted(Acc(FunnelIn(t.funnel, KeyOf(e)), 0), e).funnel], t.repromise)
  }

  class PostgresProjection {
    var processed: set<string>
    var funnel: map<RowKey, Funnel>
    var repromise: map<Instant, nat>

    constructor ()
      ensures Contents() == Tables({}, map[], map[])
    {
      processed, funnel, repromise := {}, map[], map[];
    }

    function Contents(): Tables
      reads this
    {
      Tables(processed, funnel, repromise)
    }

    /** Claim and effect commit together; a failure of either leaves nothing. */
    method Apply(e: Event, commits: bool) returns (ok: bool)
      requires WellFormed(e)
      modifies this
      ensures ok == commits
      ensures Contents() == if commits then TablesApply(old(Contents()), e) else old(Contents())
    {
      if !commits { return false; }
      if e.id in processed { return true; }
      processed := processed + {e.id};
      if e.fact.Moved? {
        ApplyRepromised(e);
      } else if e.fact.Simple? {
        ApplyCount(e);
      } else {
        ApplyAllocationOutcome(e);
      }
      return true;
    }

    method ApplyCount(e: Event)
      requires e.fact.Simple?
      modifies this`funnel
      ensures funnel == old(funnel)[KeyOf(e) := Counted(Acc(FunnelIn(old(funnel), KeyOf(e)), 0), e).funnel]
    {
      var k := RowKey(e.pathId, HourBucket(e.at));
      if k !in funnel { funnel := funnel[k := ZERO]; }
      funnel := funnel[k := Bump(funnel[k], e.fact.column)];
    }

    /** One upsert that adds every fact of the outcome at once. */
    method ApplyAllocationOutcome(e: Event)
      requires e.fact.Outcome? && OutcomeColumn(e.fact.column)
      modifies this`funnel
      ensures funnel == old(funnel)[KeyOf(e) := Counted(Acc(FunnelIn(old(funnel), KeyOf(e)), 0), e).funnel]
    {
      var k := RowKey(e.pathId, HourBucket(e.at));
      var basisCapability, basisLeadTime, split, gapSeconds, gapSamples := 0, 0, 0, 0.0, 0;
      match e.fact.basis {
        case "Capability" => basisCapability := 1;
        case "LeadTime" => basisLeadTime := 1;
        case _ =>
      }
      if e.fact.split { split := 1; }
      if e.fact.basis == "Capability" && e.fact.cutoffAt.Some? {
        gapSeconds := Seconds(e.fact.cutoffAt.value - e.at);
        gapSamples := 1;
      }
      var f := Bump(FunnelIn(funnel, k), e.fact.column);
      funnel := funnel[k := f.(basisCapability := f.basisCapability + basisCapability,
        basisLeadTime := f.basisLeadTime + basisLeadTime, split := f.split + split,
        gapSum := f.gapSum + gapSeconds, gapSamples := f.gapSamples + gapSamples)];
    }

    method ApplyRepromised(e: Event)
      requires e.fact.Moved?
      modifies this`repromise
      ensures repromise == old(repromise)[HourBucket(e.at) := RepromisesIn(old(repromise), HourBucket(e.at)) + 1]
    {
      var bucket := HourBucket(e.at);
      if bucket in repromise {
        repromise := repromise[bucket := repromise[bucket] + 1];
      } else {
        repromise := repromise[bucket := 1];
      }
    }
  }

  // ---------------------------------------------------------------- the two queries

  /** From inclusive, to exclusive; an empty path means no filter on paths. */
  datatype Query = Query(from: Instant, to: Instant, pathId: string)

  /** A reported row; the mean gap is zero without samples. */
  datatype Row = Row(key: RowKey, counts: Acc, gapSeconds: real, gapSamples: nat)

  predicate InWindow(q: Query, hour: Instant) {
    q.from <= hour < q.to
  }

  predicate Matches(q: Query, k: RowKey) {
    InWindow(q, k.hour) && (q.pathId == "" || k.pathId == q.pathId)
  }

  /** The report shows the mean and the number of samples, not the sum. */
  function RowOf(k: RowKey, f: Funnel, repromised: nat): Row {
    Row(k, Acc(f.(gapSum := 0.0), repromised),
      if f.gapSamples > 0 then f.gapSum / f.gapSamples as real else 0.0, f.gapSamples)
  }

  function MemoryQuery(m: Memory, q: Query): set<Row> {
    set k | k in m.rows && Matches(q, k) :: RowOf(k, m.rows[k].funnel, m.rows[k].repromised)
  }

  /** The funnel rows, each with the repromises of its hour if it is the row without a path. */
  function FunnelPart(t: Tables, q: Query): set<Row> {
    set k | k in t.funnel && Matches(q, k) ::
      RowOf(k, t.funnel[k], if k.pathId == "" then RepromisesIn(t.repromise, k.hour) else 0)
  }

  /** The hours that have repromises and no funnel row without a path, unless a real path is asked for. */
  function RepromiseOnlyPart(t: Tables, q: Query): set<Row> {
    set h | h in t.repromise && InWindow(q, h) && q.pathId == "" && RowKey("", h) !in t.funnel ::
      RowOf(RowKey("", h), ZERO, t.repromise[h])
  }

  function TablesQuery(t: Tables, q: Query): set<Row> {
    FunnelPart(t, q) + RepromiseOnlyPart(t, q)
  }
}
