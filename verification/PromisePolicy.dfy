/** The promise search: earliest window that fits, latest window by a deadline, and the grouping of
    lines by the promise each one can make. Instants and durations are integers in nanoseconds. */
module PromisePolicies {
  import opened Wrappers
  import opened Orders

  datatype CPTWindow = CPTWindow(cptId: string, cutoffAt: Instant, eligiblePathIds: seq<PathId>)

  const HOUR: Duration := 3_600_000_000_000
  const DEFAULT_LEAD_TIME: Duration := 48 * HOUR
  const DEFAULT_CPT_HORIZON := 10

  datatype LeadTimePolicy = LeadTimePolicy(byDefault: Duration, perPath: map<PathId, Duration>)

  /** `None` stands for an input that is not wired. A schedule, a cycle time or a capacity that is
      wired may still answer `None`, meaning unknown. The schedule loads its time zone anew for every
      search; `zone` is the zone object that the search for a line gets. UTC and the local zone of the
      process are shared objects; of any other zone each search gets one of its own. */
  datatype Policy = Policy(
    schedule: Option<(string, Instant, int) -> Option<seq<CPTWindow>>>,
    capability: Option<PathId -> Option<Duration>>,
    capacity: Option<(PathId, string, Instant) -> Option<int>>,
    fallback: LeadTimePolicy,
    siteId: string,
    horizon: int,
    zone: int -> int)

  // ---------------------------------------------------------------- lead time

  function LeadTimeFor(p: LeadTimePolicy, path: PathId): (d: Duration)
    ensures d > 0
  {
    if path in p.perPath && p.perPath[path] > 0 then p.perPath[path]
    else if p.byDefault > 0 then p.byDefault
    else DEFAULT_LEAD_TIME
  }

  predicate Counts(l: Line) {
    l.status == Allocated || l.status == Released
  }

  /** The allocated or released lines, in line order. */
  function Promisable(lines: seq<Line>): seq<Line> {
    if lines == [] then []
    else
      var n := |lines| - 1;
      Promisable(lines[..n]) + (if Counts(lines[n]) then [lines[n]] else [])
  }

  lemma {:induction false} PromisableMembers(lines: seq<Line>)
    ensures forall l :: l in Promisable(lines) <==> l in lines && Counts(l)
  {
    if lines != [] {
      var n := |lines| - 1;
      assert lines == lines[..n] + [lines[n]];
      PromisableMembers(lines[..n]);
    }
  }

  /** The slowest lead time among the given lines that count. */
  function SlowestLead(p: LeadTimePolicy, lines: seq<Line>): (d: Duration)
    ensures forall l :: l in lines && Counts(l) ==> LeadTimeFor(p, l.pathId) <= d
    ensures (exists l :: l in lines && Counts(l) && LeadTimeFor(p, l.pathId) == d)
         || (d == 0 && forall l :: l in lines ==> !Counts(l))
  {
    if lines == [] then 0
    else
      var n := |lines| - 1;
      assert lines == lines[..n] + [lines[n]];
      var d := SlowestLead(p, lines[..n]);
      if Counts(lines[n]) && LeadTimeFor(p, lines[n].pathId) > d then LeadTimeFor(p, lines[n].pathId) else d
  }

  function LeadTimeDate(p: LeadTimePolicy, now: Instant, lines: seq<Line>): Option<Instant> {
    if Promisable(lines) == [] then None else Some(now + SlowestLead(p, lines))
  }

  method PromiseDate(p: LeadTimePolicy, now: Instant, lines: seq<Line>) returns (d: Option<Instant>)
    ensures d == LeadTimeDate(p, now, lines)
  {
    var longest := 0;
    var found := false;
    for i := 0 to |lines|
      invariant longest == SlowestLead(p, lines[..i])
      invariant found <==> Promisable(lines[..i]) != []
    {
      assert lines[..i + 1][..i] == lines[..i];
      if lines[i].status != Allocated && lines[i].status != Released { continue; }
      found := true;
      var lead := LeadTimeFor(p, lines[i].pathId);
      if lead > longest { longest := lead; }
    }
    assert lines[..|lines|] == lines;
    return if found then Some(now + longest) else None;
  }

  // ---------------------------------------------------------------- windows

  /** The three conditions a line must meet to make a window. */
  predicate LineFits(p: Policy, now: Instant, l: Line, w: CPTWindow)
    requires p.capability.Some?
  {
    && l.pathId in w.eligiblePathIds
    && p.capability.value(l.pathId).Some?
    && now + p.capability.value(l.pathId).value <= w.cutoffAt
    && (p.capacity.Some? && p.capacity.value(l.pathId, w.cptId, w.cutoffAt).Some? ==>
          l.quantity <= p.capacity.value(l.pathId, w.cptId, w.cutoffAt).value)
  }

  predicate LinesFit(p: Policy, now: Instant, lines: seq<Line>, w: CPTWindow)
    requires p.capability.Some?
  {
    forall i :: 0 <= i < |lines| ==> LineFits(p, now, lines[i], w)
  }

  function Horizon(p: Policy): int {
    if p.horizon > 0 then p.horizon else DEFAULT_CPT_HORIZON
  }

  /** The windows to search, or `None` when an input is missing or the schedule has nothing to offer. */
  function Offered(p: Policy, now: Instant): (r: Option<seq<CPTWindow>>)
    ensures r.Some? ==> p.capability.Some? && r.value != []
  {
    if p.schedule.None? || p.capability.None? then None
    else
      match p.schedule.value(p.siteId, now, Horizon(p))
      case None => None
      case Some(ws) => if ws == [] then None else Some(ws)
  }

  /** The first window at or after `from` that every line fits, or the number of windows. */
  function FirstFit(p: Policy, now: Instant, lines: seq<Line>, ws: seq<CPTWindow>, from: nat): (k: nat)
    requires p.capability.Some?
    requires from <= |ws|
    ensures from <= k <= |ws|
    ensures k < |ws| ==> LinesFit(p, now, lines, ws[k])
    ensures forall j :: from <= j < k ==> !LinesFit(p, now, lines, ws[j])
    decreases |ws| - from
  {
    if from == |ws| || LinesFit(p, now, lines, ws[from]) then from
    else FirstFit(p, now, lines, ws, from + 1)
  }

  function Fallback(p: Policy, now: Instant, lines: seq<Line>): Option<Promise> {
    match LeadTimeDate(p.fallback, now, lines)
    case None => None
    case Some(d) => Some(Promise("", d, LeadTime))
  }

  /** The search shared by the whole-order promise and the per-line one. */
  function Search(p: Policy, now: Instant, lines: seq<Line>, otherwise: Option<Promise>): Option<Promise> {
    match Offered(p, now)
    case None => otherwise
    case Some(ws) =>
      var k := FirstFit(p, now, lines, ws, 0);
      if k == |ws| then otherwise else Some(Promise(ws[k].cptId, ws[k].cutoffAt, Capability))
  }

  /** The promise of the order as a whole: the earliest offered window all its allocated lines make. */
  function PromiseOf(p: Policy, now: Instant, s: OrderState): Option<Promise> {
    var lines := Promisable(s.lines);
    if lines == [] then None else Search(p, now, lines, Fallback(p, now, s.lines))
  }

  /** Reuses the whole-order fallback when the subset is the whole set, and otherwise falls back on
      a throwaway order that has only the subset. */
  function FallbackForLines(p: Policy, now: Instant, s: OrderState, lines: seq<Line>): Option<Promise> {
    if |lines| == |Promisable(s.lines)| then Fallback(p, now, s.lines) else Fallback(p, now, lines)
  }

  function PromiseForLines(p: Policy, now: Instant, s: OrderState, lines: seq<Line>): Option<Promise> {
    if lines == [] then None else Search(p, now, lines, FallbackForLines(p, now, s, lines))
  }

  // ---------------------------------------------------------------- feasibility by a deadline

  predicate Qualifies(p: Policy, now: Instant, lines: seq<Line>, w: CPTWindow, deadline: Instant)
    requires p.capability.Some?
  {
    w.cutoffAt <= deadline && LinesFit(p, now, lines, w)
  }

  /** The position of the first qualifying window among those with the latest cutoff. */
  function BestBy(p: Policy, now: Instant, lines: seq<Line>, ws: seq<CPTWindow>, deadline: Instant): (r: Option<nat>)
    requires p.capability.Some?
    ensures r.Some? ==> r.value < |ws| && Qualifies(p, now, lines, ws[r.value], deadline)
    ensures forall j :: 0 <= j < |ws| && Qualifies(p, now, lines, ws[j], deadline) ==>
              r.Some? && ws[j].cutoffAt <= ws[r.value].cutoffAt
  {
    if ws == [] then None
    else
      var n := |ws| - 1;
      var best := BestBy(p, now, lines, ws[..n], deadline);
      if Qualifies(p, now, lines, ws[n], deadline) && (best.None? || ws[n].cutoffAt > ws[best.value].cutoffAt)
      then Some(n)
      else best
  }

  function FeasibleBy(p: Policy, now: Instant, s: OrderState, deadline: Instant): Option<Promise> {
    var lines := Promisable(s.lines);
    if lines == [] then None
    else
      match Offered(p, now)
      case None => None
      case Some(ws) =>
        match BestBy(p, now, lines, ws, deadline)
        case None => None
        case Some(k) => Some(Promise(ws[k].cptId, ws[k].cutoffAt, Network))
  }

  method AllocatedLines(s: OrderState) returns (out: seq<Line>)
    ensures out == Promisable(s.lines)
  {
    out := [];
    for i := 0 to |s.lines|
      invariant out == Promisable(s.lines[..i])
    {
      assert s.lines[..i + 1][..i] == s.lines[..i];
      if s.lines[i].status == Allocated || s.lines[i].status == Released {
        out := out + [s.lines[i]];
      }
    }
    assert s.lines[..|s.lines|] == s.lines;
  }

  method SearchFeasibleBy(p: Policy, now: Instant, s: OrderState, deadline: Instant) returns (r: Option<Promise>)
    ensures r == FeasibleBy(p, now, s, deadline)
  {
    var lines := AllocatedLines(s);
    if lines == [] { return None; }
    var windows := Offered(p, now);
    if windows.None? { return None; }
    var ws := windows.value;
    var best: Option<Promise> := None;
    ghost var at: Option<nat> := None;
    for i := 0 to |ws|
      invariant at == BestBy(p, now, lines, ws[..i], deadline)
      invariant best == if at.None? then None else Some(Promise(ws[at.value].cptId, ws[at.value].cutoffAt, Network))
    {
      assert ws[..i + 1][..i] == ws[..i];
      if ws[i].cutoffAt > deadline { continue; }
      if !LinesFit(p, now, lines, ws[i]) { continue; }
      if best.None? || ws[i].cutoffAt > best.value.cutoffAt {
        best := Some(Promise(ws[i].cptId, ws[i].cutoffAt, Network));
        at := Some(i);
      }
    }
    assert ws[..|ws|] == ws;
    return best;
  }

  // ---------------------------------------------------------------- groups

  /** A promise as a map key. Times compare with the zone object they carry, so that equal cutoffs of
      two searches make different keys unless both carry the same one. */
  datatype Key = Key(promise: Promise, zone: int)

  /** A window's cutoff carries the zone object of its search; any other promise carries that of the
      clock, which is one and the same for all lines. */
  function KeyFor(p: Policy, lineNo: int, promise: Promise): Key {
    Key(promise, if promise.basis == Capability then p.zone(lineNo) else 0)
  }

  /** A line number with the promise computed for that line alone, as a key. */
  datatype Keyed = Keyed(lineNo: int, key: Key)

  /** The lines that have come with one key. */
  datatype Bin = Bin(lineNos: seq<int>, key: Key)

  /** The bin that already has the key, or the number of bins. */
  function BinAt(bins: seq<Bin>, key: Key, from: nat): (j: nat)
    requires from <= |bins|
    ensures from <= j <= |bins|
    ensures j < |bins| ==> bins[j].key == key
    ensures forall i :: from <= i < j ==> bins[i].key != key
    decreases |bins| - from
  {
    if from == |bins| || bins[from].key == key then from else BinAt(bins, key, from + 1)
  }

  function AddToBins(bins: seq<Bin>, k: Keyed): seq<Bin> {
    var j := BinAt(bins, k.key, 0);
    if j == |bins| then bins + [Bin([k.lineNo], k.key)]
    else bins[j := bins[j].(lineNos := bins[j].lineNos + [k.lineNo])]
  }

  predicate DistinctKeys(bins: seq<Bin>) {
    forall i, j :: 0 <= i < j < |bins| ==> bins[i].key != bins[j].key
  }

  function Binned(ks: seq<Keyed>): seq<Bin> {
    if ks == [] then [] else AddToBins(Binned(ks[..|ks| - 1]), ks[|ks| - 1])
  }

  function GroupsOf(bins: seq<Bin>): (r: seq<PromiseGroup>)
    ensures |r| == |bins|
  {
    seq(|bins|, i requires 0 <= i < |bins| => PromiseGroup(bins[i].lineNos, bins[i].key.promise))
  }

  lemma {:induction false} GroupsOfAdded(bins: seq<Bin>, k: Keyed)
    ensures
      var j, groups := BinAt(bins, k.key, 0), GroupsOf(bins);
      GroupsOf(AddToBins(bins, k))
        == if j == |bins| then groups + [PromiseGroup([k.lineNo], k.key.promise)]
           else groups[j := groups[j].(lineNos := groups[j].lineNos + [k.lineNo])]
  {
  }

  function Grouped(ks: seq<Keyed>): seq<PromiseGroup> {
    GroupsOf(Binned(ks))
  }

  /** The promise of every line by itself; `None` as soon as one line has none. */
  function PerLine(p: Policy, now: Instant, s: OrderState, lines: seq<Line>): (r: Option<seq<Keyed>>)
    ensures r.Some? ==> |r.value| == |lines|
    ensures r.Some? ==> forall i :: 0 <= i < |lines| ==>
              PromiseForLines(p, now, s, [lines[i]]) == Some(r.value[i].key.promise)
              && r.value[i] == Keyed(lines[i].lineNo, KeyFor(p, lines[i].lineNo, r.value[i].key.promise))
  {
    if lines == [] then Some([])
    else
      var n := |lines| - 1;
      match PerLine(p, now, s, lines[..n])
      case None => None
      case Some(ks) =>
        match PromiseForLines(p, now, s, [lines[n]])
        case None => None
        case Some(promise) => Some(ks + [Keyed(lines[n].lineNo, KeyFor(p, lines[n].lineNo, promise))])
  }

  function PromiseGroupsOf(p: Policy, now: Instant, s: OrderState): Option<seq<PromiseGroup>> {
    var lines := Promisable(s.lines);
    if lines == [] then None
    else if !s.allowPartial then
      match PromiseForLines(p, now, s, lines)
      case None => None
      case Some(promise) => Some([PromiseGroup(LineNos(lines), promise)])
    else
      match PerLine(p, now, s, lines)
      case None => None
      case Some(ks) => Some(Grouped(ks))
  }

  method ComputePromiseGroups(p: Policy, now: Instant, s: OrderState) returns (r: Option<seq<PromiseGroup>>)
    ensures r == PromiseGroupsOf(p, now, s)
  {
    var lines := AllocatedLines(s);
    if lines == [] { return None; }
    if !s.allowPartial {
      var promise := PromiseForLines(p, now, s, lines);
      if promise.None? { return None; }
      return Some([PromiseGroup(LineNos(lines), promise.value)]);
    }
    var perLine := PromisePerLine(p, now, s, lines);
    if perLine.None? { return None; }
    var groups := GroupByPromise(perLine.value);
    return Some(groups);
  }

  method PromisePerLine(p: Policy, now: Instant, s: OrderState, lines: seq<Line>) returns (r: Option<seq<Keyed>>)
    ensures r == PerLine(p, now, s, lines)
  {
    var perLine: seq<Keyed> := [];
    for i := 0 to |lines|
      invariant PerLine(p, now, s, lines[..i]) == Some(perLine)
    {
      assert lines[..i + 1][..i] == lines[..i];
      var promise := PromiseForLines(p, now, s, [lines[i]]);
      if promise.None? {
        assert PerLine(p, now, s, lines).None?;
        return None;
      }
      perLine := perLine + [Keyed(lines[i].lineNo, KeyFor(p, lines[i].lineNo, promise.value))];
    }
    assert lines[..|lines|] == lines;
    return Some(perLine);
  }

  /** Partitions by key, with an index from each key to the position of its group. */
  method GroupByPromise(perLine: seq<Keyed>) returns (groups: seq<PromiseGroup>)
    ensures groups == Grouped(perLine)
  {
    groups := [];
    var index: map<Key, int> := map[];
    ghost var bins: seq<Bin> := [];
    for i := 0 to |perLine|
      invariant bins == Binned(perLine[..i]) && groups == GroupsOf(bins)
      invariant DistinctKeys(bins)
      invariant forall q :: q in index ==> 0 <= index[q] < |bins| && bins[index[q]].key == q
      invariant forall j :: 0 <= j < |bins| ==> bins[j].key in index
    {
      assert perLine[..i + 1][..i] == perLine[..i];
      var k := perLine[i];
      GroupsOfAdded(bins, k);
      if k.key in index {
        var j := index[k.key];
        assert BinAt(bins, k.key, 0) == j;
        groups := groups[j := groups[j].(lineNos := groups[j].lineNos + [k.lineNo])];
      } else {
        assert BinAt(bins, k.key, 0) == |bins|;
        index := index[k.key := |groups|];
        groups := groups + [PromiseGroup([k.lineNo], k.key.promise)];
      }
      bins := AddToBins(bins, k);
    }
    assert perLine[..|perLine|] == perLine;
  }
}
