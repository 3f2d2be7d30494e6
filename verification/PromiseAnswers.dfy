/** What an order is promised, told from the windows, cycle times, capacities and lead times alone. */
module PromiseAnswers {
  import opened Wrappers
  import opened Orders
  import opened PromisePolicies
  import opened PromiseTheorems
  import opened Allocation
  import opened PassOutcome

  // ---------------------------------------------------------------- the inputs

  /** The line can leave with the window: the window takes its path, its path's cycle time is known and
      ends by the cutoff, and where the path's remaining capacity is known the quantity is within it. */
  predicate MakesWindow(p: Policy, now: Instant, l: Line, w: CPTWindow) {
    && l.pathId in w.eligiblePathIds
    && p.capability.Some? && p.capability.value(l.pathId).Some?
    && w.cutoffAt - now >= p.capability.value(l.pathId).value
    && (p.capacity.None? || p.capacity.value(l.pathId, w.cptId, w.cutoffAt).None?
        || l.quantity <= p.capacity.value(l.pathId, w.cptId, w.cutoffAt).value)
  }

  predicate Counted(l: Line) {
    l.status in {Allocated, Released}
  }

  /** Every allocated or released line can leave with the window. */
  predicate OrderMakes(p: Policy, now: Instant, lines: seq<Line>, w: CPTWindow) {
    forall i :: 0 <= i < |lines| && Counted(lines[i]) ==> MakesWindow(p, now, lines[i], w)
  }

  /** The windows that the schedule has for the site: none without a schedule or cycle times, or when it
      knows of none. It is asked for as many as configured, or for ten. */
  function WindowsFor(p: Policy, now: Instant): seq<CPTWindow> {
    if p.schedule.None? || p.capability.None? then []
    else
      var n := if p.horizon >= 1 then p.horizon else 10;
      match p.schedule.value(p.siteId, now, n)
      case None => []
      case Some(ws) => ws
  }

  lemma {:induction false} OfferedIs(p: Policy, now: Instant)
    ensures Offered(p, now) == if WindowsFor(p, now) == [] then None else Some(WindowsFor(p, now))
  {
  }

  lemma {:induction false} CountedAreListed(lines: seq<Line>)
    ensures forall l :: l in Promisable(lines) <==> l in lines && Counted(l)
    ensures Promisable(lines) != [] <==> exists i :: 0 <= i < |lines| && Counted(lines[i])
  {
    PromisableMembers(lines);
    if exists i :: 0 <= i < |lines| && Counted(lines[i]) {
      var i :| 0 <= i < |lines| && Counted(lines[i]);
      assert lines[i] in Promisable(lines);
    } else if Promisable(lines) != [] {
      var l := Promisable(lines)[0];
      assert l in Promisable(lines);
    }
  }

  lemma {:induction false} FitsIff(p: Policy, now: Instant, lines: seq<Line>, w: CPTWindow)
    requires p.capability.Some?
    ensures LinesFit(p, now, Promisable(lines), w) <==> OrderMakes(p, now, lines, w)
  {
    CountedAreListed(lines);
    var ls := Promisable(lines);
    if OrderMakes(p, now, lines, w) {
      forall i | 0 <= i < |ls| ensures LineFits(p, now, ls[i], w) {
        assert ls[i] in ls;
        var k :| 0 <= k < |lines| && lines[k] == ls[i];
      }
    }
    if LinesFit(p, now, ls, w) {
      forall k | 0 <= k < |lines| && Counted(lines[k]) ensures MakesWindow(p, now, lines[k], w) {
        assert lines[k] in ls;
        var i :| 0 <= i < |ls| && ls[i] == lines[k];
      }
    }
  }

  // ---------------------------------------------------------------- the promise of an order

  const TWO_DAYS: Duration := 2 * 24 * 60 * 60 * 1_000_000_000

  /** A path's own lead time if one is configured, else the configured one for all, else two days; only
      positive ones are configured. */
  predicate IsLeadTime(p: LeadTimePolicy, path: PathId, d: Duration) {
    if path in p.perPath && p.perPath[path] >= 1 then d == p.perPath[path]
    else d == if p.byDefault >= 1 then p.byDefault else TWO_DAYS
  }

  /** The lead time of the slowest allocated or released line. */
  ghost predicate IsSlowest(p: LeadTimePolicy, lines: seq<Line>, d: Duration) {
    && (exists i :: 0 <= i < |lines| && Counted(lines[i]) && IsLeadTime(p, lines[i].pathId, d))
    && forall i, e :: 0 <= i < |lines| && Counted(lines[i]) && IsLeadTime(p, lines[i].pathId, e) ==> e <= d
  }

  ghost predicate SomeCounted(lines: seq<Line>) {
    exists i :: 0 <= i < |lines| && Counted(lines[i])
  }

  /** The window at `k` is the first that the whole order makes. */
  predicate FirstMade(p: Policy, now: Instant, lines: seq<Line>, k: nat) {
    var ws := WindowsFor(p, now);
    k < |ws| && OrderMakes(p, now, lines, ws[k]) && forall j :: 0 <= j < k ==> !OrderMakes(p, now, lines, ws[j])
  }

  ghost predicate IsPromise(p: Policy, now: Instant, lines: seq<Line>, r: Promise) {
    || (exists k: nat :: FirstMade(p, now, lines, k)
          && r == Promise(WindowsFor(p, now)[k].cptId, WindowsFor(p, now)[k].cutoffAt, Capability))
    || ((forall k: nat :: !FirstMade(p, now, lines, k))
          && exists d :: IsSlowest(p.fallback, lines, d) && r == Promise("", now + d, LeadTime))
  }

  lemma {:induction false} LeadTimeIs(p: LeadTimePolicy, path: PathId)
    ensures forall d :: IsLeadTime(p, path, d) <==> d == LeadTimeFor(p, path)
  {
  }

  lemma {:induction false} SlowestIs(p: LeadTimePolicy, lines: seq<Line>)
    requires SomeCounted(lines)
    ensures IsSlowest(p, lines, SlowestLead(p, lines))
  {
    var d := SlowestLead(p, lines);
    var c :| 0 <= c < |lines| && Counted(lines[c]);
    LeadTimeIs(p, lines[c].pathId);
    assert lines[c] in lines;
    var l :| l in lines && Counts(l) && LeadTimeFor(p, l.pathId) == d;
    var i :| 0 <= i < |lines| && lines[i] == l;
    LeadTimeIs(p, l.pathId);
    forall i, e | 0 <= i < |lines| && Counted(lines[i]) && IsLeadTime(p, lines[i].pathId, e) ensures e <= d {
      LeadTimeIs(p, lines[i].pathId);
      assert lines[i] in lines;
    }
  }

  lemma {:induction false} FirstFitIs(p: Policy, now: Instant, lines: seq<Line>) returns (k: nat)
    requires Offered(p, now).Some?
    ensures k == FirstFit(p, now, Promisable(lines), WindowsFor(p, now), 0) && Offered(p, now) == Some(WindowsFor(p, now))
    ensures k < |WindowsFor(p, now)| ==> FirstMade(p, now, lines, k)
    ensures k == |WindowsFor(p, now)| ==> forall j: nat :: !FirstMade(p, now, lines, j)
  {
    OfferedIs(p, now);
    var ws := WindowsFor(p, now);
    k := FirstFit(p, now, Promisable(lines), ws, 0);
    forall j | 0 <= j < |ws| ensures LinesFit(p, now, Promisable(lines), ws[j]) <==> OrderMakes(p, now, lines, ws[j]) {
      FitsIff(p, now, lines, ws[j]);
    }
  }

  /** An order is promised if and only if some line is allocated or released: the first window offered that
      all such lines make, or, if there is none, the lead time of the slowest. */
  lemma {:induction false} PromiseIs(p: Policy, now: Instant, s: OrderState)
    ensures PromiseOf(p, now, s).Some? <==> SomeCounted(s.lines)
    ensures PromiseOf(p, now, s).Some? ==> IsPromise(p, now, s.lines, PromiseOf(p, now, s).value)
  {
    CountedAreListed(s.lines);
    if SomeCounted(s.lines) {
      SlowestIs(p.fallback, s.lines);
      var d := SlowestLead(p.fallback, s.lines);
      OfferedIs(p, now);
      if Offered(p, now).Some? {
        var k := FirstFitIs(p, now, s.lines);
      }
    }
  }

  // ---------------------------------------------------------------- a promise by a deadline

  /** The whole order makes the window, which is no later than the deadline. */
  predicate MadeBy(p: Policy, now: Instant, lines: seq<Line>, deadline: Instant, w: CPTWindow) {
    w in WindowsFor(p, now) && w.cutoffAt <= deadline && OrderMakes(p, now, lines, w)
  }

  ghost predicate Feasible(p: Policy, now: Instant, lines: seq<Line>, deadline: Instant) {
    SomeCounted(lines) && exists w :: MadeBy(p, now, lines, deadline, w)
  }

  /** The latest window by the deadline that the order makes. */
  ghost predicate LatestMadeBy(p: Policy, now: Instant, lines: seq<Line>, deadline: Instant, w: CPTWindow) {
    MadeBy(p, now, lines, deadline, w) && forall v :: MadeBy(p, now, lines, deadline, v) ==> v.cutoffAt <= w.cutoffAt
  }

  lemma {:induction false} QualifiesIff(p: Policy, now: Instant, s: OrderState, deadline: Instant, w: CPTWindow)
    requires Offered(p, now).Some? && w in Offered(p, now).value
    ensures Qualifies(p, now, Promisable(s.lines), w, deadline) <==> MadeBy(p, now, s.lines, deadline, w)
  {
    OfferedIs(p, now);
    FitsIff(p, now, s.lines, w);
  }

  lemma {:induction false} FeasibleByIs(p: Policy, now: Instant, s: OrderState, deadline: Instant) returns (w: CPTWindow)
    ensures FeasibleBy(p, now, s, deadline).Some? <==> Feasible(p, now, s.lines, deadline)
    ensures FeasibleBy(p, now, s, deadline).Some? ==>
              && LatestMadeBy(p, now, s.lines, deadline, w)
              && FeasibleBy(p, now, s, deadline) == Some(Promise(w.cptId, w.cutoffAt, Network))
  {
    CountedAreListed(s.lines);
    OfferedIs(p, now);
    w := CPTWindow("", 0, []);
    if Promisable(s.lines) != [] && Offered(p, now).Some? {
      var ws := Offered(p, now).value;
      var best := BestBy(p, now, Promisable(s.lines), ws, deadline);
      forall v | v in ws ensures Qualifies(p, now, Promisable(s.lines), v, deadline) <==> MadeBy(p, now, s.lines, deadline, v) {
        QualifiesIff(p, now, s, deadline, v);
      }
      if best.Some? {
        w := ws[best.value];
        assert w in ws;
      }
    }
  }

  /** The order carries this one promise, for these lines, and shows it. */
  predicate CarriesOnly(t: OrderState, ns: seq<int>, r: Promise) {
    t.promiseGroups == [PromiseGroup(ns, r)] && SummaryIs(t, r)
  }

  /** Only the promise differs. */
  predicate SameButPromise(s: OrderState, t: OrderState) {
    t == s.(promiseGroups := t.promiseGroups, promiseDate := t.promiseDate, promiseBasis := t.promiseBasis,
            promiseCptId := t.promiseCptId)
  }

  /** Promising an order with a deadline: if some offered window at or before the deadline fits every
      allocated or released line, the order gets the latest of them as a network promise, in one group
      that lists exactly the allocated lines; otherwise it stays as it is. */
  lemma {:induction false} DeadlineOrderIsPromised(s: OrderState, env: Env, deadline: Instant)
    requires s.requiredShipBy == Some(deadline)
    ensures SameButPromise(s, SetPromiseDate(s, env))
    ensures !Feasible(env.policy, env.now, s.lines, deadline) ==> SetPromiseDate(s, env) == s
    ensures Feasible(env.policy, env.now, s.lines, deadline) ==>
              exists w :: LatestMadeBy(env.policy, env.now, s.lines, deadline, w)
                && CarriesOnly(SetPromiseDate(s, env), LineNos(WithStatus(s.lines, Allocated)), Promise(w.cptId, w.cutoffAt, Network))
  {
    var w := FeasibleByIs(env.policy, env.now, s, deadline);
    if Feasible(env.policy, env.now, s.lines, deadline) {
      var g := PromiseGroup(LineNos(WithStatus(s.lines, Allocated)), Promise(w.cptId, w.cutoffAt, Network));
      var groups := [g];
      assert LatestGroup(groups, 1) == 0;
      assert CarriesOnly(SetPromiseDate(s, env), g.lineNos, g.promise);
    }
  }

  /** An order without a promise gets one by its deadline if and only if one is feasible, and then the
      date it shows is the latest cutoff that is. */
  lemma {:induction false} PromisedByDeadlineIff(s: OrderState, env: Env, deadline: Instant)
    requires s.requiredShipBy == Some(deadline) && s.promiseDate.None?
    ensures SetPromiseDate(s, env).promiseDate.Some? <==> Feasible(env.policy, env.now, s.lines, deadline)
    ensures SetPromiseDate(s, env).promiseDate.Some? ==>
              && SetPromiseDate(s, env).promiseBasis == Some(Network)
              && exists w :: LatestMadeBy(env.policy, env.now, s.lines, deadline, w) && SetPromiseDate(s, env).promiseDate == Some(w.cutoffAt)
  {
    DeadlineOrderIsPromised(s, env, deadline);
  }

  /** What a pass of a deadline order leaves, if nothing fails: its promise is that of the order with every
      answer in, by the same rule. */
  lemma {:induction false} PassPromisesByDeadline(s: OrderState, env: Env, just: seq<int>, releases: bool, deadline: Instant)
    requires s.requiredShipBy == Some(deadline)
    ensures
      var settled, t := Settled(s, env, just), Left(s, env, just, releases);
      && (!Feasible(env.policy, env.now, settled.lines, deadline) ==>
            t.promiseGroups == s.promiseGroups && t.promiseDate == s.promiseDate && t.promiseBasis == s.promiseBasis && t.promiseCptId == s.promiseCptId)
      && (Feasible(env.policy, env.now, settled.lines, deadline) ==>
            exists w :: LatestMadeBy(env.policy, env.now, settled.lines, deadline, w)
              && CarriesOnly(t, LineNos(WithStatus(settled.lines, Allocated)), Promise(w.cptId, w.cutoffAt, Network)))
  {
    DeadlineOrderIsPromised(Settled(s, env, just), env, deadline);
  }

  // ---------------------------------------------------------------- a promise without a deadline

  /** The groups of a partial order: each line listed is allocated or released, and the group's promise is
      what that line by itself would be promised. */
  ghost predicate EachByItself(s: OrderState, env: Env, groups: seq<PromiseGroup>) {
    forall j, n :: 0 <= j < |groups| && n in groups[j].lineNos ==>
      && 1 <= n <= |s.lines| && Counted(s.lines[n - 1])
      && IsPromise(env.policy, env.now, [s.lines[n - 1]], groups[j].promise)
  }

  lemma {:induction false} GroupedLines(s: OrderState, env: Env, groups: seq<PromiseGroup>)
    requires s.allowPartial && WellNumbered(s.lines) && PromiseGroupsOf(env.policy, env.now, s) == Some(groups)
    ensures EachByItself(s, env, groups)
  {
    forall j, n | 0 <= j < |groups| && n in groups[j].lineNos
      ensures 1 <= n <= |s.lines| && Counted(s.lines[n - 1])
      ensures IsPromise(env.policy, env.now, [s.lines[n - 1]], groups[j].promise)
    {
      GroupsCarryEachLinesOwnPromise(env.policy, env.now, s, groups, j, n);
      PromiseIs(env.policy, env.now, s.(lines := [s.lines[n - 1]]));
    }
  }

  /** Promising an order without a deadline: if some line is allocated or released, a ship-complete order
      gets one group of all such lines at the promise of the whole order, a partial one groups in which
      each line has the promise it would get by itself; otherwise it stays as it is. What it shows is the
      promise of a latest group. */
  lemma {:induction false} OrdinaryOrderIsPromised(s: OrderState, env: Env)
    requires s.requiredShipBy.None? && WellNumbered(s.lines)
    ensures
      var t := SetPromiseDate(s, env);
      && SameButPromise(s, t)
      && (!SomeCounted(s.lines) ==> t == s)
      && (SomeCounted(s.lines) ==>
            && (exists k :: 0 <= k < |t.promiseGroups| && SummaryIs(t, t.promiseGroups[k].promise))
            && (forall k :: 0 <= k < |t.promiseGroups| ==> t.promiseGroups[k].promise.cutoffAt <= t.promiseDate.value)
            && (s.allowPartial ==> EachByItself(s, env, t.promiseGroups))
            && (!s.allowPartial ==>
                  && |t.promiseGroups| == 1 && t.promiseGroups[0].lineNos == LineNos(Promisable(s.lines))
                  && IsPromise(env.policy, env.now, s.lines, t.promiseGroups[0].promise)))
  {
    var groups := GroupsOfOrdinary(s, env);
    if SomeCounted(s.lines) {
      SummaryDescribesLatestGroup(s, groups.value);
    }
  }

  lemma {:induction false} GroupsOfOrdinary(s: OrderState, env: Env) returns (groups: Option<seq<PromiseGroup>>)
    requires WellNumbered(s.lines)
    ensures groups == PromiseGroupsOf(env.policy, env.now, s) && (groups.Some? <==> SomeCounted(s.lines))
    ensures groups.Some? ==> groups.value != [] && (s.allowPartial ==> EachByItself(s, env, groups.value))
    ensures groups.Some? && !s.allowPartial ==>
              && |groups.value| == 1 && groups.value[0].lineNos == LineNos(Promisable(s.lines))
              && IsPromise(env.policy, env.now, s.lines, groups.value[0].promise)
  {
    groups := PromiseGroupsOf(env.policy, env.now, s);
    CountedAreListed(s.lines);
    PromiseIs(env.policy, env.now, s);
    GroupsExistWhenPromiseDoes(env.policy, env.now, s);
    if groups.Some? {
      SomeGroup(s, env, groups.value);
      if s.allowPartial {
        GroupedLines(s, env, groups.value);
      } else {
        ShipCompleteIsOneGroup(env.policy, env.now, s);
      }
    }
  }

  lemma {:induction false} SomeGroup(s: OrderState, env: Env, groups: seq<PromiseGroup>)
    requires SomeCounted(s.lines) && PromiseGroupsOf(env.policy, env.now, s) == Some(groups)
    ensures groups != []
  {
    CountedAreListed(s.lines);
    if s.allowPartial {
      var ks := GroupsPartitionAllocatedLines(env.policy, env.now, s);
      assert HasBin(Binned(ks), ks[0].key);
    }
  }
}
