/** What one allocation-and-release pass writes: at most one order, which differs from the first only as
    line moves and release allow, and the released lines exactly once. */
module PassTheorems {
  import opened Wrappers
  import opened Orders
  import opened Allocation
  import opened AllocationTheorems

  // ---------------------------------------------------------------- reading a sequence of writes

  /** The orders a sequence of writes stores, in order. */
  function StoresOf(effects: seq<Effect>): seq<OrderState> {
    if effects == [] then []
    else
      var n := |effects| - 1;
      StoresOf(effects[..n]) + (if effects[n].Store? then [effects[n].order] else [])
  }

  /** The order as it is committed after a pass from `s`. */
  function CommittedBy(s: OrderState, o: Outcome): OrderState {
    if o.verdict != Commit || StoresOf(o.effects) == [] then s else Bumped(StoresOf(o.effects)[0])
  }

  /** The line numbers that one event announces as released. */
  function Announces(e: Event): seq<int> {
    match e
    case OrderAllocated(_, _, lines) => ReleasedNos(lines)
    case OrderPartiallyAllocated(_, _, _, _, lines) => ReleasedNos(lines)
    case _ => []
  }

  /** The line numbers that a sequence of writes announces as released, in order. */
  function ReleasedBy(effects: seq<Effect>): seq<int> {
    if effects == [] then []
    else
      var n := |effects| - 1;
      ReleasedBy(effects[..n]) + (if effects[n].Emit? then Announces(effects[n].event) else [])
  }

  lemma Appended(effects: seq<Effect>, e: Effect)
    ensures StoresOf(effects + [e]) == StoresOf(effects) + (if e.Store? then [e.order] else [])
    ensures ReleasedBy(effects + [e]) == ReleasedBy(effects) + (if e.Emit? then Announces(e.event) else [])
  {
    assert (effects + [e])[..|effects|] == effects;
  }

  lemma {:induction false} LineEventsSayNothing(effects: seq<Effect>)
    requires OnlyLineEvents(effects)
    ensures StoresOf(effects) == [] && ReleasedBy(effects) == []
  {
    if effects != [] {
      LineEventsSayNothing(effects[..|effects| - 1]);
    }
  }

  // ---------------------------------------------------------------- what changed between two states

  /** The numbers of the lines that are released in `ks` and were not in `ls`, ascending. */
  function NewlyReleased(ls: seq<Line>, ks: seq<Line>): seq<int>
    requires |ls| == |ks|
  {
    if ls == [] then []
    else
      var n := |ls| - 1;
      NewlyReleased(ls[..n], ks[..n]) + (if ks[n].status == Released && ls[n].status != Released then [n + 1] else [])
  }

  lemma {:induction false} NothingReleased(ls: seq<Line>, ks: seq<Line>)
    requires |ls| == |ks|
    requires forall i :: 0 <= i < |ls| ==> (ls[i].status == Released <==> ks[i].status == Released)
    ensures NewlyReleased(ls, ks) == []
  {
    if ls != [] {
      NothingReleased(ls[..|ls| - 1], ks[..|ks| - 1]);
    }
  }

  /** Releasing every allocated line releases exactly the lines that were allocated. */
  lemma {:induction false} ReleasedAreTheAllocated(ls: seq<Line>, ms: seq<Line>, ks: seq<Line>)
    requires |ls| == |ms| == |ks| && WellNumbered(ms)
    requires forall i :: 0 <= i < |ls| ==> (ls[i].status == Released <==> ms[i].status == Released)
    requires AllAllocatedReleased(ms, ks)
    ensures NewlyReleased(ls, ks) == LineNos(WithStatus(ms, Allocated))
  {
    if ls != [] {
      var n := |ls| - 1;
      ReleasedAreTheAllocated(ls[..n], ms[..n], ks[..n]);
    }
  }

  // ---------------------------------------------------------------- the three kinds of committed pass

  /** How the lines of a stored order came from those the pass started with. */
  ghost predicate LinesFollow(s: OrderState, t: OrderState, mid: seq<Line>, released: bool) {
    && WellNumbered(mid) && Steady(s.lines, mid)
    && if released then Releasable(s.(lines := mid)) && AllAllocatedReleased(mid, t.lines) else t.lines == mid
  }

  /** What the rest of the system relies on about the end of a pass from `s`. */
  ghost predicate PassEnds(s: OrderState, mayRelease: bool, o: Outcome) {
    && |StoresOf(o.effects)| <= 1
    && (StoresOf(o.effects) == [] ==> ReleasedBy(o.effects) == [] && (o.verdict == Commit ==> OnlyLineEvents(o.effects)))
    && (StoresOf(o.effects) != [] ==> StoreFollows(s, mayRelease, StoresOf(o.effects)[0]))
    && (StoresOf(o.effects) != [] && o.verdict == Commit ==>
          ReleasedBy(o.effects) == NewlyReleased(s.lines, StoresOf(o.effects)[0].lines))
  }

  ghost predicate StoreFollows(s: OrderState, mayRelease: bool, t: OrderState) {
    && SameFrame(s, t) && |t.lines| == |s.lines|
    && exists mid, released :: (released ==> mayRelease) && LinesFollow(s, t, mid, released)
  }

  /** Only the lines and the promise of an order differ. */
  predicate SameFrame(s: OrderState, t: OrderState) {
    && t.id == s.id && t.allowPartial == s.allowPartial && t.held == s.held
    && t.requiredShipBy == s.requiredShipBy && t.version == s.version
  }

  lemma PromisingKeepsLines(s: OrderState, env: Env)
    ensures SameFrame(s, SetPromiseDate(s, env)) && SetPromiseDate(s, env).lines == s.lines
  {
  }

  /** An order with a released line publishes an order-level event that carries the lines. */
  lemma ReleaseIsAnnounced(s: OrderState, nAllocated: nat, nBackordered: nat, released: seq<ReleasedLine>)
    requires released == [] || AnyLine(s.lines, Released)
    ensures
      var e := OutcomeEvent(s, nAllocated, nBackordered, released);
      (e.Some? ==> Announces(e.value) == ReleasedNos(released) && !LineEvent(e.value)) && (e.None? ==> released == [])
  {
  }

  /** A save of `t`, then perhaps one order-level event. */
  lemma StoreThenPublish(s: OrderState, mayRelease: bool, before: seq<Effect>, t: OrderState, o: Outcome, e: Option<Event>)
    requires OnlyLineEvents(before) && StoreFollows(s, mayRelease, t)
    requires o.effects == before + [Store(t)] + (if e.Some? then [Emit(e.value)] else [])
    requires o.verdict == Commit ==>
               (if e.Some? then Announces(e.value) else []) == NewlyReleased(s.lines, t.lines)
    ensures PassEnds(s, mayRelease, o)
  {
    LineEventsSayNothing(before);
    Appended(before, Store(t));
    assert StoresOf(before + [Store(t)]) == [t] && ReleasedBy(before + [Store(t)]) == [];
    if e.Some? {
      Appended(before + [Store(t)], Emit(e.value));
    } else {
      assert o.effects == before + [Store(t)];
    }
  }

  lemma ConcludeEnds(s: OrderState, mayRelease: bool, a: Progress, released: seq<ReleasedLine>, env: Env)
    requires OnlyLineEvents(a.effects)
    requires StoreFollows(s, mayRelease, a.order)
    requires released == [] || AnyLine(a.order.lines, Released)
    requires ReleasedNos(released) == NewlyReleased(s.lines, a.order.lines)
    ensures PassEnds(s, mayRelease, Conclude(a, released, env))
  {
    if env.saves {
      var b := Saved(a);
      var e := OutcomeEvent(b.order, b.nAllocated, b.nBackordered, released);
      ReleaseIsAnnounced(b.order, b.nAllocated, b.nBackordered, released);
      var written := if e.Some? && env.publishes(|b.effects|, e.value) then e else None;
      StoreThenPublish(s, mayRelease, a.effects, a.order, Conclude(a, released, env), written);
    } else {
      LineEventsSayNothing(a.effects);
    }
  }

  lemma SalvageEnds(s: OrderState, a: Progress, failure: Failure, env: Env)
    requires InPass(s, a)
    ensures PassEnds(s, false, Salvage(a, failure, env))
  {
    PromisingKeepsLines(a.order, env);
    LineEventsSayNothing(a.effects);
    NothingReleased(s.lines, a.order.lines);
    var t := SetPromiseDate(a.order, env);
    assert LinesFollow(s, t, a.order.lines, false);
    var b := Saved(a.(order := t));
    Appended(a.effects, Store(t));
    var e := OrderAllocationPartiallyFailed(b.order.id, b.nAllocated, |WithStatus(b.order.lines, Pending)|,
               TruncateCause(env.describe(failure)));
    Appended(b.effects, Emit(e));
  }

  lemma UnreleasedEnds(s: OrderState, mayRelease: bool, a: Progress, env: Env)
    requires SameFrame(s, a.order) && WellNumbered(a.order.lines) && Steady(s.lines, a.order.lines)
    requires OnlyLineEvents(a.effects)
    ensures PassEnds(s, mayRelease, Conclude(a, [], env))
  {
    assert LinesFollow(s, a.order, a.order.lines, false);
    NothingReleased(s.lines, a.order.lines);
    ConcludeEnds(s, mayRelease, a, [], env);
  }

  lemma ReleasedEnds(s: OrderState, a: Progress, env: Env)
    requires SameFrame(s, a.order) && WellNumbered(a.order.lines) && Steady(s.lines, a.order.lines)
    requires OnlyLineEvents(a.effects)
    ensures
      var r := ReleaseAllocatedLines(a.order);
      r.failure == None && PassEnds(s, true, Conclude(a.(order := r.order), r.released, env))
  {
    var r := ReleaseAllocatedLines(a.order);
    ReleaseIsAllOrNothing(a.order);
    if Releasable(a.order) {
      assert Releasable(s.(lines := a.order.lines));
      assert LinesFollow(s, r.order, a.order.lines, true);
      ReleasedAreTheAllocated(s.lines, a.order.lines, r.order.lines);
      if r.released != [] {
        var w := WithStatusLists(a.order.lines, Allocated);
        assert |ReleasedNos(r.released)| == |LineNos(w)|;
        assert r.order.lines[w[0].lineNo - 1].status == Released;
      }
      ConcludeEnds(s, true, a.(order := r.order), r.released, env);
    } else {
      UnreleasedEnds(s, true, a, env);
    }
  }

  lemma ReleaseLegEnds(s: OrderState, a: Progress, justReserved: seq<int>, env: Env)
    requires SameFrame(s, a.order) && WellNumbered(a.order.lines) && Steady(s.lines, a.order.lines)
    requires OnlyLineEvents(a.effects)
    ensures PassEnds(s, true, ReleaseLeg(a, justReserved, env))
  {
    var base := a.order.(lines := s.lines);
    var w := WithStatus(a.order.lines, Allocated);
    ReconfirmLinesKeep(base, a, w, |w|, justReserved, env);
    var b := ReconfirmLines(a, w, |w|, justReserved, env);
    LineEventsSayNothing(b.effects);
    if b.failure.None? {
      if b.nBackordered > a.nBackordered && !a.order.allowPartial {
        UnreleasedEnds(s, true, b, env);
      } else {
        ReleasedEnds(s, b, env);
      }
    }
  }

  /** Every pass, from any sound order and with any answers: it stores at most one order, that order
      differs from the first only as line moves and release allow, and a committed pass announces as
      released exactly the lines it released, once each and in line order. */
  lemma PassWritesWhatItReleases(s: OrderState, lines: seq<Line>, retry: bool, releaseOnAllocation: bool, env: Env)
    requires Sound(s)
    ensures PassEnds(s, releaseOnAllocation, AllocateAndRelease(s, lines, retry, releaseOnAllocation, env))
  {
    var a := AllocateLines(s, lines, |lines|, retry, env);
    AllocateLinesKeep(s, lines, |lines|, retry, env);
    LineEventsSayNothing(a.effects);
    if a.failure.Some? {
      if a.nAllocated > 0 {
        SalvageEnds(s, a, a.failure.value, env);
      }
    } else {
      PromisingKeepsLines(a.order, env);
      var b := a.(order := SetPromiseDate(a.order, env));
      if releaseOnAllocation {
        ReleaseLegEnds(s, b, LineNos(lines), env);
      } else {
        UnreleasedEnds(s, false, b, env);
      }
    }
  }
}
