/** What each use case does to the order it saves, whatever the answers of the outside world. */
module UseCaseTheorems {
  import opened Wrappers
  import opened Orders
  import opened PromisePolicies
  import opened Allocation
  import opened AllocationTheorems
  import opened PassTheorems
  import opened ReservationTheorems
  import opened UseCases

  // ---------------------------------------------------------------- nobody touches id and version

  predicate SameRow(s: OrderState, t: OrderState) {
    t.id == s.id && t.version == s.version
  }

  /** Every event names the order. */
  predicate Carries(effects: seq<Effect>, id: OrderId) {
    forall k :: 0 <= k < |effects| && effects[k].Emit? ==> effects[k].event.orderId == id
  }

  predicate NoSaves(effects: seq<Effect>) {
    forall k :: 0 <= k < |effects| ==> effects[k].Emit?
  }

  lemma AllocateOneSameRow(a: Progress, l: Line, retry: bool, env: Env) returns (b: Progress)
    requires OnlyLineEvents(a.effects) && Carries(a.effects, a.order.id)
    ensures b == AllocateOne(a, l, retry, env)
    ensures SameRow(a.order, b.order) && OnlyLineEvents(b.effects) && Carries(b.effects, a.order.id)
  {
    b := AllocateOne(a, l, retry, env);
  }

  lemma {:induction false} AllocateSameRow(s: OrderState, lines: seq<Line>, k: nat, retry: bool, env: Env) returns (a: Progress)
    requires k <= |lines|
    ensures a == AllocateLines(s, lines, k, retry, env)
    ensures SameRow(s, a.order) && OnlyLineEvents(a.effects) && Carries(a.effects, s.id)
  {
    a := AllocateLines(s, lines, k, retry, env);
    if k > 0 {
      var b := AllocateSameRow(s, lines, k - 1, retry, env);
      if b.failure.None? {
        var c := AllocateOneSameRow(b, lines[k - 1], retry, env);
      }
    }
  }

  lemma ReconfirmOneSameRow(a: Progress, l: Line, justReserved: seq<int>, env: Env) returns (b: Progress)
    requires OnlyLineEvents(a.effects) && Carries(a.effects, a.order.id)
    ensures b == ReconfirmOne(a, l, justReserved, env)
    ensures SameRow(a.order, b.order) && OnlyLineEvents(b.effects) && Carries(b.effects, a.order.id)
  {
    b := ReconfirmOne(a, l, justReserved, env);
  }

  lemma {:induction false} ReconfirmSameRow(a: Progress, lines: seq<Line>, k: nat, justReserved: seq<int>, env: Env)
    returns (b: Progress)
    requires k <= |lines| && OnlyLineEvents(a.effects) && Carries(a.effects, a.order.id)
    ensures b == ReconfirmLines(a, lines, k, justReserved, env)
    ensures SameRow(a.order, b.order) && OnlyLineEvents(b.effects) && Carries(b.effects, a.order.id)
  {
    b := ReconfirmLines(a, lines, k, justReserved, env);
    if k > 0 {
      var c := ReconfirmSameRow(a, lines, k - 1, justReserved, env);
      if c.failure.None? {
        var d := ReconfirmOneSameRow(c, lines[k - 1], justReserved, env);
      }
    }
  }

  lemma {:induction false} ReleaseSameRow(s: OrderState, lines: seq<Line>, k: nat) returns (r: Releasing)
    requires k <= |lines|
    ensures r == ReleaseLines(s, lines, k) && SameRow(s, r.order)
  {
    r := ReleaseLines(s, lines, k);
    if k > 0 {
      var q := ReleaseSameRow(s, lines, k - 1);
    }
  }

  /** What a pass that commits without saving has published. */
  predicate QuietUnlessSaved(o: Outcome) {
    o.verdict == Commit && NoSaves(o.effects) ==> OnlyLineEvents(o.effects)
  }

  lemma ConcludeSameRow(a: Progress, released: seq<ReleasedLine>, env: Env)
    requires OnlyLineEvents(a.effects) && Carries(a.effects, a.order.id)
    ensures Carries(Conclude(a, released, env).effects, a.order.id)
    ensures SavesUnder(Conclude(a, released, env).effects, a.order.id, a.order.version) && QuietUnlessSaved(Conclude(a, released, env))
  {
    if env.saves {
      assert Conclude(a, released, env).effects[|a.effects|] == Store(a.order);
    }
  }

  lemma SalvageSameRow(a: Progress, failure: Failure, env: Env)
    requires OnlyLineEvents(a.effects) && Carries(a.effects, a.order.id)
    ensures Carries(Salvage(a, failure, env).effects, a.order.id)
    ensures SavesUnder(Salvage(a, failure, env).effects, a.order.id, a.order.version) && QuietUnlessSaved(Salvage(a, failure, env))
  {
    PromisingKeepsLines(a.order, env);
    if env.saves {
      assert Salvage(a, failure, env).effects[|a.effects|] == Store(SetPromiseDate(a.order, env));
    }
  }

  lemma ReleaseLegSameRow(a: Progress, justReserved: seq<int>, env: Env)
    requires OnlyLineEvents(a.effects) && Carries(a.effects, a.order.id)
    ensures Carries(ReleaseLeg(a, justReserved, env).effects, a.order.id)
    ensures SavesUnder(ReleaseLeg(a, justReserved, env).effects, a.order.id, a.order.version) && QuietUnlessSaved(ReleaseLeg(a, justReserved, env))
  {
    var lines := WithStatus(a.order.lines, Allocated);
    var b := ReconfirmSameRow(a, lines, |lines|, justReserved, env);
    ConcludeSameRow(b, [], env);
    var w := WithStatus(b.order.lines, Allocated);
    var q := ReleaseSameRow(b.order, w, |w|);
    var r := ReleaseAllocatedLines(b.order);
    ConcludeSameRow(b.(order := r.order), r.released, env);
  }

  /** A pass from any order at all, even one pieced together from torn reads. */
  lemma PassSameRow(s: OrderState, lines: seq<Line>, retry: bool, releaseOnAllocation: bool, env: Env)
    ensures
      var o := AllocateAndRelease(s, lines, retry, releaseOnAllocation, env);
      SavesUnder(o.effects, s.id, s.version) && Carries(o.effects, s.id) && QuietUnlessSaved(o)
  {
    var a := AllocateSameRow(s, lines, |lines|, retry, env);
    if a.failure.Some? {
      SalvageSameRow(a, a.failure.value, env);
    } else {
      PromisingKeepsLines(a.order, env);
      var b := a.(order := SetPromiseDate(a.order, env));
      ConcludeSameRow(b, [], env);
      ReleaseLegSameRow(b, LineNos(lines), env);
    }
  }

  // ---------------------------------------------------------------- what the caller gets back

  lemma ConcludedIsCommitted(s: OrderState, a: Progress, released: seq<ReleasedLine>, env: Env)
    requires OnlyLineEvents(a.effects)
    ensures
      var o := Conclude(a, released, env);
      o.reported.None? ==> o.order == CommittedBy(s, o)
  {
    LineEventsSayNothing(a.effects);
    if env.saves {
      var b := Saved(a);
      Appended(a.effects, Store(a.order));
      var e := OutcomeEvent(b.order, b.nAllocated, b.nBackordered, released);
      if e.Some? {
        Appended(b.effects, Emit(e.value));
      }
    }
  }

  /** A pass that reports no failure leaves in memory exactly the order it has committed. */
  lemma ReturnedOrderIsCommitted(s: OrderState, lines: seq<Line>, retry: bool, releaseOnAllocation: bool, env: Env)
    ensures
      var o := AllocateAndRelease(s, lines, retry, releaseOnAllocation, env);
      o.reported.None? ==> o.order == CommittedBy(s, o)
  {
    var a := AllocateSameRow(s, lines, |lines|, retry, env);
    if a.failure.None? {
      PromisingKeepsLines(a.order, env);
      var b := a.(order := SetPromiseDate(a.order, env));
      if releaseOnAllocation {
        var w := WithStatus(b.order.lines, Allocated);
        var c := ReconfirmSameRow(b, w, |w|, LineNos(lines), env);
        var r := ReleaseAllocatedLines(c.order);
        ConcludedIsCommitted(s, c, [], env);
        ConcludedIsCommitted(s, c.(order := r.order), r.released, env);
      } else {
        ConcludedIsCommitted(s, b, [], env);
      }
    }
  }

  ghost predicate KeepsRow(plan: Plan, s: OrderState) {
    SavesUnder(plan.effects, s.id, s.version) && Carries(plan.effects, s.id)
  }

  lemma PassPlansKeepRow(s: OrderState, env: Env)
    ensures KeepsRow(PassPlan(FirstPass(s, env)), s)
    ensures KeepsRow(RetryPlan(s, env), s)
    ensures KeepsRow(HeldPlan(s, env), s)
  {
    PassSameRow(s, WithStatus(s.lines, Pending), false, !s.held, env);
    PassSameRow(s, WithStatus(s.lines, Backordered), true, !s.held, env);
    PassSameRow(s, [], false, true, env);
  }

  lemma OtherPlansKeepRow(s: OrderState, lineNo: int, reason: string, env: Env)
    ensures KeepsRow(CancelPlan(s, env), s)
    ensures KeepsRow(RepromisePlan(s, lineNo, reason, env), s)
  {
  }

  /** Every use case saves the order under the id and the version it was loaded with, and every
      event it publishes names that order. */
  lemma PlanSameRow(job: Job, s: OrderState)
    ensures KeepsRow(PlanOf(job, s), s)
  {
    match job
    case Repromise(_, _, lineNo, reason, env) => OtherPlansKeepRow(s, lineNo, reason, env);
    case CancelIt(_, env) => OtherPlansKeepRow(s, 0, "", env);
    case _ => PassPlansKeepRow(s, job.env);
  }

  /** A use case that commits without saving announces no released line. */
  lemma NoSaveNoRelease(job: Job, s: OrderState)
    requires PlanOf(job, s).verdict == Commit && NoSaves(PlanOf(job, s).effects)
    ensures ReleasedBy(PlanOf(job, s).effects) == []
  {
    var effects := PlanOf(job, s).effects;
    match job
    case Receive(_, _, _, _, _, _, _, env) =>
      PassSameRow(s, WithStatus(s.lines, Pending), false, !s.held, env);
      LineEventsSayNothing(effects);
    case Retry(_, env) =>
      PassSameRow(s, WithStatus(s.lines, Backordered), true, !s.held, env);
      LineEventsSayNothing(effects);
    case ReleaseHeld(_, env) =>
      PassSameRow(s, [], false, true, env);
      LineEventsSayNothing(effects);
    case CancelIt(_, env) =>
      if Cancellable(s) {
        SavesFirst(CancelOrder(s).value, OrderCancelled(s.id, |AllocatedReservationIds(s.lines)|), env);
      }
    case Repromise(_, _, lineNo, reason, env) => RepromiseSavesFirst(s, lineNo, reason, env);
  }

  lemma SavesFirst(s: OrderState, e: Event, env: Env)
    ensures NoSaves(SaveAndPublish(s, e, env).effects) ==> SaveAndPublish(s, e, env).effects == []
  {
    if env.saves {
      assert SaveAndPublish(s, e, env).effects[0] == Store(s);
    }
  }

  lemma RepromiseSavesFirst(s: OrderState, lineNo: int, reason: string, env: Env)
    ensures
      var effects := RepromisePlan(s, lineNo, reason, env).effects;
      NoSaves(effects) ==> effects == []
  {
    var r := RewriteFor(s, lineNo, env);
    if r.Some? {
      SavesFirst(WithPromiseGroups(s, r.value.groups), OrderRepromised(s.id, r.value.was.cptId, r.value.now.cptId, reason), env);
    }
  }

  // ---------------------------------------------------------------- what a saved order looks like

  /** How the saved order `t` relates to the order `s` it was made from. */
  ghost predicate Follows(s: OrderState, t: OrderState, mayRelease: bool) {
    && Lifecycle(t)
    && t.id == s.id && t.allowPartial == s.allowPartial && t.held == s.held && t.requiredShipBy == s.requiredShipBy
    && KeepsReleased(s, t) && SameGoodsThroughout(s.lines, t.lines)
    && (AnyLine(t.lines, Released) ==> mayRelease || AnyLine(s.lines, Released))
  }

  lemma SavedIsListed(effects: seq<Effect>, o: OrderState)
    requires Store(o) in effects
    ensures o in StoresOf(effects)
  {
    if effects != [] {
      var n := |effects| - 1;
      assert effects == effects[..n] + [effects[n]];
      if effects[n] != Store(o) {
        SavedIsListed(effects[..n], o);
      }
    }
  }

  lemma SoundFollows(s: OrderState, t: OrderState, mid: seq<Line>, released: bool)
    requires Lifecycle(s) && |t.lines| == |s.lines| && LinesFollow(s, t, mid, released)
    ensures Sound(t) && KeepsReleased(s, t) && SameGoodsThroughout(s.lines, t.lines)
    ensures forall i :: 0 <= i < |s.lines| ==> (t.lines[i].status == Cancelled <==> s.lines[i].status == Cancelled)
    ensures !released ==> forall i :: 0 <= i < |s.lines| ==> (t.lines[i].status == Released <==> s.lines[i].status == Released)
  {
    forall i | 0 <= i < |s.lines| ensures SteadyLine(s.lines[i], mid[i]) {
    }
  }

  lemma StoreFollowsLifecycle(s: OrderState, mayRelease: bool, t: OrderState)
    requires Lifecycle(s) && StoreFollows(s, mayRelease, t)
    ensures Follows(s, t, mayRelease)
  {
    var mid, released :| (released ==> mayRelease) && LinesFollow(s, t, mid, released);
    SoundFollows(s, t, mid, released);
    CancelledStays(s, t);
    if released {
      ReleasedTogether(s, t, mid);
    } else {
      ReleasedAsBefore(s, t);
    }
  }

  lemma CancelledStays(s: OrderState, t: OrderState)
    requires Lifecycle(s) && |t.lines| == |s.lines|
    requires forall i :: 0 <= i < |s.lines| ==> (t.lines[i].status == Cancelled <==> s.lines[i].status == Cancelled)
    ensures AnyLine(t.lines, Cancelled) ==> AllLines(t.lines, Cancelled)
  {
    if AnyLine(t.lines, Cancelled) {
      var i :| 0 <= i < |t.lines| && t.lines[i].status == Cancelled;
      assert s.lines[i].status == Cancelled;
    }
  }

  lemma ReleasedAsBefore(s: OrderState, t: OrderState)
    requires Lifecycle(s) && |t.lines| == |s.lines|
    requires forall i :: 0 <= i < |s.lines| ==> (t.lines[i].status == Released <==> s.lines[i].status == Released)
    ensures AnyLine(t.lines, Released) ==> AnyLine(s.lines, Released)
    ensures !s.allowPartial && AnyLine(t.lines, Released) ==> AllLines(t.lines, Released)
  {
    if AnyLine(t.lines, Released) {
      var i :| 0 <= i < |t.lines| && t.lines[i].status == Released;
      assert s.lines[i].status == Released;
    }
  }

  lemma ReleasedTogether(s: OrderState, t: OrderState, mid: seq<Line>)
    requires |t.lines| == |s.lines| && LinesFollow(s, t, mid, true)
    ensures !s.allowPartial ==> AllLines(t.lines, Released)
  {
  }

  /** A saving pass keeps the life cycle and announces exactly what it newly released. */
  lemma PassFollows(s: OrderState, lines: seq<Line>, retry: bool, releaseOnAllocation: bool, env: Env, t: OrderState)
    requires Lifecycle(s)
    requires
      var o := AllocateAndRelease(s, lines, retry, releaseOnAllocation, env);
      o.verdict == Commit && Store(t) in o.effects
    ensures Follows(s, t, releaseOnAllocation)
    ensures ReleasedBy(AllocateAndRelease(s, lines, retry, releaseOnAllocation, env).effects) == NewlyReleased(s.lines, t.lines)
    ensures DeadlineKept(s) ==> DeadlineKept(t)
  {
    var o := AllocateAndRelease(s, lines, retry, releaseOnAllocation, env);
    PassWritesWhatItReleases(s, lines, retry, releaseOnAllocation, env);
    SavedIsListed(o.effects, t);
    assert t == StoresOf(o.effects)[0];
    StoreFollowsLifecycle(s, releaseOnAllocation, t);
    if DeadlineKept(s) {
      PassKeepsDeadline(s, lines, retry, releaseOnAllocation, env);
    }
  }

  /** A cancellation cancels every line of an order that has none released. */
  lemma CancelFollows(s: OrderState, env: Env, t: OrderState)
    requires Lifecycle(s) && CancelPlan(s, env).verdict == Commit && Store(t) in CancelPlan(s, env).effects
    ensures Follows(s, t, false) && AllLines(t.lines, Cancelled)
    ensures ReleasedBy(CancelPlan(s, env).effects) == NewlyReleased(s.lines, t.lines)
    ensures DeadlineKept(s) ==> DeadlineKept(t)
  {
    var e := OrderCancelled(s.id, |AllocatedReservationIds(s.lines)|);
    assert CancelPlan(s, env).effects == [Store(t), Emit(e)];
    TwoWrites(t, e);
    NoneReleased(s.lines, t.lines);
    forall i | 0 <= i < |t.lines| ensures LineSane(t.lines[i]) {
    }
  }

  lemma TwoWrites(t: OrderState, e: Event)
    ensures ReleasedBy([Store(t), Emit(e)]) == Announces(e)
  {
    Appended([], Store(t));
    Appended([Store(t)], Emit(e));
    assert [] + [Store(t)] == [Store(t)];
    assert [Store(t)] + [Emit(e)] == [Store(t), Emit(e)];
  }

  lemma {:induction false} NoneReleased(ls: seq<Line>, ks: seq<Line>)
    requires |ls| == |ks| && !AnyLine(ks, Released)
    ensures NewlyReleased(ls, ks) == []
  {
    if ls != [] {
      var n := |ls| - 1;
      assert ks[n].status != Released;
      assert !AnyLine(ks[..n], Released) by {
        forall i | 0 <= i < n ensures ks[..n][i].status != Released {
          assert ks[i].status != Released;
        }
      }
      NoneReleased(ls[..n], ks[..n]);
    }
  }

  lemma RepromiseWrites(s: OrderState, lineNo: int, reason: string, env: Env, t: OrderState) returns (e: Event)
    requires RepromisePlan(s, lineNo, reason, env).verdict == Commit && Store(t) in RepromisePlan(s, lineNo, reason, env).effects
    ensures RepromisePlan(s, lineNo, reason, env).effects == [Store(t), Emit(e)] && e.OrderRepromised?
    ensures SameFrame(s, t) && t.lines == s.lines
  {
    e := RepromisePlan(s, lineNo, reason, env).effects[1].event;
  }

  lemma OnlyPromiseFollows(s: OrderState, t: OrderState)
    requires Lifecycle(s) && SameFrame(s, t) && t.lines == s.lines
    ensures Follows(s, t, false) && NewlyReleased(s.lines, t.lines) == []
  {
    NothingReleased(s.lines, t.lines);
  }

  /** A repromise changes nothing but the promise. */
  lemma RepromiseFollows(s: OrderState, lineNo: int, reason: string, env: Env, t: OrderState)
    requires Lifecycle(s)
    requires RepromisePlan(s, lineNo, reason, env).verdict == Commit && Store(t) in RepromisePlan(s, lineNo, reason, env).effects
    ensures Follows(s, t, false) && t.lines == s.lines
    ensures ReleasedBy(RepromisePlan(s, lineNo, reason, env).effects) == NewlyReleased(s.lines, t.lines)
  {
    var e := RepromiseWrites(s, lineNo, reason, env, t);
    TwoWrites(t, e);
    OnlyPromiseFollows(s, t);
  }

  /** What a repromise stores is the freshly computed grouping, with the summary of its latest group,
      and its event names the departures of the line's group before and after, which really differ in
      promise. */
  lemma RepromiseRecordsTheMove(s: OrderState, lineNo: int, reason: string, env: Env, t: OrderState) returns (g: PromiseGroup, h: PromiseGroup)
    requires RepromisePlan(s, lineNo, reason, env).verdict == Commit && Store(t) in RepromisePlan(s, lineNo, reason, env).effects
    ensures PromiseGroupsOf(env.policy, env.now, s) == Some(t.promiseGroups)
    ensures g in s.promiseGroups && lineNo in g.lineNos && h in t.promiseGroups && lineNo in h.lineNos
    ensures g.promise != h.promise
    ensures RepromisePlan(s, lineNo, reason, env).effects[1..] == [Emit(OrderRepromised(s.id, g.promise.cptId, h.promise.cptId, reason))]
    ensures exists k :: 0 <= k < |t.promiseGroups| && SummaryIs(t, t.promiseGroups[k].promise)
  {
    var r := RewriteFor(s, lineNo, env).value;
    g := GroupContaining(s.promiseGroups, lineNo, 0).value;
    h := GroupContaining(r.groups, lineNo, 0).value;
    var e := RepromiseWrites(s, lineNo, reason, env, t);
    SummaryDescribesLatestGroup(s, r.groups);
  }

  /** Every use case, saving and committing: the new order follows the old one, and the lines its
      events announce as released are exactly those it newly released. */
  lemma PlanFollows(job: Job, s: OrderState, t: OrderState)
    requires Lifecycle(s) && PlanOf(job, s).verdict == Commit && Store(t) in PlanOf(job, s).effects
    ensures Follows(s, t, job.ReleaseHeld? || !s.held)
    ensures ReleasedBy(PlanOf(job, s).effects) == NewlyReleased(s.lines, t.lines)
    ensures !job.Repromise? && DeadlineKept(s) ==> DeadlineKept(t)
  {
    match job
    case Receive(_, _, _, _, _, _, _, env) => PassFollows(s, WithStatus(s.lines, Pending), false, !s.held, env, t);
    case Retry(_, env) => PassFollows(s, WithStatus(s.lines, Backordered), true, !s.held, env, t);
    case ReleaseHeld(_, env) => PassFollows(s, [], false, true, env, t);
    case CancelIt(_, env) => CancelFollows(s, env, t);
    case Repromise(_, _, lineNo, reason, env) => RepromiseFollows(s, lineNo, reason, env, t);
  }

  // ---------------------------------------------------------------- intake

  lemma {:induction false} BuiltLines(goods: seq<NewLine>, k: nat, routes: Routes)
    requires k <= |goods| && BuildLines(goods, k, routes).Ok?
    ensures |BuildLines(goods, k, routes).value| == k && WellNumbered(BuildLines(goods, k, routes).value)
    ensures forall i :: 0 <= i < k ==>
              BuildLines(goods, k, routes).value[i].status == Pending && BuildLines(goods, k, routes).value[i].reservationId == None
  {
    if k > 0 {
      BuiltLines(goods, k - 1, routes);
    }
  }

  lemma PendingIsFresh(s: OrderState)
    requires s.lines != [] && WellNumbered(s.lines)
    requires forall i :: 0 <= i < |s.lines| ==> s.lines[i].status == Pending && s.lines[i].reservationId == None
    ensures FreshIntake(s) && !AnyLine(s.lines, Released) && !AnyLine(s.lines, Cancelled)
    ensures WithStatus(s.lines, Pending) == s.lines
  {
    AllWithStatus(s.lines, Pending);
  }

  /** An accepted order starts with every line pending, without a promise, at version 1, and held
      only if it is ship-complete. */
  lemma ReceivedStartsFresh(id: OrderId, goods: seq<NewLine>, routes: Routes, allowPartial: bool, releaseOnAllocation: bool,
      deadline: Option<Instant>)
    requires Received(id, goods, routes, allowPartial, releaseOnAllocation, deadline).Ok?
    ensures
      var s := Received(id, goods, routes, allowPartial, releaseOnAllocation, deadline).value;
      && s.id == id && s.version == 1 && s.held == !releaseOnAllocation && s.requiredShipBy == deadline
      && FreshIntake(s) && Lifecycle(s) && DeadlineKept(s) && !AnyLine(s.lines, Released)
      && WithStatus(s.lines, Pending) == s.lines
  {
    var s := Received(id, goods, routes, allowPartial, releaseOnAllocation, deadline).value;
    BuiltLines(goods, |goods|, routes);
    PendingIsFresh(s);
  }

  /** Conservation of reservations at intake: whatever inventory-storage answers to the first pass of
      a received order, if its transaction commits then the reservation ids it was granted are
      exactly those on the persisted lines, in line order. */
  lemma FirstPassStrandsNothing(id: OrderId, goods: seq<NewLine>, routes: Routes, allowPartial: bool, releaseOnAllocation: bool,
      deadline: Option<Instant>, env: Env)
    requires Received(id, goods, routes, allowPartial, releaseOnAllocation, deadline).Ok?
    ensures
      var s := Received(id, goods, routes, allowPartial, releaseOnAllocation, deadline).value;
      var o := FirstPass(s, env);
      o.verdict == Commit ==> ReservationIds(Persisted(s, o).lines) == Grants(env, o.asked)
  {
    ReceivedStartsFresh(id, goods, routes, allowPartial, releaseOnAllocation, deadline);
    var s := Received(id, goods, routes, allowPartial, releaseOnAllocation, deadline).value;
    IntakeConservesReservations(s, !s.held, env);
  }

  lemma {:induction false} AllWithStatus(lines: seq<Line>, st: LineStatus)
    requires AllLines(lines, st)
    ensures WithStatus(lines, st) == lines
  {
    if lines != [] {
      var n := |lines| - 1;
      AllWithStatus(lines[..n], st);
      assert lines == lines[..n] + [lines[n]];
    }
  }
}
