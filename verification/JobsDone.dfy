/** The use cases from end to end: what the committed order is, in any state that a run can reach, after a
    job that nobody stands in the way of. */
module JobsDone {
  import opened Wrappers
  import opened Orders
  import opened Allocation
  import opened PassTheorems
  import opened UseCases
  import opened UseCaseOutcomes
  import opened RepromiseTheorems
  import opened PassProgress
  import opened JoinedReceive
  import opened OrderSystem
  import opened OutboxContents
  import opened History
  import opened UndisturbedRuns

  /** The order is stored, and no other open transaction has written it. */
  ghost predicate Stored(s: Sys, id: OrderId, b: OrderState) {
    id in s.orders && s.orders[id] == b && OrderFree(s, |s.clients|, id)
  }

  /** The state after one more job, done by itself. */
  ghost predicate After(copies: Event -> nat, keyed: bool, actions: seq<Action>, job: Job, t: Sys) {
    exists more :: t == Run(Real(copies, keyed), actions + more) && more != [] && more[0] == Spawn(job)
  }

  /** What is left of a job that saves at most one order and publishes these events. */
  ghost predicate Leaves(s: Sys, t: Sys, id: OrderId, mark: Option<string>, saved: Option<OrderState>, events: seq<Event>) {
    && t.processed == (if mark.Some? then s.processed + {mark.value} else s.processed)
    && t.orders == (if saved.Some? then s.orders[id := saved.value] else s.orders)
    && Gains(s.outbox, t.outbox, events, s.nextId)
  }

  ghost predicate SignalFree(s: Sys, mark: Option<string>) {
    mark.Some? ==> MarkFree(s, |s.clients|, mark) && mark.value !in s.processed
  }

  lemma {:induction false} OneJob(copies: Event -> nat, keyed: bool, actions: seq<Action>, job: Job, mark: Option<string>,
                                  b: OrderState, saved: Option<OrderState>, events: seq<Event>)
    returns (s: Sys, t: Sys)
    requires !job.Receive? && mark == (if job.Repromise? then Some(job.eventId) else None)
    requires Stored(Run(Real(copies, keyed), actions), job.id, b) && SignalFree(Run(Real(copies, keyed), actions), mark)
    requires PlanOf(job, b).verdict == Commit && saved == LastRow(StoresOf(PlanOf(job, b).effects))
    requires events == Fanned(Real(copies, keyed), PlanOf(job, b).effects, |PlanOf(job, b).effects|)
    ensures s == Run(Real(copies, keyed), actions) && After(copies, keyed, actions, job, t)
    ensures Leaves(s, t, job.id, mark, saved, events)
  {
    var plan;
    s, plan, t := UseCaseIsDone(copies, keyed, actions, job, mark);
    var more := LoadedJob(Real(copies, keyed), s, job, job.id, mark);
    assert more[0] == Spawn(job);
  }

  lemma {:induction false} SaveLeaves(copies: Event -> nat, keyed: bool, plan: Plan, o: OrderState, e: Event)
    returns (saved: Option<OrderState>, events: seq<Event>)
    requires plan.effects == [Store(o), Emit(e)]
    ensures saved == Some(o.(version := o.version + 1)) && events == Repeat(e, copies(e))
    ensures saved == LastRow(StoresOf(plan.effects))
    ensures events == Fanned(Real(copies, keyed), plan.effects, |plan.effects|)
  {
    StoreThenEmit(Real(copies, keyed), plan.effects, o, e);
    saved := Some(o.(version := o.version + 1));
    events := Repeat(e, copies(e));
  }

  lemma {:induction false} PlanLeaves(copies: Event -> nat, keyed: bool, job: Job, b: OrderState)
    returns (saved: Option<OrderState>, events: seq<Event>)
    ensures saved == LastRow(StoresOf(PlanOf(job, b).effects))
    ensures events == Fanned(Real(copies, keyed), PlanOf(job, b).effects, |PlanOf(job, b).effects|)
  {
    saved := LastRow(StoresOf(PlanOf(job, b).effects));
    events := Fanned(Real(copies, keyed), PlanOf(job, b).effects, |PlanOf(job, b).effects|);
  }

  /** A retry with everything granted brings an order whose lines are backordered, allocated or released to
      the floor, whole. */
  lemma {:induction false} RetriedOrderIsReleased(copies: Event -> nat, keyed: bool, actions: seq<Action>, id: OrderId, b: OrderState, env: Env)
    returns (s: Sys, t: Sys, o: OrderState)
    requires Stored(Run(Real(copies, keyed), actions), id, b) && GrantsEverything(env)
    requires !b.held && AnyLine(b.lines, Backordered)
    requires forall i :: 0 <= i < |b.lines| ==> b.lines[i].status in {Backordered, Allocated, Released}
    ensures s == Run(Real(copies, keyed), actions) && After(copies, keyed, actions, Retry(id, env), t)
    ensures t.orders == s.orders[id := o] && AllLines(o.lines, Released)
  {
    var sound := Reached(copies, keyed, actions, id);
    var saved, events := PlanLeaves(copies, keyed, Retry(id, env), b);
    o := RetryLeaves(id, b, env);
    s, t := OneJob(copies, keyed, actions, Retry(id, env), None, b, saved, events);
  }

  lemma {:induction false} RetryLeaves(id: OrderId, b: OrderState, env: Env) returns (o: OrderState)
    requires Sound(b) && GrantsEverything(env) && !b.held && AnyLine(b.lines, Backordered)
    requires forall i :: 0 <= i < |b.lines| ==> b.lines[i].status in {Backordered, Allocated, Released}
    ensures PlanOf(Retry(id, env), b).verdict == Commit
    ensures LastRow(StoresOf(PlanOf(Retry(id, env), b).effects)) == Some(o) && AllLines(o.lines, Released)
  {
    RetryGetsEverythingGranted(b, env);
    o := LastRow(StoresOf(RetryPlan(b, env).effects)).value;
  }

  /** A release on demand of a held order whose lines are all allocated brings it to the floor, whole. */
  lemma {:induction false} HeldOrderReachesTheFloor(copies: Event -> nat, keyed: bool, actions: seq<Action>, id: OrderId, b: OrderState, env: Env)
    returns (s: Sys, t: Sys, o: OrderState)
    requires Stored(Run(Real(copies, keyed), actions), id, b) && GrantsEverything(env)
    requires b.held && AllLines(b.lines, Allocated)
    ensures s == Run(Real(copies, keyed), actions) && After(copies, keyed, actions, ReleaseHeld(id, env), t)
    ensures t.orders == s.orders[id := o] && AllLines(o.lines, Released)
  {
    var sound := Reached(copies, keyed, actions, id);
    var saved, events := PlanLeaves(copies, keyed, ReleaseHeld(id, env), b);
    o := HeldLeaves(id, b, env);
    s, t := OneJob(copies, keyed, actions, ReleaseHeld(id, env), None, b, saved, events);
  }

  lemma {:induction false} HeldLeaves(id: OrderId, b: OrderState, env: Env) returns (o: OrderState)
    requires Sound(b) && GrantsEverything(env) && b.held && AllLines(b.lines, Allocated)
    ensures PlanOf(ReleaseHeld(id, env), b).verdict == Commit
    ensures LastRow(StoresOf(PlanOf(ReleaseHeld(id, env), b).effects)) == Some(o) && AllLines(o.lines, Released)
  {
    HeldOrderIsReleased(b, env);
    o := LastRow(StoresOf(HeldPlan(b, env).effects)).value;
  }

  /** A cancellation that finds no released line and gets every reservation taken back cancels every line,
      changes nothing else, and tells the world once per encoder. */
  lemma {:induction false} CancelledOrderIsCancelled(copies: Event -> nat, keyed: bool, actions: seq<Action>, id: OrderId, b: OrderState, env: Env)
    returns (s: Sys, t: Sys, o: OrderState)
    requires Stored(Run(Real(copies, keyed), actions), id, b)
    requires !AnyLine(b.lines, Released) && AllTakenBack(b, env)
    requires env.saves && env.publishes(1, OrderCancelled(id, |WithStatus(b.lines, Allocated)|))
    ensures s == Run(Real(copies, keyed), actions) && After(copies, keyed, actions, CancelIt(id, env), t)
    ensures t.orders == s.orders[id := o] && o == b.(lines := o.lines, version := b.version + 1)
    ensures |o.lines| == |b.lines| && forall i :: 0 <= i < |b.lines| ==> o.lines[i] == b.lines[i].(status := Cancelled)
    ensures
      var e := OrderCancelled(id, |WithStatus(b.lines, Allocated)|);
      Gains(s.outbox, t.outbox, Repeat(e, copies(e)), s.nextId)
  {
    var sound := Reached(copies, keyed, actions, id);
    var saved, e := CancelGoesAheadIff(b, env);
    var row, events := SaveLeaves(copies, keyed, PlanOf(CancelIt(id, env), b), saved, e);
    s, t := OneJob(copies, keyed, actions, CancelIt(id, env), None, b, row, events);
    o := row.value;
  }

  lemma {:induction false} StoreThenEmit(cfg: Config, effects: seq<Effect>, o: OrderState, e: Event)
    requires effects == [Store(o), Emit(e)]
    ensures StoresOf(effects) == [o] && Fanned(cfg, effects, |effects|) == Repeat(e, cfg.copies(e))
  {
    assert effects[..1] == [Store(o)] && effects[..1][..0] == [];
    assert StoresOf(effects[..1][..0]) == [];
    assert StoresOf(effects[..1]) == [o];
    assert Fanned(cfg, effects, 0) == [];
    assert Fanned(cfg, effects, 1) == [];
  }

  /** A signal that has moved the promise of its line: the order is promised anew, the world hears of both
      departures, and the signal is processed. */
  lemma {:induction false} MovedPromiseIsRecorded(copies: Event -> nat, keyed: bool, actions: seq<Action>, job: Job, b: OrderState,
                                                  was: Promise, now: Promise)
    returns (s: Sys, t: Sys, o: OrderState)
    requires job.Repromise? && Stored(Run(Real(copies, keyed), actions), job.id, b)
    requires SignalFree(Run(Real(copies, keyed), actions), Some(job.eventId))
    requires HasMoved(b, job.lineNo, job.env, was, now)
    requires job.env.saves && job.env.publishes(1, OrderRepromised(job.id, was.cptId, now.cptId, job.reason))
    ensures s == Run(Real(copies, keyed), actions) && After(copies, keyed, actions, job, t)
    ensures t.processed == s.processed + {job.eventId}
    ensures PromisedAnew(b, job.env, o) && t.orders == s.orders[job.id := o.(version := o.version + 1)]
    ensures
      var e := OrderRepromised(job.id, was.cptId, now.cptId, job.reason);
      Gains(s.outbox, t.outbox, Repeat(e, copies(e)), s.nextId)
  {
    var sound := Reached(copies, keyed, actions, job.id);
    var e;
    o, e := MovedPlan(b, job, was, now);
    var saved, events := SaveLeaves(copies, keyed, PlanOf(job, b), o, e);
    s, t := OneJob(copies, keyed, actions, job, Some(job.eventId), b, saved, events);
  }

  lemma {:induction false} MovedPlan(b: OrderState, job: Job, was: Promise, now: Promise) returns (o: OrderState, e: Event)
    requires job.Repromise? && b.id == job.id && WellNumbered(b.lines) && HasMoved(b, job.lineNo, job.env, was, now)
    requires job.env.saves && job.env.publishes(1, OrderRepromised(job.id, was.cptId, now.cptId, job.reason))
    ensures e == OrderRepromised(job.id, was.cptId, now.cptId, job.reason) && PromisedAnew(b, job.env, o)
    ensures PlanOf(job, b) == Plan([Store(o), Emit(e)], Commit)
  {
    e := OrderRepromised(job.id, was.cptId, now.cptId, job.reason);
    RepromiseWritesIff(b, job.lineNo, job.reason, job.env);
    o :| PromisedAnew(b, job.env, o) && PlanOf(job, b).effects == [Store(o), Emit(e)];
  }

  /** One that has not: nothing is written, but the signal is processed. */
  lemma {:induction false} StandingPromiseIsLeft(copies: Event -> nat, keyed: bool, actions: seq<Action>, job: Job, b: OrderState)
    returns (s: Sys, t: Sys)
    requires job.Repromise? && Stored(Run(Real(copies, keyed), actions), job.id, b)
    requires SignalFree(Run(Real(copies, keyed), actions), Some(job.eventId))
    requires forall was, now :: !HasMoved(b, job.lineNo, job.env, was, now)
    ensures s == Run(Real(copies, keyed), actions) && After(copies, keyed, actions, job, t)
    ensures t.processed == s.processed + {job.eventId} && t.orders == s.orders
    ensures Gains(s.outbox, t.outbox, [], s.nextId)
  {
    var sound := Reached(copies, keyed, actions, job.id);
    RepromiseWritesIff(b, job.lineNo, job.reason, job.env);
    var saved, events := PlanLeaves(copies, keyed, job, b);
    s, t := OneJob(copies, keyed, actions, job, Some(job.eventId), b, saved, events);
  }

  /** An accepted request under an idempotency key, with everything granted and not held, is committed with
      every line released. */
  lemma {:induction false} ReceivedOrderReachesTheFloor(copies: Event -> nat, actions: seq<Action>, job: Job, o: OrderState)
    returns (s: Sys, t: Sys, stored: OrderState)
    requires job.Receive? && job.id !in Run(Real(copies, true), actions).minted
    requires Received(job.id, job.goods, job.routes, job.allowPartial, job.releaseOnAllocation, job.deadline) == Ok(o)
    requires job.releaseOnAllocation && GrantsEverything(job.env)
    requires job.intake.publishes(1, OrderReceived(job.id, |o.lines|))
    ensures s == Run(Real(copies, true), actions) && After(copies, true, actions, job, t)
    ensures t.orders == s.orders[job.id := stored] && AllLines(stored.lines, Released)
  {
    var plan, more;
    s, plan, t, more := KeyedReceiveIsDone(copies, actions, job, o);
    assert CreatedJob(|s.clients|, job, plan)[0] == Spawn(job);
    var left := FullGrantLeaves(job, o);
    assert [o] + more == [o] + left;
    assert more == ([o] + more)[1..] && left == ([o] + left)[1..];
    stored := LastRow(more).value;
  }

  lemma {:induction false} FullGrantLeaves(job: Job, o: OrderState) returns (more: seq<OrderState>)
    requires job.Receive? && job.releaseOnAllocation && GrantsEverything(job.env)
    requires Received(job.id, job.goods, job.routes, job.allowPartial, job.releaseOnAllocation, job.deadline) == Ok(o)
    requires job.intake.publishes(1, OrderReceived(job.id, |o.lines|))
    ensures StoresOf(KeyedPlan(o, job.intake, job.env).effects) == [o] + more
    ensures |more| == 1 && AllLines(more[0].lines, Released)
  {
    var started := IntakeStarts(job, true);
    var env := Unbroken(job.env);
    var pass := FirstPass(o, env);
    FullGrantReleasesAll(o, false, env);
    more := StoresOf(pass.effects);
    FollowingWrites(o, job.intake, pass.effects);
    IntakeWritesOnce(o, job.intake);
  }
}
