/** What each use case comes to, told from its inputs: when a retry or a release on demand releases, what
    is kept when a pass fails, when a cancellation goes ahead. */
module UseCaseOutcomes {
  import opened Wrappers
  import opened Orders
  import opened Allocation
  import opened AllocationTheorems
  import opened PassTheorems
  import opened ReservationTheorems
  import opened PassProgress
  import opened PassConservation
  import opened UseCases
  import opened UseCaseTheorems
  import opened PassOutcome

  // ---------------------------------------------------------------- passes that fail on the way

  /** The event of a failed pass: the lines allocated, those never asked about, and the cause. */
  function TellsOfFailure(t: OrderState, env: Env, granted: nat, stop: Line): Event {
    OrderAllocationPartiallyFailed(t.id, granted, |WithStatus(t.lines, Pending)|, TruncateCause(env.describe(StopFailure(env, stop))))
  }

  /** The order that a pass has settled when it stops at a line: the lines before have their answers, and
      so has this one if it was its event that failed. */
  ghost predicate StoppedAt(s: OrderState, env: Env, lines: seq<Line>, t: OrderState) {
    SettledUpTo(s, env, lines, Answers(s.id, env, lines, |lines|), t)
  }

  /** Saving what was reserved before a failure, and telling of it. */
  lemma {:induction false} SalvageIs(a: Progress, failure: Failure, env: Env) returns (o: Outcome, e: Event)
    ensures o == Salvage(a, failure, env) && o.reported.Some?
    ensures
      var t := SetPromiseDate(a.order, env);
      && e == OrderAllocationPartiallyFailed(t.id, a.nAllocated, |WithStatus(t.lines, Pending)|, TruncateCause(env.describe(failure)))
      && (!env.saves ==> o.verdict == Rollback && o.effects == a.effects)
      && (env.saves ==>
            && (o.verdict == Commit <==> env.publishes(|a.effects| + 1, e))
            && o.effects == a.effects + [Store(t)] + (if o.verdict == Commit then [Emit(e)] else []))
  {
    o := Salvage(a, failure, env);
    var t := SetPromiseDate(a.order, env);
    e := PartialFailure(Bumped(t), a.nAllocated, failure, env);
    assert a.effects + [Store(t)] + [] == a.effects + [Store(t)];
  }

  /** A pass that stops while reserving keeps exactly what was granted: if anything was, the order is
      promised and saved with it, and the world is told how far the pass came; if nothing was, no order
      is saved. Its caller hears of the failure in either case. */
  lemma {:induction false} StoppedPassKeepsGrants(s: OrderState, lines: seq<Line>, retry: bool, releases: bool, env: Env)
    returns (o: Outcome, t: OrderState)
    requires Sound(s) && Asks(s, lines, retry) && Stop(s.id, env, lines, |lines|) < |lines|
    ensures o == AllocateAndRelease(s, lines, retry, releases, env) && o.reported.Some? && StoppedAt(s, env, lines, t)
    ensures
      var j := Stop(s.id, env, lines, |lines|);
      var granted := GrantedAmong(env, lines, Answers(s.id, env, lines, |lines|));
      var told, saved := Told(s.id, env, lines, j), SetPromiseDate(t, env);
      var e := TellsOfFailure(saved, env, granted, lines[j]);
      && (granted == 0 ==> o.verdict == Commit && o.effects == told)
      && (granted > 0 && !env.saves ==> o.verdict == Rollback && o.effects == told)
      && (granted > 0 && env.saves ==>
            && (o.verdict == Commit <==> env.publishes(j + 1, e))
            && o.effects == told + [Store(saved)] + (if o.verdict == Commit then [Emit(e)] else []))
  {
    var a := AllocateLines(s, lines, |lines|, retry, env);
    ReservationsAre(s, lines, retry, env);
    t := a.order;
    if a.nAllocated > 0 {
      var e;
      o, e := SalvageIs(a, a.failure.value, env);
    } else {
      o := Ended(a, Commit, a.failure);
    }
  }

  lemma {:induction false} LegFails(b: Progress, env: Env, just: seq<int>) returns (o: Outcome)
    requires WellNumbered(b.order.lines) && b.failure.None? && OnlyLineEvents(b.effects) && Carries(b.effects, b.order.id)
    requires
      var w := WithStatus(b.order.lines, Allocated);
      !AllStayThrough(b.order.id, env, just, w, |b.effects|, |w|)
    ensures o == ReleaseLeg(b, just, env) && o.verdict == Rollback && o.reported.Some? && StoresOf(o.effects) == []
  {
    var w := ListingRenews(b.order);
    RenewalsAre(b, env, just, w);
    var q := ReconfirmSameRow(b, w, |w|, just, env);
    LineEventsSayNothing(q.effects);
    o := Ended(q, Rollback, q.failure);
  }

  /** A pass that stops while renewing reservations is rolled back before it saves. */
  lemma {:induction false} FailedRenewalSavesNothing(s: OrderState, lines: seq<Line>, retry: bool, env: Env) returns (o: Outcome)
    requires Sound(s) && Asks(s, lines, retry) && !Passes(s, env, lines, true)
    requires forall i :: 0 <= i < |lines| ==> GoesThrough(s.id, env, lines[i], i)
    ensures o == AllocateAndRelease(s, lines, retry, true, env)
    ensures o.verdict == Rollback && o.reported.Some? && StoresOf(o.effects) == []
  {
    var b := PromisedPass(s, lines, retry, env);
    o := LegFails(b, env, LineNos(lines));
  }

  // ---------------------------------------------------------------- what a pass releases

  /** A pass whose save succeeds, if it comes to it, leaves a line newly released if and only if nothing
      fails on the way, it may release, and some line is allocated when it comes to that. */
  ghost predicate ReleasesSomething(s: OrderState, env: Env, lines: seq<Line>, releases: bool) {
    && Passes(s, env, lines, releases) && MayRelease(s, env, LineNos(lines), releases)
    && SomeAllocatedAfter(s, env, LineNos(lines), releases)
  }

  ghost predicate NewlyReleasedAt(s: OrderState, t: OrderState, i: nat) {
    i < |s.lines| && i < |t.lines| && t.lines[i].status == Released && s.lines[i].status != Released
  }

  lemma {:induction false} LeftReleases(s: OrderState, env: Env, lines: seq<Line>, retry: bool, releases: bool, i: nat)
    requires Sound(s) && Asks(s, lines, retry) && i < |s.lines|
    ensures
      var t := Left(s, env, LineNos(lines), releases);
      NewlyReleasedAt(s, t, i) <==> MayRelease(s, env, LineNos(lines), releases) && AllocatedAfter(s, env, LineNos(lines), releases, i)
  {
    LeftStatus(s, env, LineNos(lines), releases, i);
    if i + 1 in LineNos(lines) {
      var k :| 0 <= k < |lines| && LineNos(lines)[k] == i + 1;
      assert lines[k].lineNo == i + 1 && s.lines[i].status == Kind(retry);
    }
  }

  lemma {:induction false} StoppedReleasesNothing(s: OrderState, env: Env, lines: seq<Line>, n: nat, t: OrderState, i: nat)
    requires n <= |lines| && SettledUpTo(s, env, lines, n, t)
    ensures !NewlyReleasedAt(s, SetPromiseDate(t, env), i)
  {
    PromisingKeepsLines(t, env);
  }

  lemma {:induction false} SavedWith(before: seq<Effect>, t: OrderState, after: seq<Effect>)
    requires OnlyLineEvents(before) && |after| <= 1 && forall k :: 0 <= k < |after| ==> after[k].Emit?
    ensures StoresOf(before + [Store(t)] + after) == [t]
  {
    LineEventsSayNothing(before);
    Appended(before, Store(t));
    if after == [] {
      assert before + [Store(t)] + after == before + [Store(t)];
    } else {
      Appended(before + [Store(t)], after[0]);
      assert after == [after[0]];
    }
  }

  /** What a pass leaves persisted: the order its inputs say, or one in which nothing is newly released. */
  lemma {:induction false} PassPersists(s: OrderState, lines: seq<Line>, retry: bool, releases: bool, env: Env) returns (t: OrderState)
    requires Sound(s) && Asks(s, lines, retry) && env.saves
    ensures t == Persisted(s, AllocateAndRelease(s, lines, retry, releases, env))
    ensures Passes(s, env, lines, releases) ==> t == Left(s, env, LineNos(lines), releases)
    ensures !Passes(s, env, lines, releases) ==> forall i :: !NewlyReleasedAt(s, t, i)
  {
    if Passes(s, env, lines, releases) {
      var o, e := PassLeaves(s, lines, retry, releases, env);
      OnlyLinesTold(s, env, lines, releases);
      SavedWith(Before(s, env, lines, releases), Left(s, env, LineNos(lines), releases),
        if e.Some? && o.verdict == Commit then [Emit(e.value)] else []);
      t := Persisted(s, o);
    } else if Stop(s.id, env, lines, |lines|) < |lines| {
      t := StoppedPersists(s, lines, retry, releases, env);
    } else {
      var o := FailedRenewalSavesNothing(s, lines, retry, env);
      t := Persisted(s, o);
    }
  }

  lemma {:induction false} StoppedStores(s: OrderState, lines: seq<Line>, retry: bool, releases: bool, env: Env)
    returns (o: Outcome, u: OrderState)
    requires Sound(s) && Asks(s, lines, retry) && env.saves && Stop(s.id, env, lines, |lines|) < |lines|
    ensures o == AllocateAndRelease(s, lines, retry, releases, env) && StoppedAt(s, env, lines, u)
    ensures StoresOf(o.effects)
         == if GrantedAmong(env, lines, Answers(s.id, env, lines, |lines|)) > 0 then [SetPromiseDate(u, env)] else []
  {
    o, u := StoppedPassKeepsGrants(s, lines, retry, releases, env);
    var j, n := Stop(s.id, env, lines, |lines|), Answers(s.id, env, lines, |lines|);
    var told, saved := Told(s.id, env, lines, j), SetPromiseDate(u, env);
    LineEventsSayNothing(told);
    SavedWith(told, saved, if o.verdict == Commit then [Emit(TellsOfFailure(saved, env, GrantedAmong(env, lines, n), lines[j]))] else []);
  }

  lemma {:induction false} StoppedPersists(s: OrderState, lines: seq<Line>, retry: bool, releases: bool, env: Env)
    returns (t: OrderState)
    requires Sound(s) && Asks(s, lines, retry) && env.saves && Stop(s.id, env, lines, |lines|) < |lines|
    ensures t == Persisted(s, AllocateAndRelease(s, lines, retry, releases, env))
    ensures forall i :: !NewlyReleasedAt(s, t, i)
  {
    var o, u := StoppedStores(s, lines, retry, releases, env);
    t := Persisted(s, o);
    forall i ensures !NewlyReleasedAt(s, SetPromiseDate(u, env), i) {
      StoppedReleasesNothing(s, env, lines, Answers(s.id, env, lines, |lines|), u, i);
    }
  }

  ghost predicate SomethingNew(s: OrderState, t: OrderState) {
    exists i :: NewlyReleasedAt(s, t, i)
  }

  lemma {:induction false} PassReleasesIff(s: OrderState, lines: seq<Line>, retry: bool, releases: bool, env: Env) returns (t: OrderState)
    requires Sound(s) && Asks(s, lines, retry) && env.saves
    ensures t == Persisted(s, AllocateAndRelease(s, lines, retry, releases, env))
    ensures SomethingNew(s, t) <==> ReleasesSomething(s, env, lines, releases)
  {
    t := PassPersists(s, lines, retry, releases, env);
    if Passes(s, env, lines, releases) {
      forall i | 0 <= i < |s.lines|
        ensures NewlyReleasedAt(s, t, i) <==>
                  MayRelease(s, env, LineNos(lines), releases) && AllocatedAfter(s, env, LineNos(lines), releases, i)
      {
        LeftReleases(s, env, lines, retry, releases, i);
      }
      if ReleasesSomething(s, env, lines, releases) {
        var i :| 0 <= i < |s.lines| && AllocatedAfter(s, env, LineNos(lines), releases, i);
        assert NewlyReleasedAt(s, t, i);
      }
    }
  }

  lemma {:induction false} SomethingReported(s: OrderState, lines: seq<Line>, env: Env, releases: bool)
    requires Sound(s) && MayRelease(s, env, LineNos(lines), releases) && SomeAllocatedAfter(s, env, LineNos(lines), releases)
    ensures Reports(s, env, LineNos(lines), releases) != []
  {
    var just := LineNos(lines);
    var kept := Kept(s, env, just, releases);
    var i :| 0 <= i < |s.lines| && AllocatedAfter(s, env, just, releases, i);
    KeptStatus(s, env, just, releases, i);
    GateIff(s, env, just, releases);
    KeptIsNumbered(s, env, just, releases);
    ReleaseIsAllOrNothing(kept);
    var w := WithStatusLists(kept.lines, Allocated);
    ListedIff(kept.lines, w, Allocated, i);
    assert |ReleasedNos(ReleaseAllocatedLines(kept).released)| == |w|;
  }

  lemma {:induction false} KeptIsNumbered(s: OrderState, env: Env, just: seq<int>, releases: bool)
    requires WellNumbered(s.lines)
    ensures WellNumbered(Kept(s, env, just, releases).lines)
  {
    PromisingKeepsLines(Settled(s, env, just), env);
  }

  /** A pass that releases lines has an order-level event, with the report of each; it commits if and only
      if that event is published, and otherwise reports that it was not. */
  lemma {:induction false} ReleasingPassIsTold(s: OrderState, lines: seq<Line>, retry: bool, releases: bool, env: Env)
    returns (o: Outcome, e: Event)
    requires Sound(s) && Asks(s, lines, retry) && env.saves && ReleasesSomething(s, env, lines, releases)
    ensures o == AllocateAndRelease(s, lines, retry, releases, env)
    ensures
      var before, t := Before(s, env, lines, releases), Left(s, env, LineNos(lines), releases);
      var granted := GrantedAmong(env, lines, |lines|);
      && TellsOf(e, t, granted, |lines| - granted + Lost(s, env, lines, releases), Reports(s, env, LineNos(lines), releases))
      && (o.verdict == Commit <==> env.publishes(|before| + 1, e))
      && (o.verdict == Commit ==> o.effects == before + [Store(t)] + [Emit(e)])
      && o.reported == if o.verdict == Commit then None else Some(PublishFailed)
  {
    var event;
    o, event := PassLeaves(s, lines, retry, releases, env);
    var i :| 0 <= i < |s.lines| && AllocatedAfter(s, env, LineNos(lines), releases, i);
    LeftStatus(s, env, LineNos(lines), releases, i);
    SomethingReported(s, lines, env, releases);
    assert AnyLine(Left(s, env, LineNos(lines), releases).lines, Released);
    e := event.value;
  }

  // ---------------------------------------------------------------- retry and release on demand

  lemma {:induction false} AsksOfKind(s: OrderState, retry: bool) returns (w: seq<Line>)
    requires Sound(s)
    ensures w == WithStatus(s.lines, Kind(retry)) && Asks(s, w, retry)
    ensures forall i :: 0 <= i < |s.lines| ==> (i + 1 in LineNos(w) <==> s.lines[i].status == Kind(retry))
  {
    w := WithStatusLists(s.lines, Kind(retry));
    WithStatusAskable(s, Kind(retry));
    forall i | 0 <= i < |s.lines| ensures i + 1 in LineNos(w) <==> s.lines[i].status == Kind(retry) {
      ListedIff(s.lines, w, Kind(retry), i);
    }
  }

  lemma {:induction false} StaysAllocated(s: OrderState, env: Env, just: seq<int>, i: nat) returns (p: OrderState)
    requires WellNumbered(s.lines) && i < |s.lines| && s.lines[i].status == Allocated && i + 1 !in just
    ensures p == Promised(s, env, just) && WellNumbered(p.lines) && |p.lines| == |s.lines| && p.lines[i].status == Allocated
  {
    p := Promised(s, env, just);
    PromisingKeepsLines(Settled(s, env, just), env);
  }

  /** A line allocated before a pass that goes through has had an answer. */
  lemma {:induction false} RenewalsAnswered(s: OrderState, env: Env, lines: seq<Line>, i: nat)
    requires Sound(s) && Passes(s, env, lines, true) && i < |s.lines| && s.lines[i].status == Allocated && i + 1 !in LineNos(lines)
    ensures !env.reserve(i + 1).Unavailable?
  {
    var p := StaysAllocated(s, env, LineNos(lines), i);
    var w := ListingRenews(p);
    ListedIff(p.lines, w, Allocated, i);
    ListedIsAnswered(s.id, env, LineNos(lines), w, |lines|, i + 1);
  }

  lemma {:induction false} ListedIsAnswered(id: OrderId, env: Env, just: seq<int>, w: seq<Line>, from: nat, n: int)
    requires AllStayThrough(id, env, just, w, from, |w|) && n in LineNos(w) && n !in just
    ensures !env.reserve(n).Unavailable?
  {
    var k :| 0 <= k < |w| && LineNos(w)[k] == n;
    assert StaysThrough(id, env, just, w[k], from + |LostTold(id, env, just, w, k)|);
  }

  /** The line can be allocated when a retry, or with `kinds` a release on demand, comes to release. */
  predicate Secured(s: OrderState, env: Env, kinds: set<LineStatus>, i: nat)
    requires i < |s.lines|
  {
    s.lines[i].status in kinds && env.reserve(i + 1).Granted?
  }

  /** Enough is secured to release: something, and for a ship-complete order everything not released. */
  ghost predicate EnoughSecured(s: OrderState, env: Env, kinds: set<LineStatus>) {
    && (exists i :: 0 <= i < |s.lines| && Secured(s, env, kinds, i))
    && (s.allowPartial || forall i :: 0 <= i < |s.lines| ==> Secured(s, env, kinds, i) || s.lines[i].status == Released)
  }

  lemma {:induction false} SecuredIsAllocated(s: OrderState, env: Env, lines: seq<Line>, kinds: set<LineStatus>, i: nat)
    requires Sound(s) && Passes(s, env, lines, true) && i < |s.lines|
    requires s.lines[i].status in kinds <==> i + 1 in LineNos(lines) || s.lines[i].status == Allocated
    ensures AllocatedAfter(s, env, LineNos(lines), true, i) <==> Secured(s, env, kinds, i)
  {
    if s.lines[i].status == Allocated && i + 1 !in LineNos(lines) {
      RenewalsAnswered(s, env, lines, i);
    }
  }

  lemma {:induction false} EnoughIff(s: OrderState, env: Env, lines: seq<Line>, kinds: set<LineStatus>)
    requires Sound(s) && Passes(s, env, lines, true) && Released !in kinds
    requires forall i :: 0 <= i < |s.lines| ==> (s.lines[i].status in kinds <==> i + 1 in LineNos(lines) || s.lines[i].status == Allocated)
    ensures ReleasesSomething(s, env, lines, true) <==> EnoughSecured(s, env, kinds)
  {
    forall i | 0 <= i < |s.lines| ensures AllocatedAfter(s, env, LineNos(lines), true, i) <==> Secured(s, env, kinds, i) {
      SecuredIsAllocated(s, env, lines, kinds, i);
    }
    if EnoughSecured(s, env, kinds) {
      var i :| 0 <= i < |s.lines| && Secured(s, env, kinds, i);
      assert AllocatedAfter(s, env, LineNos(lines), true, i);
    }
  }

  function StoredOr(s: OrderState, effects: seq<Effect>): OrderState {
    if StoresOf(effects) == [] then s else StoresOf(effects)[0]
  }

  ghost predicate ReleasesLines(s: OrderState, plan: Plan) {
    SomethingNew(s, StoredOr(s, plan.effects))
  }

  lemma {:induction false} RetryIs(s: OrderState, env: Env, w: seq<Line>) returns (o: Outcome)
    requires w == WithStatus(s.lines, Backordered)
    ensures o == AllocateAndRelease(s, w, true, !s.held, env)
    ensures RetryPlan(s, env) == if w == [] then NOTHING else Plan(o.effects, o.verdict)
  {
    o := RetryPass(s, env);
  }

  lemma {:induction false} HeldIs(s: OrderState, env: Env) returns (o: Outcome)
    ensures o == AllocateAndRelease(s, [], false, true, env)
    ensures HeldPlan(s, env) == if s.held && WithStatus(s.lines, Allocated) != [] then Plan(o.effects, o.verdict) else NOTHING
  {
    o := HeldPass(s, env);
  }

  lemma {:induction false} ListedIffAny(s: OrderState, w: seq<Line>, st: LineStatus)
    requires WellNumbered(s.lines) && Listing(s.lines, w, st)
    ensures w != [] <==> AnyLine(s.lines, st)
  {
    assert w != [] ==> s.lines[w[0].lineNo - 1].status == st;
    if AnyLine(s.lines, st) {
      var i :| 0 <= i < |s.lines| && s.lines[i].status == st;
      ListedIff(s.lines, w, st, i);
    }
  }

  /** A retry does nothing for an order without a backordered line. For any other it releases lines if and
      only if the order is not held, no answer or publish fails on the way, and enough of the backordered
      and allocated lines is granted. */
  lemma {:induction false} RetryReleasesIff(s: OrderState, env: Env)
    requires Sound(s) && env.saves
    ensures !AnyLine(s.lines, Backordered) ==> RetryPlan(s, env) == NOTHING
    ensures AnyLine(s.lines, Backordered) ==>
              (ReleasesLines(s, RetryPlan(s, env)) <==>
                 !s.held && Passes(s, env, WithStatus(s.lines, Backordered), true) && EnoughSecured(s, env, {Backordered, Allocated}))
  {
    var w := AsksOfKind(s, true);
    var listed := WithStatusLists(s.lines, Backordered);
    ListedIffAny(s, w, Backordered);
    var o := RetryIs(s, env, w);
    var t := PassReleasesIff(s, w, true, !s.held, env);
    if !s.held && Passes(s, env, w, true) {
      EnoughIff(s, env, w, {Backordered, Allocated});
    }
  }

  /** A release on demand does nothing for an order that is not held or has no allocated line. For any
      other it releases lines if and only if no answer or publish fails on the way and enough of the
      allocated lines is granted again. */
  lemma {:induction false} HeldReleasesIff(s: OrderState, env: Env)
    requires Sound(s) && env.saves
    ensures !s.held || !AnyLine(s.lines, Allocated) ==> HeldPlan(s, env) == NOTHING
    ensures s.held && AnyLine(s.lines, Allocated) ==>
              (ReleasesLines(s, HeldPlan(s, env)) <==> Passes(s, env, [], true) && EnoughSecured(s, env, {Allocated}))
  {
    var w := WithStatusLists(s.lines, Allocated);
    ListedIffAny(s, w, Allocated);
    var o := HeldIs(s, env);
    var t := PassReleasesIff(s, [], false, true, env);
    if Passes(s, env, [], true) {
      EnoughIff(s, env, [], {Allocated});
    }
  }

  /** With everything granted and nothing failing, a retry of an order whose lines are backordered,
      allocated or released releases all of them; of a held order it allocates all that is backordered. */
  lemma {:induction false} RetryGetsEverythingGranted(s: OrderState, env: Env)
    requires Sound(s) && GrantsEverything(env) && AnyLine(s.lines, Backordered)
    ensures RetryPlan(s, env).verdict == Commit && |StoresOf(RetryPlan(s, env).effects)| == 1
    ensures s.held ==> AllGranted(s.lines, StoresOf(RetryPlan(s, env).effects)[0].lines, Backordered)
    ensures !s.held && (forall i :: 0 <= i < |s.lines| ==> s.lines[i].status in {Backordered, Allocated, Released}) ==>
              AllLines(StoresOf(RetryPlan(s, env).effects)[0].lines, Released)
  {
    var w := AsksOfKind(s, true);
    var i :| 0 <= i < |s.lines| && s.lines[i].status == Backordered;
    assert i + 1 in LineNos(w);
    if s.held {
      FullGrantAllocatesHeld(s, true, env);
    } else {
      GrantedPassStores(s, env, w);
      if forall i :: 0 <= i < |s.lines| ==> s.lines[i].status in {Backordered, Allocated, Released} {
        FullGrantReleasesAll(s, true, env);
      }
    }
  }

  lemma {:induction false} GrantedPassStores(s: OrderState, env: Env, lines: seq<Line>)
    requires Sound(s) && GrantsEverything(env) && Asks(s, lines, true)
    ensures
      var o := AllocateAndRelease(s, lines, true, true, env);
      o.verdict == Commit && |StoresOf(o.effects)| == 1
  {
    EverythingPasses(s, env, lines, true);
    var o, e := PassLeaves(s, lines, true, true, env);
    OnlyLinesTold(s, env, lines, true);
    SavedWith(Before(s, env, lines, true), Left(s, env, LineNos(lines), true), if e.Some? && o.verdict == Commit then [Emit(e.value)] else []);
  }

  lemma {:induction false} EverythingPasses(s: OrderState, env: Env, lines: seq<Line>, releases: bool)
    requires GrantsEverything(env)
    ensures Passes(s, env, lines, releases)
  {
  }

  // ---------------------------------------------------------------- cancel

  lemma {:induction false} RevokesAllIff(ids: seq<string>, k: nat, env: Env)
    requires k <= |ids|
    ensures RevokesAll(ids, k, env) <==> forall i :: 0 <= i < k ==> env.revokes(ids[i])
  {
    if k > 0 {
      RevokesAllIff(ids, k - 1, env);
    }
  }

  lemma {:induction false} IdsAreHeld(lines: seq<Line>)
    requires forall i :: 0 <= i < |lines| ==> LineSane(lines[i])
    ensures |AllocatedReservationIds(lines)| == |WithStatus(lines, Allocated)|
    ensures forall x :: x in AllocatedReservationIds(lines) <==>
              exists i :: 0 <= i < |lines| && lines[i].status == Allocated && lines[i].reservationId == Some(x)
  {
    if lines != [] {
      var n := |lines| - 1;
      IdsAreHeld(lines[..n]);
      forall i | 0 <= i < n ensures lines[..n][i] == lines[i] {
      }
      forall x | x in AllocatedReservationIds(lines[..n])
        ensures exists i :: 0 <= i < |lines| && lines[i].status == Allocated && lines[i].reservationId == Some(x)
      {
        var i :| 0 <= i < n && lines[..n][i].status == Allocated && lines[..n][i].reservationId == Some(x);
        assert lines[i].status == Allocated;
      }
    }
  }

  /** Every reservation of an allocated line is taken back. */
  ghost predicate AllTakenBack(s: OrderState, env: Env) {
    forall i :: 0 <= i < |s.lines| && s.lines[i].status == Allocated && s.lines[i].reservationId.Some? ==>
      env.revokes(s.lines[i].reservationId.value)
  }

  lemma {:induction false} TakenBackIff(s: OrderState, env: Env)
    requires Sound(s)
    ensures
      var ids := AllocatedReservationIds(s.lines);
      RevokesAll(ids, |ids|, env) <==> AllTakenBack(s, env)
  {
    var ids := AllocatedReservationIds(s.lines);
    IdsAreHeld(s.lines);
    RevokesAllIff(ids, |ids|, env);
    if RevokesAll(ids, |ids|, env) {
      forall i | 0 <= i < |s.lines| && s.lines[i].status == Allocated && s.lines[i].reservationId.Some?
        ensures env.revokes(s.lines[i].reservationId.value)
      {
        assert s.lines[i].reservationId.value in ids;
      }
    }
    if AllTakenBack(s, env) {
      forall k | 0 <= k < |ids| ensures env.revokes(ids[k]) {
        assert ids[k] in ids;
      }
    }
  }

  /** A cancellation goes ahead if and only if no line is released, every allocated line's reservation is
      taken back, and the save and the publish succeed; it then cancels every line, changes nothing else,
      and tells how many reservations it gave back. */
  lemma {:induction false} CancelGoesAheadIff(s: OrderState, env: Env) returns (t: OrderState, e: Event)
    requires Sound(s)
    ensures |t.lines| == |s.lines| && t == s.(lines := t.lines)
    ensures forall i :: 0 <= i < |s.lines| ==> t.lines[i] == s.lines[i].(status := Cancelled)
    ensures e == OrderCancelled(s.id, |WithStatus(s.lines, Allocated)|)
    ensures
      var plan := CancelPlan(s, env);
      && (plan.verdict == Commit <==> !AnyLine(s.lines, Released) && AllTakenBack(s, env) && env.saves && env.publishes(1, e))
      && (plan.verdict == Commit ==> plan.effects == [Store(t), Emit(e)])
  {
    IdsAreHeld(s.lines);
    TakenBackIff(s, env);
    e := OrderCancelled(s.id, |WithStatus(s.lines, Allocated)|);
    t := s.(lines := CancelLines(s.lines));
  }

  // ---------------------------------------------------------------- what the caller is told

  /** A retry is refused exactly when no line is backordered, and otherwise reports what its pass does. */
  lemma {:induction false} RetryTells(s: OrderState, env: Env)
    requires Sound(s)
    ensures RetryError(s, env) == Some(NoBackorderedLines) <==> !AnyLine(s.lines, Backordered)
    ensures AnyLine(s.lines, Backordered) ==>
              && (RetryError(s, env).None? <==> RetryPass(s, env).reported.None?)
              && (RetryPass(s, env).reported.Some? ==> RetryError(s, env) == Some(Failed(RetryPass(s, env).reported.value)))
  {
    var w := WithStatusLists(s.lines, Backordered);
    ListedIffAny(s, w, Backordered);
  }

  /** A release on demand is refused exactly when the order was never held; without an allocated line it
      succeeds, and otherwise it reports what its pass does. */
  lemma {:induction false} HeldTells(s: OrderState, env: Env)
    requires Sound(s)
    ensures HeldError(s, env) == Some(OrderNotHeld) <==> !s.held
    ensures s.held && !AnyLine(s.lines, Allocated) ==> HeldError(s, env).None?
    ensures s.held && AnyLine(s.lines, Allocated) ==>
              && (HeldError(s, env).None? <==> HeldPass(s, env).reported.None?)
              && (HeldPass(s, env).reported.Some? ==> HeldError(s, env) == Some(Failed(HeldPass(s, env).reported.value)))
  {
    var w := WithStatusLists(s.lines, Allocated);
    ListedIffAny(s, w, Allocated);
  }

  /** A cancellation reports the first thing that stands in its way. */
  lemma {:induction false} CancelTells(s: OrderState, env: Env)
    requires Sound(s)
    ensures
      var e := OrderCancelled(s.id, |WithStatus(s.lines, Allocated)|);
      CancelError(s, env) ==
        if AnyLine(s.lines, Released) then Some(Invalid(OrderAlreadyReleased))
        else if !AllTakenBack(s, env) then Some(RevokeFailed)
        else if !env.saves then Some(Failed(SaveFailed))
        else if !env.publishes(1, e) then Some(Failed(PublishFailed))
        else None
  {
    IdsAreHeld(s.lines);
    TakenBackIff(s, env);
  }

  // ---------------------------------------------------------------- intake

  /** The path of a requested line: the one named, or the one chosen, or the default. */
  function PathFor(g: NewLine, routes: Routes): Option<PathId> {
    if g.pathId != "" then Some(g.pathId)
    else
      match routes.select(g)
      case None => None
      case Some(path) => Some(if path == "" then DEFAULT_PATH_ID else path)
  }

  /** Why a requested line is refused. */
  function LineRefusal(g: NewLine, routes: Routes): Option<OrderError> {
    if PathFor(g, routes).None? then Some(LineIneligibleForResolvedPath)
    else if g.sku == "" then Some(EmptySKU)
    else if g.quantity <= 0 then Some(NonPositiveQuantity)
    else if !routes.active(PathFor(g, routes).value) then Some(UnknownProcessPath)
    else None
  }

  lemma {:induction false} BuiltIff(goods: seq<NewLine>, k: nat, routes: Routes)
    requires k <= |goods|
    ensures BuildLines(goods, k, routes).Ok? <==> forall i :: 0 <= i < k ==> LineRefusal(goods[i], routes).None?
    ensures BuildLines(goods, k, routes).Ok? ==>
              && |BuildLines(goods, k, routes).value| == k
              && forall i :: 0 <= i < k ==> IsRequested(BuildLines(goods, k, routes).value[i], i + 1, goods[i], routes)
    ensures BuildLines(goods, k, routes).Err? ==>
              exists i :: 0 <= i < k && LineRefusal(goods[i], routes) == Some(BuildLines(goods, k, routes).error)
                && forall j :: 0 <= j < i ==> LineRefusal(goods[j], routes).None?
  {
    if k > 0 {
      BuiltIff(goods, k - 1, routes);
    }
  }

  /** The line is what was asked for: pending, unreserved, with the goods and path requested. */
  predicate IsRequested(l: Line, lineNo: int, g: NewLine, routes: Routes) {
    PathFor(g, routes).Some?
    && l == Line(lineNo, g.sku, g.quantity, PathFor(g, routes).value, g.giftWrap, Pending, None)
  }

  /** A request is accepted if and only if it is not held as a partial order, every line is in order, and
      there is an id and a line; the order then has exactly the lines requested, and nothing else. */
  lemma {:induction false} ReceivedIff(id: OrderId, goods: seq<NewLine>, routes: Routes, allowPartial: bool, releaseOnAllocation: bool,
      deadline: Option<Instant>)
    ensures
      var r := Received(id, goods, routes, allowPartial, releaseOnAllocation, deadline);
      && (r.Ok? <==> (releaseOnAllocation || !allowPartial) && id != "" && goods != []
                     && forall i :: 0 <= i < |goods| ==> LineRefusal(goods[i], routes).None?)
      && (r.Ok? ==>
            && r.value == OrderState(id, r.value.lines, allowPartial, None, None, None, [], !releaseOnAllocation, deadline, 1)
            && |r.value.lines| == |goods|
            && forall i :: 0 <= i < |goods| ==> IsRequested(r.value.lines[i], i + 1, goods[i], routes))
  {
    BuiltIff(goods, |goods|, routes);
  }

  /** Why a request is refused: the contradictory intent first, then the first bad line, then the rest. */
  lemma {:induction false} RefusedBecause(id: OrderId, goods: seq<NewLine>, routes: Routes, allowPartial: bool, releaseOnAllocation: bool,
      deadline: Option<Instant>)
    requires Received(id, goods, routes, allowPartial, releaseOnAllocation, deadline).Err?
    ensures
      var error := Received(id, goods, routes, allowPartial, releaseOnAllocation, deadline).error;
      if !releaseOnAllocation && allowPartial then error == HeldOrderMustBeShipComplete
      else if forall i :: 0 <= i < |goods| ==> LineRefusal(goods[i], routes).None? then
        error == if id == "" then EmptyOrderId else NoLines
      else exists i :: 0 <= i < |goods| && LineRefusal(goods[i], routes) == Some(error)
             && forall j :: 0 <= j < i ==> LineRefusal(goods[j], routes).None?
  {
    BuiltIff(goods, |goods|, routes);
  }
}
