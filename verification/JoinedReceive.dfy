/** Receiving an order under an idempotency key, as the service does whenever it has a database. The
    key's transaction is then the outermost one: the intake and the first pass join it, and it commits
    with every normal response, error responses included. So whatever either wrote before it failed is
    committed; only a failed statement, which aborts the transaction, undoes it all. */
module JoinedReceive {
  import opened Wrappers
  import opened Orders
  import opened Allocation
  import opened AllocationTheorems
  import opened PassTheorems
  import opened ReservationTheorems
  import opened UseCases
  import opened UseCaseTheorems
  import opened IntakePass
  import OrderRepo

  function Receipt(s: OrderState): Event {
    OrderReceived(s.id, |s.lines|)
  }

  /** The intake's one event is published, so that the pass follows. */
  predicate IntakeEndsWell(s: OrderState, intake: Env) {
    intake.publishes(1, Receipt(s))
  }

  function KeyedPass(s: OrderState, env: Env): Outcome {
    FirstPass(s, Unbroken(env))
  }

  /** What the request leaves in the order's row. */
  function FinalOrder(s: OrderState, intake: Env, env: Env): Option<OrderState> {
    var effects := KeyedPlan(s, intake, env).effects;
    AfterSaves(effects, None, |effects|)
  }

  // ---------------------------------------------------------------- sequences of writes

  function Flat<A, B>(f: A -> seq<B>, xs: seq<A>): seq<B> {
    if xs == [] then [] else Flat(f, xs[..|xs| - 1]) + f(xs[|xs| - 1])
  }

  lemma {:induction false} FlatInSequence<A, B>(f: A -> seq<B>, xs: seq<A>, ys: seq<A>)
    ensures Flat(f, xs + ys) == Flat(f, xs) + Flat(f, ys)
  {
    if ys == [] {
      assert xs + ys == xs;
    } else {
      var n := |ys| - 1;
      FlatInSequence(f, xs, ys[..n]);
      assert (xs + ys)[..|xs| + n] == xs + ys[..n];
    }
  }

  function StoreOf(e: Effect): seq<OrderState> {
    if e.Store? then [e.order] else []
  }

  function ReleaseOf(e: Effect): seq<int> {
    if e.Emit? then Announces(e.event) else []
  }

  lemma {:induction false} WritesAreFlat(effects: seq<Effect>)
    ensures StoresOf(effects) == Flat(StoreOf, effects)
    ensures ReleasedBy(effects) == Flat(ReleaseOf, effects)
  {
    if effects != [] {
      WritesAreFlat(effects[..|effects| - 1]);
    }
  }

  lemma WritesInSequence(xs: seq<Effect>, ys: seq<Effect>)
    ensures StoresOf(xs + ys) == StoresOf(xs) + StoresOf(ys)
    ensures ReleasedBy(xs + ys) == ReleasedBy(xs) + ReleasedBy(ys)
  {
    WritesAreFlat(xs);
    WritesAreFlat(ys);
    WritesAreFlat(xs + ys);
    FlatInSequence(StoreOf, xs, ys);
    FlatInSequence(ReleaseOf, xs, ys);
  }

  function RowAfter(stores: seq<OrderState>): Option<OrderState> {
    if stores == [] then None
    else if |stores| == 1 then Some(stores[0])
    else Some(Bumped(stores[|stores| - 1]))
  }

  /** The first save of a new order inserts it, each later one updates it. */
  lemma {:induction false} RowAfterSaves(effects: seq<Effect>, k: nat)
    requires k <= |effects|
    ensures AfterSaves(effects, None, k) == RowAfter(StoresOf(effects[..k]))
  {
    if k > 0 {
      RowAfterSaves(effects, k - 1);
      assert effects[..k][..k - 1] == effects[..k - 1];
    }
  }

  lemma IntakeWritesOnce(s: OrderState, intake: Env)
    ensures
      var plan := IntakePlan(s, Unbroken(intake));
      && plan.effects == [Store(s)] + (if IntakeEndsWell(s, intake) then [Emit(Receipt(s))] else [])
      && (plan.verdict == Commit <==> IntakeEndsWell(s, intake))
      && StoresOf(plan.effects) == [s] && ReleasedBy(plan.effects) == []
  {
    Appended([], Store(s));
    Appended([Store(s)], Emit(Receipt(s)));
    assert [] + [Store(s)] == [Store(s)] && [Store(s)] + [Emit(Receipt(s))] == [Store(s), Emit(Receipt(s))];
  }

  /** The row of a request whose intake ended well: what the pass stored, one version up, or the order as
      received. */
  lemma JoinedStores(s: OrderState, intake: Env, env: Env) returns (o: Outcome)
    requires AcceptedIntake(s) && IntakeEndsWell(s, intake)
    ensures o == KeyedPass(s, env) && |StoresOf(o.effects)| <= 1
    ensures FinalOrder(s, intake, env) == Some(if StoresOf(o.effects) == [] then s else Bumped(Persisted(s, o)))
    ensures ReleasedBy(KeyedPlan(s, intake, env).effects) == ReleasedBy(o.effects)
  {
    o := KeyedPass(s, env);
    PassStoresOnce(s, Unbroken(env), o);
    FollowingWrites(s, intake, o.effects);
    IntakeWritesOnce(s, intake);
    RowOfBoth(s, IntakePlan(s, Unbroken(intake)).effects + o.effects, StoresOf(o.effects));
  }

  lemma PassStoresOnce(s: OrderState, env: Env, o: Outcome)
    requires AcceptedIntake(s) && o == FirstPass(s, env)
    ensures |StoresOf(o.effects)| <= 1
  {
    PassWritesWhatItReleases(s, s.lines, false, !s.held, env);
  }

  lemma {:induction false} RowOfBoth(s: OrderState, effects: seq<Effect>, stores: seq<OrderState>)
    requires StoresOf(effects) == [s] + stores && |stores| <= 1
    ensures AfterSaves(effects, None, |effects|) == Some(if stores == [] then s else Bumped(stores[0]))
  {
    RowAfterSaves(effects, |effects|);
    assert effects[..|effects|] == effects;
  }

  lemma FollowingWrites(s: OrderState, intake: Env, effects: seq<Effect>)
    ensures StoresOf(IntakePlan(s, Unbroken(intake)).effects + effects) == [s] + StoresOf(effects)
    ensures ReleasedBy(IntakePlan(s, Unbroken(intake)).effects + effects) == ReleasedBy(effects)
  {
    IntakeWritesOnce(s, intake);
    WritesInSequence(IntakePlan(s, Unbroken(intake)).effects, effects);
  }

  lemma RefusedIntakeStores(s: OrderState, intake: Env, env: Env)
    requires !IntakeEndsWell(s, intake)
    ensures FinalOrder(s, intake, env) == Some(s) && KeyedPlan(s, intake, env).effects == [Store(s)]
    ensures ReleasedBy(KeyedPlan(s, intake, env).effects) == []
  {
    IntakeWritesOnce(s, intake);
    var effects := KeyedPlan(s, intake, env).effects;
    RowAfterSaves(effects, |effects|);
    assert effects[..|effects|] == effects;
  }

  /** The request saves the order as received, and then at most once more. */
  lemma KeyedStores(s: OrderState, intake: Env, env: Env) returns (more: seq<OrderState>)
    requires AcceptedIntake(s)
    ensures StoresOf(KeyedPlan(s, intake, env).effects) == [s] + more && |more| <= 1
    ensures FinalOrder(s, intake, env) == Some(if more == [] then s else Bumped(more[0]))
  {
    more := [];
    IntakeWritesOnce(s, intake);
    if IntakeEndsWell(s, intake) {
      var o := JoinedStores(s, intake, env);
      FollowingWrites(s, intake, o.effects);
      more := StoresOf(o.effects);
    } else {
      RefusedIntakeStores(s, intake, env);
    }
  }

  lemma KeyedIsHonest(s: OrderState, intake: Env, env: Env)
    ensures SavesUnder(KeyedPlan(s, intake, env).effects, s.id, s.version)
  {
    IntakeWritesOnce(s, intake);
    PassPlansKeepRow(s, Unbroken(env));
  }

  /** Why no save of the request fails by itself: the pass saves the row that the intake has inserted in
      the same transaction, at the version it has there. */
  lemma PassMeetsItsOwnRow(t: OrderRepo.Tables, s: OrderState, env: Env, o: OrderState)
    requires Store(o) in KeyedPass(s, env).effects
    ensures OrderRepo.GuardPasses(OrderRepo.SavedTables(t, s), o) || s.id in t.orders
  {
    PassSameRow(s, WithStatus(s.lines, Pending), false, !s.held, Unbroken(env));
  }

  // ---------------------------------------------------------------- what is committed

  /** Whatever fails on the way, there is an order, and it is sound: it keeps the life cycle, what was
      received, and the deadline. */
  lemma JoinedOrderIsSound(s: OrderState, intake: Env, env: Env)
    requires AcceptedIntake(s)
    ensures
      var stored := FinalOrder(s, intake, env);
      stored.Some? && Follows(s, stored.value, !s.held) && DeadlineKept(stored.value) && stored.value.version in {1, 2}
  {
    if IntakeEndsWell(s, intake) {
      var o := JoinedStores(s, intake, env);
      PassIsSound(s, Unbroken(env), o);
    } else {
      RefusedIntakeStores(s, intake, env);
    }
  }

  lemma PassIsSound(s: OrderState, env: Env, o: Outcome)
    requires AcceptedIntake(s) && o == FirstPass(s, env)
    ensures Follows(s, Persisted(s, o), !s.held) && DeadlineKept(Persisted(s, o)) && Persisted(s, o).version == 1
  {
    PassWritesWhatItReleases(s, s.lines, false, !s.held, env);
    PassKeepsDeadline(s, s.lines, false, !s.held, env);
    if StoresOf(o.effects) != [] {
      StoreFollowsLifecycle(s, !s.held, StoresOf(o.effects)[0]);
    }
  }

  /** A received order is announced exactly when its intake's publish succeeds; the order itself is
      committed either way. */
  lemma ReceiptIsAnnouncedIff(s: OrderState, intake: Env, env: Env)
    requires AcceptedIntake(s)
    ensures FinalOrder(s, intake, env).Some?
    ensures Emit(Receipt(s)) in KeyedPlan(s, intake, env).effects <==> IntakeEndsWell(s, intake)
  {
    JoinedOrderIsSound(s, intake, env);
    IntakeWritesOnce(s, intake);
    if IntakeEndsWell(s, intake) {
      assert KeyedPlan(s, intake, env).effects[1] == Emit(Receipt(s));
    } else {
      RefusedIntakeStores(s, intake, env);
    }
  }

  lemma {:induction false} NoGrantsNoIds(lines: seq<Line>)
    requires AllLines(lines, Pending) && forall i :: 0 <= i < |lines| ==> LineSane(lines[i])
    ensures ReservationIds(lines) == []
  {
    if lines != [] {
      NoGrantsNoIds(lines[..|lines| - 1]);
    }
  }

  /** The lines that a request asks inventory-storage about. */
  function AskedBy(s: OrderState, intake: Env, env: Env): seq<int> {
    if IntakeEndsWell(s, intake) then KeyedPass(s, env).asked else []
  }

  /** Nothing granted is stranded: whatever inventory-storage answers and whichever publish fails, the
      committed order holds exactly the granted ids, in line order. */
  lemma JoinedConservesReservations(s: OrderState, intake: Env, env: Env)
    requires AcceptedIntake(s)
    ensures
      var stored := FinalOrder(s, intake, env);
      stored.Some? && ReservationIds(stored.value.lines) == Grants(env, AskedBy(s, intake, env))
  {
    if IntakeEndsWell(s, intake) {
      var o := JoinedStores(s, intake, env);
      IntakeConservesReservations(s, !s.held, Unbroken(env));
      SameGrants(env, o.asked);
    } else {
      RefusedIntakeStores(s, intake, env);
      NoGrantsNoIds(s.lines);
    }
  }

  lemma {:induction false} SameGrants(env: Env, asked: seq<int>)
    ensures Grants(Unbroken(env), asked) == Grants(env, asked)
  {
    if asked != [] {
      SameGrants(env, asked[..|asked| - 1]);
    }
  }

  // ---------------------------------------------------------------- what is announced

  lemma ConcludeRolledBack(a: Progress, released: seq<ReleasedLine>, env: Env)
    requires OnlyLineEvents(a.effects) && Conclude(a, released, env).verdict == Rollback
    ensures ReleasedBy(Conclude(a, released, env).effects) == []
  {
    LineEventsSayNothing(a.effects);
    Appended(a.effects, Store(a.order));
  }

  lemma SalvageAnnouncesNothing(a: Progress, failure: Failure, env: Env)
    requires OnlyLineEvents(a.effects)
    ensures ReleasedBy(Salvage(a, failure, env).effects) == []
  {
    LineEventsSayNothing(a.effects);
    var t := SetPromiseDate(a.order, env);
    Appended(a.effects, Store(t));
    var b := Saved(a.(order := t));
    Appended(b.effects, Emit(PartialFailure(b.order, b.nAllocated, failure, env)));
  }

  /** A pass that is rolled back announces no released line. */
  lemma RolledBackSaysNothing(s: OrderState, lines: seq<Line>, retry: bool, releaseOnAllocation: bool, env: Env)
    requires Sound(s) && AllocateAndRelease(s, lines, retry, releaseOnAllocation, env).verdict == Rollback
    ensures ReleasedBy(AllocateAndRelease(s, lines, retry, releaseOnAllocation, env).effects) == []
  {
    var a := AllocateLines(s, lines, |lines|, retry, env);
    AllocateLinesKeep(s, lines, |lines|, retry, env);
    if a.failure.Some? {
      SalvageAnnouncesNothing(a, a.failure.value, env);
    } else {
      PromisingKeepsLines(a.order, env);
      var b := a.(order := SetPromiseDate(a.order, env));
      if releaseOnAllocation {
        var w := WithStatus(b.order.lines, Allocated);
        ReconfirmLinesKeep(b.order.(lines := s.lines), b, w, |w|, LineNos(lines), env);
        LegRolledBack(b, LineNos(lines), env);
      } else {
        ConcludeRolledBack(b, [], env);
      }
    }
  }

  lemma LegRolledBack(a: Progress, justReserved: seq<int>, env: Env)
    requires
      var w := WithStatus(a.order.lines, Allocated);
      OnlyLineEvents(ReconfirmLines(a, w, |w|, justReserved, env).effects)
    requires ReleaseLeg(a, justReserved, env).verdict == Rollback
    ensures ReleasedBy(ReleaseLeg(a, justReserved, env).effects) == []
  {
    var w := WithStatus(a.order.lines, Allocated);
    var b := ReconfirmLines(a, w, |w|, justReserved, env);
    LineEventsSayNothing(b.effects);
    if b.failure.None? {
      var r := ReleaseAllocatedLines(b.order);
      if b.nBackordered > a.nBackordered && !a.order.allowPartial {
        ConcludeRolledBack(b, [], env);
      } else if r.failure.None? {
        ConcludeRolledBack(b.(order := r.order), r.released, env);
      }
    }
  }

  /** Compared with what it releases, a pass says nothing wrong, unless it leaves a line released and ends
      badly. */
  lemma PassAnnounces(s: OrderState, env: Env, o: Outcome)
    requires AcceptedIntake(s) && o == FirstPass(s, env) && |Persisted(s, o).lines| == |s.lines|
    ensures ReleasedBy(o.effects) == NewlyReleased(s.lines, Persisted(s, o).lines)
       <==> o.verdict == Commit || !AnyLine(Persisted(s, o).lines, Released)
  {
    var t := Persisted(s, o);
    PassWritesWhatItReleases(s, s.lines, false, !s.held, env);
    if StoresOf(o.effects) == [] {
      NoneReleased(s.lines, t.lines);
    } else if o.verdict == Rollback {
      RolledBackSaysNothing(s, s.lines, false, !s.held, env);
      if AnyLine(t.lines, Released) {
        var i :| 0 <= i < |t.lines| && t.lines[i].status == Released;
        SomeReleased(s.lines, t.lines, i);
      } else {
        NoneReleased(s.lines, t.lines);
      }
    }
  }

  lemma {:induction false} SomeReleased(ls: seq<Line>, ks: seq<Line>, i: nat)
    requires |ls| == |ks| && i < |ls| && ks[i].status == Released && ls[i].status != Released
    ensures NewlyReleased(ls, ks) != []
  {
    var n := |ls| - 1;
    if i < n {
      SomeReleased(ls[..n], ks[..n], i);
    }
  }

  /** The request releases lines, and the order-level event that tells of them is not published: intake
      and every line go through, the order is not held, something is granted (everything, if it is
      ship-complete), and the last publish fails. */
  ghost predicate ReleasesInSilence(s: OrderState, intake: Env, env: Env) {
    && IntakeEndsWell(s, intake) && Releases(s, env)
    && (OrderLevelEvent(s, env).Some? ==> !env.publishes(|s.lines| + 1, OrderLevelEvent(s, env).value))
  }

  lemma {:induction false} SavesDoNotMatter(s: OrderState, env: Env)
    ensures Through(s, Unbroken(env), |s.lines|) <==> Through(s, env, |s.lines|)
    ensures Releases(s, Unbroken(env)) <==> Releases(s, env)
    ensures EndingOf(s, Unbroken(env)) == EndingOf(s, env)
    ensures OrderLevelEvent(s, Unbroken(env)) == OrderLevelEvent(s, env)
  {
    assert forall i | 0 <= i < |s.lines| :: LineGoesThrough(s, Unbroken(env), i) <==> LineGoesThrough(s, env, i);
    SameEnding(s, env);
  }

  lemma {:induction false} SameEnding(s: OrderState, env: Env)
    ensures EndingOf(s, Unbroken(env)) == EndingOf(s, env)
  {
    assert Settled(s, Unbroken(env)) == Settled(s, env);
    SameCount(env, |s.lines|);
  }

  lemma {:induction false} SameCount(env: Env, k: nat)
    ensures GrantedCount(Unbroken(env), k) == GrantedCount(env, k)
  {
    if k > 0 {
      SameCount(env, k - 1);
    }
  }

  /** The committed events announce exactly the lines that the committed order has released, unless the
      inputs of the request make it release in silence. */
  lemma JoinedAnnouncesReleasesIff(s: OrderState, intake: Env, env: Env)
    requires AcceptedIntake(s)
    ensures
      var stored := FinalOrder(s, intake, env);
      && stored.Some? && |stored.value.lines| == |s.lines|
      && (ReleasedBy(KeyedPlan(s, intake, env).effects) == NewlyReleased(s.lines, stored.value.lines)
          <==> !ReleasesInSilence(s, intake, env))
  {
    if IntakeEndsWell(s, intake) {
      var o := JoinedStores(s, intake, env);
      var t := FirstPassReleasesIff(s, Unbroken(env));
      PassAnnounces(s, Unbroken(env), o);
      SavesDoNotMatter(s, env);
      if Releases(s, env) {
        ReleasingPassCommitsIff(s, Unbroken(env));
      }
    } else {
      RefusedIntakeStores(s, intake, env);
      NoneReleased(s.lines, s.lines);
    }
  }

  /** A request that releases in silence announces no line at all. */
  lemma SilenceSaysNothing(s: OrderState, intake: Env, env: Env)
    requires AcceptedIntake(s) && ReleasesInSilence(s, intake, env)
    ensures ReleasedBy(KeyedPlan(s, intake, env).effects) == []
  {
    var o := JoinedStores(s, intake, env);
    SavesDoNotMatter(s, env);
    ReleasingPassCommitsIff(s, Unbroken(env));
    RolledBackSaysNothing(s, s.lines, false, !s.held, Unbroken(env));
  }

  /** If every publish succeeds, a request announces exactly what it releases. */
  lemma PublishedRequestAnnouncesAll(s: OrderState, intake: Env, env: Env)
    requires AcceptedIntake(s) && forall k, e :: env.publishes(k, e)
    ensures
      var stored := FinalOrder(s, intake, env);
      && stored.Some? && |stored.value.lines| == |s.lines|
      && ReleasedBy(KeyedPlan(s, intake, env).effects) == NewlyReleased(s.lines, stored.value.lines)
  {
    JoinedAnnouncesReleasesIff(s, intake, env);
    if Releases(s, env) {
      ReleasedIsTold(s, env);
    }
  }
}
