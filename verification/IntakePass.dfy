/** What the implicit first pass of a received order comes to, told from its inputs: the answers of
    inventory-storage, line by line, and the publishes that succeed. */
module IntakePass {
  import opened Wrappers
  import opened Orders
  import opened Allocation
  import opened AllocationTheorems
  import opened PassTheorems
  import opened ReservationTheorems
  import opened UseCases
  import opened PassConservation
  import opened PassOutcome

  predicate AcceptedIntake(s: OrderState) {
    FreshIntake(s) && Lifecycle(s) && DeadlineKept(s) && s.version == 1 && WithStatus(s.lines, Pending) == s.lines
    && !AnyLine(s.lines, Released)
  }

  // ---------------------------------------------------------------- line by line

  /** The event about line `i + 1`, if inventory-storage gives an answer. */
  function LineEventOf(s: OrderState, env: Env, i: nat): Event
    requires i < |s.lines|
  {
    match env.reserve(i + 1)
    case Granted(rid) => AllocatedEvent(s, s.lines[i], rid)
    case _ => BackorderedEvent(s, s.lines[i])
  }

  /** Line `i + 1` gets an answer, and its event is published. */
  predicate LineGoesThrough(s: OrderState, env: Env, i: nat)
    requires i < |s.lines|
  {
    !env.reserve(i + 1).Unavailable? && env.publishes(i, LineEventOf(s, env, i))
  }

  predicate Through(s: OrderState, env: Env, k: nat)
    requires k <= |s.lines|
  {
    forall i :: 0 <= i < k ==> LineGoesThrough(s, env, i)
  }

  /** The order when every line has its answer. */
  function Settled(s: OrderState, env: Env): OrderState {
    s.(lines := seq(|s.lines|, i requires 0 <= i < |s.lines| => SettledLine(env, s.lines[i])))
  }

  function GrantedCount(env: Env, k: nat): (n: nat)
    ensures n <= k
  {
    if k == 0 then 0 else GrantedCount(env, k - 1) + (if env.reserve(k).Granted? then 1 else 0)
  }

  /** Where the pass is after `k` lines: it has failed unless all of them went through. */
  predicate SoFar(s: OrderState, env: Env, a: Progress, k: nat) {
    && k <= |s.lines| && (a.failure.None? <==> Through(s, env, k))
    && (a.failure.None? ==>
          && |a.effects| == k && a.nAllocated == GrantedCount(env, k) && a.nBackordered == k - GrantedCount(env, k)
          && a.order == s.(lines := a.order.lines) && |a.order.lines| == |s.lines|
          && forall i :: 0 <= i < |s.lines| ==> a.order.lines[i] == if i < k then SettledLine(env, s.lines[i]) else s.lines[i])
  }

  /** One more line, answered and published or not. */
  lemma {:induction false} OneMoreLine(s: OrderState, env: Env, a: Progress, k: nat)
    requires FreshIntake(s) && k < |s.lines| && a.failure.None? && SoFar(s, env, a, k)
    ensures SoFar(s, env, AllocateOne(a, s.lines[k], false, env), k + 1)
  {
    var l := s.lines[k];
    assert WellNumbered(a.order.lines) by {
      forall i | 0 <= i < |s.lines| ensures a.order.lines[i].lineNo == i + 1 {
      }
    }
    LookupByNumber(a.order.lines, k + 1);
    assert a.order.lines[k] == l && LineSane(l);
    var b := AllocateOne(a, l, false, env);
    assert b.failure.None? <==> LineGoesThrough(s, env, k);
  }

  lemma FailedStays(s: OrderState, env: Env, a: Progress, k: nat)
    requires k < |s.lines| && a.failure.Some? && SoFar(s, env, a, k)
    ensures SoFar(s, env, a, k + 1)
  {
  }

  /** The reservations go through exactly when every line does. */
  lemma ReservationsSettle(s: OrderState, env: Env)
    requires FreshIntake(s)
    ensures SoFar(s, env, AllocateLines(s, s.lines, |s.lines|, false, env), |s.lines|)
  {
    var holds := (a: Progress, k: nat) => SoFar(s, env, a, k);
    forall a: Progress, j: nat | j < |s.lines| && holds(a, j)
      ensures holds(if a.failure.Some? then a else AllocateOne(a, s.lines[j], false, env), j + 1)
    {
      if a.failure.None? {
        OneMoreLine(s, env, a, j);
      } else {
        FailedStays(s, env, a, j);
      }
    }
    AllocateInduction(s, s.lines, |s.lines|, false, env, holds);
  }

  // ---------------------------------------------------------------- the end of the pass

  /** Promised, and released unless held. */
  function ReleasedOf(s: OrderState, env: Env): Releasing {
    var promised := SetPromiseDate(Settled(s, env), env);
    if s.held then Releasing(promised, [], None) else ReleaseAllocatedLines(promised)
  }

  function EndingOf(s: OrderState, env: Env): Ending {
    var r, n := ReleasedOf(s, env), GrantedCount(env, |s.lines|);
    Ending(r.order, n, |s.lines| - n, r.released)
  }

  function EventAt(e: Ending): Option<Event> {
    OutcomeEvent(Bumped(e.order), e.nAllocated, e.nBackordered, e.released)
  }

  /** The order-level event of a pass that goes through. */
  function OrderLevelEvent(s: OrderState, env: Env): Option<Event> {
    EventAt(EndingOf(s, env))
  }

  lemma SettledAndPromised(s: OrderState, env: Env) returns (b: Progress)
    requires AcceptedIntake(s) && Through(s, env, |s.lines|)
    ensures b.order == SetPromiseDate(Settled(s, env), env) && b.failure.None? && OnlyLineEvents(b.effects)
    ensures |b.effects| == |s.lines|
    ensures b.nAllocated == GrantedCount(env, |s.lines|) && b.nBackordered == |s.lines| - b.nAllocated
    ensures FirstPass(s, env) == if s.held then Conclude(b, [], env) else ReleaseLeg(b, LineNos(s.lines), env)
    ensures WellNumbered(b.order.lines) && |b.order.lines| == |s.lines|
  {
    var a := AllocateLines(s, s.lines, |s.lines|, false, env);
    ReservationsSettle(s, env);
    AllocateLinesKeep(s, s.lines, |s.lines|, false, env);
    assert a.order.lines == Settled(s, env).lines;
    PromisingKeepsLines(a.order, env);
    b := a.(order := SetPromiseDate(a.order, env));
  }

  /** A leg that reconfirms nothing goes straight to release. */
  lemma LegConcludes(b: Progress, justReserved: seq<int>, env: Env)
    requires b.failure.None? && WellNumbered(b.order.lines)
    requires forall n :: 1 <= n <= |b.order.lines| ==> n in justReserved
    ensures
      var r := ReleaseAllocatedLines(b.order);
      ReleaseLeg(b, justReserved, env) == Conclude(b.(order := r.order), r.released, env)
  {
    var w := WithStatusLists(b.order.lines, Allocated);
    NothingToReconfirm(b, w, |w|, justReserved, env);
    ReleaseIsAllOrNothing(b.order);
  }

  lemma GoesToConclude(s: OrderState, env: Env) returns (a: Progress, end: Ending)
    requires AcceptedIntake(s) && Through(s, env, |s.lines|)
    ensures end == EndingOf(s, env) && end == Ending(a.order, a.nAllocated, a.nBackordered, end.released)
    ensures OnlyLineEvents(a.effects) && |a.effects| == |s.lines|
    ensures FirstPass(s, env) == Conclude(a, end.released, env)
  {
    end := EndingOf(s, env);
    var b := SettledAndPromised(s, env);
    forall n | 1 <= n <= |s.lines| ensures n in LineNos(s.lines) {
      assert LineNos(s.lines)[n - 1] == n;
    }
    if s.held {
      a := b;
    } else {
      LegConcludes(b, LineNos(s.lines), env);
      a := b.(order := ReleaseAllocatedLines(b.order).order);
    }
  }

  /** A pass that goes through saves the order as settled, promised and released, and then publishes the
      order-level event, if there is one. */
  lemma ThroughPassEnds(s: OrderState, env: Env) returns (o: Outcome, end: Ending)
    requires AcceptedIntake(s) && Through(s, env, |s.lines|) && env.saves
    ensures o == FirstPass(s, env) && end == EndingOf(s, env) && StoresOf(o.effects) == [end.order]
    ensures o.verdict == Commit <==> EventAt(end).None? || env.publishes(|s.lines| + 1, EventAt(end).value)
  {
    var a;
    a, end := GoesToConclude(s, env);
    o := ConcludeEndsWith(a, end, env);
  }

  lemma ConcludeEndsWith(a: Progress, end: Ending, env: Env) returns (o: Outcome)
    requires OnlyLineEvents(a.effects) && env.saves
    requires end == Ending(a.order, a.nAllocated, a.nBackordered, end.released)
    ensures o == Conclude(a, end.released, env) && StoresOf(o.effects) == [a.order]
    ensures o.verdict == Commit <==> EventAt(end).None? || env.publishes(|a.effects| + 1, EventAt(end).value)
  {
    o := Conclude(a, end.released, env);
    ConcludeStores(a, end.released, env);
  }

  /** A pass that fails on the way releases nothing. */
  lemma StoppedPassReleasesNothing(s: OrderState, env: Env)
    requires AcceptedIntake(s) && !Through(s, env, |s.lines|)
    ensures |Persisted(s, FirstPass(s, env)).lines| == |s.lines|
    ensures !AnyLine(Persisted(s, FirstPass(s, env)).lines, Released)
  {
    var a := AllocateLines(s, s.lines, |s.lines|, false, env);
    ReservationsSettle(s, env);
    AllocateLinesKeep(s, s.lines, |s.lines|, false, env);
    PromisingKeepsLines(a.order, env);
    LineEventsSayNothing(a.effects);
    if a.nAllocated > 0 {
      SalvageStores(a, a.failure.value, env);
    }
    forall i | 0 <= i < |s.lines| ensures a.order.lines[i].status != Released {
      assert SteadyLine(s.lines[i], a.order.lines[i]);
    }
  }

  // ---------------------------------------------------------------- does it release

  ghost predicate SomeGranted(s: OrderState, env: Env) {
    exists i :: 0 <= i < |s.lines| && env.reserve(s.lines[i].lineNo).Granted?
  }

  predicate AllAreGranted(s: OrderState, env: Env) {
    forall i :: 0 <= i < |s.lines| ==> env.reserve(s.lines[i].lineNo).Granted?
  }

  /** The pass releases: every line goes through, the order is not held, something is granted, and a
      ship-complete order gets everything. */
  ghost predicate Releases(s: OrderState, env: Env) {
    && !s.held && Through(s, env, |s.lines|)
    && SomeGranted(s, env) && (s.allowPartial || AllAreGranted(s, env))
  }

  /** Where every line is allocated or backordered, released lines are the allocated ones of an order
      that may release. */
  lemma ReleasedWhere(t: OrderState)
    requires WellNumbered(t.lines) && forall i :: 0 <= i < |t.lines| ==> t.lines[i].status in {Allocated, Backordered}
    ensures |ReleaseAllocatedLines(t).order.lines| == |t.lines|
    ensures AnyLine(ReleaseAllocatedLines(t).order.lines, Released)
       <==> AnyLine(t.lines, Allocated) && (t.allowPartial || AllLines(t.lines, Allocated))
  {
    ReleaseIsAllOrNothing(t);
    var r := ReleaseAllocatedLines(t).order;
    assert Releasable(t) <==> t.allowPartial || AllLines(t.lines, Allocated);
    if AnyLine(t.lines, Allocated) && Releasable(t) {
      var i :| 0 <= i < |t.lines| && t.lines[i].status == Allocated;
      assert r.lines[i].status == Released;
    }
  }

  lemma SettledStatuses(s: OrderState, env: Env, lines: seq<Line>)
    requires lines == Settled(s, env).lines && WellNumbered(s.lines)
    ensures WellNumbered(lines) && forall i :: 0 <= i < |lines| ==> lines[i].status in {Allocated, Backordered}
    ensures AnyLine(lines, Allocated) <==> SomeGranted(s, env)
    ensures AllLines(lines, Allocated) <==> AllAreGranted(s, env)
  {
    forall i | 0 <= i < |s.lines| ensures lines[i].status == Allocated <==> env.reserve(s.lines[i].lineNo).Granted? {
    }
    if SomeGranted(s, env) {
      var i :| 0 <= i < |s.lines| && env.reserve(s.lines[i].lineNo).Granted?;
      assert lines[i].status == Allocated;
    }
  }

  lemma ReleasedOfReleases(s: OrderState, env: Env)
    requires AcceptedIntake(s) && Through(s, env, |s.lines|)
    ensures |ReleasedOf(s, env).order.lines| == |s.lines|
    ensures AnyLine(ReleasedOf(s, env).order.lines, Released) <==> Releases(s, env)
  {
    var t := SetPromiseDate(Settled(s, env), env);
    PromisingKeepsLines(Settled(s, env), env);
    SettledStatuses(s, env, t.lines);
    ReleasedWhere(t);
  }

  /** The pass leaves a released line exactly when its inputs say so. */
  lemma FirstPassReleasesIff(s: OrderState, env: Env) returns (t: OrderState)
    requires AcceptedIntake(s) && env.saves
    ensures t == Persisted(s, FirstPass(s, env)) && |t.lines| == |s.lines|
    ensures AnyLine(t.lines, Released) <==> Releases(s, env)
  {
    if Through(s, env, |s.lines|) {
      var o, end := ThroughPassEnds(s, env);
      ReleasedOfReleases(s, env);
      t := Persisted(s, o);
    } else {
      StoppedPassReleasesNothing(s, env);
      t := Persisted(s, FirstPass(s, env));
    }
  }

  lemma ReleasedIsTold(s: OrderState, env: Env)
    requires AcceptedIntake(s) && Releases(s, env)
    ensures OrderLevelEvent(s, env).Some?
  {
    ReleasedOfReleases(s, env);
    SomeGrantCounts(s, env);
  }

  /** A releasing pass ends badly exactly when its order-level event, which there is, is not published. */
  lemma ReleasingPassCommitsIff(s: OrderState, env: Env)
    requires AcceptedIntake(s) && env.saves && Releases(s, env)
    ensures OrderLevelEvent(s, env).Some?
    ensures FirstPass(s, env).verdict == Commit <==> env.publishes(|s.lines| + 1, OrderLevelEvent(s, env).value)
  {
    ReleasedIsTold(s, env);
    var o, end := ThroughPassEnds(s, env);
  }

  lemma {:induction false} CountsUp(env: Env, k: nat, i: nat)
    requires i < k && env.reserve(i + 1).Granted?
    ensures GrantedCount(env, k) > 0
  {
    if i < k - 1 {
      CountsUp(env, k - 1, i);
    }
  }

  lemma SomeGrantCounts(s: OrderState, env: Env)
    requires WellNumbered(s.lines) && SomeGranted(s, env)
    ensures GrantedCount(env, |s.lines|) > 0
  {
    var i :| 0 <= i < |s.lines| && env.reserve(s.lines[i].lineNo).Granted?;
    CountsUp(env, |s.lines|, i);
  }
}
