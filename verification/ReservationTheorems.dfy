/** Reservations and deadlines over a pass: nothing granted at intake is stranded, no line is asked
    about twice, and a promise made against a deadline stays a network promise within it. */
module ReservationTheorems {
  import opened Wrappers
  import opened Orders
  import opened PromiseTheorems
  import opened Allocation
  import opened AllocationTheorems
  import opened PassTheorems

  // ---------------------------------------------------------------- where the stored order comes from

  lemma ConcludeStores(a: Progress, released: seq<ReleasedLine>, env: Env)
    requires OnlyLineEvents(a.effects)
    ensures env.saves ==> StoresOf(Conclude(a, released, env).effects) == [a.order]
    ensures !env.saves ==> Conclude(a, released, env).verdict == Rollback && StoresOf(Conclude(a, released, env).effects) == []
    ensures Conclude(a, released, env).asked == a.asked
  {
    LineEventsSayNothing(a.effects);
    if env.saves {
      var b := Saved(a);
      Appended(a.effects, Store(a.order));
      var e := OutcomeEvent(b.order, b.nAllocated, b.nBackordered, released);
      if e.Some? {
        Appended(b.effects, Emit(e.value));
      }
    }
  }

  lemma SalvageStores(a: Progress, failure: Failure, env: Env)
    requires OnlyLineEvents(a.effects)
    ensures env.saves ==> StoresOf(Salvage(a, failure, env).effects) == [SetPromiseDate(a.order, env)]
    ensures !env.saves ==> Salvage(a, failure, env).verdict == Rollback && StoresOf(Salvage(a, failure, env).effects) == []
    ensures Salvage(a, failure, env).asked == a.asked
  {
    LineEventsSayNothing(a.effects);
    var b := Saved(a.(order := SetPromiseDate(a.order, env)));
    Appended(a.effects, Store(SetPromiseDate(a.order, env)));
    var e := OrderAllocationPartiallyFailed(b.order.id, b.nAllocated, |WithStatus(b.order.lines, Pending)|,
               TruncateCause(env.describe(failure)));
    Appended(b.effects, Emit(e));
  }

  /** The lines of `t` are those of `p`, perhaps with the allocated ones released. */
  predicate SameOrReleased(p: OrderState, t: OrderState) {
    t == p.(lines := t.lines) && (t.lines == p.lines || AllAllocatedReleased(p.lines, t.lines))
  }

  lemma ReleaseLegStores(s: OrderState, a: Progress, justReserved: seq<int>, env: Env)
    requires InPass(s, a)
    ensures
      var o := ReleaseLeg(a, justReserved, env);
      var w := WithStatus(a.order.lines, Allocated);
      var b := ReconfirmLines(a, w, |w|, justReserved, env);
      && o.asked == b.asked
      && (StoresOf(o.effects) == [] ==> o.verdict == Rollback)
      && (b.failure.None? ==> (StoresOf(o.effects) != [] <==> env.saves))
      && (StoresOf(o.effects) != [] ==> |StoresOf(o.effects)| == 1 && SameOrReleased(b.order, StoresOf(o.effects)[0]))
  {
    var w := WithStatus(a.order.lines, Allocated);
    ReconfirmLinesKeep(s, a, w, |w|, justReserved, env);
    var b := ReconfirmLines(a, w, |w|, justReserved, env);
    LineEventsSayNothing(b.effects);
    if b.failure.None? {
      ConcludeStores(b, [], env);
      var r := ReleaseAllocatedLines(b.order);
      ReleaseIsAllOrNothing(b.order);
      ConcludeStores(b.(order := r.order), r.released, env);
    }
  }

  // ---------------------------------------------------------------- intake conserves reservations

  function GrantOf(env: Env, lineNo: int): Option<string> {
    match env.reserve(lineNo)
    case Granted(rid) => Some(rid)
    case _ => None
  }

  /** The reservation ids inventory-storage granted to the given requests, in order. */
  function Grants(env: Env, asked: seq<int>): seq<string> {
    if asked == [] then []
    else
      var n := |asked| - 1;
      Grants(env, asked[..n]) + (if GrantOf(env, asked[n]).Some? then [GrantOf(env, asked[n]).value] else [])
  }

  /** The reservation ids on the lines, in line order. */
  function ReservationIds(lines: seq<Line>): seq<string> {
    if lines == [] then []
    else
      var n := |lines| - 1;
      ReservationIds(lines[..n]) + (if lines[n].reservationId.Some? then [lines[n].reservationId.value] else [])
  }

  predicate FreshIntake(s: OrderState) {
    Sound(s) && AllLines(s.lines, Pending)
  }

  /** The first `m` lines hold what was granted to them; the rest are untouched. */
  predicate HoldsGrants(s: OrderState, env: Env, a: Progress, m: nat) {
    && m <= |s.lines| && |a.order.lines| == |s.lines|
    && |a.asked| == m && (forall j :: 0 <= j < m ==> a.asked[j] == j + 1)
    && (forall j :: 0 <= j < m ==> a.order.lines[j].reservationId == GrantOf(env, j + 1))
    && (forall j :: m <= j < |s.lines| ==> a.order.lines[j] == s.lines[j])
    && (a.nAllocated == 0 ==> forall j :: 0 <= j < m ==> a.order.lines[j].reservationId == None)
  }

  /** A line nobody has asked about yet is still pending, so its move is legal. */
  lemma IntakeMove(s: OrderState, order: OrderState, m: nat, mv: Move) returns (l: Line)
    requires FreshIntake(s) && m < |s.lines|
    requires WellNumbered(order.lines) && |order.lines| == |s.lines| && order.lines[m] == s.lines[m]
    requires mv.Allocate? || mv.MarkBackordered?
    ensures ApplyMove(order, s.lines[m].lineNo, mv) == Ok(order.(lines := order.lines[m := l]))
    ensures l.reservationId == if mv.Allocate? then Some(mv.reservationId) else None
  {
    LookupByNumber(order.lines, m + 1);
    l := MoveLine(order.lines[m], mv).value;
  }

  /** One more line answered: `l` is what line `m` became. */
  lemma HoldsOneMore(s: OrderState, env: Env, a: Progress, b: Progress, m: nat, l: Line)
    requires HoldsGrants(s, env, a, m) && m < |s.lines|
    requires b.asked == a.asked + [m + 1] && b.order.lines == a.order.lines[m := l]
    requires l.reservationId == GrantOf(env, m + 1)
    requires b.nAllocated == 0 ==> a.nAllocated == 0 && l.reservationId == None
    ensures HoldsGrants(s, env, b, m + 1)
  {
  }

  /** What asking about the still untouched line `m` changes. */
  lemma IntakeAnswer(s: OrderState, env: Env, a: Progress, m: nat) returns (b: Progress, l: Line)
    requires FreshIntake(s) && WellNumbered(a.order.lines) && m < |s.lines| == |a.order.lines| && a.order.lines[m] == s.lines[m]
    ensures b == AllocateOne(a, s.lines[m], false, env)
    ensures b.asked == a.asked + [m + 1] && b.order.lines == a.order.lines[m := l]
    ensures l.reservationId == GrantOf(env, m + 1)
    ensures b.nAllocated == 0 ==> a.nAllocated == 0 && l.reservationId == None
  {
    b := AllocateOne(a, s.lines[m], false, env);
    match env.reserve(m + 1)
    case NoStock =>
      l := IntakeMove(s, a.order, m, MarkBackordered);
    case Granted(rid) =>
      l := IntakeMove(s, a.order, m, Allocate(rid));
    case Unavailable(_) =>
      l := a.order.lines[m];
      assert LineSane(s.lines[m]);
  }

  lemma IntakeStep(s: OrderState, env: Env, a: Progress, m: nat)
    requires FreshIntake(s) && InPass(s, a) && HoldsGrants(s, env, a, m) && m < |s.lines|
    ensures HoldsGrants(s, env, AllocateOne(a, s.lines[m], false, env), m + 1)
  {
    var b, l := IntakeAnswer(s, env, a, m);
    HoldsOneMore(s, env, a, b, m, l);
  }

  lemma {:induction false} IntakeHoldsGrants(s: OrderState, env: Env, k: nat) returns (m: nat)
    requires FreshIntake(s) && k <= |s.lines|
    ensures HoldsGrants(s, env, AllocateLines(s, s.lines, k, false, env), m)
    ensures AllocateLines(s, s.lines, k, false, env).failure.None? ==> m == k
  {
    if k == 0 {
      m := 0;
    } else {
      m := IntakeHoldsGrants(s, env, k - 1);
      var a := AllocateLines(s, s.lines, k - 1, false, env);
      if a.failure.None? {
        AllocateLinesKeep(s, s.lines, k - 1, false, env);
        IntakeStep(s, env, a, k - 1);
        m := k;
      }
    }
  }

  /** Lines that hold what was granted list the granted ids in line order. */
  lemma {:induction false} GrantsAreOnLines(env: Env, asked: seq<int>, lines: seq<Line>)
    requires |asked| <= |lines|
    requires forall j :: 0 <= j < |asked| ==> asked[j] == j + 1 && lines[j].reservationId == GrantOf(env, j + 1)
    requires forall j :: |asked| <= j < |lines| ==> lines[j].reservationId == None
    ensures ReservationIds(lines) == Grants(env, asked)
  {
    if lines != [] {
      var n := |lines| - 1;
      if |asked| == |lines| {
        GrantsAreOnLines(env, asked[..n], lines[..n]);
      } else {
        GrantsAreOnLines(env, asked, lines[..n]);
      }
    }
  }

  /** Nothing is reconfirmed when every line was reserved in this very pass. */
  lemma {:induction false} NothingToReconfirm(a: Progress, w: seq<Line>, k: nat, justReserved: seq<int>, env: Env)
    requires k <= |w| && a.failure.None?
    requires forall j :: 0 <= j < k ==> w[j].lineNo in justReserved
    ensures ReconfirmLines(a, w, k, justReserved, env) == a
  {
    if k > 0 {
      NothingToReconfirm(a, w, k - 1, justReserved, env);
    }
  }

  /** What an order has persisted after a pass: what the pass stored, or else what was there before. */
  function Persisted(s: OrderState, o: Outcome): OrderState {
    if StoresOf(o.effects) == [] then s else StoresOf(o.effects)[0]
  }

  lemma SameIds(env: Env, a: Progress, s: OrderState, m: nat, t: OrderState)
    requires FreshIntake(s) && HoldsGrants(s, env, a, m)
    requires |t.lines| == |a.order.lines| && forall j :: 0 <= j < |t.lines| ==> t.lines[j].reservationId == a.order.lines[j].reservationId
    ensures ReservationIds(t.lines) == Grants(env, a.asked)
  {
    GrantsAreOnLines(env, a.asked, t.lines);
  }

  lemma IntakeReleaseLeg(s: OrderState, a: Progress, m: nat, env: Env)
    requires FreshIntake(s) && InPass(s, a) && HoldsGrants(s, env, a, m) && a.failure.None?
    ensures
      var b := a.(order := SetPromiseDate(a.order, env));
      var o := ReleaseLeg(b, LineNos(s.lines), env);
      && (env.saves <==> StoresOf(o.effects) != [])
      && (!env.saves ==> o.verdict == Rollback)
      && (env.saves ==> ReservationIds(Persisted(s, o).lines) == Grants(env, o.asked))
  {
    PromisingKeepsLines(a.order, env);
    var b := a.(order := SetPromiseDate(a.order, env));
    var base := b.order.(lines := s.lines);
    var w := WithStatusLists(b.order.lines, Allocated);
    forall j | 0 <= j < |w| ensures w[j].lineNo in LineNos(s.lines) {
      assert LineNos(s.lines)[w[j].lineNo - 1] == w[j].lineNo;
    }
    NothingToReconfirm(b, w, |w|, LineNos(s.lines), env);
    ReleaseLegStores(base, b, LineNos(s.lines), env);
    var o := ReleaseLeg(b, LineNos(s.lines), env);
    if env.saves {
      SameIds(env, a, s, m, StoresOf(o.effects)[0]);
    }
  }

  /** Conservation of reservations at intake: whatever inventory-storage answers, line by line, and
      whichever publish fails, if the transaction of the pass commits, or just its save succeeds, then
      the reservation ids granted during the pass are exactly the ids on the lines it leaves, in line
      order. A pass whose save fails stores nothing. */
  lemma IntakeConservesReservations(s: OrderState, releaseOnAllocation: bool, env: Env)
    requires FreshIntake(s)
    ensures
      var o := AllocateAndRelease(s, s.lines, false, releaseOnAllocation, env);
      && (o.verdict == Commit || env.saves ==> ReservationIds(Persisted(s, o).lines) == Grants(env, o.asked))
      && (!env.saves ==> StoresOf(o.effects) == [])
  {
    var n := |s.lines|;
    var a := AllocateLines(s, s.lines, n, false, env);
    AllocateLinesKeep(s, s.lines, n, false, env);
    var m := IntakeHoldsGrants(s, env, n);
    PromisingKeepsLines(a.order, env);
    if a.failure.Some? {
      if a.nAllocated > 0 {
        SalvageStores(a, a.failure.value, env);
        SameIds(env, a, s, m, SetPromiseDate(a.order, env));
      } else {
        LineEventsSayNothing(a.effects);
        SameIds(env, a, s, m, s);
      }
    } else if releaseOnAllocation {
      IntakeReleaseLeg(s, a, m, env);
    } else {
      var b := a.(order := SetPromiseDate(a.order, env));
      ConcludeStores(b, [], env);
      SameIds(env, a, s, m, b.order);
    }
  }

  // ---------------------------------------------------------------- each line is asked about once

  predicate NoRepeats(ns: seq<int>) {
    forall i, j :: 0 <= i < j < |ns| ==> ns[i] != ns[j]
  }

  /** What was asked so far is a prefix of the line numbers, all of it while nothing has failed. */
  predicate AskedPrefix(a: Progress, lines: seq<Line>, k: nat) {
    && |a.asked| <= k <= |lines|
    && (a.failure.None? ==> |a.asked| == k)
    && forall i :: 0 <= i < |a.asked| ==> a.asked[i] == lines[i].lineNo
  }

  lemma AllocateAsks(a: Progress, lines: seq<Line>, k: nat, retry: bool, env: Env)
    requires k < |lines| && AskedPrefix(a, lines, k) && a.failure.None?
    ensures AskedPrefix(AllocateOne(a, lines[k], retry, env), lines, k + 1)
  {
    var b := AllocateOne(a, lines[k], retry, env);
    assert b.asked == a.asked + [lines[k].lineNo];
  }

  lemma {:induction false} AllocateAsksInOrder(s: OrderState, lines: seq<Line>, k: nat, retry: bool, env: Env)
    requires k <= |lines|
    ensures AskedPrefix(AllocateLines(s, lines, k, retry, env), lines, k)
  {
    if k > 0 {
      AllocateAsksInOrder(s, lines, k - 1, retry, env);
      var b := AllocateLines(s, lines, k - 1, retry, env);
      if b.failure.None? {
        AllocateAsks(b, lines, k - 1, retry, env);
      }
    }
  }

  /** Everything asked is new: either just reserved, or one of the first `k` lines to reconfirm. */
  predicate AskedFrom(asked: seq<int>, justReserved: seq<int>, w: seq<Line>, k: nat) {
    && NoRepeats(asked)
    && forall i :: 0 <= i < |asked| ==> asked[i] in justReserved || exists j :: 0 <= j < k && j < |w| && w[j].lineNo == asked[i]
  }

  lemma {:induction false} ReconfirmAsksOnce(a: Progress, w: seq<Line>, k: nat, justReserved: seq<int>, env: Env)
    requires k <= |w| && forall i, j :: 0 <= i < j < |w| ==> w[i].lineNo != w[j].lineNo
    requires AskedFrom(a.asked, justReserved, w, 0)
    ensures AskedFrom(ReconfirmLines(a, w, k, justReserved, env).asked, justReserved, w, k)
  {
    if k > 0 {
      ReconfirmAsksOnce(a, w, k - 1, justReserved, env);
      var before := ReconfirmLines(a, w, k - 1, justReserved, env).asked;
      var after := ReconfirmLines(a, w, k, justReserved, env).asked;
      if w[k - 1].lineNo !in justReserved && after != before {
        assert after == before + [w[k - 1].lineNo];
      }
    }
  }

  /** In one pass no line is asked about twice. */
  lemma ReserveIsAskedOnce(s: OrderState, lines: seq<Line>, retry: bool, releaseOnAllocation: bool, env: Env)
    requires Sound(s) && NoRepeats(LineNos(lines))
    ensures NoRepeats(AllocateAndRelease(s, lines, retry, releaseOnAllocation, env).asked)
  {
    var a := AllocateLines(s, lines, |lines|, retry, env);
    AllocateAsksInOrder(s, lines, |lines|, retry, env);
    forall i | 0 <= i < |a.asked| ensures a.asked[i] == LineNos(lines)[i] {
    }
    AllocateLinesKeep(s, lines, |lines|, retry, env);
    PromisingKeepsLines(a.order, env);
    var b := a.(order := SetPromiseDate(a.order, env));
    if a.failure.Some? {
      SalvageStores(a, a.failure.value, env);
    } else if releaseOnAllocation {
      var base := b.order.(lines := s.lines);
      ReleaseLegStores(base, b, LineNos(lines), env);
      var w := WithStatusLists(b.order.lines, Allocated);
      ReconfirmAsksOnce(b, w, |w|, LineNos(lines), env);
    } else {
      ConcludeStores(b, [], env);
    }
  }

  // ---------------------------------------------------------------- promises against a deadline

  /** A promise made against a deadline is a network promise no later than the deadline, or absent. */
  predicate DeadlineKept(s: OrderState) {
    s.requiredShipBy.Some? ==>
      && (forall g :: g in s.promiseGroups ==> g.promise.basis == Network && g.promise.cutoffAt <= s.requiredShipBy.value)
      && (s.promiseDate.Some? ==> s.promiseBasis == Some(Network) && s.promiseDate.value <= s.requiredShipBy.value)
  }

  lemma PromisingKeepsDeadline(s: OrderState, env: Env)
    requires DeadlineKept(s)
    ensures DeadlineKept(SetPromiseDate(s, env))
  {
    if s.requiredShipBy.Some? {
      FeasibleByIsExact(env.policy, env.now, s, s.requiredShipBy.value);
    }
  }

  /** Whatever a pass stores keeps the deadline if the order it started from did. */
  lemma PassKeepsDeadline(s: OrderState, lines: seq<Line>, retry: bool, releaseOnAllocation: bool, env: Env)
    requires Sound(s) && DeadlineKept(s)
    ensures
      var o := AllocateAndRelease(s, lines, retry, releaseOnAllocation, env);
      DeadlineKept(Persisted(s, o))
  {
    var a := AllocateLines(s, lines, |lines|, retry, env);
    AllocateLinesKeep(s, lines, |lines|, retry, env);
    LineEventsSayNothing(a.effects);
    PromisingKeepsDeadline(a.order, env);
    PromisingKeepsLines(a.order, env);
    var b := a.(order := SetPromiseDate(a.order, env));
    if a.failure.Some? {
      SalvageStores(a, a.failure.value, env);
    } else if releaseOnAllocation {
      var base := b.order.(lines := s.lines);
      var w := WithStatus(b.order.lines, Allocated);
      ReconfirmLinesKeep(base, b, w, |w|, LineNos(lines), env);
      ReleaseLegStores(base, b, LineNos(lines), env);
    } else {
      ConcludeStores(b, [], env);
    }
  }
}
