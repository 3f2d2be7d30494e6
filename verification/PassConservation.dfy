/** Conservation of reservations over every pass, retries and releases on demand included: what
    inventory-storage granted is on the lines it was granted to, and nowhere else. */
module PassConservation {
  import opened Wrappers
  import opened Orders
  import opened Allocation
  import opened AllocationTheorems
  import opened PassTheorems
  import opened ReservationTheorems
  import opened UseCases
  import opened PassProgress

  /** The id a line should have: what it was granted, if it was asked about, or else what it had. */
  function Due(s: OrderState, env: Env, asked: seq<int>, i: nat): Option<string>
    requires i < |s.lines|
  {
    if i + 1 in asked then GrantOf(env, i + 1) else s.lines[i].reservationId
  }

  /** Lines asked about hold what they were granted; the others are as they were. */
  ghost predicate HoldsAnswers(s: OrderState, env: Env, a: Progress) {
    && |a.order.lines| == |s.lines|
    && forall i :: 0 <= i < |s.lines| ==>
         a.order.lines[i].reservationId == Due(s, env, a.asked, i) && (i + 1 in a.asked || a.order.lines[i] == s.lines[i])
  }

  /** Different lines of the order, all in that status. */
  ghost predicate Askable(s: OrderState, lines: seq<Line>, status: LineStatus) {
    && NoRepeats(LineNos(lines))
    && forall k :: 0 <= k < |lines| ==> 1 <= lines[k].lineNo <= |s.lines| && s.lines[lines[k].lineNo - 1].status == status
  }

  /** While no line is counted as allocated, nothing was granted, and no line asked about had anything. */
  ghost predicate NothingGranted(s: OrderState, env: Env, a: Progress) {
    a.nAllocated == 0 ==>
      forall n :: n in a.asked ==> 1 <= n <= |s.lines| && GrantOf(env, n).None? && s.lines[n - 1].reservationId.None?
  }

  /** What holds when the first `k` lines have been dealt with. */
  ghost predicate Granting(s: OrderState, env: Env, lines: seq<Line>, a: Progress, k: nat) {
    WellNumbered(a.order.lines) && AskedPrefix(a, lines, k) && HoldsAnswers(s, env, a) && NothingGranted(s, env, a)
  }

  // ---------------------------------------------------------------- one answer

  lemma OneAnswered(s: OrderState, env: Env, a: Progress, b: Progress, n: int, l: Line)
    requires HoldsAnswers(s, env, a) && 1 <= n <= |s.lines|
    requires b.asked == a.asked + [n] && b.order.lines == a.order.lines[n - 1 := l] && l.reservationId == GrantOf(env, n)
    ensures HoldsAnswers(s, env, b)
  {
  }

  /** A line that may be asked about has no reservation, and every answer's move is legal. */
  lemma AskedLine(a: Progress, l: Line, retry: bool, env: Env) returns (b: Progress, k: Line)
    requires WellNumbered(a.order.lines) && 1 <= l.lineNo <= |a.order.lines|
    requires a.order.lines[l.lineNo - 1].status == Kind(retry) && LineSane(a.order.lines[l.lineNo - 1])
    ensures b == AllocateOne(a, l, retry, env)
    ensures b.asked == a.asked + [l.lineNo] && b.order.lines == a.order.lines[l.lineNo - 1 := k]
    ensures k.lineNo == l.lineNo && k.reservationId == GrantOf(env, l.lineNo)
    ensures b.nAllocated == a.nAllocated + if GrantOf(env, l.lineNo).Some? then 1 else 0
  {
    b := AllocateOne(a, l, retry, env);
    var c := Ask(a, l);
    match env.reserve(l.lineNo)
    case NoStock => k := ToldMove(c, l.lineNo, MarkBackordered, c.nAllocated, c.nBackordered + 1, BackorderedEvent(c.order, l), env);
    case Unavailable(_) => k := a.order.lines[l.lineNo - 1];
    case Granted(rid) =>
      k := ToldMove(c, l.lineNo, if retry then RetryAllocate(rid) else Allocate(rid), c.nAllocated + 1, c.nBackordered,
        AllocatedEvent(c.order, l, rid), env);
  }

  lemma {:induction false} ToldMove(a: Progress, lineNo: int, m: Move, nAllocated: nat, nBackordered: nat, e: Event, env: Env)
    returns (k: Line)
    requires WellNumbered(a.order.lines) && 1 <= lineNo <= |a.order.lines|
    requires MoveLine(a.order.lines[lineNo - 1], m).Ok?
    ensures
      var b := MoveAndTell(a, lineNo, m, nAllocated, nBackordered, e, env);
      && MoveLine(a.order.lines[lineNo - 1], m) == Ok(k) && k.lineNo == lineNo
      && b.asked == a.asked && b.nAllocated == nAllocated && b.order.lines == a.order.lines[lineNo - 1 := k]
  {
    LookupByNumber(a.order.lines, lineNo);
    k := MoveLine(a.order.lines[lineNo - 1], m).value;
  }

  lemma AskingKeeps(s: OrderState, env: Env, lines: seq<Line>, a: Progress, k: nat, retry: bool)
    requires Sound(s) && Askable(s, lines, Kind(retry)) && k < |lines|
    requires Granting(s, env, lines, a, k) && a.failure.None?
    ensures Granting(s, env, lines, AllocateOne(a, lines[k], retry, env), k + 1)
  {
    var n := lines[k].lineNo;
    NotYetAsked(a.asked, lines, k);
    assert a.order.lines[n - 1] == s.lines[n - 1] && LineSane(s.lines[n - 1]);
    var b, l := AskedLine(a, lines[k], retry, env);
    OneAnswered(s, env, a, b, n, l);
  }

  lemma NotYetAsked(asked: seq<int>, lines: seq<Line>, k: nat)
    requires k < |lines| && NoRepeats(LineNos(lines)) && |asked| <= k
    requires forall i :: 0 <= i < |asked| ==> asked[i] == lines[i].lineNo
    ensures lines[k].lineNo !in asked
  {
    forall i | 0 <= i < |asked| ensures asked[i] != lines[k].lineNo {
      assert LineNos(lines)[i] != LineNos(lines)[k];
    }
  }

  /** Induction over the lines of a pass, for any property. */
  lemma {:induction false} AllocateInduction(s: OrderState, lines: seq<Line>, k: nat, retry: bool, env: Env,
      holds: (Progress, nat) -> bool)
    requires k <= |lines| && holds(Begin(s), 0)
    requires forall a: Progress, j: nat :: j < |lines| && holds(a, j) ==>
               holds(if a.failure.Some? then a else AllocateOne(a, lines[j], retry, env), j + 1)
    ensures holds(AllocateLines(s, lines, k, retry, env), k)
  {
    if k > 0 {
      AllocateInduction(s, lines, k - 1, retry, env, holds);
    }
  }

  lemma AllocateHolds(s: OrderState, lines: seq<Line>, retry: bool, env: Env)
    requires Sound(s) && Askable(s, lines, Kind(retry))
    ensures Granting(s, env, lines, AllocateLines(s, lines, |lines|, retry, env), |lines|)
  {
    var holds := (a: Progress, k: nat) => Granting(s, env, lines, a, k);
    forall a: Progress, j: nat | j < |lines| && holds(a, j)
      ensures holds(if a.failure.Some? then a else AllocateOne(a, lines[j], retry, env), j + 1)
    {
      if a.failure.None? {
        AskingKeeps(s, env, lines, a, j, retry);
      }
    }
    AllocateInduction(s, lines, |lines|, retry, env, holds);
  }

  // ---------------------------------------------------------------- reconfirmation

  /** The lines to reconfirm: those already allocated before the pass, and those reserved by it. */
  ghost predicate ToReconfirm(s: OrderState, w: seq<Line>, justReserved: seq<int>) {
    && (forall i, j :: 0 <= i < j < |w| ==> w[i].lineNo != w[j].lineNo)
    && (forall k :: 0 <= k < |w| ==> 1 <= w[k].lineNo <= |s.lines|)
    && forall k :: 0 <= k < |w| && w[k].lineNo !in justReserved ==> s.lines[w[k].lineNo - 1].status == Allocated
  }

  /** What holds, unless the pass has failed, when the first `k` of those have been dealt with. */
  ghost predicate Reconfirming(s: OrderState, env: Env, justReserved: seq<int>, w: seq<Line>, a: Progress, k: nat) {
    a.failure.None? ==> WellNumbered(a.order.lines) && HoldsAnswers(s, env, a) && AskedFrom(a.asked, justReserved, w, k)
  }

  lemma ReconfirmedLine(a: Progress, l: Line, justReserved: seq<int>, env: Env) returns (b: Progress, k: Line)
    requires WellNumbered(a.order.lines) && 1 <= l.lineNo <= |a.order.lines| && l.lineNo !in justReserved
    requires a.order.lines[l.lineNo - 1].status == Allocated && !env.reserve(l.lineNo).Unavailable?
    ensures b == ReconfirmOne(a, l, justReserved, env)
    ensures b.asked == a.asked + [l.lineNo] && b.order.lines == a.order.lines[l.lineNo - 1 := k]
    ensures k.lineNo == l.lineNo && k.reservationId == GrantOf(env, l.lineNo)
  {
    LookupByNumber(a.order.lines, l.lineNo);
    b := ReconfirmOne(a, l, justReserved, env);
    k := b.order.lines[l.lineNo - 1];
  }

  lemma AskedOneMore(asked: seq<int>, justReserved: seq<int>, w: seq<Line>, k: nat)
    requires k < |w| && AskedFrom(asked, justReserved, w, k) && w[k].lineNo !in justReserved
    requires forall i, j :: 0 <= i < j < |w| ==> w[i].lineNo != w[j].lineNo
    ensures w[k].lineNo !in asked && AskedFrom(asked + [w[k].lineNo], justReserved, w, k + 1)
  {
  }

  lemma ReconfirmingKeeps(s: OrderState, env: Env, justReserved: seq<int>, w: seq<Line>, a: Progress, k: nat)
    requires k < |w| && ToReconfirm(s, w, justReserved) && a.failure.None?
    requires Reconfirming(s, env, justReserved, w, a, k)
    ensures Reconfirming(s, env, justReserved, w, ReconfirmOne(a, w[k], justReserved, env), k + 1)
  {
    var n := w[k].lineNo;
    if n !in justReserved && !env.reserve(n).Unavailable? {
      AskedOneMore(a.asked, justReserved, w, k);
      assert a.order.lines[n - 1] == s.lines[n - 1];
      var b, l := ReconfirmedLine(a, w[k], justReserved, env);
      OneAnswered(s, env, a, b, n, l);
    }
  }

  /** Induction over the lines of a reconfirmation, for any property. */
  lemma {:induction false} ReconfirmInduction(a: Progress, w: seq<Line>, k: nat, justReserved: seq<int>, env: Env,
      holds: (Progress, nat) -> bool)
    requires k <= |w| && holds(a, 0)
    requires forall b: Progress, j: nat :: j < |w| && holds(b, j) ==>
               holds(if b.failure.Some? then b else ReconfirmOne(b, w[j], justReserved, env), j + 1)
    ensures holds(ReconfirmLines(a, w, k, justReserved, env), k)
  {
    if k > 0 {
      ReconfirmInduction(a, w, k - 1, justReserved, env, holds);
    }
  }

  lemma ReconfirmHolds(s: OrderState, a: Progress, w: seq<Line>, justReserved: seq<int>, env: Env)
    requires ToReconfirm(s, w, justReserved) && Reconfirming(s, env, justReserved, w, a, 0)
    ensures Reconfirming(s, env, justReserved, w, ReconfirmLines(a, w, |w|, justReserved, env), |w|)
  {
    var holds := (b: Progress, k: nat) => Reconfirming(s, env, justReserved, w, b, k);
    forall b: Progress, j: nat | j < |w| && holds(b, j)
      ensures holds(if b.failure.Some? then b else ReconfirmOne(b, w[j], justReserved, env), j + 1)
    {
      if b.failure.None? {
        ReconfirmingKeeps(s, env, justReserved, w, b, j);
      }
    }
    ReconfirmInduction(a, w, |w|, justReserved, env, holds);
  }

  // ---------------------------------------------------------------- the pass

  /** Every line of `t` has the reservation it should have after these requests. */
  ghost predicate AllDue(s: OrderState, env: Env, asked: seq<int>, t: OrderState) {
    && |t.lines| == |s.lines|
    && forall i :: 0 <= i < |s.lines| ==> t.lines[i].reservationId == Due(s, env, asked, i)
  }

  lemma ListedForReconfirm(s: OrderState, a: Progress, justReserved: seq<int>) returns (w: seq<Line>)
    requires Sound(s) && WellNumbered(a.order.lines) && |a.order.lines| == |s.lines|
    requires forall i :: 0 <= i < |a.asked| ==> a.asked[i] in justReserved
    requires forall n :: n in justReserved ==> n in a.asked
    requires forall i :: 0 <= i < |s.lines| ==> i + 1 in a.asked || a.order.lines[i] == s.lines[i]
    requires NoRepeats(a.asked)
    ensures w == WithStatus(a.order.lines, Allocated) && ToReconfirm(s, w, justReserved)
    ensures AskedFrom(a.asked, justReserved, w, 0)
  {
    w := WithStatusLists(a.order.lines, Allocated);
    forall k | 0 <= k < |w| && w[k].lineNo !in justReserved ensures s.lines[w[k].lineNo - 1].status == Allocated {
      assert w[k] == a.order.lines[w[k].lineNo - 1];
      assert w[k].lineNo !in a.asked;
    }
  }

  lemma LegConserves(s: OrderState, a: Progress, justReserved: seq<int>, env: Env)
    requires Sound(s) && InPass(s, a) && HoldsAnswers(s, env, a) && a.failure.None?
    requires a.asked == justReserved && NoRepeats(justReserved)
    ensures
      var o := ReleaseLeg(a, justReserved, env);
      o.verdict == Commit ==> AllDue(s, env, o.asked, Persisted(s, o))
  {
    var w := ListedForReconfirm(s, a, justReserved);
    ReconfirmHolds(s, a, w, justReserved, env);
    ReleaseLegStores(s, a, justReserved, env);
  }

  /** The same after promising, which changes no line. */
  lemma PromisedLegConserves(s: OrderState, a: Progress, justReserved: seq<int>, env: Env)
    requires Sound(s) && InPass(s, a) && HoldsAnswers(s, env, a) && a.failure.None?
    requires a.asked == justReserved && NoRepeats(justReserved)
    ensures
      var o := ReleaseLeg(a.(order := SetPromiseDate(a.order, env)), justReserved, env);
      o.verdict == Commit ==> AllDue(s, env, o.asked, Persisted(s, o))
  {
    PromisingKeepsLines(a.order, env);
    var b := a.(order := SetPromiseDate(a.order, env));
    var base := b.order.(lines := s.lines);
    LegConserves(base, b, justReserved, env);
    ReleaseLegStores(base, b, justReserved, env);
  }

  /** Conservation over any pass that commits, retries and releases on demand included: every line of
      the persisted order that inventory-storage was asked about holds exactly what it granted, and
      nothing if it granted nothing; every other line holds what it held. */
  lemma PassConservesReservations(s: OrderState, lines: seq<Line>, retry: bool, releaseOnAllocation: bool, env: Env)
    requires Sound(s) && Askable(s, lines, Kind(retry))
    ensures
      var o := AllocateAndRelease(s, lines, retry, releaseOnAllocation, env);
      o.verdict == Commit ==> AllDue(s, env, o.asked, Persisted(s, o))
  {
    var a := AllocateLines(s, lines, |lines|, retry, env);
    AllocateLinesKeep(s, lines, |lines|, retry, env);
    AllocateHolds(s, lines, retry, env);
    PromisingKeepsLines(a.order, env);
    var b := a.(order := SetPromiseDate(a.order, env));
    if a.failure.Some? {
      if a.nAllocated > 0 {
        SalvageStores(a, a.failure.value, env);
      } else {
        LineEventsSayNothing(a.effects);
      }
    } else if releaseOnAllocation {
      assert a.asked == LineNos(lines);
      PromisedLegConserves(s, a, LineNos(lines), env);
    } else {
      ConcludeStores(b, [], env);
    }
  }

  lemma WithStatusAskable(s: OrderState, st: LineStatus)
    requires Sound(s)
    ensures Askable(s, WithStatus(s.lines, st), st)
  {
    var w := WithStatusLists(s.lines, st);
  }

  /** The implicit first pass, a retry and a release on demand. */
  lemma UseCasesConserveReservations(s: OrderState, env: Env)
    requires Sound(s)
    ensures FirstPass(s, env).verdict == Commit ==> AllDue(s, env, FirstPass(s, env).asked, Persisted(s, FirstPass(s, env)))
    ensures RetryPass(s, env).verdict == Commit ==> AllDue(s, env, RetryPass(s, env).asked, Persisted(s, RetryPass(s, env)))
    ensures HeldPass(s, env).verdict == Commit ==> AllDue(s, env, HeldPass(s, env).asked, Persisted(s, HeldPass(s, env)))
  {
    WithStatusAskable(s, Pending);
    WithStatusAskable(s, Backordered);
    PassConservesReservations(s, WithStatus(s.lines, Pending), false, !s.held, env);
    PassConservesReservations(s, WithStatus(s.lines, Backordered), true, !s.held, env);
    PassConservesReservations(s, [], false, true, env);
  }
}
