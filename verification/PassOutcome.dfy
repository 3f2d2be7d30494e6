/** What a pass of any use case comes to, told from its inputs: for every line the answer of
    inventory-storage and whether its event is published. Nothing here is read off the pass itself. */
module PassOutcome {
  import opened Wrappers
  import opened Orders
  import opened Allocation
  import opened AllocationTheorems
  import opened PassTheorems
  import opened ReservationTheorems
  import opened PassProgress
  import opened PassConservation

  // ---------------------------------------------------------------- reserving

  /** The pass asks about different lines of the order, all of the kind it is for. */
  ghost predicate Asks(s: OrderState, lines: seq<Line>, retry: bool) {
    && Askable(s, lines, Kind(retry))
    && forall k :: 0 <= k < |lines| ==> lines[k] == s.lines[lines[k].lineNo - 1]
  }

  /** What the world is told about a line that has its answer. */
  function TellOf(id: OrderId, env: Env, l: Line): Event {
    match env.reserve(l.lineNo)
    case Granted(rid) => OrderLineAllocated(id, l.lineNo, l.sku, l.quantity, rid)
    case _ => OrderLineBackordered(id, l.lineNo, l.sku, l.quantity)
  }

  /** What an answer makes of a line. */
  function SettledLine(env: Env, l: Line): Line {
    match env.reserve(l.lineNo)
    case Granted(rid) => l.(status := Allocated, reservationId := Some(rid))
    case _ => l.(status := Backordered)
  }

  predicate Unanswered(env: Env, l: Line) {
    env.reserve(l.lineNo).Unavailable?
  }

  /** The line gets an answer, and its event, the first after `k` writes, is published. */
  predicate GoesThrough(id: OrderId, env: Env, l: Line, k: nat) {
    !Unanswered(env, l) && env.publishes(k, TellOf(id, env, l))
  }

  /** How many of the first `k` lines go through before one does not. */
  function Stop(id: OrderId, env: Env, lines: seq<Line>, k: nat): (j: nat)
    requires k <= |lines|
    ensures j <= k
    ensures forall i :: 0 <= i < j ==> GoesThrough(id, env, lines[i], i)
    ensures j < k ==> !GoesThrough(id, env, lines[j], j)
  {
    if k == 0 then 0
    else
      var j := Stop(id, env, lines, k - 1);
      if j < k - 1 then j else if GoesThrough(id, env, lines[k - 1], k - 1) then k else k - 1
  }

  /** How many of the first `k` lines have their answer when the pass stops: a line whose event fails has. */
  function Answers(id: OrderId, env: Env, lines: seq<Line>, k: nat): (n: nat)
    requires k <= |lines|
    ensures n <= k
  {
    var j := Stop(id, env, lines, k);
    if j < k && !Unanswered(env, lines[j]) then j + 1 else j
  }

  function Told(id: OrderId, env: Env, lines: seq<Line>, k: nat): (r: seq<Effect>)
    requires k <= |lines|
    ensures |r| == k
  {
    seq(k, i requires 0 <= i < k => Emit(TellOf(id, env, lines[i])))
  }

  function GrantedAmong(env: Env, lines: seq<Line>, k: nat): (n: nat)
    requires k <= |lines|
    ensures n <= k
  {
    if k == 0 then 0 else GrantedAmong(env, lines, k - 1) + (if env.reserve(lines[k - 1].lineNo).Granted? then 1 else 0)
  }

  /** The order when the first `n` of the lines have their answer. */
  ghost predicate SettledUpTo(s: OrderState, env: Env, lines: seq<Line>, n: nat, t: OrderState)
    requires n <= |lines|
  {
    && t == s.(lines := t.lines) && |t.lines| == |s.lines|
    && forall i :: 0 <= i < |s.lines| ==>
         t.lines[i] == if i + 1 in LineNos(lines)[..n] then SettledLine(env, s.lines[i]) else s.lines[i]
  }

  /** Why a pass stops at a line. */
  function StopFailure(env: Env, l: Line): Failure {
    match env.reserve(l.lineNo)
    case Unavailable(cause) => Upstream(cause)
    case _ => PublishFailed
  }

  /** Where a pass is after `k` lines. */
  ghost predicate Reserving(s: OrderState, env: Env, lines: seq<Line>, a: Progress, k: nat) {
    k <= |lines| &&
    var j, n := Stop(s.id, env, lines, k), Answers(s.id, env, lines, k);
    && a.failure == (if j < k then Some(StopFailure(env, lines[j])) else None)
    && a.effects == Told(s.id, env, lines, j)
    && a.nAllocated == GrantedAmong(env, lines, n) && a.nBackordered == n - a.nAllocated
    && SettledUpTo(s, env, lines, n, a.order)
  }

  lemma {:induction false} NotAmongEarlier(lines: seq<Line>, k: nat)
    requires k < |lines| && NoRepeats(LineNos(lines))
    ensures lines[k].lineNo !in LineNos(lines)[..k]
    ensures LineNos(lines)[..k + 1] == LineNos(lines)[..k] + [lines[k].lineNo]
  {
    forall i | 0 <= i < k ensures LineNos(lines)[i] != lines[k].lineNo {
      assert LineNos(lines)[i] != LineNos(lines)[k];
    }
  }

  /** The next line is settled in place. */
  lemma {:induction false} SettlesOneMore(s: OrderState, env: Env, lines: seq<Line>, n: nat, t: OrderState, l: Line)
    requires n < |lines| && NoRepeats(LineNos(lines)) && SettledUpTo(s, env, lines, n, t)
    requires 1 <= lines[n].lineNo <= |s.lines| && l == SettledLine(env, s.lines[lines[n].lineNo - 1])
    ensures SettledUpTo(s, env, lines, n + 1, t.(lines := t.lines[lines[n].lineNo - 1 := l]))
  {
    NotAmongEarlier(lines, n);
  }

  /** What one line's answer does to the pass: nothing, if there is none; or else the line is settled and
      counted, and told of if that succeeds. */
  predicate AnsweredOnce(a: Progress, b: Progress, l: Line, env: Env) {
    if Unanswered(env, l) then
      && b.failure == Some(StopFailure(env, l)) && b.order == a.order && b.effects == a.effects
      && b.nAllocated == a.nAllocated && b.nBackordered == a.nBackordered
    else
      var granted, e := env.reserve(l.lineNo).Granted?, TellOf(a.order.id, env, l);
      && 1 <= l.lineNo <= |a.order.lines|
      && b.order == a.order.(lines := a.order.lines[l.lineNo - 1 := SettledLine(env, l)])
      && b.nAllocated == a.nAllocated + (if granted then 1 else 0)
      && b.nBackordered == a.nBackordered + (if granted then 0 else 1)
      && b.failure == (if env.publishes(|a.effects|, e) then None else Some(StopFailure(env, l)))
      && b.effects == a.effects + (if b.failure.None? then [Emit(e)] else [])
  }

  lemma {:induction false} OneAnswer(a: Progress, l: Line, retry: bool, env: Env)
    requires WellNumbered(a.order.lines) && 1 <= l.lineNo <= |a.order.lines| && a.failure.None?
    requires a.order.lines[l.lineNo - 1] == l && l.status == Kind(retry) && LineSane(l)
    ensures AnsweredOnce(a, AllocateOne(a, l, retry, env), l, env)
  {
    LookupByNumber(a.order.lines, l.lineNo);
  }

  lemma {:induction false} SettledNumbers(s: OrderState, env: Env, lines: seq<Line>, n: nat, t: OrderState)
    requires n <= |lines| && WellNumbered(s.lines) && SettledUpTo(s, env, lines, n, t)
    ensures WellNumbered(t.lines)
  {
    forall i | 0 <= i < |s.lines| ensures t.lines[i].lineNo == i + 1 {
    }
  }

  lemma {:induction false} CountsOneMore(s: OrderState, env: Env, lines: seq<Line>, a: Progress, b: Progress, k: nat)
    requires k < |lines| && a.failure.None? && Reserving(s, env, lines, a, k) && AnsweredOnce(a, b, lines[k], env)
    requires NoRepeats(LineNos(lines)) && 1 <= lines[k].lineNo <= |s.lines| && lines[k] == s.lines[lines[k].lineNo - 1]
    ensures Reserving(s, env, lines, b, k + 1)
  {
    var l := lines[k];
    SettlesOneMore(s, env, lines, k, a.order, SettledLine(env, l));
    assert Told(s.id, env, lines, k + 1) == Told(s.id, env, lines, k) + [Emit(TellOf(s.id, env, l))];
  }

  lemma {:induction false} ReservingOneMore(s: OrderState, env: Env, lines: seq<Line>, a: Progress, k: nat, retry: bool)
    requires Sound(s) && Asks(s, lines, retry) && k < |lines| && a.failure.None? && Reserving(s, env, lines, a, k)
    ensures Reserving(s, env, lines, AllocateOne(a, lines[k], retry, env), k + 1)
  {
    var l := lines[k];
    NotAmongEarlier(lines, k);
    SettledNumbers(s, env, lines, k, a.order);
    assert a.order.lines[l.lineNo - 1] == l && LineSane(s.lines[l.lineNo - 1]);
    OneAnswer(a, l, retry, env);
    CountsOneMore(s, env, lines, a, AllocateOne(a, l, retry, env), k);
  }

  lemma {:induction false} StoppedStays(s: OrderState, env: Env, lines: seq<Line>, a: Progress, k: nat)
    requires k < |lines| && a.failure.Some? && Reserving(s, env, lines, a, k)
    ensures Reserving(s, env, lines, a, k + 1)
  {
  }

  lemma {:induction false} ReservingStep(s: OrderState, env: Env, lines: seq<Line>, a: Progress, k: nat, retry: bool) returns (b: Progress)
    requires Sound(s) && Asks(s, lines, retry) && k < |lines| && Reserving(s, env, lines, a, k)
    ensures b == (if a.failure.Some? then a else AllocateOne(a, lines[k], retry, env)) && Reserving(s, env, lines, b, k + 1)
  {
    if a.failure.None? {
      b := AllocateOne(a, lines[k], retry, env);
      ReservingOneMore(s, env, lines, a, k, retry);
    } else {
      b := a;
      StoppedStays(s, env, lines, a, k);
    }
  }

  /** A pass goes line by line. */
  lemma {:induction false} LineByLine(s: OrderState, lines: seq<Line>, k: nat, retry: bool, env: Env, a: Progress, b: Progress)
    requires 0 < k <= |lines| && a == AllocateLines(s, lines, k - 1, retry, env)
    requires b == if a.failure.Some? then a else AllocateOne(a, lines[k - 1], retry, env)
    ensures b == AllocateLines(s, lines, k, retry, env)
  {
  }

  lemma {:induction false} ReservingBegins(s: OrderState, env: Env, lines: seq<Line>)
    ensures Reserving(s, env, lines, Begin(s), 0)
  {
    assert LineNos(lines)[..0] == [];
  }

  lemma {:induction false} ReservationsUpTo(s: OrderState, lines: seq<Line>, k: nat, retry: bool, env: Env) returns (a: Progress)
    requires Sound(s) && Asks(s, lines, retry) && k <= |lines|
    ensures a == AllocateLines(s, lines, k, retry, env) && Reserving(s, env, lines, a, k)
  {
    if k == 0 {
      a := Begin(s);
      ReservingBegins(s, env, lines);
    } else {
      var b := ReservationsUpTo(s, lines, k - 1, retry, env);
      a := ReservingStep(s, env, lines, b, k - 1, retry);
      LineByLine(s, lines, k, retry, env, b, a);
    }
  }

  /** The reservations of a pass, in full. */
  lemma {:induction false} ReservationsAre(s: OrderState, lines: seq<Line>, retry: bool, env: Env)
    requires Sound(s) && Asks(s, lines, retry)
    ensures Reserving(s, env, lines, AllocateLines(s, lines, |lines|, retry, env), |lines|)
  {
    var a := ReservationsUpTo(s, lines, |lines|, retry, env);
  }

  // ---------------------------------------------------------------- reserving again before release

  /** The line was reserved by the pass itself, or is answered now, and a loss is told of. */
  predicate StaysThrough(id: OrderId, env: Env, just: seq<int>, l: Line, k: nat) {
    l.lineNo in just
    || (!Unanswered(env, l)
        && (env.reserve(l.lineNo).NoStock? ==> env.publishes(k, OrderLineBackordered(id, l.lineNo, l.sku, l.quantity))))
  }

  predicate Loses(env: Env, just: seq<int>, l: Line) {
    l.lineNo !in just && env.reserve(l.lineNo).NoStock?
  }

  /** An allocated line before release: its reservation is renewed, or lost. */
  function RenewedLine(env: Env, just: seq<int>, l: Line): Line {
    if l.lineNo in just then l
    else
      match env.reserve(l.lineNo)
      case Granted(rid) => l.(reservationId := Some(rid))
      case NoStock => l.(status := Backordered, reservationId := None)
      case Unavailable(_) => l
  }

  function LostTold(id: OrderId, env: Env, just: seq<int>, w: seq<Line>, k: nat): seq<Effect>
    requires k <= |w|
  {
    if k == 0 then []
    else
      LostTold(id, env, just, w, k - 1)
      + (if Loses(env, just, w[k - 1])
         then [Emit(OrderLineBackordered(id, w[k - 1].lineNo, w[k - 1].sku, w[k - 1].quantity))]
         else [])
  }

  predicate AllStayThrough(id: OrderId, env: Env, just: seq<int>, w: seq<Line>, from: nat, k: nat)
    requires k <= |w|
  {
    forall i :: 0 <= i < k ==> StaysThrough(id, env, just, w[i], from + |LostTold(id, env, just, w, i)|)
  }

  ghost predicate RenewedUpTo(s: OrderState, env: Env, just: seq<int>, w: seq<Line>, n: nat, t: OrderState)
    requires n <= |w|
  {
    && t == s.(lines := t.lines) && |t.lines| == |s.lines|
    && forall i :: 0 <= i < |s.lines| ==>
         t.lines[i] == if i + 1 in LineNos(w)[..n] then RenewedLine(env, just, s.lines[i]) else s.lines[i]
  }

  ghost predicate Renewing(a: Progress, env: Env, just: seq<int>, w: seq<Line>, b: Progress, k: nat) {
    k <= |w|
    && (b.failure.None? <==> AllStayThrough(a.order.id, env, just, w, |a.effects|, k))
    && (b.failure.None? ==>
          && b.effects == a.effects + LostTold(a.order.id, env, just, w, k)
          && b.nAllocated == a.nAllocated && b.nBackordered == a.nBackordered + |LostTold(a.order.id, env, just, w, k)|
          && RenewedUpTo(a.order, env, just, w, k, b.order))
  }

  /** What one line's renewal does to the pass. */
  predicate RenewedOnce(b: Progress, c: Progress, just: seq<int>, l: Line, env: Env) {
    && (c.failure.None? <==> StaysThrough(b.order.id, env, just, l, |b.effects|))
    && (c.failure.None? ==>
          && 1 <= l.lineNo <= |b.order.lines|
          && c.order == b.order.(lines := b.order.lines[l.lineNo - 1 := RenewedLine(env, just, l)])
          && c.nAllocated == b.nAllocated && c.nBackordered == b.nBackordered + (if Loses(env, just, l) then 1 else 0)
          && c.effects == b.effects
             + (if Loses(env, just, l) then [Emit(OrderLineBackordered(b.order.id, l.lineNo, l.sku, l.quantity))] else []))
  }

  lemma {:induction false} OneRenewal(b: Progress, l: Line, just: seq<int>, env: Env)
    requires WellNumbered(b.order.lines) && 1 <= l.lineNo <= |b.order.lines| && b.failure.None?
    requires b.order.lines[l.lineNo - 1] == l && l.status == Allocated
    ensures RenewedOnce(b, ReconfirmOne(b, l, just, env), just, l, env)
  {
    LookupByNumber(b.order.lines, l.lineNo);
    assert b.order.lines[l.lineNo - 1 := l] == b.order.lines;
  }

  lemma {:induction false} RenewsOneMore(s: OrderState, env: Env, just: seq<int>, w: seq<Line>, n: nat, t: OrderState, l: Line)
    requires n < |w| && NoRepeats(LineNos(w)) && RenewedUpTo(s, env, just, w, n, t)
    requires 1 <= w[n].lineNo <= |s.lines| && l == RenewedLine(env, just, s.lines[w[n].lineNo - 1])
    ensures RenewedUpTo(s, env, just, w, n + 1, t.(lines := t.lines[w[n].lineNo - 1 := l]))
  {
    NotAmongEarlier(w, n);
  }

  lemma {:induction false} RenewingCounts(a: Progress, env: Env, just: seq<int>, w: seq<Line>, b: Progress, c: Progress, k: nat)
    requires k < |w| && b.failure.None? && Renewing(a, env, just, w, b, k) && RenewedOnce(b, c, just, w[k], env)
    requires NoRepeats(LineNos(w)) && 1 <= w[k].lineNo <= |a.order.lines| && w[k] == a.order.lines[w[k].lineNo - 1]
    ensures Renewing(a, env, just, w, c, k + 1)
  {
    RenewsOneMore(a.order, env, just, w, k, b.order, RenewedLine(env, just, w[k]));
  }

  /** The lines to renew: different ones of the order, all allocated. */
  ghost predicate Renews(s: OrderState, w: seq<Line>) {
    && WellNumbered(s.lines) && NoRepeats(LineNos(w))
    && forall k :: 0 <= k < |w| ==>
         1 <= w[k].lineNo <= |s.lines| && w[k] == s.lines[w[k].lineNo - 1] && w[k].status == Allocated
  }

  lemma {:induction false} RenewingOneMore(a: Progress, env: Env, just: seq<int>, w: seq<Line>, b: Progress, k: nat)
    requires Renews(a.order, w) && k < |w| && b.failure.None? && Renewing(a, env, just, w, b, k)
    ensures Renewing(a, env, just, w, ReconfirmOne(b, w[k], just, env), k + 1)
  {
    NotAmongEarlier(w, k);
    assert b.order.lines[w[k].lineNo - 1] == w[k];
    forall i | 0 <= i < |b.order.lines| ensures b.order.lines[i].lineNo == i + 1 {
    }
    OneRenewal(b, w[k], just, env);
    RenewingCounts(a, env, just, w, b, ReconfirmOne(b, w[k], just, env), k);
  }

  lemma {:induction false} LostStays(a: Progress, env: Env, just: seq<int>, w: seq<Line>, b: Progress, k: nat)
    requires k < |w| && b.failure.Some? && Renewing(a, env, just, w, b, k)
    ensures Renewing(a, env, just, w, b, k + 1)
  {
  }

  /** The renewals of a pass, in full, unless one of them fails. */
  lemma {:induction false} RenewalsAre(a: Progress, env: Env, just: seq<int>, w: seq<Line>)
    requires Renews(a.order, w) && a.failure.None?
    ensures Renewing(a, env, just, w, ReconfirmLines(a, w, |w|, just, env), |w|)
  {
    var holds := (b: Progress, k: nat) => Renewing(a, env, just, w, b, k);
    assert LineNos(w)[..0] == [] && a.effects + [] == a.effects;
    forall b: Progress, j: nat | j < |w| && holds(b, j)
      ensures holds(if b.failure.Some? then b else ReconfirmOne(b, w[j], just, env), j + 1)
    {
      if b.failure.None? {
        RenewingOneMore(a, env, just, w, b, j);
      } else {
        LostStays(a, env, just, w, b, j);
      }
    }
    ReconfirmInduction(a, w, |w|, just, env, holds);
  }

  // ---------------------------------------------------------------- the end of a pass

  /** The order when every line asked about has its answer. */
  function Settled(s: OrderState, env: Env, just: seq<int>): OrderState {
    s.(lines := seq(|s.lines|, i requires 0 <= i < |s.lines| =>
        if i + 1 in just then SettledLine(env, s.lines[i]) else s.lines[i]))
  }

  function Promised(s: OrderState, env: Env, just: seq<int>): OrderState {
    SetPromiseDate(Settled(s, env, just), env)
  }

  /** The order when every allocated line is renewed or lost. */
  function Renewed(s: OrderState, env: Env, just: seq<int>): OrderState {
    s.(lines := seq(|s.lines|, i requires 0 <= i < |s.lines| =>
        if s.lines[i].status == Allocated then RenewedLine(env, just, s.lines[i]) else s.lines[i]))
  }

  /** A partial order releases what it can, any other all or nothing. */
  predicate GateOpen(s: OrderState) {
    s.allowPartial || forall i :: 0 <= i < |s.lines| ==> s.lines[i].status == Allocated || s.lines[i].status == Released
  }

  function AllReleased(s: OrderState): OrderState {
    s.(lines := seq(|s.lines|, i requires 0 <= i < |s.lines| =>
        if s.lines[i].status == Allocated then s.lines[i].(status := Released) else s.lines[i]))
  }

  function Kept(s: OrderState, env: Env, just: seq<int>, releases: bool): OrderState {
    if releases then Renewed(Promised(s, env, just), env, just) else Promised(s, env, just)
  }

  /** The order that a pass leaves if nothing fails. */
  function Left(s: OrderState, env: Env, just: seq<int>, releases: bool): OrderState {
    var kept := Kept(s, env, just, releases);
    if releases && GateOpen(kept) then AllReleased(kept) else kept
  }

  /** The writes of a pass before it saves: one event for each line asked about, then the losses. */
  function Before(s: OrderState, env: Env, lines: seq<Line>, releases: bool): seq<Effect> {
    var w := WithStatus(Promised(s, env, LineNos(lines)).lines, Allocated);
    Told(s.id, env, lines, |lines|) + (if releases then LostTold(s.id, env, LineNos(lines), w, |w|) else [])
  }

  /** Nothing fails before the pass saves. */
  predicate Passes(s: OrderState, env: Env, lines: seq<Line>, releases: bool) {
    var w := WithStatus(Promised(s, env, LineNos(lines)).lines, Allocated);
    && (forall i :: 0 <= i < |lines| ==> GoesThrough(s.id, env, lines[i], i))
    && (releases ==> AllStayThrough(s.id, env, LineNos(lines), w, |lines|, |w|))
  }

  lemma {:induction false} SettledIs(s: OrderState, env: Env, lines: seq<Line>, t: OrderState)
    requires SettledUpTo(s, env, lines, |lines|, t)
    ensures t == Settled(s, env, LineNos(lines))
  {
    assert LineNos(lines)[..|lines|] == LineNos(lines);
    assert t.lines == Settled(s, env, LineNos(lines)).lines;
  }

  /** The reservations of a pass that goes through, and its promise. */
  lemma {:induction false} PromisedPass(s: OrderState, lines: seq<Line>, retry: bool, env: Env) returns (b: Progress)
    requires Sound(s) && Asks(s, lines, retry) && forall i :: 0 <= i < |lines| ==> GoesThrough(s.id, env, lines[i], i)
    ensures AllocateLines(s, lines, |lines|, retry, env).failure.None?
    ensures b == AllocateLines(s, lines, |lines|, retry, env).(order := b.order) && b.failure.None?
    ensures b.order == Promised(s, env, LineNos(lines))
    ensures b.order == SetPromiseDate(AllocateLines(s, lines, |lines|, retry, env).order, env)
    ensures b.effects == Told(s.id, env, lines, |lines|)
    ensures b.nAllocated == GrantedAmong(env, lines, |lines|) && b.nBackordered == |lines| - b.nAllocated
    ensures WellNumbered(b.order.lines) && |b.order.lines| == |s.lines| && b.order.id == s.id
  {
    var a := AllocateLines(s, lines, |lines|, retry, env);
    ReservationsAre(s, lines, retry, env);
    SettledIs(s, env, lines, a.order);
    SettledNumbers(s, env, lines, |lines|, a.order);
    PromisingKeepsLines(a.order, env);
    b := a.(order := SetPromiseDate(a.order, env));
  }

  lemma {:induction false} RenewedIs(s: OrderState, env: Env, just: seq<int>, w: seq<Line>, t: OrderState)
    requires WellNumbered(s.lines) && Listing(s.lines, w, Allocated) && RenewedUpTo(s, env, just, w, |w|, t)
    ensures t == Renewed(s, env, just)
  {
    assert LineNos(w)[..|w|] == LineNos(w);
    forall i | 0 <= i < |s.lines| ensures i + 1 in LineNos(w) <==> s.lines[i].status == Allocated {
      ListedIff(s.lines, w, Allocated, i);
    }
    assert t.lines == Renewed(s, env, just).lines;
  }

  lemma {:induction false} ListedIff(lines: seq<Line>, w: seq<Line>, st: LineStatus, i: nat)
    requires WellNumbered(lines) && Listing(lines, w, st) && i < |lines|
    ensures i + 1 in LineNos(w) <==> lines[i].status == st
  {
    if lines[i].status == st && i + 1 !in LineNos(w) {
      NotSkipped(lines, w, st, i, 0);
    }
  }

  /** A line that is not in a listing lies in a gap of it. */
  lemma {:induction false} NotSkipped(lines: seq<Line>, w: seq<Line>, st: LineStatus, i: nat, k: nat)
    requires WellNumbered(lines) && Listing(lines, w, st) && i < |lines| && k <= |w|
    requires i + 1 !in LineNos(w) && Bound(w, k) < i + 1
    ensures lines[i].status != st
    decreases |w| - k
  {
    if k < |w| {
      assert LineNos(w)[k] == w[k].lineNo;
      if w[k].lineNo < i + 1 {
        NotSkipped(lines, w, st, i, k + 1);
      } else {
        assert Following(w, k, |lines| + 1) == w[k].lineNo;
      }
    } else {
      assert Following(w, k, |lines| + 1) == |lines| + 1;
    }
  }

  lemma {:induction false} LossShutsGate(s: OrderState, env: Env, just: seq<int>, w: seq<Line>, k: nat)
    requires Renews(s, w) && k <= |w| && LostTold(s.id, env, just, w, k) != [] && !s.allowPartial
    ensures !GateOpen(Renewed(s, env, just))
  {
    if Loses(env, just, w[k - 1]) {
      var i := w[k - 1].lineNo - 1;
      assert Renewed(s, env, just).lines[i].status == Backordered;
    } else {
      LossShutsGate(s, env, just, w, k - 1);
    }
  }

  lemma {:induction false} ReleaseIs(s: OrderState) returns (r: Releasing)
    requires WellNumbered(s.lines)
    ensures r == ReleaseAllocatedLines(s) && r.failure.None?
    ensures r.order == if GateOpen(s) then AllReleased(s) else s
    ensures !GateOpen(s) ==> r.released == []
    ensures GateOpen(s) ==> ReleasedNos(r.released) == LineNos(WithStatus(s.lines, Allocated))
  {
    r := ReleaseAllocatedLines(s);
    ReleaseIsAllOrNothing(s);
    assert Releasable(s) <==> GateOpen(s);
    if GateOpen(s) {
      assert r.order.lines == AllReleased(s).lines;
    }
  }

  /** What a pass has done when it comes to save. */
  datatype Ending = Ending(order: OrderState, nAllocated: nat, nBackordered: nat, released: seq<ReleasedLine>)

  lemma {:induction false} ListingRenews(s: OrderState) returns (w: seq<Line>)
    requires WellNumbered(s.lines)
    ensures w == WithStatus(s.lines, Allocated) && Listing(s.lines, w, Allocated) && Renews(s, w)
  {
    w := WithStatusLists(s.lines, Allocated);
    forall i, j | 0 <= i < j < |w| ensures LineNos(w)[i] != LineNos(w)[j] {
      assert w[i].lineNo < w[j].lineNo;
    }
  }

  /** The release leg of a pass in which nothing fails. */
  lemma {:induction false} LegEnds(b: Progress, env: Env, just: seq<int>) returns (c: Progress, released: seq<ReleasedLine>)
    requires WellNumbered(b.order.lines) && b.failure.None?
    requires
      var w := WithStatus(b.order.lines, Allocated);
      AllStayThrough(b.order.id, env, just, w, |b.effects|, |w|)
    ensures
      var w, kept := WithStatus(b.order.lines, Allocated), Renewed(b.order, env, just);
      var lost := LostTold(b.order.id, env, just, w, |w|);
      && c.order == (if GateOpen(kept) then AllReleased(kept) else kept)
      && c.effects == b.effects + lost && c.nAllocated == b.nAllocated && c.nBackordered == b.nBackordered + |lost|
      && released == (if GateOpen(kept) then ReleaseAllocatedLines(kept).released else [])
    ensures ReleaseLeg(b, just, env) == Conclude(c, released, env)
  {
    var w := ListingRenews(b.order);
    RenewalsAre(b, env, just, w);
    var q := ReconfirmLines(b, w, |w|, just, env);
    RenewedIs(b.order, env, just, w, q.order);
    var r := ReleaseOfRenewed(b.order, env, just);
    if LostTold(b.order.id, env, just, w, |w|) != [] && !b.order.allowPartial {
      LossShutsGate(b.order, env, just, w, |w|);
      c, released := q, [];
    } else {
      c, released := q.(order := r.order), r.released;
    }
  }

  lemma {:induction false} ReleaseOfRenewed(s: OrderState, env: Env, just: seq<int>) returns (r: Releasing)
    requires WellNumbered(s.lines)
    ensures
      var kept := Renewed(s, env, just);
      && r == ReleaseAllocatedLines(kept) && r.failure.None?
      && r.order == (if GateOpen(kept) then AllReleased(kept) else kept)
      && (!GateOpen(kept) ==> r.released == [])
  {
    var kept := Renewed(s, env, just);
    forall i | 0 <= i < |s.lines| ensures kept.lines[i].lineNo == i + 1 {
    }
    r := ReleaseIs(kept);
  }

  function Lost(s: OrderState, env: Env, lines: seq<Line>, releases: bool): nat {
    var w := WithStatus(Promised(s, env, LineNos(lines)).lines, Allocated);
    if releases then |LostTold(s.id, env, LineNos(lines), w, |w|)| else 0
  }

  /** What a pass reports as released. */
  function Reports(s: OrderState, env: Env, just: seq<int>, releases: bool): seq<ReleasedLine> {
    var kept := Kept(s, env, just, releases);
    if releases && GateOpen(kept) then ReleaseAllocatedLines(kept).released else []
  }

  /** A pass in which nothing fails comes to its save with the order, the writes and the counts that its
      inputs say. */
  lemma {:induction false} PassComesToSave(s: OrderState, lines: seq<Line>, retry: bool, releases: bool, env: Env)
    returns (a: Progress)
    requires Sound(s) && Asks(s, lines, retry) && Passes(s, env, lines, releases)
    ensures a.order == Left(s, env, LineNos(lines), releases) && a.effects == Before(s, env, lines, releases)
    ensures a.nAllocated == GrantedAmong(env, lines, |lines|)
    ensures a.nBackordered == |lines| - a.nAllocated + Lost(s, env, lines, releases)
    ensures AllocateAndRelease(s, lines, retry, releases, env) == Conclude(a, Reports(s, env, LineNos(lines), releases), env)
  {
    var b := PromisedPass(s, lines, retry, env);
    if releases {
      var c, released := LegEnds(b, env, LineNos(lines));
      a := c;
    } else {
      a := b;
      assert b.effects + [] == b.effects;
    }
  }

  lemma {:induction false} OnlyLinesTold(s: OrderState, env: Env, lines: seq<Line>, releases: bool)
    ensures OnlyLineEvents(Before(s, env, lines, releases))
  {
    var w := WithStatus(Promised(s, env, LineNos(lines)).lines, Allocated);
    LossesAreLineEvents(s.id, env, LineNos(lines), w, |w|);
  }

  lemma {:induction false} LossesAreLineEvents(id: OrderId, env: Env, just: seq<int>, w: seq<Line>, k: nat)
    requires k <= |w|
    ensures OnlyLineEvents(LostTold(id, env, just, w, k))
  {
    if k > 0 {
      LossesAreLineEvents(id, env, just, w, k - 1);
    }
  }

  // ---------------------------------------------------------------- the order-level event

  /** The pass has granted, backordered or released something. */
  predicate DidSomething(s: OrderState, env: Env, lines: seq<Line>, releases: bool) {
    |lines| > 0 || Lost(s, env, lines, releases) > 0 || Reports(s, env, LineNos(lines), releases) != []
  }

  /** The order is in one of the situations that are announced: some line is released, or else some line
      is allocated and, unless the order may ship in parts, none is backordered. */
  predicate Announced(t: OrderState) {
    AnyLine(t.lines, Released)
    || (AnyLine(t.lines, Allocated) && (AnyLine(t.lines, Backordered) ==> t.allowPartial))
  }

  /** The event says what the stored order is, and counts what the pass did. */
  predicate TellsOf(e: Event, t: OrderState, nAllocated: nat, nBackordered: nat, released: seq<ReleasedLine>) {
    var promise := PromiseSummary(t.promiseDate, t.promiseCptId, t.promiseBasis);
    e == if AllLines(t.lines, Allocated) || AllLines(t.lines, Released)
         then OrderAllocated(t.id, promise, released)
         else OrderPartiallyAllocated(t.id, nAllocated, nBackordered, promise, released)
  }

  lemma {:induction false} OneStatus(lines: seq<Line>, st: LineStatus, other: LineStatus)
    requires lines != [] && st != other && AllLines(lines, st)
    ensures !AnyLine(lines, other) && AnyLine(lines, st)
  {
    assert lines[0].status == st;
  }

  /** Which event an order has, if any. */
  lemma {:induction false} EventIff(t: OrderState, nAllocated: nat, nBackordered: nat, released: seq<ReleasedLine>)
    returns (e: Option<Event>)
    requires t.lines != []
    ensures e == OutcomeEvent(Bumped(t), nAllocated, nBackordered, released)
    ensures e.Some? <==> (nAllocated > 0 || nBackordered > 0 || released != []) && Announced(t)
    ensures e.Some? ==> TellsOf(e.value, t, nAllocated, nBackordered, released)
  {
    e := OutcomeEvent(Bumped(t), nAllocated, nBackordered, released);
    assert t.lines[0].status in {Pending, Allocated, Backordered, Released, Cancelled};
  }

  /** A pass in which nothing fails before the save, and whose save succeeds: it writes what its inputs
      say, in that order. After the save there is an order-level event if and only if the pass did
      something and the stored order is to be announced; it is of the kind that the stored lines call
      for, with the promise of the stored order and the counts of the pass; and the pass commits exactly
      when that event, if there is one, is published. */
  lemma {:induction false} PassLeaves(s: OrderState, lines: seq<Line>, retry: bool, releases: bool, env: Env)
    returns (o: Outcome, e: Option<Event>)
    requires Sound(s) && Asks(s, lines, retry) && Passes(s, env, lines, releases) && env.saves
    ensures o == AllocateAndRelease(s, lines, retry, releases, env)
    ensures
      var before, t := Before(s, env, lines, releases), Left(s, env, LineNos(lines), releases);
      var granted := GrantedAmong(env, lines, |lines|);
      var refused := |lines| - granted + Lost(s, env, lines, releases);
      && (e.Some? <==> DidSomething(s, env, lines, releases) && Announced(t))
      && (e.Some? ==> TellsOf(e.value, t, granted, refused, Reports(s, env, LineNos(lines), releases)))
      && (o.verdict == Commit <==> e.Some? ==> env.publishes(|before| + 1, e.value))
      && o.reported == (if o.verdict == Commit then None else Some(PublishFailed))
      && o.effects == before + [Store(t)] + (if e.Some? && o.verdict == Commit then [Emit(e.value)] else [])
  {
    var a := PassComesToSave(s, lines, retry, releases, env);
    var released := Reports(s, env, LineNos(lines), releases);
    LeftHasLines(s, env, LineNos(lines), releases);
    e := EventIff(a.order, a.nAllocated, a.nBackordered, released);
    o := ConcludedWith(a, released, env, e);
  }

  /** When the save fails, nothing is kept and the caller hears of it. */
  lemma {:induction false} UnsavedPass(s: OrderState, lines: seq<Line>, retry: bool, releases: bool, env: Env) returns (o: Outcome)
    requires Sound(s) && Asks(s, lines, retry) && Passes(s, env, lines, releases) && !env.saves
    ensures o == AllocateAndRelease(s, lines, retry, releases, env)
    ensures o.verdict == Rollback && o.reported == Some(SaveFailed) && o.effects == Before(s, env, lines, releases)
  {
    var a := PassComesToSave(s, lines, retry, releases, env);
    o := Ended(a, Rollback, Some(SaveFailed));
  }

  lemma {:induction false} ConcludedWith(a: Progress, released: seq<ReleasedLine>, env: Env, e: Option<Event>) returns (o: Outcome)
    requires env.saves && e == OutcomeEvent(Bumped(a.order), a.nAllocated, a.nBackordered, released)
    ensures o == Conclude(a, released, env)
    ensures o.verdict == Commit <==> e.Some? ==> env.publishes(|a.effects| + 1, e.value)
    ensures o.reported == if o.verdict == Commit then None else Some(PublishFailed)
    ensures o.effects == a.effects + [Store(a.order)] + (if e.Some? && o.verdict == Commit then [Emit(e.value)] else [])
  {
    o := Conclude(a, released, env);
    assert a.effects + [Store(a.order)] + [] == a.effects + [Store(a.order)];
  }

  lemma {:induction false} LeftHasLines(s: OrderState, env: Env, just: seq<int>, releases: bool)
    requires Sound(s)
    ensures Left(s, env, just, releases).lines != [] && |Left(s, env, just, releases).lines| == |s.lines|
  {
    PromisingKeepsLines(Settled(s, env, just), env);
  }

  // ---------------------------------------------------------------- what is released

  /** The line is allocated when the pass comes to release. */
  predicate AllocatedAfter(s: OrderState, env: Env, just: seq<int>, releases: bool, i: nat)
    requires i < |s.lines|
  {
    if i + 1 in just then env.reserve(i + 1).Granted?
    else s.lines[i].status == Allocated && (releases ==> !env.reserve(i + 1).NoStock?)
  }

  /** The statuses when the pass comes to release, line by line. */
  lemma {:induction false} KeptStatus(s: OrderState, env: Env, just: seq<int>, releases: bool, i: nat)
    requires WellNumbered(s.lines) && i < |s.lines|
    ensures |Kept(s, env, just, releases).lines| == |s.lines|
    ensures
      var st := Kept(s, env, just, releases).lines[i].status;
      && (st == Allocated <==> AllocatedAfter(s, env, just, releases, i))
      && (st == Released <==> i + 1 !in just && s.lines[i].status == Released)
    ensures Kept(s, env, just, releases).allowPartial == s.allowPartial
  {
    PromisingKeepsLines(Settled(s, env, just), env);
    assert s.lines[i].lineNo == i + 1;
  }

  ghost predicate SomeAllocatedAfter(s: OrderState, env: Env, just: seq<int>, releases: bool) {
    exists i :: 0 <= i < |s.lines| && AllocatedAfter(s, env, just, releases, i)
  }

  /** Behind the gate: every line is allocated now or released already, or the order may ship in parts. */
  predicate MayRelease(s: OrderState, env: Env, just: seq<int>, releases: bool) {
    releases
    && (s.allowPartial
        || forall i :: 0 <= i < |s.lines| ==>
             AllocatedAfter(s, env, just, releases, i) || (i + 1 !in just && s.lines[i].status == Released))
  }

  lemma {:induction false} GateIff(s: OrderState, env: Env, just: seq<int>, releases: bool)
    requires WellNumbered(s.lines)
    ensures releases && GateOpen(Kept(s, env, just, releases)) <==> MayRelease(s, env, just, releases)
  {
    PromisingKeepsLines(Settled(s, env, just), env);
    var kept := Kept(s, env, just, releases);
    forall i | 0 <= i < |s.lines|
      ensures kept.lines[i].status == Allocated <==> AllocatedAfter(s, env, just, releases, i)
      ensures kept.lines[i].status == Released <==> i + 1 !in just && s.lines[i].status == Released
    {
      KeptStatus(s, env, just, releases, i);
    }
  }

  /** The lines that a pass releases are those allocated when it comes to that, if it may release. */
  lemma {:induction false} LeftStatus(s: OrderState, env: Env, just: seq<int>, releases: bool, i: nat)
    requires WellNumbered(s.lines) && i < |s.lines|
    ensures |Left(s, env, just, releases).lines| == |s.lines|
    ensures
      var st := Left(s, env, just, releases).lines[i].status;
      && (st == Released <==>
            || (MayRelease(s, env, just, releases) && AllocatedAfter(s, env, just, releases, i))
            || (i + 1 !in just && s.lines[i].status == Released))
      && (st == Allocated <==> !MayRelease(s, env, just, releases) && AllocatedAfter(s, env, just, releases, i))
  {
    KeptStatus(s, env, just, releases, i);
    GateIff(s, env, just, releases);
  }
}
