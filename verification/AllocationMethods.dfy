/** The allocation-and-release pass as the service runs it: loops that change the order in place,
    reserve, publish and save. Each method is proved to do what its function in Allocation.dfy says. */
module AllocationMethods {
  import opened Wrappers
  import opened Orders
  import opened OrderAggregate
  import opened Allocation

  /** The outside world of one pass: it answers, and it remembers what was asked and written. */
  class Scope {
    const env: Env
    var effects: seq<Effect>
    var asked: seq<int>

    constructor (env: Env)
      ensures this.env == env && effects == [] && asked == []
    {
      this.env := env;
      effects := [];
      asked := [];
    }

    method Reserve(lineNo: int) returns (answer: Answer)
      modifies this`asked
      ensures asked == old(asked) + [lineNo] && answer == env.reserve(lineNo)
    {
      asked := asked + [lineNo];
      answer := env.reserve(lineNo);
    }

    method Publish(e: Event) returns (ok: bool)
      modifies this`effects
      ensures ok == env.publishes(|old(effects)|, e)
      ensures effects == if ok then old(effects) + [Emit(e)] else old(effects)
    {
      ok := env.publishes(|effects|, e);
      if ok { effects := effects + [Emit(e)]; }
    }

    /** A successful update moves the in-memory version along; a first insert does not. */
    method Save(o: Order, insert: bool := false) returns (ok: bool)
      modifies this`effects, o`version
      ensures ok == env.saves
      ensures ok ==> effects == old(effects) + [Store(old(o.State()))]
      ensures !ok ==> effects == old(effects)
      ensures o.State() == if ok && !insert then Bumped(old(o.State())) else old(o.State())
    {
      ok := env.saves;
      if ok {
        effects := effects + [Store(o.State())];
        if !insert { o.version := o.version + 1; }
      }
    }
  }

  function ProgressOf(o: Order, scope: Scope, nAllocated: nat, nBackordered: nat, failure: Option<Failure>): Progress
    reads o, o.lines, scope
  {
    Progress(o.State(), scope.effects, scope.asked, nAllocated, nBackordered, failure)
  }

  // ---------------------------------------------------------------- one line

  method Transition(o: Order, lineNo: int, m: Move) returns (error: Option<OrderError>)
    requires o.Valid()
    modifies o.lines`status, o.lines`reservationId
    ensures o.Valid()
    ensures error == ErrorOf(ApplyMove(old(o.State()), lineNo, m))
    ensures o.State() == After(old(o.State()), ApplyMove(old(o.State()), lineNo, m))
  {
    match m
    case Allocate(rid) => error := o.AllocateLine(lineNo, rid);
    case RetryAllocate(rid) => error := o.RetryAllocateLine(lineNo, rid);
    case Reconfirm(rid) => error := o.ReconfirmReservation(lineNo, rid);
    case LoseReservation => error := o.LoseLineReservation(lineNo);
    case MarkBackordered => error := o.MarkLineBackordered(lineNo);
    case Release => error := o.ReleaseLine(lineNo);
  }

  /** The counters move only with the line; a publish that fails leaves the move made. */
  method MoveThenTell(scope: Scope, o: Order, lineNo: int, m: Move, nA: nat, nB: nat, dA: nat, dB: nat, e: Event,
      ghost a: Progress)
    returns (nAllocated: nat, nBackordered: nat, failure: Option<Failure>)
    requires o.Valid() && a == ProgressOf(o, scope, nA, nB, None)
    modifies o.lines`status, o.lines`reservationId, scope`effects
    ensures o.Valid()
    ensures ProgressOf(o, scope, nAllocated, nBackordered, failure)
         == MoveAndTell(a, lineNo, m, nA + dA, nB + dB, e, scope.env)
    ensures dA == 0 ==> nAllocated == nA
    ensures dB == 0 ==> nBackordered == nB
  {
    var error := Transition(o, lineNo, m);
    if error.Some? { return nA, nB, Some(Domain(error.value)); }
    var ok := scope.Publish(e);
    return nA + dA, nB + dB, if ok then None else Some(PublishFailed);
  }

  method Backorder(scope: Scope, o: Order, line: OrderLine, m: Move, nA: nat, nB: nat, ghost a: Progress, ghost l: Line)
    returns (nBackordered: nat, failure: Option<Failure>)
    requires o.Valid() && a == ProgressOf(o, scope, nA, nB, None) && SameGoods(l, line.View())
    modifies o.lines`status, o.lines`reservationId, scope`effects
    ensures o.Valid()
    ensures ProgressOf(o, scope, nA, nBackordered, failure)
         == MoveAndTell(a, l.lineNo, m, a.nAllocated, a.nBackordered + 1, BackorderedEvent(a.order, l), scope.env)
  {
    var unused: nat;
    unused, nBackordered, failure := MoveThenTell(scope, o, line.lineNo, m, nA, nB, 0, 1,
      OrderLineBackordered(o.id, line.lineNo, line.sku, line.quantity), a);
  }

  method Take(scope: Scope, o: Order, line: OrderLine, m: Move, rid: string, nA: nat, nB: nat, ghost a: Progress, ghost l: Line)
    returns (nAllocated: nat, failure: Option<Failure>)
    requires o.Valid() && a == ProgressOf(o, scope, nA, nB, None) && SameGoods(l, line.View())
    modifies o.lines`status, o.lines`reservationId, scope`effects
    ensures o.Valid()
    ensures ProgressOf(o, scope, nAllocated, nB, failure)
         == MoveAndTell(a, l.lineNo, m, a.nAllocated + 1, a.nBackordered, AllocatedEvent(a.order, l, rid), scope.env)
  {
    var unused: nat;
    nAllocated, unused, failure := MoveThenTell(scope, o, line.lineNo, m, nA, nB, 1, 0,
      OrderLineAllocated(o.id, line.lineNo, line.sku, line.quantity, rid), a);
  }

  method ActOn(scope: Scope, o: Order, line: OrderLine, answer: Answer, retry: bool, nA: nat, nB: nat, ghost a: Progress, ghost l: Line)
    returns (nAllocated: nat, nBackordered: nat, failure: Option<Failure>)
    requires o.Valid() && a == ProgressOf(o, scope, nA, nB, None) && SameGoods(l, line.View())
    modifies o.lines`status, o.lines`reservationId, scope`effects
    ensures o.Valid()
    ensures ProgressOf(o, scope, nAllocated, nBackordered, failure) == Answered(a, l, answer, retry, scope.env)
  {
    nAllocated, nBackordered, failure := nA, nB, None;
    match answer {
      case NoStock =>
        nBackordered, failure := Backorder(scope, o, line, MarkBackordered, nA, nB, a, l);
      case Unavailable(cause) =>
        failure := Some(Upstream(cause));
      case Granted(rid) =>
        nAllocated, failure := Take(scope, o, line, if retry then RetryAllocate(rid) else Allocate(rid), rid, nA, nB, a, l);
    }
  }

  /** One turn of the reservation loop: ask, then act on the answer. */
  method AllocateTurn(scope: Scope, o: Order, line: OrderLine, retry: bool, nA: nat, nB: nat, ghost a: Progress, ghost l: Line)
    returns (nAllocated: nat, nBackordered: nat, failure: Option<Failure>)
    requires o.Valid() && a == ProgressOf(o, scope, nA, nB, None) && SameGoods(l, line.View())
    modifies o.lines`status, o.lines`reservationId, scope`effects, scope`asked
    ensures o.Valid()
    ensures ProgressOf(o, scope, nAllocated, nBackordered, failure) == AllocateOne(a, l, retry, scope.env)
  {
    var answer := scope.Reserve(line.lineNo);
    nAllocated, nBackordered, failure := ActOn(scope, o, line, answer, retry, nA, nB, Ask(a, l), l);
  }

  method AllocateEach(scope: Scope, o: Order, lines: seq<OrderLine>, retry: bool)
    returns (nAllocated: nat, nBackordered: nat, failure: Option<Failure>)
    requires o.Valid() && scope.effects == [] && scope.asked == []
    modifies o.lines`status, o.lines`reservationId, scope`effects, scope`asked
    ensures o.Valid()
    ensures ProgressOf(o, scope, nAllocated, nBackordered, failure)
         == AllocateLines(old(o.State()), old(Views(lines)), |lines|, retry, scope.env)
  {
    nAllocated, nBackordered, failure := 0, 0, None;
    ghost var s0, ls := o.State(), Views(lines);
    ghost var a := ProgressOf(o, scope, 0, 0, None);
    var i := 0;
    while i < |lines| && failure.None?
      invariant i <= |lines| && o.Valid()
      invariant a == ProgressOf(o, scope, nAllocated, nBackordered, failure) == AllocateLines(s0, ls, i, retry, scope.env)
    {
      nAllocated, nBackordered, failure := AllocateTurn(scope, o, lines[i], retry, nAllocated, nBackordered, a, ls[i]);
      a := ProgressOf(o, scope, nAllocated, nBackordered, failure);
      i := i + 1;
    }
    FailedStays(s0, ls, i, |lines|, retry, scope.env);
  }

  lemma FailedStep(s: OrderState, lines: seq<Line>, k: nat, retry: bool, env: Env)
    requires 0 < k <= |lines| && AllocateLines(s, lines, k - 1, retry, env).failure.Some?
    ensures AllocateLines(s, lines, k, retry, env) == AllocateLines(s, lines, k - 1, retry, env)
  {
  }

  /** Once a pass has failed, the remaining lines change nothing. */
  lemma {:induction false} FailedStays(s: OrderState, lines: seq<Line>, i: nat, k: nat, retry: bool, env: Env)
    requires i <= k <= |lines|
    requires i == k || AllocateLines(s, lines, i, retry, env).failure.Some?
    ensures AllocateLines(s, lines, k, retry, env) == AllocateLines(s, lines, i, retry, env)
  {
    if i < k {
      FailedStays(s, lines, i, k - 1, retry, env);
      FailedStep(s, lines, k, retry, env);
    }
  }

  // ---------------------------------------------------------------- reconfirm

  method ReconfirmTurn(scope: Scope, o: Order, line: OrderLine, nA: nat, nB: nat, ghost a: Progress, ghost l: Line)
    returns (nBackordered: nat, failure: Option<Failure>)
    requires o.Valid() && a == ProgressOf(o, scope, nA, nB, None) && SameGoods(l, line.View())
    modifies o.lines`status, o.lines`reservationId, scope`effects, scope`asked
    ensures o.Valid()
    ensures forall skip: seq<int> :: l.lineNo !in skip ==>
              ProgressOf(o, scope, nA, nBackordered, failure) == ReconfirmOne(a, l, skip, scope.env)
  {
    nBackordered, failure := nB, None;
    var answer := scope.Reserve(line.lineNo);
    match answer {
      case Granted(rid) =>
        var error := o.ReconfirmReservation(line.lineNo, rid);
        if error.Some? { failure := Some(Domain(error.value)); }
      case NoStock =>
        nBackordered, failure := Backorder(scope, o, line, LoseReservation, nA, nB, Ask(a, l), l);
      case Unavailable(cause) =>
        failure := Some(Upstream(cause));
    }
  }

  method ReconfirmEach(scope: Scope, o: Order, lines: seq<OrderLine>, skip: seq<int>, nA: nat, nB: nat)
    returns (nBackordered: nat, failure: Option<Failure>)
    requires o.Valid()
    modifies o.lines`status, o.lines`reservationId, scope`effects, scope`asked
    ensures o.Valid()
    ensures ProgressOf(o, scope, nA, nBackordered, failure)
         == ReconfirmLines(old(ProgressOf(o, scope, nA, nB, None)), old(Views(lines)), |lines|, skip, scope.env)
  {
    nBackordered, failure := nB, None;
    ghost var a0, ls := ProgressOf(o, scope, nA, nB, None), Views(lines);
    ghost var a := a0;
    var i := 0;
    while i < |lines| && failure.None?
      invariant i <= |lines| && o.Valid()
      invariant a == ProgressOf(o, scope, nA, nBackordered, failure) == ReconfirmLines(a0, ls, i, skip, scope.env)
    {
      if lines[i].lineNo !in skip {
        nBackordered, failure := ReconfirmTurn(scope, o, lines[i], nA, nBackordered, a, ls[i]);
        a := ProgressOf(o, scope, nA, nBackordered, failure);
      }
      i := i + 1;
    }
    FailedReconfirmStays(a0, ls, i, |lines|, skip, scope.env);
  }

  /** Reserves again every allocated line that this pass has not just reserved. */
  method ReconfirmAllocatedLines(scope: Scope, o: Order, justReserved: seq<OrderLine>, nA: nat, nB: nat)
    returns (nBackordered: nat, failure: Option<Failure>)
    requires o.Valid()
    modifies o.lines`status, o.lines`reservationId, scope`effects, scope`asked
    ensures o.Valid()
    ensures
      var a := old(ProgressOf(o, scope, nA, nB, None));
      var lines := WithStatus(a.order.lines, Allocated);
      ProgressOf(o, scope, nA, nBackordered, failure)
        == ReconfirmLines(a, lines, |lines|, LineNos(old(Views(justReserved))), scope.env)
  {
    var skip := NumbersOf(justReserved);
    var lines := o.LinesWithStatus(Allocated);
    nBackordered, failure := ReconfirmEach(scope, o, lines, skip, nA, nB);
  }

  lemma {:induction false} FailedReconfirmStays(a: Progress, lines: seq<Line>, i: nat, k: nat, skip: seq<int>, env: Env)
    requires i <= k <= |lines|
    requires i == k || ReconfirmLines(a, lines, i, skip, env).failure.Some?
    ensures ReconfirmLines(a, lines, k, skip, env) == ReconfirmLines(a, lines, i, skip, env)
  {
    if i < k {
      FailedReconfirmStays(a, lines, i, k - 1, skip, env);
    }
  }

  method NumbersOf(lines: seq<OrderLine>) returns (ns: seq<int>)
    ensures ns == LineNos(Views(lines))
  {
    ns := [];
    for i := 0 to |lines|
      invariant |ns| == i && forall k :: 0 <= k < i ==> ns[k] == lines[k].lineNo
    {
      ns := ns + [lines[i].lineNo];
    }
  }
}
