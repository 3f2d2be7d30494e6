/** The rest of the pass as the service runs it: promising, releasing behind the gate, saving once,
    publishing the outcome, and salvaging what was reserved before a failure. */
module PassMethods {
  import opened Wrappers
  import opened Orders
  import opened OrderAggregate
  import opened PromisePolicies
  import opened Allocation
  import opened AllocationMethods

  // ---------------------------------------------------------------- promising

  method AllocatedLineNos(o: Order) returns (ns: seq<int>)
    requires o.Valid()
    ensures ns == LineNos(WithStatus(o.State().lines, Allocated))
  {
    var lines := o.LinesWithStatus(Allocated);
    ns := NumbersOf(lines);
  }

  method PromiseByDeadline(o: Order, env: Env, deadline: Instant)
    requires o.Valid() && o.requiredShipBy == Some(deadline)
    modifies o`promiseGroups, o`promiseDate, o`promiseBasis, o`promiseCptId
    ensures o.State() == SetPromiseDate(old(o.State()), env)
  {
    var promise := SearchFeasibleBy(env.policy, env.now, o.State(), deadline);
    if promise.Some? {
      var ns := AllocatedLineNos(o);
      o.SetPromiseGroups([PromiseGroup(ns, promise.value)]);
    }
  }

  /** A deadline order is promised by feasibility or left without a promise; any other by groups. */
  method PromiseOrder(o: Order, env: Env)
    requires o.Valid()
    modifies o`promiseGroups, o`promiseDate, o`promiseBasis, o`promiseCptId
    ensures o.State() == SetPromiseDate(old(o.State()), env)
  {
    if o.requiredShipBy.Some? {
      PromiseByDeadline(o, env, o.requiredShipBy.value);
      return;
    }
    var groups := ComputePromiseGroups(env.policy, env.now, o.State());
    if groups.Some? {
      o.SetPromiseGroups(groups.value);
    }
  }

  /** The index holds, for every line number, the promise of the last group that lists it. */
  ghost predicate Indexes(index: map<int, Promise>, groups: seq<PromiseGroup>) {
    forall n :: GroupPromise(groups, n) == if n in index then Some(index[n]) else None
  }

  /** A later group overwrites an earlier one. */
  method PromiseGroupByLine(groups: seq<PromiseGroup>) returns (index: map<int, Promise>)
    ensures Indexes(index, groups)
  {
    index := map[];
    for i := 0 to |groups|
      invariant Indexes(index, groups[..i])
    {
      assert groups[..i + 1][..i] == groups[..i];
      var g := groups[i];
      ghost var before := index;
      for j := 0 to |g.lineNos|
        invariant forall n :: n in g.lineNos[..j] ==> n in index && index[n] == g.promise
        invariant forall n :: n !in g.lineNos[..j] ==> (n in index <==> n in before) && (n in index ==> index[n] == before[n])
      {
        assert g.lineNos[..j + 1] == g.lineNos[..j] + [g.lineNos[j]];
        index := index[g.lineNos[j] := g.promise];
      }
      assert g.lineNos[..|g.lineNos|] == g.lineNos;
    }
    assert groups[..|groups|] == groups;
  }

  // ---------------------------------------------------------------- releasing

  function Report(line: OrderLine, class_: FulfillmentClass, index: map<int, Promise>): ReleasedLine
    reads line
  {
    ReleasedLine(line.lineNo, line.sku, line.pathId, line.giftWrap, class_,
      if line.lineNo in index then Some(index[line.lineNo]) else None)
  }

  method ReleaseTurn(o: Order, line: OrderLine, before: seq<ReleasedLine>, class_: FulfillmentClass, index: map<int, Promise>,
      ghost s: OrderState, ghost l: Line, ghost r: Releasing)
    returns (released: seq<ReleasedLine>, failure: Option<OrderError>)
    requires r == Releasing(o.State(), before, None)
    requires o.Valid() && Indexes(index, s.promiseGroups) && class_ == Classify(s.lines) && SameGoods(l, line.View())
    modifies o.lines`status, o.lines`reservationId
    ensures o.Valid()
    ensures Releasing(o.State(), released, failure) == ReleaseOne(r, l, Describe(s, l))
  {
    failure := o.ReleaseLine(line.lineNo);
    released := if failure.Some? then [] else before + [Report(line, class_, index)];
  }

  method ReleaseEach(o: Order, lines: seq<OrderLine>, index: map<int, Promise>)
    returns (released: seq<ReleasedLine>, failure: Option<OrderError>)
    requires o.Valid() && Indexes(index, o.promiseGroups)
    modifies o.lines`status, o.lines`reservationId
    ensures o.Valid()
    ensures Releasing(o.State(), released, failure) == ReleaseLines(old(o.State()), old(Views(lines)), |lines|)
  {
    released, failure := [], None;
    ghost var s, ls := o.State(), Views(lines);
    ghost var r := Releasing(s, [], None);
    var class_ := Classify(o.State().lines);
    var i := 0;
    while i < |lines| && failure.None?
      invariant i <= |lines| && o.Valid()
      invariant r == Releasing(o.State(), released, failure) == ReleaseLines(s, ls, i)
    {
      released, failure := ReleaseTurn(o, lines[i], released, class_, index, s, ls[i], r);
      r := Releasing(o.State(), released, failure);
      i := i + 1;
    }
    FailedReleaseStays(s, ls, i, |lines|);
  }

  lemma {:induction false} FailedReleaseStays(s: OrderState, lines: seq<Line>, i: nat, k: nat)
    requires i <= k <= |lines|
    requires i == k || ReleaseLines(s, lines, i).failure.Some?
    ensures ReleaseLines(s, lines, k) == ReleaseLines(s, lines, i)
  {
    if i < k {
      FailedReleaseStays(s, lines, i, k - 1);
    }
  }

  /** A shut gate is not a failure: nothing is released. */
  method ReleaseAll(o: Order) returns (released: seq<ReleasedLine>, failure: Option<OrderError>)
    requires o.Valid()
    modifies o.lines`status, o.lines`reservationId
    ensures o.Valid()
    ensures Releasing(o.State(), released, failure) == ReleaseAllocatedLines(old(o.State()))
  {
    var index := PromiseGroupByLine(o.promiseGroups);
    var releasable := o.EnsureReleasable();
    if !releasable { return [], None; }
    var lines := o.LinesWithStatus(Allocated);
    released, failure := ReleaseEach(o, lines, index);
  }

  // ---------------------------------------------------------------- concluding

  function OutcomeOf(o: Order, scope: Scope, nAllocated: nat, nBackordered: nat, verdict: Verdict, reported: Option<Failure>): Outcome
    reads o, o.lines, scope
  {
    Outcome(o.State(), scope.effects, scope.asked, nAllocated, nBackordered, verdict, reported)
  }

  method PublishOutcome(scope: Scope, o: Order, nAllocated: nat, nBackordered: nat, released: seq<ReleasedLine>) returns (ok: bool)
    modifies scope`effects
    ensures
      var e := OutcomeEvent(o.State(), nAllocated, nBackordered, released);
      && ok == (e.Some? ==> scope.env.publishes(|old(scope.effects)|, e.value))
      && scope.effects == old(scope.effects) + (if e.Some? && ok then [Emit(e.value)] else [])
  {
    if nAllocated == 0 && nBackordered == 0 && released == [] { return true; }
    var promise := PromiseSummary(o.promiseDate, o.promiseCptId, o.promiseBasis);
    var st := o.Status();
    match st {
      case StatusAllocated | StatusReleased =>
        ok := scope.Publish(OrderAllocated(o.id, promise, released));
      case StatusPartiallyAllocated | StatusPartiallyReleased =>
        ok := scope.Publish(OrderPartiallyAllocated(o.id, nAllocated, nBackordered, promise, released));
      case _ =>
        ok := true;
    }
  }

  method SaveAndConclude(scope: Scope, o: Order, nAllocated: nat, nBackordered: nat, released: seq<ReleasedLine>)
    returns (r: Outcome)
    modifies scope`effects, o`version
    ensures r == Conclude(old(ProgressOf(o, scope, nAllocated, nBackordered, None)), released, scope.env)
    ensures o.State() == r.order && scope.effects == r.effects
  {
    var ok := scope.Save(o);
    if !ok { return OutcomeOf(o, scope, nAllocated, nBackordered, Rollback, Some(SaveFailed)); }
    ok := PublishOutcome(scope, o, nAllocated, nBackordered, released);
    r := OutcomeOf(o, scope, nAllocated, nBackordered, if ok then Commit else Rollback, if ok then None else Some(PublishFailed));
  }

  method SaveThenReport(scope: Scope, o: Order, nAllocated: nat, nBackordered: nat, failure: Failure) returns (r: Outcome)
    requires o.Valid()
    modifies scope`effects, o`version
    ensures r == SaveAndReport(old(ProgressOf(o, scope, nAllocated, nBackordered, Some(failure))), failure, scope.env)
    ensures o.State() == r.order && scope.effects == r.effects
  {
    var ok := scope.Save(o);
    if !ok { return OutcomeOf(o, scope, nAllocated, nBackordered, Rollback, Some(Joined(failure, SaveFailed))); }
    var pending := o.LinesWithStatus(Pending);
    ok := scope.Publish(OrderAllocationPartiallyFailed(o.id, nAllocated, |pending|, TruncateCause(scope.env.describe(failure))));
    r := OutcomeOf(o, scope, nAllocated, nBackordered, if ok then Commit else Rollback,
      Some(if ok then failure else Joined(failure, PublishFailed)));
  }

  /** Persists the partial allocation that came before a hard failure, and makes it visible. */
  method SalvageFailure(scope: Scope, o: Order, nAllocated: nat, nBackordered: nat, failure: Failure) returns (r: Outcome)
    requires o.Valid()
    modifies scope`effects, o`version, o`promiseGroups, o`promiseDate, o`promiseBasis, o`promiseCptId
    ensures r == Salvage(old(ProgressOf(o, scope, nAllocated, nBackordered, Some(failure))), failure, scope.env)
    ensures o.State() == r.order && scope.effects == r.effects
  {
    PromiseOrder(o, scope.env);
    r := SaveThenReport(scope, o, nAllocated, nBackordered, failure);
  }

  /** Reconfirms, then releases; a ship-complete order that lost a reservation is saved unreleased. */
  method ReconfirmAndRelease(scope: Scope, o: Order, lines: seq<OrderLine>, nA: nat, nB: nat) returns (r: Outcome)
    requires o.Valid()
    modifies o, o.lines`status, o.lines`reservationId, scope`effects, scope`asked
    ensures r == ReleaseLeg(old(ProgressOf(o, scope, nA, nB, None)), LineNos(old(Views(lines))), scope.env)
    ensures o.State() == r.order && scope.effects == r.effects
  {
    var nBackordered, failure := ReconfirmAllocatedLines(scope, o, lines, nA, nB);
    if failure.Some? {
      return OutcomeOf(o, scope, nA, nBackordered, Rollback, failure);
    }
    if nBackordered > nB && !o.allowPartial {
      r := SaveAndConclude(scope, o, nA, nBackordered, []);
      return;
    }
    var released, error := ReleaseAll(o);
    if error.Some? {
      return OutcomeOf(o, scope, nA, nBackordered, Rollback, Some(Domain(error.value)));
    }
    r := SaveAndConclude(scope, o, nA, nBackordered, released);
  }

  method PromiseAndRelease(scope: Scope, o: Order, lines: seq<OrderLine>, releaseOnAllocation: bool, nA: nat, nB: nat)
    returns (r: Outcome)
    requires o.Valid()
    modifies o, o.lines`status, o.lines`reservationId, scope`effects, scope`asked
    ensures
      var a := old(ProgressOf(o, scope, nA, nB, None));
      var b := a.(order := SetPromiseDate(a.order, scope.env));
      r == if releaseOnAllocation then ReleaseLeg(b, LineNos(old(Views(lines))), scope.env) else Conclude(b, [], scope.env)
    ensures o.State() == r.order && scope.effects == r.effects
  {
    PromiseOrder(o, scope.env);
    if !releaseOnAllocation {
      r := SaveAndConclude(scope, o, nA, nB, []);
    } else {
      r := ReconfirmAndRelease(scope, o, lines, nA, nB);
    }
  }

  /** The one flow that receiving, retrying and releasing share. */
  method RunPass(scope: Scope, o: Order, lines: seq<OrderLine>, retry: bool, releaseOnAllocation: bool) returns (r: Outcome)
    requires o.Valid() && scope.effects == [] && scope.asked == []
    modifies o, o.lines`status, o.lines`reservationId, scope`effects, scope`asked
    ensures r == AllocateAndRelease(old(o.State()), old(Views(lines)), retry, releaseOnAllocation, scope.env)
    ensures o.State() == r.order && scope.effects == r.effects
  {
    ghost var ns := LineNos(Views(lines));
    var nAllocated, nBackordered, failure := AllocateEach(scope, o, lines, retry);
    if failure.Some? {
      if nAllocated > 0 {
        r := SalvageFailure(scope, o, nAllocated, nBackordered, failure.value);
      } else {
        r := OutcomeOf(o, scope, nAllocated, nBackordered, Commit, failure);
      }
    } else {
      assert LineNos(Views(lines)) == ns;
      r := PromiseAndRelease(scope, o, lines, releaseOnAllocation, nAllocated, nBackordered);
    }
  }
}
