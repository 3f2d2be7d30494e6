/** The five use cases as the service runs them on a loaded (or new) order object, each proved to
    make exactly the writes that UseCases.dfy plans. */
module UseCaseMethods {
  import opened Wrappers
  import opened Orders
  import opened OrderAggregate
  import opened PromisePolicies
  import opened Allocation
  import opened AllocationMethods
  import opened PassMethods
  import opened PassTheorems
  import opened UseCases
  import opened UseCaseTheorems
  import opened IntakePass
  import opened JoinedReceive

  // ---------------------------------------------------------------- receive

  method BuildDomainLines(goods: seq<NewLine>, routes: Routes) returns (r: Result<seq<OrderLine>, OrderError>)
    ensures r.Err? ==> BuildLines(goods, |goods|, routes) == Err(r.error)
    ensures r.Ok? ==> fresh(r.value) && Distinct(r.value) && BuildLines(goods, |goods|, routes) == Ok(Views(r.value))
  {
    var lines: seq<OrderLine> := [];
    for i := 0 to |goods|
      invariant fresh(lines) && Distinct(lines)
      invariant BuildLines(goods, i, routes) == Ok(Views(lines))
    {
      var line := RoutedLine(i + 1, goods[i], routes);
      if line.Err? {
        BadLineStops(goods, i + 1, |goods|, routes);
        return Err(line.error);
      }
      assert Views(lines + [line.value]) == Views(lines) + [line.value.View()];
      lines := lines + [line.value];
    }
    return Ok(lines);
  }

  method RoutedLine(lineNo: int, g: NewLine, routes: Routes) returns (r: Result<OrderLine, OrderError>)
    ensures r.Err? ==> BuildLine(lineNo, g, routes) == Err(r.error)
    ensures r.Ok? ==> fresh(r.value) && BuildLine(lineNo, g, routes) == Ok(r.value.View())
  {
    var path := g.pathId;
    if path == "" {
      var resolved := routes.select(g);
      if resolved.None? { return Err(LineIneligibleForResolvedPath); }
      path := resolved.value;
    }
    var l := NewOrderLine(lineNo, g.(pathId := path));
    if l.Err? { return Err(l.error); }
    if !routes.active(l.value.pathId) { return Err(UnknownProcessPath); }
    var line := new OrderLine(l.value);
    return Ok(line);
  }

  lemma {:induction false} BadLineStops(goods: seq<NewLine>, i: nat, k: nat, routes: Routes)
    requires i <= k <= |goods| && BuildLines(goods, i, routes).Err?
    ensures BuildLines(goods, k, routes) == BuildLines(goods, i, routes)
  {
    if i < k {
      BadLineStops(goods, i, k - 1, routes);
    }
  }

  /** Refuses, before anything is minted or stored, what cannot become an order. */
  method NewOrderFor(id: OrderId, goods: seq<NewLine>, routes: Routes, allowPartial: bool, releaseOnAllocation: bool,
      deadline: Option<Instant>)
    returns (r: Result<Order, OrderError>)
    ensures r.Err? ==> Received(id, goods, routes, allowPartial, releaseOnAllocation, deadline) == Err(r.error)
    ensures r.Ok? ==> r.value.Valid() && fresh(r.value) && fresh(r.value.lines)
    ensures r.Ok? ==> r.value.heldAtIntake == !releaseOnAllocation
    ensures r.Ok? ==> Received(id, goods, routes, allowPartial, releaseOnAllocation, deadline) == Ok(r.value.State())
  {
    if !IntakeIntentValid(allowPartial, releaseOnAllocation) { return Err(HeldOrderMustBeShipComplete); }
    var built := BuildDomainLines(goods, routes);
    if built.Err? { return Err(built.error); }
    if id == "" { return Err(EmptyOrderId); }
    if built.value == [] { return Err(NoLines); }
    var o := new Order.New(id, built.value, allowPartial);
    if !releaseOnAllocation { o.heldAtIntake := true; }
    if deadline.Some? { o.requiredShipBy := deadline; }
    return Ok(o);
  }

  /** Save, then one event, in one transaction. A first insert keeps the version in memory. */
  method SaveThenPublish(scope: Scope, o: Order, e: Event, insert: bool) returns (plan: Plan, failure: Option<Failure>)
    requires scope.effects == []
    modifies scope`effects, o`version
    ensures plan == SaveAndPublish(old(o.State()), e, scope.env) && failure == WriteFailure(e, scope.env)
    ensures o.State() == if insert || !scope.env.saves then old(o.State()) else Bumped(old(o.State()))
  {
    var ok := scope.Save(o, insert);
    if !ok { return NOTHING, Some(SaveFailed); }
    ok := scope.Publish(e);
    if !ok { return Plan(scope.effects, Rollback), Some(PublishFailed); }
    return Plan(scope.effects, Commit), None;
  }

  method Intake(o: Order, env: Env) returns (plan: Plan, failure: Option<Failure>)
    modifies o`version
    ensures plan == IntakePlan(old(o.State()), env) && o.State() == old(o.State())
    ensures failure == WriteFailure(OrderReceived(o.id, |o.lines|), env)
  {
    var scope := new Scope(env);
    plan, failure := SaveThenPublish(scope, o, OrderReceived(o.id, |o.lines|), true);
  }

  method AllocateReceived(o: Order, releaseOnAllocation: bool, env: Env) returns (outcome: Outcome)
    requires o.Valid() && o.heldAtIntake == !releaseOnAllocation
    modifies o, o.lines`status, o.lines`reservationId
    ensures outcome == FirstPass(old(o.State()), env) && o.State() == outcome.order
  {
    var scope := new Scope(env);
    var pending := o.LinesWithStatus(Pending);
    outcome := RunPass(scope, o, pending, false, releaseOnAllocation);
  }

  /** Intake and the implicit first pass of a new order, in two transactions. The second runs only if
      the first committed, and its failure is not the caller's: the order is then read again (`rereads`:
      that succeeds), so that what comes back, if anything does, is the committed order. */
  method StoreAndAllocate(o: Order, releaseOnAllocation: bool, intake: Env, env: Env, rereads: bool)
    returns (r: Result<OrderState, UseCaseError>, first: Plan, second: Option<Plan>)
    requires o.Valid() && o.heldAtIntake == !releaseOnAllocation
    modifies o, o.lines`status, o.lines`reservationId
    ensures first == IntakePlan(old(o.State()), intake)
    ensures second == SecondPlan(old(o.State()), intake, env)
    ensures r == ReceiveResult(old(o.State()), intake, env, rereads)
  {
    var s := o.State();
    var failure: Option<Failure>;
    first, failure := Intake(o, intake);
    if failure.Some? { return Err(Failed(failure.value)), first, None; }
    var outcome := AllocateReceived(o, releaseOnAllocation, env);
    second := Some(PassPlan(outcome));
    ReturnedOrderIsCommitted(s, WithStatus(s.lines, Pending), false, !s.held, env);
    if outcome.reported.Some? {
      return if rereads then Ok(CommittedBy(s, outcome)) else Err(RereadFailed), first, second;
    }
    return Ok(o.State()), first, second;
  }

  function SecondPlan(s: OrderState, intake: Env, env: Env): Option<Plan> {
    if IntakePlan(s, intake).verdict == Commit then Some(PassPlan(FirstPass(s, env))) else None
  }

  /** What the caller gets: the committed order, or what kept the intake from committing, or the failure
      to read the order again after a failed pass. */
  function ReceiveResult(s: OrderState, intake: Env, env: Env, rereads: bool): Result<OrderState, UseCaseError> {
    match WriteFailure(OrderReceived(s.id, |s.lines|), intake)
    case Some(failure) => Err(Failed(failure))
    case None =>
      if FirstPass(s, env).reported.Some? && !rereads then Err(RereadFailed) else Ok(CommittedBy(s, FirstPass(s, env)))
  }

  method Receive(id: OrderId, goods: seq<NewLine>, routes: Routes, allowPartial: bool, releaseOnAllocation: bool,
      deadline: Option<Instant>, intake: Env, env: Env, rereads: bool)
    returns (r: Result<OrderState, UseCaseError>, first: Plan, second: Option<Plan>)
    ensures
      match Received(id, goods, routes, allowPartial, releaseOnAllocation, deadline)
      case Err(e) => r == Err(Invalid(e)) && first == NOTHING && second == None
      case Ok(s) => first == IntakePlan(s, intake) && second == SecondPlan(s, intake, env) && r == ReceiveResult(s, intake, env, rereads)
  {
    var made := NewOrderFor(id, goods, routes, allowPartial, releaseOnAllocation, deadline);
    if made.Err? { return Err(Invalid(made.error)), NOTHING, None; }
    r, first, second := StoreAndAllocate(made.value, releaseOnAllocation, intake, env, rereads);
  }

  /** What the caller gets under a key: the order in its row, read again in the same transaction if the
      pass has failed, or the failure of the intake. */
  function KeyedResult(s: OrderState, intake: Env, env: Env): Result<OrderState, UseCaseError> {
    if !IntakeEndsWell(s, intake) then Err(Failed(PublishFailed))
    else
      match FinalOrder(s, intake, env)
      case Some(stored) => Ok(stored)
      case None => Err(RereadFailed)
  }

  /** The same request when an idempotency key's transaction is open: both parts join it, and it commits
      whatever they have written. */
  method StoreAndAllocateKeyed(o: Order, releaseOnAllocation: bool, intake: Env, env: Env)
    returns (r: Result<OrderState, UseCaseError>, plan: Plan)
    requires o.Valid() && o.heldAtIntake == !releaseOnAllocation && AcceptedIntake(o.State())
    modifies o, o.lines`status, o.lines`reservationId
    ensures plan == KeyedPlan(old(o.State()), intake, env)
    ensures r == KeyedResult(old(o.State()), intake, env)
  {
    ghost var s := o.State();
    var first, failure := Intake(o, Unbroken(intake));
    if failure.Some? {
      RefusedKeyed(s, intake, env);
      return Err(Failed(failure.value)), Plan(first.effects, Commit);
    }
    var outcome := AllocateReceived(o, releaseOnAllocation, Unbroken(env));
    AcceptedKeyed(s, intake, env, outcome);
    plan := Plan(first.effects + outcome.effects, Commit);
    if outcome.reported.Some? { return RereadRow(plan.effects), plan; }
    return Ok(o.State()), plan;
  }

  /** What a read in the transaction finds in the row of the new order. */
  function RereadRow(effects: seq<Effect>): Result<OrderState, UseCaseError> {
    match AfterSaves(effects, None, |effects|)
    case Some(stored) => Ok(stored)
    case None => Err(RereadFailed)
  }

  lemma RefusedKeyed(s: OrderState, intake: Env, env: Env)
    requires WriteFailure(Receipt(s), Unbroken(intake)).Some?
    ensures KeyedPlan(s, intake, env) == Plan(IntakePlan(s, Unbroken(intake)).effects, Commit)
    ensures KeyedResult(s, intake, env) == Err(Failed(WriteFailure(Receipt(s), Unbroken(intake)).value))
  {
    IntakeWritesOnce(s, intake);
    RefusedIntakeStores(s, intake, env);
  }

  lemma AcceptedKeyed(s: OrderState, intake: Env, env: Env, outcome: Outcome)
    requires AcceptedIntake(s) && WriteFailure(Receipt(s), Unbroken(intake)).None? && outcome == KeyedPass(s, env)
    ensures KeyedPlan(s, intake, env) == Plan(IntakePlan(s, Unbroken(intake)).effects + outcome.effects, Commit)
    ensures KeyedResult(s, intake, env) == RereadRow(KeyedPlan(s, intake, env).effects)
    ensures outcome.reported.None? ==> KeyedResult(s, intake, env) == Ok(outcome.order)
  {
    IntakeWritesOnce(s, intake);
    var o := JoinedStores(s, intake, env);
    ReturnedOrderIsCommitted(s, WithStatus(s.lines, Pending), false, !s.held, Unbroken(env));
    if o.reported.None? {
      CommittedWithoutFailure(s, Unbroken(env), o);
    }
  }

  /** A pass that reports nothing commits. */
  lemma CommittedWithoutFailure(s: OrderState, env: Env, o: Outcome)
    requires AcceptedIntake(s) && o == FirstPass(s, env) && o.reported.None?
    ensures o.verdict == Commit
  {
  }

  method ReceiveKeyed(id: OrderId, goods: seq<NewLine>, routes: Routes, allowPartial: bool, releaseOnAllocation: bool,
      deadline: Option<Instant>, intake: Env, env: Env)
    returns (r: Result<OrderState, UseCaseError>, plan: Plan)
    ensures
      match Received(id, goods, routes, allowPartial, releaseOnAllocation, deadline)
      case Err(e) => r == Err(Invalid(e)) && plan == NOTHING
      case Ok(s) => plan == KeyedPlan(s, intake, env) && r == KeyedResult(s, intake, env)
  {
    var made := NewOrderFor(id, goods, routes, allowPartial, releaseOnAllocation, deadline);
    if made.Err? { return Err(Invalid(made.error)), NOTHING; }
    ReceivedStartsFresh(id, goods, routes, allowPartial, releaseOnAllocation, deadline);
    r, plan := StoreAndAllocateKeyed(made.value, releaseOnAllocation, intake, env);
  }

  /** What the caller of a request in two transactions is told: the error of the intake; else, whatever its
      first pass ran into, the order as it is then committed, unless it had to be read again and could not. */
  lemma ReceiveAnswers(s: OrderState, intake: Env, env: Env, rereads: bool)
    requires AcceptedIntake(s)
    ensures
      var o := FirstPass(s, env);
      var stores := if o.verdict == Commit then StoresOf(o.effects) else [];
      match ReceiveResult(s, intake, env, rereads)
      case Err(Failed(SaveFailed)) => !intake.saves
      case Err(Failed(PublishFailed)) => intake.saves && !intake.publishes(1, OrderReceived(s.id, |s.lines|))
      case Err(RereadFailed) =>
        intake.saves && intake.publishes(1, OrderReceived(s.id, |s.lines|)) && o.reported.Some? && !rereads
      case Err(_) => false
      case Ok(t) =>
        && intake.saves && intake.publishes(1, OrderReceived(s.id, |s.lines|)) && (o.reported.None? || rereads)
        && |stores| <= 1 && t == if stores == [] then s else stores[0].(version := stores[0].version + 1)
    ensures SecondPlan(s, intake, env).Some? <==> intake.saves && intake.publishes(1, OrderReceived(s.id, |s.lines|))
    ensures SecondPlan(s, intake, env).Some? ==> SecondPlan(s, intake, env).value == Plan(FirstPass(s, env).effects, FirstPass(s, env).verdict)
  {
    PassStoresOnce(s, env, FirstPass(s, env));
  }

  /** And under a key: the failure to publish the receipt; else the order as the request has committed it. */
  lemma KeyedAnswers(s: OrderState, intake: Env, env: Env) returns (more: seq<OrderState>)
    requires AcceptedIntake(s)
    ensures StoresOf(KeyedPlan(s, intake, env).effects) == [s] + more && |more| <= 1
    ensures
      KeyedResult(s, intake, env) ==
      if !intake.publishes(1, OrderReceived(s.id, |s.lines|)) then Err(Failed(PublishFailed))
      else Ok(if more == [] then s else more[0].(version := more[0].version + 1))
  {
    more := KeyedStores(s, intake, env);
  }

  // ---------------------------------------------------------------- retry, release, cancel

  method Retry(o: Order, env: Env) returns (plan: Plan, error: Option<UseCaseError>)
    requires o.Valid()
    modifies o, o.lines`status, o.lines`reservationId
    ensures plan == RetryPlan(old(o.State()), env)
    ensures error == RetryError(old(o.State()), env)
    ensures error == Some(NoBackorderedLines) ==> o.State() == old(o.State())
    ensures error == None ==> o.State() == CommittedBy(old(o.State()), RetryPass(old(o.State()), env))
  {
    var backordered := o.LinesWithStatus(Backordered);
    if |backordered| == 0 { return NOTHING, Some(NoBackorderedLines); }
    var scope := new Scope(env);
    ghost var s := o.State();
    ReturnedOrderIsCommitted(s, WithStatus(s.lines, Backordered), true, !s.held, env);
    var outcome := RunPass(scope, o, backordered, true, !o.heldAtIntake);
    return PassPlan(outcome), Reported(outcome);
  }

  /** An order that was never held is refused before the already-released case is looked at. */
  method ReleaseHeld(o: Order, env: Env) returns (plan: Plan, error: Option<UseCaseError>)
    requires o.Valid()
    modifies o, o.lines`status, o.lines`reservationId
    ensures plan == HeldPlan(old(o.State()), env)
    ensures error == HeldError(old(o.State()), env)
    ensures plan == NOTHING ==> o.State() == old(o.State()) || error.Some?
    ensures error == None && plan != NOTHING ==> o.State() == CommittedBy(old(o.State()), HeldPass(old(o.State()), env))
  {
    if !o.heldAtIntake { return NOTHING, Some(OrderNotHeld); }
    var held := o.LinesWithStatus(Allocated);
    if |held| == 0 { return NOTHING, None; }
    var scope := new Scope(env);
    ghost var s := o.State();
    ReturnedOrderIsCommitted(s, [], false, true, env);
    var outcome := RunPass(scope, o, [], false, true);
    return PassPlan(outcome), Reported(outcome);
  }

  /** The release boundary is checked before any reservation is given back, and a reservation that
      cannot be given back leaves the order as it is. */
  method Cancel(o: Order, env: Env) returns (plan: Plan, error: Option<UseCaseError>)
    requires o.Valid()
    modifies o`version, o.lines`status, o.lines`reservationId
    ensures plan == CancelPlan(old(o.State()), env)
    ensures error == CancelError(old(o.State()), env)
    ensures error == Some(Invalid(OrderAlreadyReleased)) || error == Some(RevokeFailed) ==> o.State() == old(o.State())
    ensures error == None ==> o.State() == Bumped(CancelOrder(old(o.State())).value)
  {
    var ok := o.EnsureCancellable();
    if !ok { return NOTHING, Some(Invalid(OrderAlreadyReleased)); }
    var ids := o.AllocatedReservationIDs();
    for i := 0 to |ids|
      invariant RevokesAll(ids, i, env)
    {
      if !env.revokes(ids[i]) {
        RefusedStops(ids, i + 1, |ids|, env);
        return NOTHING, Some(RevokeFailed);
      }
    }
    var refused := o.Cancel();
    var scope := new Scope(env);
    var failure: Option<Failure>;
    plan, failure := SaveThenPublish(scope, o, OrderCancelled(o.id, |ids|), false);
    error := if failure.Some? then Some(Failed(failure.value)) else None;
  }

  lemma {:induction false} RefusedStops(ids: seq<string>, i: nat, k: nat, env: Env)
    requires i <= k <= |ids| && !RevokesAll(ids, i, env)
    ensures !RevokesAll(ids, k, env)
  {
    if i < k {
      RefusedStops(ids, i, k - 1, env);
    }
  }

  // ---------------------------------------------------------------- repromise

  method GroupOf(groups: seq<PromiseGroup>, lineNo: int) returns (r: Option<PromiseGroup>)
    ensures r == GroupContaining(groups, lineNo, 0)
  {
    var i := 0;
    while i < |groups|
      invariant i <= |groups| && GroupContaining(groups, lineNo, 0) == GroupContaining(groups, lineNo, i)
    {
      for j := 0 to |groups[i].lineNos|
        invariant lineNo !in groups[i].lineNos[..j]
      {
        if groups[i].lineNos[j] == lineNo { return Some(groups[i]); }
      }
      i := i + 1;
    }
    return None;
  }

  method FindRewrite(o: Order, lineNo: int, env: Env) returns (r: Option<Rewrite>)
    ensures r == RewriteFor(o.State(), lineNo, env)
  {
    var current := GroupOf(o.promiseGroups, lineNo);
    if current.None? { return None; }
    var groups := ComputePromiseGroups(env.policy, env.now, o.State());
    if groups.None? { return None; }
    var renewed := GroupOf(groups.value, lineNo);
    if renewed.None? { return None; }
    var was, now := current.value.promise, renewed.value.promise;
    if was.cptId == now.cptId && was.basis == now.basis && was.cutoffAt == now.cutoffAt { return None; }
    return Some(Rewrite(groups.value, was, now));
  }

  /** Rewrites the promise only if the line's group has really moved. */
  method Repromise(o: Order, lineNo: int, reason: string, env: Env) returns (plan: Plan, failure: Option<Failure>)
    requires o.Valid()
    modifies o
    ensures plan == RepromisePlan(old(o.State()), lineNo, reason, env)
    ensures failure.None? <==> plan.verdict == Commit
  {
    var r := FindRewrite(o, lineNo, env);
    if r.None? { return Plan([], Commit), None; }
    o.SetPromiseGroups(r.value.groups);
    var scope := new Scope(env);
    plan, failure := SaveThenPublish(scope, o, OrderRepromised(o.id, r.value.was.cptId, r.value.now.cptId, reason), false);
  }
}
