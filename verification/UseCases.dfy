/** The five use cases that change orders, each as the writes its transaction makes: which order it
    stores, which events it appends to the outbox, and whether it commits. */
module UseCases {
  import opened Wrappers
  import opened Orders
  import opened PromisePolicies
  import opened Allocation

  /** A requested line; an empty path asks for one to be chosen. */
  datatype NewLine = NewLine(sku: SKU, quantity: int, pathId: PathId, giftWrap: bool)

  /** What the catalogue says at intake: the path chosen for a line, if any may take it, and whether a
      path is active. Without a catalogue every path is. */
  datatype Routes = Routes(select: NewLine -> Option<PathId>, active: PathId -> bool)

  datatype Job =
    | Receive(id: OrderId, goods: seq<NewLine>, routes: Routes, allowPartial: bool, releaseOnAllocation: bool,
        deadline: Option<Instant>, intake: Env, env: Env)
    | Retry(id: OrderId, env: Env)
    | ReleaseHeld(id: OrderId, env: Env)
    | CancelIt(id: OrderId, env: Env)
    | Repromise(id: OrderId, eventId: string, lineNo: int, reason: string, env: Env)

  /** The writes of one transaction, in order, and how it ends. */
  datatype Plan = Plan(effects: seq<Effect>, verdict: Verdict)

  /** Only the order with that id is saved, at that version. */
  ghost predicate SavesUnder(effects: seq<Effect>, id: OrderId, version: int) {
    forall o :: Store(o) in effects ==> o.id == id && o.version == version
  }

  /** What the first `k` writes of a transaction leave in the row of its order: a new order is inserted
      by the first save, and every other save updates. */
  function AfterSaves(effects: seq<Effect>, base: Option<OrderState>, k: nat): Option<OrderState>
    requires k <= |effects|
  {
    if k == 0 then None
    else
      var before := AfterSaves(effects, base, k - 1);
      match effects[k - 1]
      case Emit(_) => before
      case Store(o) => Some(if base.None? && before.None? then o else Bumped(o))
  }

  /** No transaction is opened, or one without writes is abandoned. */
  const NOTHING := Plan([], Rollback)

  // ---------------------------------------------------------------- intake

  /** A path must be found before the line is looked at, and must be active once it is well-formed. */
  function BuildLine(lineNo: int, g: NewLine, routes: Routes): Result<Line, OrderError> {
    match if g.pathId == "" then routes.select(g) else Some(g.pathId)
    case None => Err(LineIneligibleForResolvedPath)
    case Some(path) =>
      match NewOrderLine(lineNo, g.(pathId := path))
      case Err(e) => Err(e)
      case Ok(l) => if routes.active(l.pathId) then Ok(l) else Err(UnknownProcessPath)
  }

  function NewOrderLine(lineNo: int, g: NewLine): Result<Line, OrderError> {
    if g.sku == "" then Err(EmptySKU)
    else if g.quantity <= 0 then Err(NonPositiveQuantity)
    else Ok(Line(lineNo, g.sku, g.quantity, if g.pathId == "" then DEFAULT_PATH_ID else g.pathId, g.giftWrap, Pending, None))
  }

  /** The lines of the first `k` requests, or the error of the first bad one. */
  function BuildLines(goods: seq<NewLine>, k: nat, routes: Routes): Result<seq<Line>, OrderError>
    requires k <= |goods|
  {
    if k == 0 then Ok([])
    else
      match BuildLines(goods, k - 1, routes)
      case Err(e) => Err(e)
      case Ok(lines) =>
        match BuildLine(k, goods[k - 1], routes)
        case Err(e) => Err(e)
        case Ok(l) => Ok(lines + [l])
  }

  /** The order an accepted request creates; a rejected request leaves no trace. */
  function Received(id: OrderId, goods: seq<NewLine>, routes: Routes, allowPartial: bool, releaseOnAllocation: bool,
      deadline: Option<Instant>)
    : Result<OrderState, OrderError>
  {
    if !IntakeIntentValid(allowPartial, releaseOnAllocation) then Err(HeldOrderMustBeShipComplete)
    else
      match BuildLines(goods, |goods|, routes)
      case Err(e) => Err(e)
      case Ok(lines) =>
        match NewOrder(id, lines, allowPartial)
        case Err(e) => Err(e)
        case Ok(s) => Ok(s.(held := !releaseOnAllocation, requiredShipBy := deadline))
  }

  /** Save, then publish one event; either failure rolls the transaction back. */
  function SaveAndPublish(s: OrderState, e: Event, env: Env): Plan {
    if !env.saves then NOTHING
    else if env.publishes(1, e) then Plan([Store(s), Emit(e)], Commit)
    else Plan([Store(s)], Rollback)
  }

  function IntakePlan(s: OrderState, env: Env): Plan {
    SaveAndPublish(s, OrderReceived(s.id, |s.lines|), env)
  }

  function PassPlan(o: Outcome): Plan {
    Plan(o.effects, o.verdict)
  }

  /** The implicit allocation of an order that has just been received. */
  function FirstPass(s: OrderState, env: Env): Outcome {
    AllocateAndRelease(s, WithStatus(s.lines, Pending), false, !s.held, env)
  }

  /** A save of a row that the same transaction has inserted meets the version it expects, so that it
      fails only with its statement, and then the transaction fails too. */
  function Unbroken(env: Env): Env {
    env.(saves := true)
  }

  /** Receiving under an idempotency key: intake and first pass write in the one transaction of the key,
      which commits with every response, error responses included. So whatever was written before
      something failed is committed, unless a statement fails, which ends the transaction. */
  function KeyedPlan(s: OrderState, intake: Env, env: Env): Plan {
    var first := IntakePlan(s, Unbroken(intake));
    Plan(first.effects + (if first.verdict == Commit then FirstPass(s, Unbroken(env)).effects else []), Commit)
  }

  // ---------------------------------------------------------------- the jobs on a stored order

  function RetryPass(s: OrderState, env: Env): Outcome {
    AllocateAndRelease(s, WithStatus(s.lines, Backordered), true, !s.held, env)
  }

  function RetryPlan(s: OrderState, env: Env): Plan {
    if WithStatus(s.lines, Backordered) == [] then NOTHING else PassPlan(RetryPass(s, env))
  }

  function HeldPass(s: OrderState, env: Env): Outcome {
    AllocateAndRelease(s, [], false, true, env)
  }

  function HeldPlan(s: OrderState, env: Env): Plan {
    if !s.held || WithStatus(s.lines, Allocated) == [] then NOTHING else PassPlan(HeldPass(s, env))
  }

  /** Whether inventory-storage takes back the first `k` reservations. */
  function RevokesAll(ids: seq<string>, k: nat, env: Env): bool
    requires k <= |ids|
  {
    k == 0 || (RevokesAll(ids, k - 1, env) && env.revokes(ids[k - 1]))
  }

  function CancelPlan(s: OrderState, env: Env): Plan {
    var ids := AllocatedReservationIds(s.lines);
    if !Cancellable(s) || !RevokesAll(ids, |ids|, env) then NOTHING
    else SaveAndPublish(CancelOrder(s).value, OrderCancelled(s.id, |ids|), env)
  }

  /** The first group that lists the line. */
  function GroupContaining(groups: seq<PromiseGroup>, lineNo: int, from: nat): (r: Option<PromiseGroup>)
    requires from <= |groups|
    ensures r.Some? ==> lineNo in r.value.lineNos && r.value in groups
    ensures r.None? ==> forall j :: from <= j < |groups| ==> lineNo !in groups[j].lineNos
    decreases |groups| - from
  {
    if from == |groups| then None
    else if lineNo in groups[from].lineNos then Some(groups[from])
    else GroupContaining(groups, lineNo, from + 1)
  }

  datatype Rewrite = Rewrite(groups: seq<PromiseGroup>, was: Promise, now: Promise)

  /** The new groups, if the line still has a group, would have one again, and its promise moved. */
  function RewriteFor(s: OrderState, lineNo: int, env: Env): Option<Rewrite> {
    match GroupContaining(s.promiseGroups, lineNo, 0)
    case None => None
    case Some(current) =>
      match PromiseGroupsOf(env.policy, env.now, s)
      case None => None
      case Some(groups) =>
        match GroupContaining(groups, lineNo, 0)
        case None => None
        case Some(renewed) =>
          if current.promise == renewed.promise then None else Some(Rewrite(groups, current.promise, renewed.promise))
  }

  /** Every soft failure commits the processed mark and writes nothing else. */
  function RepromisePlan(s: OrderState, lineNo: int, reason: string, env: Env): Plan {
    match RewriteFor(s, lineNo, env)
    case None => Plan([], Commit)
    case Some(r) =>
      SaveAndPublish(WithPromiseGroups(s, r.groups), OrderRepromised(s.id, r.was.cptId, r.now.cptId, reason), env)
  }

  // ---------------------------------------------------------------- what the caller is told

  datatype UseCaseError =
    | Invalid(error: OrderError)
    | NoBackorderedLines
    | OrderNotHeld
    | RevokeFailed
    | RereadFailed
    | Failed(failure: Failure)

  /** What `SaveAndPublish` reports. */
  function WriteFailure(e: Event, env: Env): Option<Failure> {
    if !env.saves then Some(SaveFailed) else if env.publishes(1, e) then None else Some(PublishFailed)
  }

  function Reported(o: Outcome): Option<UseCaseError> {
    match o.reported
    case None => None
    case Some(failure) => Some(Failed(failure))
  }

  /** Unlike an intake, a retry hands the failure of its pass on, even when the pass commits. */
  function RetryError(s: OrderState, env: Env): Option<UseCaseError> {
    if WithStatus(s.lines, Backordered) == [] then Some(NoBackorderedLines) else Reported(RetryPass(s, env))
  }

  /** An order that was never held is refused; one that has been released already is a success. */
  function HeldError(s: OrderState, env: Env): Option<UseCaseError> {
    if !s.held then Some(OrderNotHeld)
    else if WithStatus(s.lines, Allocated) == [] then None
    else Reported(HeldPass(s, env))
  }

  function CancelError(s: OrderState, env: Env): Option<UseCaseError> {
    var ids := AllocatedReservationIds(s.lines);
    if !Cancellable(s) then Some(Invalid(OrderAlreadyReleased))
    else if !RevokesAll(ids, |ids|, env) then Some(RevokeFailed)
    else
      match WriteFailure(OrderCancelled(s.id, |ids|), env)
      case None => None
      case Some(failure) => Some(Failed(failure))
  }

  /** What a job does with the order it has loaded. */
  function PlanOf(job: Job, s: OrderState): Plan {
    match job
    case Receive(_, _, _, _, _, _, _, env) => PassPlan(FirstPass(s, env))
    case Retry(_, env) => RetryPlan(s, env)
    case ReleaseHeld(_, env) => HeldPlan(s, env)
    case CancelIt(_, env) => CancelPlan(s, env)
    case Repromise(_, _, lineNo, reason, env) => RepromisePlan(s, lineNo, reason, env)
  }

  /** How a job begins: it creates an order, or loads one (after claiming its source event, for a
      repromise), or is refused before it touches anything. `keyed`: requests to receive run in the
      transaction of their idempotency key, as they do with a database; intake and first pass then are
      one transaction, otherwise two. */
  datatype Start =
    | Refuse
    | Create(order: OrderState, first: Plan, goesOn: bool)
    | Load(id: OrderId, mark: Option<string>)

  function StartOf(job: Job, keyed: bool): Start {
    match job
    case Receive(id, goods, routes, allowPartial, releaseOnAllocation, deadline, intake, env) =>
      (match Received(id, goods, routes, allowPartial, releaseOnAllocation, deadline)
       case Err(_) => Refuse
       case Ok(s) => if keyed then Create(s, KeyedPlan(s, intake, env), false) else Create(s, IntakePlan(s, intake), true))
    case Repromise(id, eventId, _, _, _) => Load(id, Some(eventId))
    case Retry(id, _) => Load(id, None)
    case ReleaseHeld(id, _) => Load(id, None)
    case CancelIt(id, _) => Load(id, None)
  }
}
