/** The shared allocation-and-release pass as a function: given the order it starts from and every
    answer the outside world gives, what it writes, in which order, and how it ends. */
module Allocation {
  import opened Wrappers
  import opened Orders
  import opened PromisePolicies

  /** What inventory-storage says to one reservation request. Only `NoStock` is a business fact. */
  datatype Answer = Granted(reservationId: string) | NoStock | Unavailable(cause: string)

  datatype FulfillmentClass = Single | SameSkuMulti | MultiLineMulti

  datatype ReleasedLine = ReleasedLine(
    lineNo: int,
    sku: SKU,
    pathId: PathId,
    giftWrap: bool,
    fulfillmentClass: FulfillmentClass,
    promise: Option<Promise>)

  datatype PromiseSummary = PromiseSummary(date: Option<Instant>, cptId: Option<string>, basis: Option<Basis>)

  datatype Event =
    | OrderReceived(orderId: OrderId, lineCount: int)
    | OrderLineAllocated(orderId: OrderId, lineNo: int, sku: SKU, quantity: int, reservationId: string)
    | OrderLineBackordered(orderId: OrderId, lineNo: int, sku: SKU, quantity: int)
    | OrderAllocated(orderId: OrderId, promise: PromiseSummary, lines: seq<ReleasedLine>)
    | OrderPartiallyAllocated(orderId: OrderId, nAllocated: int, nBackordered: int, promise: PromiseSummary, lines: seq<ReleasedLine>)
    | OrderAllocationPartiallyFailed(orderId: OrderId, nAllocated: int, remaining: int, cause: string)
    | OrderCancelled(orderId: OrderId, nReservations: int)
    | OrderRepromised(orderId: OrderId, previousCptId: string, newCptId: string, reason: string)

  /** The two kinds of writes a use case makes in its transaction. */
  datatype Effect = Store(order: OrderState) | Emit(event: Event)

  datatype Failure =
    | Domain(error: OrderError)
    | Upstream(cause: string)
    | PublishFailed
    | SaveFailed
    | Joined(first: Failure, second: Failure)

  /** Every answer a use case can get. A pass asks about a line at most once (ReserveIsAskedOnce), and
      no two of its publishes come after the same number of writes, so one answer per line number, and
      one per event and number of writes before it, is general. */
  datatype Env = Env(
    reserve: int -> Answer,
    revokes: string -> bool,
    publishes: (nat, Event) -> bool,
    saves: bool,
    describe: Failure -> string,
    policy: Policy,
    now: Instant)

  // ---------------------------------------------------------------- reserving line by line

  /** What a pass has done so far. */
  datatype Progress = Progress(
    order: OrderState,
    effects: seq<Effect>,
    asked: seq<int>,
    nAllocated: nat,
    nBackordered: nat,
    failure: Option<Failure>)

  function Begin(s: OrderState): Progress {
    Progress(s, [], [], 0, 0, None)
  }

  function Announce(a: Progress, e: Event, env: Env): Progress {
    if env.publishes(|a.effects|, e) then a.(effects := a.effects + [Emit(e)]) else a.(failure := Some(PublishFailed))
  }

  function Ask(a: Progress, l: Line): Progress {
    a.(asked := a.asked + [l.lineNo])
  }

  function BackorderedEvent(s: OrderState, l: Line): Event {
    OrderLineBackordered(s.id, l.lineNo, l.sku, l.quantity)
  }

  /** Moves a line, counts it, and tells the world; a move the aggregate refuses fails the pass. */
  function MoveAndTell(a: Progress, lineNo: int, m: Move, nAllocated: nat, nBackordered: nat, e: Event, env: Env): Progress {
    match ApplyMove(a.order, lineNo, m)
    case Err(error) => a.(failure := Some(Domain(error)))
    case Ok(s) => Announce(a.(order := s, nAllocated := nAllocated, nBackordered := nBackordered), e, env)
  }

  function AllocatedEvent(s: OrderState, l: Line, rid: string): Event {
    OrderLineAllocated(s.id, l.lineNo, l.sku, l.quantity, rid)
  }

  /** The three answers: only a refusal for lack of stock is a fact about the line. */
  function Answered(a: Progress, l: Line, answer: Answer, retry: bool, env: Env): Progress {
    match answer
    case NoStock =>
      MoveAndTell(a, l.lineNo, MarkBackordered, a.nAllocated, a.nBackordered + 1, BackorderedEvent(a.order, l), env)
    case Unavailable(cause) => a.(failure := Some(Upstream(cause)))
    case Granted(rid) =>
      MoveAndTell(a, l.lineNo, if retry then RetryAllocate(rid) else Allocate(rid), a.nAllocated + 1, a.nBackordered,
        AllocatedEvent(a.order, l, rid), env)
  }

  function AllocateOne(a: Progress, l: Line, retry: bool, env: Env): Progress {
    Answered(Ask(a, l), l, env.reserve(l.lineNo), retry, env)
  }

  /** The pass over the first `k` of the given lines; it stops at the first failure. */
  function AllocateLines(s: OrderState, lines: seq<Line>, k: nat, retry: bool, env: Env): Progress
    requires k <= |lines|
  {
    if k == 0 then Begin(s)
    else
      var a := AllocateLines(s, lines, k - 1, retry, env);
      if a.failure.Some? then a else AllocateOne(a, lines[k - 1], retry, env)
  }

  function ReconfirmOne(a: Progress, l: Line, justReserved: seq<int>, env: Env): Progress {
    if l.lineNo in justReserved then a
    else
      var a := Ask(a, l);
      match env.reserve(l.lineNo)
      case Granted(rid) =>
        (match ApplyMove(a.order, l.lineNo, Reconfirm(rid))
         case Err(e) => a.(failure := Some(Domain(e)))
         case Ok(s) => a.(order := s))
      case NoStock =>
        MoveAndTell(a, l.lineNo, LoseReservation, a.nAllocated, a.nBackordered + 1, BackorderedEvent(a.order, l), env)
      case Unavailable(cause) => a.(failure := Some(Upstream(cause)))
  }

  /** Re-reserves the first `k` of the given allocated lines, except those this pass has just reserved. */
  function ReconfirmLines(a: Progress, lines: seq<Line>, k: nat, justReserved: seq<int>, env: Env): Progress
    requires k <= |lines|
  {
    if k == 0 then a
    else
      var b := ReconfirmLines(a, lines, k - 1, justReserved, env);
      if b.failure.Some? then b else ReconfirmOne(b, lines[k - 1], justReserved, env)
  }

  // ---------------------------------------------------------------- promising

  function SetPromiseDate(s: OrderState, env: Env): OrderState {
    match s.requiredShipBy
    case Some(deadline) =>
      (match FeasibleBy(env.policy, env.now, s, deadline)
       case None => s
       case Some(p) => WithPromiseGroups(s, [PromiseGroup(LineNos(WithStatus(s.lines, Allocated)), p)]))
    case None =>
      (match PromiseGroupsOf(env.policy, env.now, s)
       case None => s
       case Some(groups) => WithPromiseGroups(s, groups))
  }

  /** The promise attributed to a line: that of the last group that lists it. */
  function GroupPromise(groups: seq<PromiseGroup>, lineNo: int): Option<Promise> {
    if groups == [] then None
    else
      var n := |groups| - 1;
      if lineNo in groups[n].lineNos then Some(groups[n].promise) else GroupPromise(groups[..n], lineNo)
  }

  // ---------------------------------------------------------------- releasing

  function Classify(lines: seq<Line>): FulfillmentClass {
    if |lines| == 1 then if lines[0].quantity == 1 then Single else SameSkuMulti
    else MultiLineMulti
  }

  function Describe(s: OrderState, l: Line): ReleasedLine {
    ReleasedLine(l.lineNo, l.sku, l.pathId, l.giftWrap, Classify(s.lines), GroupPromise(s.promiseGroups, l.lineNo))
  }

  datatype Releasing = Releasing(order: OrderState, released: seq<ReleasedLine>, failure: Option<OrderError>)

  function ReleaseOne(r: Releasing, l: Line, report: ReleasedLine): Releasing {
    match ApplyMove(r.order, l.lineNo, Release)
    case Err(e) => Releasing(r.order, [], Some(e))
    case Ok(t) => Releasing(t, r.released + [report], None)
  }

  /** Releases the first `k` of the given lines of `s`. */
  function ReleaseLines(s: OrderState, lines: seq<Line>, k: nat): Releasing
    requires k <= |lines|
  {
    if k == 0 then Releasing(s, [], None)
    else
      var r := ReleaseLines(s, lines, k - 1);
      if r.failure.Some? then r else ReleaseOne(r, lines[k - 1], Describe(s, lines[k - 1]))
  }

  function ReleaseAllocatedLines(s: OrderState): Releasing {
    var lines := WithStatus(s.lines, Allocated);
    if !Releasable(s) then Releasing(s, [], None) else ReleaseLines(s, lines, |lines|)
  }

  // ---------------------------------------------------------------- the pass

  datatype Verdict = Commit | Rollback

  /** How a pass ends: the order in memory, the writes it made, and whether its transaction commits.
      `reported` is the failure its caller sees, which may come with a commit. */
  datatype Outcome = Outcome(
    order: OrderState,
    effects: seq<Effect>,
    asked: seq<int>,
    nAllocated: nat,
    nBackordered: nat,
    verdict: Verdict,
    reported: Option<Failure>)

  function Ended(a: Progress, verdict: Verdict, reported: Option<Failure>): Outcome {
    Outcome(a.order, a.effects, a.asked, a.nAllocated, a.nBackordered, verdict, reported)
  }

  function Bumped(s: OrderState): OrderState {
    s.(version := s.version + 1)
  }

  /** A successful save writes the order and moves the in-memory version along. */
  function Saved(a: Progress): Progress {
    a.(order := Bumped(a.order), effects := a.effects + [Store(a.order)])
  }

  function Summary(s: OrderState): PromiseSummary {
    PromiseSummary(s.promiseDate, s.promiseCptId, s.promiseBasis)
  }

  /** The order-level event that matches the derived status; silent when nothing happened. */
  function OutcomeEvent(s: OrderState, nAllocated: nat, nBackordered: nat, released: seq<ReleasedLine>): Option<Event> {
    if nAllocated == 0 && nBackordered == 0 && released == [] then None
    else
      var st := StatusOf(s);
      if st == StatusAllocated || st == StatusReleased then Some(OrderAllocated(s.id, Summary(s), released))
      else if st == StatusPartiallyAllocated || st == StatusPartiallyReleased then
        Some(OrderPartiallyAllocated(s.id, nAllocated, nBackordered, Summary(s), released))
      else None
  }

  /** Save once, then publish the order-level outcome. */
  function Conclude(a: Progress, released: seq<ReleasedLine>, env: Env): Outcome {
    if !env.saves then Ended(a, Rollback, Some(SaveFailed))
    else
      var b := Saved(a);
      match OutcomeEvent(b.order, b.nAllocated, b.nBackordered, released)
      case None => Ended(b, Commit, None)
      case Some(e) =>
        if env.publishes(|b.effects|, e) then Ended(b.(effects := b.effects + [Emit(e)]), Commit, None)
        else Ended(b, Rollback, Some(PublishFailed))
  }

  const MAX_CAUSE_LEN := 500

  function TruncateCause(s: string): (r: string)
    ensures |s| <= MAX_CAUSE_LEN ==> r == s
    ensures |s| > MAX_CAUSE_LEN ==> |r| == MAX_CAUSE_LEN + 1 && r[..MAX_CAUSE_LEN] <= s && r[MAX_CAUSE_LEN] == '\U{2026}'
  {
    if |s| <= MAX_CAUSE_LEN then s else s[..MAX_CAUSE_LEN] + ['\U{2026}']
  }

  /** The cut text is one character longer than the limit that its documentation names, and so is that of
      every text over the limit: the ellipsis comes on top. */
  lemma CutIsTooLongIff(s: string)
    ensures |TruncateCause(s)| > MAX_CAUSE_LEN <==> |s| > MAX_CAUSE_LEN
    ensures |TruncateCause(seq(MAX_CAUSE_LEN + 1, _ => 'x'))| == MAX_CAUSE_LEN + 1
  {
    assert |seq(MAX_CAUSE_LEN + 1, _ => 'x')| == MAX_CAUSE_LEN + 1;
  }

  function PartialFailure(s: OrderState, nAllocated: nat, failure: Failure, env: Env): Event {
    OrderAllocationPartiallyFailed(s.id, nAllocated, |WithStatus(s.lines, Pending)|, TruncateCause(env.describe(failure)))
  }

  function SaveAndReport(a: Progress, failure: Failure, env: Env): Outcome {
    if !env.saves then Ended(a, Rollback, Some(Joined(failure, SaveFailed)))
    else
      var b := Saved(a);
      var e := PartialFailure(b.order, b.nAllocated, failure, env);
      if env.publishes(|b.effects|, e) then Ended(b.(effects := b.effects + [Emit(e)]), Commit, Some(failure))
      else Ended(b, Rollback, Some(Joined(failure, PublishFailed)))
  }

  /** Keeps what was genuinely reserved before a hard failure; the failure itself is only reported. */
  function Salvage(a: Progress, failure: Failure, env: Env): Outcome {
    SaveAndReport(a.(order := SetPromiseDate(a.order, env)), failure, env)
  }

  /** Reconfirm, then either record the loss of a ship-complete order or release what may go. */
  function ReleaseLeg(a: Progress, justReserved: seq<int>, env: Env): Outcome {
    var lines := WithStatus(a.order.lines, Allocated);
    var b := ReconfirmLines(a, lines, |lines|, justReserved, env);
    if b.failure.Some? then Ended(b, Rollback, b.failure)
    else if b.nBackordered > a.nBackordered && !a.order.allowPartial then Conclude(b, [], env)
    else
      var r := ReleaseAllocatedLines(b.order);
      if r.failure.Some? then Ended(b.(order := r.order), Rollback, Some(Domain(r.failure.value)))
      else Conclude(b.(order := r.order), r.released, env)
  }

  function AllocateAndRelease(s: OrderState, lines: seq<Line>, retry: bool, releaseOnAllocation: bool, env: Env): Outcome {
    var a := AllocateLines(s, lines, |lines|, retry, env);
    if a.failure.Some? then
      if a.nAllocated > 0 then Salvage(a, a.failure.value, env) else Ended(a, Commit, a.failure)
    else
      var b := a.(order := SetPromiseDate(a.order, env));
      if !releaseOnAllocation then Conclude(b, [], env) else ReleaseLeg(b, LineNos(lines), env)
  }
}
