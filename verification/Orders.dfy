/** The Order aggregate as a value: its state, the moves a line can make, the derived status
    and the projection of promise groups onto the summary fields. The class that changes these
    fields in place is in OrderAggregate.dfy; its methods are proved against the functions here. */
module Orders {
  import opened Wrappers

  type OrderId = string
  type SKU = string
  type PathId = string
  type Instant = int
  type Duration = int

  /** The process path of a line that names none. */
  const DEFAULT_PATH_ID: PathId := "pick"

  datatype LineStatus = Pending | Allocated | Backordered | Released | Cancelled

  datatype Status =
    | StatusReceived
    | StatusAllocated
    | StatusPartiallyAllocated
    | StatusBackordered
    | StatusReleased
    | StatusPartiallyReleased
    | StatusCancelled

  datatype Basis = Capability | LeadTime | Network

  datatype Promise = Promise(cptId: string, cutoffAt: Instant, basis: Basis)

  datatype PromiseGroup = PromiseGroup(lineNos: seq<int>, promise: Promise)

  datatype Line = Line(
    lineNo: int,
    sku: SKU,
    quantity: int,
    pathId: PathId,
    giftWrap: bool,
    status: LineStatus,
    reservationId: Option<string>)

  datatype OrderState = OrderState(
    id: OrderId,
    lines: seq<Line>,
    allowPartial: bool,
    promiseDate: Option<Instant>,
    promiseCptId: Option<string>,
    promiseBasis: Option<Basis>,
    promiseGroups: seq<PromiseGroup>,
    held: bool,
    requiredShipBy: Option<Instant>,
    version: int)

  datatype OrderError =
    | EmptyOrderId
    | NoLines
    | LineNotFound
    | LineAlreadyAllocated
    | LineNotPending
    | LineNotBackordered
    | LineNotAllocated
    | OrderAlreadyReleased
    | ShipCompleteBlocked
    | HeldOrderMustBeShipComplete
    | EmptySKU
    | NonPositiveQuantity
    | LineIneligibleForResolvedPath
    | UnknownProcessPath

  // ---------------------------------------------------------------- line moves

  /** The six transitions of a single line. */
  datatype Move =
    | Allocate(reservationId: string)
    | RetryAllocate(reservationId: string)
    | Reconfirm(reservationId: string)
    | LoseReservation
    | MarkBackordered
    | Release

  function MoveLine(l: Line, m: Move): Result<Line, OrderError> {
    match m
    case Allocate(rid) =>
      if l.status == Allocated then Err(LineAlreadyAllocated)
      else if l.status == Pending then Ok(l.(status := Allocated, reservationId := Some(rid)))
      else Err(LineNotPending)
    case RetryAllocate(rid) =>
      if l.status == Backordered then Ok(l.(status := Allocated, reservationId := Some(rid)))
      else Err(LineNotBackordered)
    case Reconfirm(rid) =>
      if l.status == Allocated then Ok(l.(reservationId := Some(rid)))
      else Err(LineNotAllocated)
    case LoseReservation =>
      if l.status == Allocated then Ok(l.(status := Backordered, reservationId := None))
      else Err(LineNotAllocated)
    case MarkBackordered =>
      if l.status == Pending || l.status == Backordered then Ok(l.(status := Backordered))
      else if l.status == Allocated then Err(LineAlreadyAllocated)
      else Err(LineNotPending)
    case Release =>
      if l.status == Allocated then Ok(l.(status := Released))
      else Err(LineNotAllocated)
  }

  /** The position of the first line numbered `lineNo`, or the number of lines. */
  function IndexFrom(lines: seq<Line>, lineNo: int, from: nat): (i: nat)
    requires from <= |lines|
    ensures from <= i <= |lines|
    ensures i < |lines| ==> lines[i].lineNo == lineNo
    ensures forall k :: from <= k < i ==> lines[k].lineNo != lineNo
    decreases |lines| - from
  {
    if from == |lines| || lines[from].lineNo == lineNo then from
    else IndexFrom(lines, lineNo, from + 1)
  }

  function ApplyMove(s: OrderState, lineNo: int, m: Move): Result<OrderState, OrderError> {
    var i := IndexFrom(s.lines, lineNo, 0);
    if i == |s.lines| then Err(LineNotFound)
    else
      match MoveLine(s.lines[i], m)
      case Ok(l) => Ok(s.(lines := s.lines[i := l]))
      case Err(e) => Err(e)
  }

  // ---------------------------------------------------------------- whole-order moves

  predicate AllLines(lines: seq<Line>, st: LineStatus) {
    forall i :: 0 <= i < |lines| ==> lines[i].status == st
  }

  predicate AnyLine(lines: seq<Line>, st: LineStatus) {
    exists i :: 0 <= i < |lines| && lines[i].status == st
  }

  /** BR3: a ship-complete order may release only when every line is allocated or released. */
  predicate Releasable(s: OrderState) {
    s.allowPartial || forall i :: 0 <= i < |s.lines| ==> s.lines[i].status in {Allocated, Released}
  }

  /** BR6. */
  predicate Cancellable(s: OrderState) {
    !AnyLine(s.lines, Released)
  }

  function CancelLines(lines: seq<Line>): (r: seq<Line>)
    ensures |r| == |lines|
  {
    seq(|lines|, i requires 0 <= i < |lines| => lines[i].(status := Cancelled))
  }

  function CancelOrder(s: OrderState): Result<OrderState, OrderError> {
    if Cancellable(s) then Ok(s.(lines := CancelLines(s.lines))) else Err(OrderAlreadyReleased)
  }

  /** The lines in a given status, in line order. */
  function WithStatus(lines: seq<Line>, st: LineStatus): seq<Line> {
    if lines == [] then []
    else
      var n := |lines| - 1;
      WithStatus(lines[..n], st) + (if lines[n].status == st then [lines[n]] else [])
  }

  function LineNos(lines: seq<Line>): (r: seq<int>)
    ensures |r| == |lines|
  {
    seq(|lines|, i requires 0 <= i < |lines| => lines[i].lineNo)
  }

  /** The reservation ids a cancellation must give back, in line order. */
  function AllocatedReservationIds(lines: seq<Line>): seq<string> {
    if lines == [] then []
    else
      var n := |lines| - 1;
      var l := lines[n];
      AllocatedReservationIds(lines[..n])
      + (if l.status == Allocated && l.reservationId.Some? then [l.reservationId.value] else [])
  }

  // ---------------------------------------------------------------- derived status

  /** The order status as its documentation states it, by quantifiers over the lines. */
  function StatusOf(s: OrderState): Status {
    if AllLines(s.lines, Cancelled) then StatusCancelled
    else if AllLines(s.lines, Released) then StatusReleased
    else if AnyLine(s.lines, Released) then StatusPartiallyReleased
    else if AnyLine(s.lines, Backordered) then
      if s.allowPartial && AnyLine(s.lines, Allocated) then StatusPartiallyAllocated else StatusBackordered
    else if AllLines(s.lines, Allocated) then StatusAllocated
    else if AnyLine(s.lines, Allocated) then StatusPartiallyAllocated
    else StatusReceived
  }

  // ---------------------------------------------------------------- promises

  function WithPromise(s: OrderState, p: Promise): OrderState {
    s.(promiseDate := Some(p.cutoffAt),
       promiseBasis := Some(p.basis),
       promiseCptId := if p.cptId == "" then None else Some(p.cptId))
  }

  /** Among the first `k` groups, the first of those with the latest cutoff. */
  function LatestGroup(groups: seq<PromiseGroup>, k: nat): (i: nat)
    requires 0 < k <= |groups|
    ensures i < k
    ensures forall j :: 0 <= j < k ==> groups[j].promise.cutoffAt <= groups[i].promise.cutoffAt
    ensures forall j :: 0 <= j < i ==> groups[j].promise.cutoffAt < groups[i].promise.cutoffAt
  {
    if k == 1 then 0
    else
      var i := LatestGroup(groups, k - 1);
      if groups[k - 1].promise.cutoffAt > groups[i].promise.cutoffAt then k - 1 else i
  }

  function WithPromiseGroups(s: OrderState, groups: seq<PromiseGroup>): OrderState {
    var stored := s.(promiseGroups := groups);
    if groups == [] then stored else WithPromise(stored, groups[LatestGroup(groups, |groups|)].promise)
  }

  // ---------------------------------------------------------------- intake

  function NewOrder(id: OrderId, lines: seq<Line>, allowPartial: bool): Result<OrderState, OrderError> {
    if id == "" then Err(EmptyOrderId)
    else if lines == [] then Err(NoLines)
    else Ok(OrderState(id, Numbered(lines), allowPartial, None, None, None, [], false, None, 1))
  }

  function Numbered(lines: seq<Line>): (r: seq<Line>)
    ensures |r| == |lines|
  {
    seq(|lines|, i requires 0 <= i < |lines| => lines[i].(lineNo := i + 1))
  }

  /** A held order must be ship-complete. */
  predicate IntakeIntentValid(allowPartial: bool, releaseOnAllocation: bool) {
    releaseOnAllocation || !allowPartial
  }

  // ---------------------------------------------------------------- invariants

  predicate WellNumbered(lines: seq<Line>) {
    forall i :: 0 <= i < |lines| ==> lines[i].lineNo == i + 1
  }

  /** A line holds a reservation id exactly as its status says it should. */
  predicate LineSane(l: Line) {
    && (l.status in {Allocated, Released} ==> l.reservationId.Some?)
    && (l.status in {Pending, Backordered} ==> l.reservationId.None?)
  }

  /** What holds of an order at every moment inside a use case. */
  predicate Sound(s: OrderState) {
    && s.lines != []
    && WellNumbered(s.lines)
    && (forall i :: 0 <= i < |s.lines| ==> LineSane(s.lines[i]))
  }

  /** What holds of an order whenever it is committed. */
  predicate Lifecycle(s: OrderState) {
    && Sound(s)
    && (!s.allowPartial ==> !AnyLine(s.lines, Released) || AllLines(s.lines, Released))
    && (AnyLine(s.lines, Cancelled) ==> AllLines(s.lines, Cancelled))
    && (s.held ==> !s.allowPartial)
  }

  /** What no use case ever changes. */
  predicate SameIdentity(s: OrderState, t: OrderState) {
    && t.id == s.id
    && t.allowPartial == s.allowPartial
    && t.held == s.held
    && t.requiredShipBy == s.requiredShipBy
    && t.version == s.version
    && SameGoodsThroughout(s.lines, t.lines)
  }

  predicate SameGoodsThroughout(ls: seq<Line>, ks: seq<Line>) {
    |ks| == |ls| && forall i :: 0 <= i < |ls| ==> SameGoods(ls[i], ks[i])
  }

  predicate SameGoods(l: Line, k: Line) {
    k.lineNo == l.lineNo && k.sku == l.sku && k.quantity == l.quantity && k.pathId == l.pathId && k.giftWrap == l.giftWrap
  }

  /** Released is never left. */
  predicate KeepsReleased(s: OrderState, t: OrderState) {
    |t.lines| == |s.lines|
    && forall i :: 0 <= i < |s.lines| && s.lines[i].status == Released ==> t.lines[i] == s.lines[i]
  }

  // ---------------------------------------------------------------- lemmas

  /** With lines numbered 1..n, looking a number up is indexing. */
  lemma LookupByNumber(lines: seq<Line>, lineNo: int)
    requires WellNumbered(lines)
    ensures 1 <= lineNo <= |lines| ==> IndexFrom(lines, lineNo, 0) == lineNo - 1
    ensures lineNo < 1 || lineNo > |lines| ==> IndexFrom(lines, lineNo, 0) == |lines|
  {
    var i := IndexFrom(lines, lineNo, 0);
    if 1 <= lineNo <= |lines| {
      assert lines[lineNo - 1].lineNo == lineNo;
      assert i <= lineNo - 1;
      assert lines[i].lineNo == i + 1;
    }
  }

  /** A single move keeps the identity of the order, leaves every other line alone, keeps
      reservation ids matched to statuses, and never touches a released or cancelled line. */
  lemma MoveKeeps(s: OrderState, lineNo: int, m: Move)
    requires Sound(s)
    requires ApplyMove(s, lineNo, m).Ok?
    ensures
      var t := ApplyMove(s, lineNo, m).value;
      && 1 <= lineNo <= |s.lines|
      && Sound(t) && SameIdentity(s, t) && KeepsReleased(s, t)
      && t == s.(lines := t.lines)
      && t.lines == s.lines[lineNo - 1 := t.lines[lineNo - 1]]
      && s.lines[lineNo - 1].status !in {Released, Cancelled}
      && MoveLine(s.lines[lineNo - 1], m) == Ok(t.lines[lineNo - 1])
  {
    LookupByNumber(s.lines, lineNo);
  }

  /** The three summary fields describe one and the same promise. */
  predicate SummaryIs(s: OrderState, p: Promise) {
    && s.promiseDate == Some(p.cutoffAt)
    && s.promiseBasis == Some(p.basis)
    && s.promiseCptId == (if p.cptId == "" then None else Some(p.cptId))
  }

  /** The summary date is the latest of the groups, and all three summary fields describe one group. */
  lemma SummaryDescribesLatestGroup(s: OrderState, groups: seq<PromiseGroup>)
    requires groups != []
    ensures
      var t := WithPromiseGroups(s, groups);
      && t.promiseGroups == groups
      && (exists k :: 0 <= k < |groups| && SummaryIs(t, groups[k].promise))
      && forall k :: 0 <= k < |groups| ==> groups[k].promise.cutoffAt <= t.promiseDate.value
  {
    assert SummaryIs(WithPromiseGroups(s, groups), groups[LatestGroup(groups, |groups|)].promise);
  }

  /** Which statuses a line may be in for a move, and what it is told otherwise. */
  lemma MoveIsLegalIff(l: Line, m: Move)
    ensures MoveLine(l, m).Ok? <==>
              match m
              case Allocate(_) => l.status == Pending
              case RetryAllocate(_) => l.status == Backordered
              case MarkBackordered => l.status in {Pending, Backordered}
              case _ => l.status == Allocated
    ensures MoveLine(l, m).Err? ==>
              MoveLine(l, m).error ==
              match m
              case RetryAllocate(_) => LineNotBackordered
              case Allocate(_) => if l.status == Allocated then LineAlreadyAllocated else LineNotPending
              case MarkBackordered => if l.status == Allocated then LineAlreadyAllocated else LineNotPending
              case _ => LineNotAllocated
  {
  }

  /** A line that moves keeps its number and its goods; it holds a reservation afterwards exactly if it is
      then allocated or released, and one granted in the move is the one it holds. */
  lemma MoveLeaves(l: Line, m: Move)
    requires LineSane(l) && MoveLine(l, m).Ok?
    ensures
      var k := MoveLine(l, m).value;
      && SameGoods(l, k) && (k.reservationId.Some? <==> k.status in {Allocated, Released})
      && (k.status == Released <==> m.Release?) && (k.status == Backordered <==> m.LoseReservation? || m.MarkBackordered?)
      && (m.Allocate? || m.RetryAllocate? || m.Reconfirm? ==> k.reservationId == Some(m.reservationId))
      && (m.Release? ==> k.reservationId == l.reservationId)
  {
  }

  /** The status of an order between two use cases: each of the seven in exactly one situation. */
  lemma StatusIff(s: OrderState)
    requires Lifecycle(s)
    ensures StatusOf(s) == StatusReceived <==> AllLines(s.lines, Pending)
    ensures StatusOf(s) == StatusCancelled <==> AnyLine(s.lines, Cancelled)
    ensures StatusOf(s) == StatusReleased <==> AllLines(s.lines, Released)
    ensures StatusOf(s) == StatusPartiallyReleased <==> AnyLine(s.lines, Released) && !AllLines(s.lines, Released)
    ensures StatusOf(s) == StatusAllocated <==> AllLines(s.lines, Allocated)
    ensures StatusOf(s) == StatusBackordered <==>
              && !AnyLine(s.lines, Released) && AnyLine(s.lines, Backordered)
              && (!s.allowPartial || !AnyLine(s.lines, Allocated))
    ensures StatusOf(s) == StatusPartiallyAllocated <==>
              && !AnyLine(s.lines, Released) && AnyLine(s.lines, Allocated)
              && if AnyLine(s.lines, Backordered) then s.allowPartial else AnyLine(s.lines, Pending)
  {
    assert 0 < |s.lines|;
    var first := s.lines[0].status;
    if !AnyLine(s.lines, Released) && !AnyLine(s.lines, Backordered) && !AnyLine(s.lines, Cancelled) {
      forall i | 0 <= i < |s.lines| ensures s.lines[i].status == Pending || s.lines[i].status == Allocated {
      }
    }
    assert AnyLine(s.lines, first);
  }
}
