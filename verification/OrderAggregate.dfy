/** The Order aggregate as the object the use cases change in place. Every method is tied to the
    function of Orders.dfy that says what the new state is. */
module OrderAggregate {
  import opened Wrappers
  import opened Orders

  class OrderLine {
    var lineNo: int
    const sku: SKU
    const quantity: int
    const pathId: PathId
    const giftWrap: bool
    var status: LineStatus
    var reservationId: Option<string>

    constructor (line: Line)
      ensures View() == line
    {
      lineNo := line.lineNo;
      sku := line.sku;
      quantity := line.quantity;
      pathId := line.pathId;
      giftWrap := line.giftWrap;
      status := line.status;
      reservationId := line.reservationId;
    }

    function View(): Line
      reads this
    {
      Line(lineNo, sku, quantity, pathId, giftWrap, status, reservationId)
    }
  }

  function Views(ls: seq<OrderLine>): (r: seq<Line>)
    reads ls
    ensures |r| == |ls|
    ensures forall i :: 0 <= i < |ls| ==> r[i] == ls[i].View()
  {
    seq(|ls|, i requires 0 <= i < |ls| reads ls => ls[i].View())
  }

  function ErrorOf(r: Result<OrderState, OrderError>): Option<OrderError> {
    if r.Ok? then None else Some(r.error)
  }

  /** The state a method leaves behind: the new one, or the old one when it returns an error. */
  function After(s: OrderState, r: Result<OrderState, OrderError>): OrderState {
    if r.Ok? then r.value else s
  }

  ghost predicate Distinct(ls: seq<OrderLine>) {
    forall i, j :: 0 <= i < j < |ls| ==> ls[i] != ls[j]
  }

  class Order {
    const id: OrderId
    var lines: seq<OrderLine>
    const allowPartial: bool
    var promiseDate: Option<Instant>
    var promiseCptId: Option<string>
    var promiseBasis: Option<Basis>
    var promiseGroups: seq<PromiseGroup>
    var heldAtIntake: bool
    var requiredShipBy: Option<Instant>
    var version: int

    /** No line object appears twice. */
    ghost predicate Valid()
      reads this
    {
      Distinct(lines)
    }

    function State(): OrderState
      reads this, lines
    {
      OrderState(id, Views(lines), allowPartial, promiseDate, promiseCptId, promiseBasis, promiseGroups,
        heldAtIntake, requiredShipBy, version)
    }

    /** Intake: numbers the given lines by position. */
    constructor New(id: OrderId, ls: seq<OrderLine>, allowPartial: bool)
      requires Distinct(ls)
      requires id != "" && ls != []
      modifies ls
      ensures Valid() && lines == ls
      ensures NewOrder(id, old(Views(ls)), allowPartial) == Ok(State())
    {
      this.id := id;
      this.lines := ls;
      this.allowPartial := allowPartial;
      this.promiseDate := None;
      this.promiseCptId := None;
      this.promiseBasis := None;
      this.promiseGroups := [];
      this.heldAtIntake := false;
      this.requiredShipBy := None;
      this.version := 1;
      new;
      for i := 0 to |ls|
        modifies ls
        invariant forall k :: 0 <= k < i ==> ls[k].View() == old(ls[k].View()).(lineNo := k + 1)
        invariant forall k :: i <= k < |ls| ==> ls[k].View() == old(ls[k].View())
      {
        ls[i].lineNo := i + 1;
      }
      assert Views(lines) == Numbered(old(Views(ls)));
    }

    /** Rehydration from stored rows; no construction rule is re-run. */
    constructor Rehydrate(s: OrderState, ls: seq<OrderLine>)
      requires Distinct(ls) && Views(ls) == s.lines
      ensures Valid() && lines == ls && State() == s
    {
      id := s.id;
      lines := ls;
      allowPartial := s.allowPartial;
      promiseDate := s.promiseDate;
      promiseCptId := s.promiseCptId;
      promiseBasis := s.promiseBasis;
      promiseGroups := s.promiseGroups;
      heldAtIntake := s.held;
      requiredShipBy := s.requiredShipBy;
      version := s.version;
    }

    // -------------------------------------------------------------- lookups

    method FindLine(lineNo: int) returns (i: nat)
      ensures i == IndexFrom(State().lines, lineNo, 0)
    {
      i := 0;
      while i < |lines|
        invariant i <= |lines|
        invariant forall k :: 0 <= k < i ==> lines[k].lineNo != lineNo
      {
        if lines[i].lineNo == lineNo { break; }
        i := i + 1;
      }
      ghost var j := IndexFrom(State().lines, lineNo, 0);
      assert j < |lines| ==> State().lines[j].lineNo == lines[j].lineNo;
      assert i < |lines| ==> State().lines[i].lineNo == lineNo;
    }

    method LinesWithStatus(st: LineStatus) returns (r: seq<OrderLine>)
      requires Valid()
      ensures Distinct(r) && forall k :: 0 <= k < |r| ==> r[k] in lines
      ensures Views(r) == WithStatus(State().lines, st)
    {
      r := [];
      ghost var vs := State().lines;
      for i := 0 to |lines|
        invariant Distinct(r) && forall k :: 0 <= k < |r| ==> r[k] in lines[..i]
        invariant Views(r) == WithStatus(vs[..i], st)
      {
        assert vs[..i + 1][..i] == vs[..i];
        if lines[i].status == st {
          assert lines[i] !in lines[..i];
          assert Views(r + [lines[i]]) == Views(r) + [vs[i]];
          r := r + [lines[i]];
        }
      }
      assert vs[..|lines|] == vs;
    }

    method AllocatedReservationIDs() returns (ids: seq<string>)
      ensures ids == AllocatedReservationIds(State().lines)
    {
      ids := [];
      ghost var vs := State().lines;
      for i := 0 to |lines|
        invariant ids == AllocatedReservationIds(vs[..i])
      {
        assert vs[..i + 1][..i] == vs[..i];
        if lines[i].status == Allocated && lines[i].reservationId.Some? {
          ids := ids + [lines[i].reservationId.value];
        }
      }
      assert vs[..|lines|] == vs;
    }

    /** The counters agree with the documented derivation. */
    method Status() returns (r: Orders.Status)
      ensures r == StatusOf(State())
    {
      var nAllocated, nBackordered, nReleased, nCancelled := 0, 0, 0, 0;
      ghost var vs := State().lines;
      for i := 0 to |lines|
        invariant CountOf(vs[..i], Allocated) == nAllocated
        invariant CountOf(vs[..i], Backordered) == nBackordered
        invariant CountOf(vs[..i], Released) == nReleased
        invariant CountOf(vs[..i], Cancelled) == nCancelled
      {
        assert vs[..i + 1][..i] == vs[..i];
        match lines[i].status
        case Allocated => nAllocated := nAllocated + 1;
        case Backordered => nBackordered := nBackordered + 1;
        case Released => nReleased := nReleased + 1;
        case Cancelled => nCancelled := nCancelled + 1;
        case Pending =>
      }
      assert vs[..|lines|] == vs;
      CountMeans(vs, Allocated);
      CountMeans(vs, Backordered);
      CountMeans(vs, Released);
      CountMeans(vs, Cancelled);
      var total := |lines|;
      if nCancelled == total { return StatusCancelled; }
      if nReleased == total { return StatusReleased; }
      if nReleased > 0 { return StatusPartiallyReleased; }
      if nBackordered > 0 {
        if allowPartial && nAllocated > 0 { return StatusPartiallyAllocated; }
        return StatusBackordered;
      }
      if nAllocated == total { return StatusAllocated; }
      if nAllocated > 0 { return StatusPartiallyAllocated; }
      return StatusReceived;
    }

    // -------------------------------------------------------------- line transitions

    method AllocateLine(lineNo: int, reservationId: string) returns (error: Option<OrderError>)
      requires Valid()
      modifies lines`status, lines`reservationId
      ensures Valid() && lines == old(lines)
      ensures error == ErrorOf(ApplyMove(old(State()), lineNo, Allocate(reservationId)))
      ensures State() == After(old(State()), ApplyMove(old(State()), lineNo, Allocate(reservationId)))
    {
      var i := FindLine(lineNo);
      if i == |lines| { return Some(LineNotFound); }
      var line := lines[i];
      if line.status == Allocated { return Some(LineAlreadyAllocated); }
      if line.status != Pending { return Some(LineNotPending); }
      line.status := Allocated;
      line.reservationId := Some(reservationId);
      assert State().lines == old(State().lines)[i := line.View()];
      return None;
    }

    method RetryAllocateLine(lineNo: int, reservationId: string) returns (error: Option<OrderError>)
      requires Valid()
      modifies lines`status, lines`reservationId
      ensures Valid() && lines == old(lines)
      ensures error == ErrorOf(ApplyMove(old(State()), lineNo, RetryAllocate(reservationId)))
      ensures State() == After(old(State()), ApplyMove(old(State()), lineNo, RetryAllocate(reservationId)))
    {
      var i := FindLine(lineNo);
      if i == |lines| { return Some(LineNotFound); }
      var line := lines[i];
      if line.status != Backordered { return Some(LineNotBackordered); }
      line.status := Allocated;
      line.reservationId := Some(reservationId);
      assert State().lines == old(State().lines)[i := line.View()];
      return None;
    }

    method ReconfirmReservation(lineNo: int, reservationId: string) returns (error: Option<OrderError>)
      requires Valid()
      modifies lines`status, lines`reservationId
      ensures Valid() && lines == old(lines)
      ensures error == ErrorOf(ApplyMove(old(State()), lineNo, Reconfirm(reservationId)))
      ensures State() == After(old(State()), ApplyMove(old(State()), lineNo, Reconfirm(reservationId)))
    {
      var i := FindLine(lineNo);
      if i == |lines| { return Some(LineNotFound); }
      var line := lines[i];
      if line.status != Allocated { return Some(LineNotAllocated); }
      line.reservationId := Some(reservationId);
      assert State().lines == old(State().lines)[i := line.View()];
      return None;
    }

    method LoseLineReservation(lineNo: int) returns (error: Option<OrderError>)
      requires Valid()
      modifies lines`status, lines`reservationId
      ensures Valid() && lines == old(lines)
      ensures error == ErrorOf(ApplyMove(old(State()), lineNo, LoseReservation))
      ensures State() == After(old(State()), ApplyMove(old(State()), lineNo, LoseReservation))
    {
      var i := FindLine(lineNo);
      if i == |lines| { return Some(LineNotFound); }
      var line := lines[i];
      if line.status != Allocated { return Some(LineNotAllocated); }
      line.status := Backordered;
      line.reservationId := None;
      assert State().lines == old(State().lines)[i := line.View()];
      return None;
    }

    method MarkLineBackordered(lineNo: int) returns (error: Option<OrderError>)
      requires Valid()
      modifies lines`status, lines`reservationId
      ensures Valid() && lines == old(lines)
      ensures error == ErrorOf(ApplyMove(old(State()), lineNo, MarkBackordered))
      ensures State() == After(old(State()), ApplyMove(old(State()), lineNo, MarkBackordered))
    {
      var i := FindLine(lineNo);
      if i == |lines| { return Some(LineNotFound); }
      var line := lines[i];
      if line.status == Allocated { return Some(LineAlreadyAllocated); }
      if line.status != Pending && line.status != Backordered { return Some(LineNotPending); }
      line.status := Backordered;
      assert State().lines == old(State().lines)[i := line.View()];
      return None;
    }

    method ReleaseLine(lineNo: int) returns (error: Option<OrderError>)
      requires Valid()
      modifies lines`status, lines`reservationId
      ensures Valid() && lines == old(lines)
      ensures error == ErrorOf(ApplyMove(old(State()), lineNo, Release))
      ensures State() == After(old(State()), ApplyMove(old(State()), lineNo, Release))
    {
      var i := FindLine(lineNo);
      if i == |lines| { return Some(LineNotFound); }
      var line := lines[i];
      if line.status != Allocated { return Some(LineNotAllocated); }
      line.status := Released;
      assert State().lines == old(State().lines)[i := line.View()];
      return None;
    }

    // -------------------------------------------------------------- gates and cancellation

    method EnsureReleasable() returns (ok: bool)
      ensures ok == Releasable(State())
    {
      if allowPartial { return true; }
      for i := 0 to |lines|
        invariant forall k :: 0 <= k < i ==> lines[k].status in {Allocated, Released}
      {
        if lines[i].status != Allocated && lines[i].status != Released {
          assert State().lines[i].status !in {Allocated, Released};
          return false;
        }
      }
      return true;
    }

    method EnsureCancellable() returns (ok: bool)
      ensures ok == Cancellable(State())
    {
      for i := 0 to |lines|
        invariant forall k :: 0 <= k < i ==> lines[k].status != Released
      {
        if lines[i].status == Released {
          assert State().lines[i].status == Released;
          return false;
        }
      }
      return true;
    }

    method Cancel() returns (error: Option<OrderError>)
      requires Valid()
      modifies lines`status, lines`reservationId
      ensures Valid() && lines == old(lines)
      ensures error == ErrorOf(CancelOrder(old(State())))
      ensures State() == After(old(State()), CancelOrder(old(State())))
    {
      var ok := EnsureCancellable();
      if !ok { return Some(OrderAlreadyReleased); }
      for i := 0 to |lines|
        invariant unchanged(this)
        invariant forall k :: 0 <= k < i ==> lines[k].View() == old(lines[k].View()).(status := Cancelled)
        invariant forall k :: i <= k < |lines| ==> lines[k].View() == old(lines[k].View())
      {
        lines[i].status := Cancelled;
      }
      assert State().lines == CancelLines(old(State()).lines);
      return None;
    }

    // -------------------------------------------------------------- promises

    method SetPromise(p: Promise)
      modifies this`promiseDate, this`promiseBasis, this`promiseCptId
      ensures State() == WithPromise(old(State()), p)
    {
      promiseDate := Some(p.cutoffAt);
      promiseBasis := Some(p.basis);
      if p.cptId == "" {
        promiseCptId := None;
      } else {
        promiseCptId := Some(p.cptId);
      }
    }

    method SetPromiseGroups(groups: seq<PromiseGroup>)
      modifies this`promiseGroups, this`promiseDate, this`promiseBasis, this`promiseCptId
      ensures State() == WithPromiseGroups(old(State()), groups)
    {
      promiseGroups := groups;
      if groups == [] { return; }
      var latest := groups[0];
      ghost var at := 0;
      for i := 1 to |groups|
        invariant at < i && latest == groups[at]
        invariant at == LatestGroup(groups, i)
      {
        if groups[i].promise.cutoffAt > latest.promise.cutoffAt {
          latest := groups[i];
          at := i;
        }
      }
      SetPromise(latest.promise);
    }
  }

  function CountOf(lines: seq<Line>, st: LineStatus): (c: nat)
    ensures c <= |lines|
  {
    if lines == [] then 0
    else CountOf(lines[..|lines| - 1], st) + (if lines[|lines| - 1].status == st then 1 else 0)
  }

  /** A zero counter means no such line, a full counter means no other line. */
  lemma {:induction false} CountMeans(lines: seq<Line>, st: LineStatus)
    ensures CountOf(lines, st) > 0 <==> AnyLine(lines, st)
    ensures CountOf(lines, st) == |lines| <==> AllLines(lines, st)
  {
    if lines != [] {
      var n := |lines| - 1;
      CountMeans(lines[..n], st);
      assert AnyLine(lines[..n], st) ==> AnyLine(lines, st) by {
        if AnyLine(lines[..n], st) {
          var i :| 0 <= i < n && lines[..n][i].status == st;
          assert lines[i].status == st;
        }
      }
      assert AllLines(lines, st) <==> AllLines(lines[..n], st) && lines[n].status == st by {
        if AllLines(lines[..n], st) && lines[n].status == st {
          forall i | 0 <= i < |lines| ensures lines[i].status == st {
            assert i < n ==> lines[..n][i].status == st;
          }
        }
      }
      if AnyLine(lines, st) {
        var i :| 0 <= i < |lines| && lines[i].status == st;
        if i < n {
          assert lines[..n][i].status == st;
        }
      }
    }
  }
}
