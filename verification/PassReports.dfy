/** What the events of a pass say is true: the counts of the order-level event are the line events of
    the same transaction, and every released line is reported as the stored order has it. A
    cancellation gives back every reservation it cancels. */
module PassReports {
  import opened Wrappers
  import opened Orders
  import opened Allocation
  import opened AllocationTheorems
  import opened UseCases

  // ---------------------------------------------------------------- counts

  predicate TellsOf(e: Effect, granted: bool) {
    e.Emit? && (if granted then e.event.OrderLineAllocated? else e.event.OrderLineBackordered?)
  }

  /** How many line events of one kind there are among the writes. */
  function Told(effects: seq<Effect>, granted: bool): nat {
    if effects == [] then 0
    else Told(effects[..|effects| - 1], granted) + (if TellsOf(effects[|effects| - 1], granted) then 1 else 0)
  }

  lemma ToldAppended(effects: seq<Effect>, e: Effect, granted: bool)
    ensures Told(effects + [e], granted) == Told(effects, granted) + (if TellsOf(e, granted) then 1 else 0)
  {
    assert (effects + [e])[..|effects|] == effects;
  }

  /** Nothing has failed and the counters are the line events published so far. */
  predicate CountsTold(a: Progress) {
    a.failure.None? ==> a.nAllocated == Told(a.effects, true) && a.nBackordered == Told(a.effects, false)
  }

  lemma MoveCounts(a: Progress, lineNo: int, m: Move, granted: bool, e: Event, env: Env)
    requires CountsTold(a) && a.failure.None?
    requires TellsOf(Emit(e), granted) && !TellsOf(Emit(e), !granted)
    ensures CountsTold(MoveAndTell(a, lineNo, m, a.nAllocated + (if granted then 1 else 0),
              a.nBackordered + (if granted then 0 else 1), e, env))
  {
    ToldAppended(a.effects, Emit(e), true);
    ToldAppended(a.effects, Emit(e), false);
  }

  lemma AllocateOneCounts(a: Progress, l: Line, retry: bool, env: Env)
    requires CountsTold(a) && a.failure.None?
    ensures CountsTold(AllocateOne(a, l, retry, env))
  {
    match env.reserve(l.lineNo)
    case NoStock => MoveCounts(Ask(a, l), l.lineNo, MarkBackordered, false, BackorderedEvent(a.order, l), env);
    case Unavailable(_) =>
    case Granted(rid) =>
      MoveCounts(Ask(a, l), l.lineNo, if retry then RetryAllocate(rid) else Allocate(rid), true,
        AllocatedEvent(a.order, l, rid), env);
  }

  lemma {:induction false} AllocateCounts(s: OrderState, lines: seq<Line>, k: nat, retry: bool, env: Env)
    requires k <= |lines|
    ensures CountsTold(AllocateLines(s, lines, k, retry, env))
  {
    if k > 0 {
      AllocateCounts(s, lines, k - 1, retry, env);
      var b := AllocateLines(s, lines, k - 1, retry, env);
      if b.failure.None? {
        AllocateOneCounts(b, lines[k - 1], retry, env);
      }
    }
  }

  lemma ReconfirmOneCounts(a: Progress, l: Line, skip: seq<int>, env: Env)
    requires CountsTold(a) && a.failure.None?
    ensures CountsTold(ReconfirmOne(a, l, skip, env))
  {
    if l.lineNo !in skip && env.reserve(l.lineNo).NoStock? {
      MoveCounts(Ask(a, l), l.lineNo, LoseReservation, false, BackorderedEvent(a.order, l), env);
    }
  }

  lemma {:induction false} ReconfirmCounts(a: Progress, lines: seq<Line>, k: nat, skip: seq<int>, env: Env)
    requires CountsTold(a) && k <= |lines|
    ensures CountsTold(ReconfirmLines(a, lines, k, skip, env))
  {
    if k > 0 {
      ReconfirmCounts(a, lines, k - 1, skip, env);
      var b := ReconfirmLines(a, lines, k - 1, skip, env);
      if b.failure.None? {
        ReconfirmOneCounts(b, lines[k - 1], skip, env);
      }
    }
  }

  /** A partial outcome names the numbers of line events it comes with. */
  predicate PartialCountsTrue(effects: seq<Effect>) {
    forall k :: 0 <= k < |effects| && effects[k].Emit? && effects[k].event.OrderPartiallyAllocated? ==>
      effects[k].event.nAllocated == Told(effects, true) && effects[k].event.nBackordered == Told(effects, false)
  }

  lemma LineEventsOnly(effects: seq<Effect>)
    requires OnlyLineEvents(effects)
    ensures PartialCountsTrue(effects)
  {
    forall k | 0 <= k < |effects| ensures !(effects[k].Emit? && effects[k].event.OrderPartiallyAllocated?) {
      assert LineEvent(effects[k].event);
    }
  }

  lemma ConcludeCounts(a: Progress, released: seq<ReleasedLine>, env: Env)
    requires CountsTold(a) && a.failure.None? && OnlyLineEvents(a.effects)
    ensures PartialCountsTrue(Conclude(a, released, env).effects)
  {
    LineEventsOnly(a.effects);
    if env.saves {
      var b := Saved(a);
      var e := OutcomeEvent(b.order, b.nAllocated, b.nBackordered, released);
      ToldAppended(a.effects, Store(a.order), true);
      ToldAppended(a.effects, Store(a.order), false);
      StoreTells(a.effects, a.order);
      if e.Some? {
        ToldAppended(b.effects, Emit(e.value), true);
        ToldAppended(b.effects, Emit(e.value), false);
      }
    }
  }

  lemma StoreTells(effects: seq<Effect>, s: OrderState)
    requires OnlyLineEvents(effects)
    ensures PartialCountsTrue(effects + [Store(s)])
  {
    forall k | 0 <= k < |effects| ensures !(effects[k].Emit? && effects[k].event.OrderPartiallyAllocated?) {
      assert LineEvent(effects[k].event);
    }
  }

  lemma SalvageCounts(a: Progress, failure: Failure, env: Env)
    requires OnlyLineEvents(a.effects)
    ensures PartialCountsTrue(Salvage(a, failure, env).effects)
  {
    var b := a.(order := SetPromiseDate(a.order, env));
    LineEventsOnly(a.effects);
    StoreTells(a.effects, b.order);
    forall k | 0 <= k < |a.effects| ensures !(a.effects[k].Emit? && a.effects[k].event.OrderPartiallyAllocated?) {
      assert LineEvent(a.effects[k].event);
    }
  }

  lemma ReleaseLegCounts(s: OrderState, a: Progress, justReserved: seq<int>, env: Env)
    requires InPass(s, a) && CountsTold(a) && a.failure.None?
    ensures PartialCountsTrue(ReleaseLeg(a, justReserved, env).effects)
  {
    var lines := WithStatus(a.order.lines, Allocated);
    ReconfirmLinesKeep(s, a, lines, |lines|, justReserved, env);
    ReconfirmCounts(a, lines, |lines|, justReserved, env);
    var b := ReconfirmLines(a, lines, |lines|, justReserved, env);
    LineEventsOnly(b.effects);
    if b.failure.None? {
      ConcludeCounts(b, [], env);
      var r := ReleaseAllocatedLines(b.order);
      ConcludeCounts(b.(order := r.order), r.released, env);
    }
  }

  /** In every pass, whatever the answers: the counts of a partial outcome are exactly the numbers of
      allocated and backordered line events written in the same transaction. */
  lemma PartialOutcomeCountsLineEvents(s: OrderState, lines: seq<Line>, retry: bool, releaseOnAllocation: bool, env: Env)
    requires Sound(s)
    ensures PartialCountsTrue(AllocateAndRelease(s, lines, retry, releaseOnAllocation, env).effects)
  {
    var a := AllocateLines(s, lines, |lines|, retry, env);
    AllocateLinesKeep(s, lines, |lines|, retry, env);
    AllocateCounts(s, lines, |lines|, retry, env);
    LineEventsOnly(a.effects);
    if a.failure.Some? {
      SalvageCounts(a, a.failure.value, env);
    } else {
      var b := a.(order := SetPromiseDate(a.order, env));
      ConcludeCounts(b, [], env);
      ReleaseLegCounts(b.order.(lines := s.lines), b, LineNos(lines), env);
    }
  }

  // ---------------------------------------------------------------- reports of released lines

  lemma {:induction false} ReportsDescribe(s: OrderState, w: seq<Line>, k: nat)
    requires k <= |w| && ReleaseLines(s, w, k).failure == None
    ensures |ReleaseLines(s, w, k).released| == k
    ensures forall i :: 0 <= i < k ==> ReleaseLines(s, w, k).released[i] == Describe(s, w[i])
  {
    if k > 0 {
      ReportsDescribe(s, w, k - 1);
    }
  }

  lemma SameDescription(s: OrderState, t: OrderState, l: Line, m: Line)
    requires t == s.(lines := t.lines) && SameGoods(l, m) && |t.lines| == |s.lines|
    requires forall i :: 0 <= i < |s.lines| ==> t.lines[i].quantity == s.lines[i].quantity
    ensures Describe(s, l) == Describe(t, m)
  {
  }

  /** Every reported line is released in the order that is stored, and is reported with the goods, the
      class and the promise group that the stored order has for it. */
  lemma ReportsMatchStoredOrder(s: OrderState, i: nat)
    requires WellNumbered(s.lines) && i < |ReleaseAllocatedLines(s).released|
    ensures
      var r := ReleaseAllocatedLines(s);
      var n := r.released[i].lineNo;
      && 1 <= n <= |r.order.lines| && r.order.lines[n - 1].status == Released
      && r.released[i] == Describe(r.order, r.order.lines[n - 1])
  {
    ReleaseIsAllOrNothing(s);
    var w := WithStatusLists(s.lines, Allocated);
    var r := ReleaseAllocatedLines(s);
    ReportsDescribe(s, w, |w|);
    SameDescription(s, r.order, w[i], r.order.lines[w[i].lineNo - 1]);
  }

  /** The promise reported for a line is that of a group that lists it; a line that no group lists is
      reported without one. */
  lemma {:induction false} ReportedPromiseIsOfItsGroup(groups: seq<PromiseGroup>, n: int)
    ensures GroupPromise(groups, n).None? <==> forall g :: g in groups ==> n !in g.lineNos
    ensures GroupPromise(groups, n).Some? ==>
              exists g :: g in groups && n in g.lineNos && g.promise == GroupPromise(groups, n).value
  {
    if groups != [] {
      var m := |groups| - 1;
      ReportedPromiseIsOfItsGroup(groups[..m], n);
      assert groups == groups[..m] + [groups[m]];
    }
  }

  /** The last group that lists the line. */
  ghost predicate ListsLast(groups: seq<PromiseGroup>, n: int, j: nat) {
    && j < |groups| && n in groups[j].lineNos
    && forall k :: j < k < |groups| ==> n !in groups[k].lineNos
  }

  lemma {:induction false} LastListingCounts(groups: seq<PromiseGroup>, n: int, j: nat)
    requires ListsLast(groups, n, j)
    ensures GroupPromise(groups, n) == Some(groups[j].promise)
  {
    var m := |groups| - 1;
    if j < m {
      assert ListsLast(groups[..m], n, j);
      LastListingCounts(groups[..m], n, j);
    }
  }

  /** What a report says of a released line: its goods; how the order is to be picked, as one unit, as
      several of one line, or as several lines; and the promise of the last stored group that lists it. */
  lemma ReportSays(s: OrderState, i: nat, j: nat) returns (l: Line)
    requires WellNumbered(s.lines) && i < |ReleaseAllocatedLines(s).released|
    ensures
      var r := ReleaseAllocatedLines(s);
      var x := r.released[i];
      && l in r.order.lines && l.status == Released
      && x.lineNo == l.lineNo && x.sku == l.sku && x.pathId == l.pathId && x.giftWrap == l.giftWrap
      && (x.fulfillmentClass == Single <==> |s.lines| == 1 && l.quantity == 1)
      && (x.fulfillmentClass == SameSkuMulti <==> |s.lines| == 1 && l.quantity != 1)
      && (x.fulfillmentClass == MultiLineMulti <==> |s.lines| != 1)
      && (x.promise.None? <==> forall k :: 0 <= k < |s.promiseGroups| ==> l.lineNo !in s.promiseGroups[k].lineNos)
      && (ListsLast(s.promiseGroups, l.lineNo, j) ==> x.promise == Some(s.promiseGroups[j].promise))
  {
    var r := ReleaseAllocatedLines(s);
    ReportsMatchStoredOrder(s, i);
    ReleaseIsAllOrNothing(s);
    l := r.order.lines[r.released[i].lineNo - 1];
    ReportedPromiseIsOfItsGroup(s.promiseGroups, l.lineNo);
    if ListsLast(s.promiseGroups, l.lineNo, j) {
      LastListingCounts(s.promiseGroups, l.lineNo, j);
    }
  }

  // ---------------------------------------------------------------- cancellation

  lemma {:induction false} RevokedEach(ids: seq<string>, k: nat, env: Env)
    requires k <= |ids| && RevokesAll(ids, k, env)
    ensures forall i :: 0 <= i < k ==> env.revokes(ids[i])
  {
    if k > 0 {
      RevokedEach(ids, k - 1, env);
    }
  }

  lemma {:induction false} HeldIdsAreListed(lines: seq<Line>)
    requires forall i :: 0 <= i < |lines| ==> LineSane(lines[i])
    ensures |AllocatedReservationIds(lines)| == |WithStatus(lines, Allocated)|
    ensures forall i :: 0 <= i < |lines| && lines[i].status == Allocated ==>
              lines[i].reservationId.Some? && lines[i].reservationId.value in AllocatedReservationIds(lines)
  {
    if lines != [] {
      var n := |lines| - 1;
      HeldIdsAreListed(lines[..n]);
      forall i | 0 <= i < n ensures lines[..n][i] == lines[i] {
      }
    }
  }

  /** A cancellation that writes anything has given back the reservation of every allocated line, and
      its event counts them. */
  lemma CancelGivesBackEveryReservation(s: OrderState, env: Env)
    requires Sound(s) && CancelPlan(s, env).verdict == Commit
    ensures forall i :: 0 <= i < |s.lines| && s.lines[i].status == Allocated ==>
              s.lines[i].reservationId.Some? && env.revokes(s.lines[i].reservationId.value)
    ensures CancelPlan(s, env).effects[1] == Emit(OrderCancelled(s.id, |WithStatus(s.lines, Allocated)|))
  {
    var ids := AllocatedReservationIds(s.lines);
    RevokedEach(ids, |ids|, env);
    HeldIdsAreListed(s.lines);
    forall i | 0 <= i < |s.lines| && s.lines[i].status == Allocated
      ensures s.lines[i].reservationId.Some? && env.revokes(s.lines[i].reservationId.value)
    {
      assert s.lines[i].reservationId.value in ids;
    }
  }
}
