/** What every allocation-and-release pass keeps, whatever inventory-storage answers and whichever
    publish fails. */
module AllocationTheorems {
  import opened Wrappers
  import opened Orders
  import opened Allocation

  // ---------------------------------------------------------------- line moves short of release

  predicate SteadyLine(l: Line, k: Line) {
    && SameGoods(l, k)
    && LineSane(k)
    && (l.status == Released <==> k.status == Released)
    && (l.status == Cancelled <==> k.status == Cancelled)
    && (l.status in {Released, Cancelled} ==> k == l)
  }

  /** Nothing is released or cancelled, and nothing released or cancelled is touched. */
  predicate Steady(ls: seq<Line>, ks: seq<Line>) {
    |ks| == |ls| && forall i :: 0 <= i < |ls| ==> SteadyLine(ls[i], ks[i])
  }

  predicate LineEvent(e: Event) {
    e.OrderLineAllocated? || e.OrderLineBackordered?
  }

  predicate OnlyLineEvents(effects: seq<Effect>) {
    forall k :: 0 <= k < |effects| ==> effects[k].Emit? && LineEvent(effects[k].event)
  }

  /** What holds after every reservation of a pass that began at `s`. */
  predicate InPass(s: OrderState, a: Progress) {
    && a.order == s.(lines := a.order.lines)
    && WellNumbered(a.order.lines)
    && Steady(s.lines, a.order.lines)
    && OnlyLineEvents(a.effects)
  }

  lemma MoveIsSteady(s: OrderState, a: OrderState, lineNo: int, m: Move)
    requires a == s.(lines := a.lines) && WellNumbered(a.lines) && Steady(s.lines, a.lines)
    requires m != Release && ApplyMove(a, lineNo, m).Ok?
    ensures
      var t := ApplyMove(a, lineNo, m).value;
      t == s.(lines := t.lines) && WellNumbered(t.lines) && Steady(s.lines, t.lines)
      && 1 <= lineNo <= |a.lines| && t.lines == a.lines[lineNo - 1 := t.lines[lineNo - 1]]
      && MoveLine(a.lines[lineNo - 1], m) == Ok(t.lines[lineNo - 1])
  {
    LookupByNumber(a.lines, lineNo);
    var t := ApplyMove(a, lineNo, m).value;
    forall i | 0 <= i < |s.lines| ensures SteadyLine(s.lines[i], t.lines[i]) {
      assert SteadyLine(s.lines[i], a.lines[i]);
    }
  }

  lemma AllocateOneKeeps(s: OrderState, a: Progress, l: Line, retry: bool, env: Env)
    requires InPass(s, a)
    ensures InPass(s, AllocateOne(a, l, retry, env))
  {
    var m := match env.reserve(l.lineNo)
             case NoStock => MarkBackordered
             case Granted(rid) => if retry then RetryAllocate(rid) else Allocate(rid)
             case Unavailable(_) => MarkBackordered;
    if ApplyMove(a.order, l.lineNo, m).Ok? {
      MoveIsSteady(s, a.order, l.lineNo, m);
    }
  }

  lemma {:induction false} AllocateLinesKeep(s: OrderState, lines: seq<Line>, k: nat, retry: bool, env: Env)
    requires Sound(s) && k <= |lines|
    ensures InPass(s, AllocateLines(s, lines, k, retry, env))
  {
    if k > 0 {
      AllocateLinesKeep(s, lines, k - 1, retry, env);
      AllocateOneKeeps(s, AllocateLines(s, lines, k - 1, retry, env), lines[k - 1], retry, env);
    }
  }

  lemma ReconfirmOneKeeps(s: OrderState, a: Progress, l: Line, justReserved: seq<int>, env: Env)
    requires InPass(s, a)
    ensures InPass(s, ReconfirmOne(a, l, justReserved, env))
    ensures ReconfirmOne(a, l, justReserved, env).nAllocated == a.nAllocated
    ensures ReconfirmOne(a, l, justReserved, env).nBackordered >= a.nBackordered
  {
    var m := match env.reserve(l.lineNo)
             case Granted(rid) => Reconfirm(rid)
             case NoStock => LoseReservation
             case Unavailable(_) => LoseReservation;
    if ApplyMove(a.order, l.lineNo, m).Ok? {
      MoveIsSteady(s, a.order, l.lineNo, m);
    }
  }

  lemma {:induction false} ReconfirmLinesKeep(s: OrderState, a: Progress, lines: seq<Line>, k: nat, justReserved: seq<int>, env: Env)
    requires InPass(s, a) && k <= |lines|
    ensures InPass(s, ReconfirmLines(a, lines, k, justReserved, env))
    ensures ReconfirmLines(a, lines, k, justReserved, env).nAllocated == a.nAllocated
    ensures ReconfirmLines(a, lines, k, justReserved, env).nBackordered >= a.nBackordered
  {
    if k > 0 {
      ReconfirmLinesKeep(s, a, lines, k - 1, justReserved, env);
      ReconfirmOneKeeps(s, ReconfirmLines(a, lines, k - 1, justReserved, env), lines[k - 1], justReserved, env);
    }
  }

  // ---------------------------------------------------------------- release

  /** The number of the entry before position `k`, and of the entry at it. */
  function Bound(w: seq<Line>, k: nat): int
    requires k <= |w|
  {
    if k == 0 then 0 else w[k - 1].lineNo
  }

  function Following(w: seq<Line>, k: nat, end: int): int
    requires k <= |w|
  {
    if k < |w| then w[k].lineNo else end
  }

  /** `w` lists exactly the lines in status `st`, strictly ascending, with no such line in between. */
  ghost predicate Listing(lines: seq<Line>, w: seq<Line>, st: LineStatus) {
    && (forall k :: 0 <= k < |w| ==> 1 <= w[k].lineNo <= |lines| && w[k] == lines[w[k].lineNo - 1] && w[k].status == st)
    && (forall j, k :: 0 <= j < k < |w| ==> w[j].lineNo < w[k].lineNo)
    && (forall k, i :: 0 <= k <= |w| && 0 <= i < |lines| && Bound(w, k) < i + 1 < Following(w, k, |lines| + 1) ==>
          lines[i].status != st)
  }

  lemma {:induction false} WithStatusLists(lines: seq<Line>, st: LineStatus) returns (w: seq<Line>)
    requires WellNumbered(lines)
    ensures w == WithStatus(lines, st) && Listing(lines, w, st)
  {
    if lines == [] {
      w := [];
    } else {
      var n := |lines| - 1;
      var v := WithStatusLists(lines[..n], st);
      if lines[n].status == st {
        w := v + [lines[n]];
        ListingGrows(lines, v, st);
      } else {
        w := v;
        ListingStays(lines, v, st);
      }
    }
  }

  lemma ListingGrows(lines: seq<Line>, v: seq<Line>, st: LineStatus)
    requires WellNumbered(lines) && lines != [] && Listing(lines[..|lines| - 1], v, st) && lines[|lines| - 1].status == st
    ensures Listing(lines, v + [lines[|lines| - 1]], st)
  {
    var n := |lines| - 1;
    var w := v + [lines[n]];
    forall k, i | 0 <= k <= |w| && 0 <= i < |lines| && Bound(w, k) < i + 1 < Following(w, k, |lines| + 1)
      ensures lines[i].status != st
    {
      assert k <= |v|;
      assert Bound(v, k) == Bound(w, k) && Following(v, k, n + 1) == Following(w, k, |lines| + 1);
      assert lines[..n][i].status != st;
    }
  }

  lemma ListingStays(lines: seq<Line>, v: seq<Line>, st: LineStatus)
    requires WellNumbered(lines) && lines != [] && Listing(lines[..|lines| - 1], v, st) && lines[|lines| - 1].status != st
    ensures Listing(lines, v, st)
  {
    var n := |lines| - 1;
    forall k, i | 0 <= k <= |v| && 0 <= i < |lines| && Bound(v, k) < i + 1 < Following(v, k, |lines| + 1)
      ensures lines[i].status != st
    {
      if i < n {
        assert Bound(v, k) < i + 1 < Following(v, k, n + 1);
        assert lines[..n][i].status != st;
      }
    }
  }

  function ReleasedNos(released: seq<ReleasedLine>): (r: seq<int>)
    ensures |r| == |released|
  {
    seq(|released|, i requires 0 <= i < |released| => released[i].lineNo)
  }

  function ReleasedIfUpTo(l: Line, bound: int): Line {
    if l.status == Allocated && l.lineNo <= bound then l.(status := Released) else l
  }

  /** `t` is `s` with the allocated lines numbered up to `bound` released, and nothing else changed. */
  ghost predicate ReleasedUpTo(s: OrderState, t: OrderState, bound: int) {
    && t == s.(lines := t.lines)
    && |t.lines| == |s.lines|
    && forall i :: 0 <= i < |s.lines| ==> t.lines[i] == ReleasedIfUpTo(s.lines[i], bound)
  }

  lemma ReleaseNext(s: OrderState, r: Releasing, bound: int, l: Line, report: ReleasedLine)
    requires WellNumbered(s.lines) && ReleasedUpTo(s, r.order, bound) && r.failure == None
    requires bound < l.lineNo && 1 <= l.lineNo <= |s.lines| && s.lines[l.lineNo - 1].status == Allocated
    requires forall i :: 0 <= i < |s.lines| && bound < i + 1 < l.lineNo ==> s.lines[i].status != Allocated
    ensures ReleaseOne(r, l, report).failure == None
    ensures ReleasedUpTo(s, ReleaseOne(r, l, report).order, l.lineNo)
  {
    LookupByNumber(r.order.lines, l.lineNo);
  }

  lemma {:induction false} ReleaseLinesExactly(s: OrderState, w: seq<Line>, k: nat) returns (r: Releasing)
    requires WellNumbered(s.lines) && Listing(s.lines, w, Allocated) && k <= |w|
    ensures r == ReleaseLines(s, w, k) && r.failure == None
    ensures ReleasedUpTo(s, r.order, Bound(w, k))
  {
    if k == 0 {
      r := ReleaseLines(s, w, k);
    } else {
      var before := ReleaseLinesExactly(s, w, k - 1);
      assert Following(w, k - 1, |s.lines| + 1) == w[k - 1].lineNo;
      ReleaseNext(s, before, Bound(w, k - 1), w[k - 1], Describe(s, w[k - 1]));
      r := ReleaseOne(before, w[k - 1], Describe(s, w[k - 1]));
    }
  }

  lemma {:induction false} ReleaseReportsEachLine(s: OrderState, w: seq<Line>, k: nat)
    requires k <= |w| && ReleaseLines(s, w, k).failure == None
    ensures ReleasedNos(ReleaseLines(s, w, k).released) == LineNos(w)[..k]
  {
    if k > 0 {
      ReleaseReportsEachLine(s, w, k - 1);
    }
  }

  predicate AllAllocatedReleased(ls: seq<Line>, ks: seq<Line>) {
    |ks| == |ls| && forall i :: 0 <= i < |ls| ==>
      ks[i] == if ls[i].status == Allocated then ls[i].(status := Released) else ls[i]
  }

  /** Release is all or nothing behind the gate: either it is shut and nothing moves, or every
      allocated line becomes released and is reported once, in line order. */
  lemma ReleaseIsAllOrNothing(s: OrderState)
    requires WellNumbered(s.lines)
    ensures ReleaseAllocatedLines(s).failure == None
    ensures ReleaseAllocatedLines(s).order == s.(lines := ReleaseAllocatedLines(s).order.lines)
    ensures !Releasable(s) ==> ReleaseAllocatedLines(s).order == s && ReleaseAllocatedLines(s).released == []
    ensures Releasable(s) ==>
              && AllAllocatedReleased(s.lines, ReleaseAllocatedLines(s).order.lines)
              && ReleasedNos(ReleaseAllocatedLines(s).released) == LineNos(WithStatus(s.lines, Allocated))
  {
    var w := WithStatusLists(s.lines, Allocated);
    if Releasable(s) {
      var r := ReleaseLinesExactly(s, w, |w|);
      ReleaseReportsEachLine(s, w, |w|);
      assert LineNos(w)[..|w|] == LineNos(w);
      forall i | 0 <= i < |s.lines| && s.lines[i].status == Allocated
        ensures s.lines[i].lineNo <= Bound(w, |w|)
      {
        assert Following(w, |w|, |s.lines| + 1) == |s.lines| + 1;
      }
    }
  }
}
