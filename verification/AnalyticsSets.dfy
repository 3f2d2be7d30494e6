/** The read model depends only on the set of distinct events: duplicates and order do not matter,
    and every counter is the number of the events that move it. */
module AnalyticsSets {
  import A = Analytics
  import opened AnalyticsTheorems

  /** A redelivery carries the same event under the same id. */
  ghost predicate Consistent(events: seq<A.Event>) {
    forall x, y :: x in events && y in events && x.id == y.id ==> x == y
  }

  predicate AllWellFormed(events: seq<A.Event>) {
    forall i :: 0 <= i < |events| ==> A.WellFormed(events[i])
  }

  function EventSet(events: seq<A.Event>): set<A.Event> {
    set e | e in events
  }

  function OfRow(s: set<A.Event>, k: A.RowKey): set<A.Event> {
    set e | e in s && A.KeyOf(e) == k
  }

  function MovedBy(s: set<A.Event>, k: A.RowKey, c: A.Column): set<A.Event> {
    set e | e in s && A.KeyOf(e) == k && A.Moves(e, c)
  }

  function WithGap(s: set<A.Event>, k: A.RowKey): set<A.Event> {
    set e | e in s && A.KeyOf(e) == k && A.HasGap(e)
  }

  /** The sum of the gaps of a set of events. */
  ghost function SumGaps(s: set<A.Event>): real {
    if s == {} then 0.0
    else
      var e :| e in s;
      A.Gap(e) + SumGaps(s - {e})
  }

  /** It does not matter which event is taken first. */
  lemma {:induction false} SumSplits(s: set<A.Event>, e: A.Event)
    requires e in s
    ensures SumGaps(s) == A.Gap(e) + SumGaps(s - {e})
  {
    var x :| x in s && SumGaps(s) == A.Gap(x) + SumGaps(s - {x});
    if x != e {
      SumSplits(s - {x}, e);
      SumSplits(s - {e}, x);
      assert s - {x} - {e} == s - {e} - {x};
    }
  }

  // ---------------------------------------------------------------- what a row holds

  /** The row of `k` counts exactly the events in `s` that belong to it. */
  ghost predicate RowCounts(s: set<A.Event>, k: A.RowKey, a: A.Acc) {
    && (forall c :: A.Value(a, c) == |MovedBy(s, k, c)|)
    && a.funnel.gapSum == SumGaps(OfRow(s, k))
    && a.funnel.gapSamples == |WithGap(s, k)|
  }

  ghost predicate CountsExactly(m: A.Memory, s: set<A.Event>) {
    && (forall id :: id in m.seen <==> exists e :: e in s && e.id == id)
    && (forall k :: k in m.rows <==> OfRow(s, k) != {})
    && (forall k :: k in m.rows ==> RowCounts(s, k, m.rows[k]))
  }

  lemma CountedMoves(a: A.Acc, e: A.Event, c: A.Column)
    requires A.WellFormed(e)
    ensures A.Value(A.Counted(a, e), c) == A.Value(a, c) + (if A.Moves(e, c) then 1 else 0)
  {
    match e.fact
    case Simple(_) =>
    case Outcome(_, _, _, _) => OutcomeMoves(a, e, c);
    case Moved =>
  }

  lemma OutcomeMoves(a: A.Acc, e: A.Event, c: A.Column)
    requires A.WellFormed(e) && e.fact.Outcome?
    ensures A.Value(A.Counted(a, e), c) == A.Value(a, c) + (if A.Moves(e, c) then 1 else 0)
  {
  }

  lemma BumpKeepsGap(f: A.Funnel, c: A.Column)
    ensures A.Bump(f, c).gapSum == f.gapSum && A.Bump(f, c).gapSamples == f.gapSamples
  {
  }

  lemma PromiseGap(f: A.Funnel, e: A.Event)
    requires e.fact.Outcome?
    ensures A.WithPromiseFacts(f, e).gapSum == f.gapSum + A.Gap(e)
    ensures A.WithPromiseFacts(f, e).gapSamples == f.gapSamples + (if A.HasGap(e) then 1 else 0)
  {
  }

  lemma CountedGap(a: A.Acc, e: A.Event)
    ensures A.Counted(a, e).funnel.gapSum == a.funnel.gapSum + A.Gap(e)
    ensures A.Counted(a, e).funnel.gapSamples == a.funnel.gapSamples + (if A.HasGap(e) then 1 else 0)
  {
    match e.fact
    case Simple(c) => BumpKeepsGap(a.funnel, c);
    case Moved =>
    case Outcome(c, _, _, _) =>
      BumpKeepsGap(a.funnel, c);
      PromiseGap(A.Bump(a.funnel, c), e);
  }

  lemma OneMore(s: set<A.Event>, e: A.Event, k: A.RowKey)
    requires e !in s
    ensures A.KeyOf(e) != k ==>
              OfRow(s + {e}, k) == OfRow(s, k) && WithGap(s + {e}, k) == WithGap(s, k)
              && forall c :: MovedBy(s + {e}, k, c) == MovedBy(s, k, c)
    ensures A.KeyOf(e) == k ==> OfRow(s + {e}, k) == OfRow(s, k) + {e}
  {
  }

  lemma OneMoreMoves(s: set<A.Event>, e: A.Event, c: A.Column)
    requires e !in s
    ensures |MovedBy(s + {e}, A.KeyOf(e), c)| == |MovedBy(s, A.KeyOf(e), c)| + (if A.Moves(e, c) then 1 else 0)
  {
    var k := A.KeyOf(e);
    if A.Moves(e, c) {
      assert MovedBy(s + {e}, k, c) == MovedBy(s, k, c) + {e};
    } else {
      assert MovedBy(s + {e}, k, c) == MovedBy(s, k, c);
    }
  }

  lemma OneMoreGap(s: set<A.Event>, e: A.Event)
    requires e !in s
    ensures |WithGap(s + {e}, A.KeyOf(e))| == |WithGap(s, A.KeyOf(e))| + (if A.HasGap(e) then 1 else 0)
    ensures SumGaps(OfRow(s + {e}, A.KeyOf(e))) == SumGaps(OfRow(s, A.KeyOf(e))) + A.Gap(e)
  {
    var k := A.KeyOf(e);
    if A.HasGap(e) {
      assert WithGap(s + {e}, k) == WithGap(s, k) + {e};
    } else {
      assert WithGap(s + {e}, k) == WithGap(s, k);
    }
    SumSplits(OfRow(s + {e}, k), e);
    assert OfRow(s + {e}, k) - {e} == OfRow(s, k);
  }

  lemma EmptyRow(s: set<A.Event>, k: A.RowKey)
    requires OfRow(s, k) == {}
    ensures RowCounts(s, k, A.Acc(A.ZERO, 0))
  {
    forall e | e in s ensures A.KeyOf(e) != k {
      assert e !in OfRow(s, k);
    }
    assert WithGap(s, k) == {};
    forall c ensures A.Value(A.Acc(A.ZERO, 0), c) == |MovedBy(s, k, c)| {
      assert MovedBy(s, k, c) == {};
    }
  }

  lemma RowCountsOneMore(s: set<A.Event>, e: A.Event, a: A.Acc)
    requires e !in s && A.WellFormed(e) && RowCounts(s, A.KeyOf(e), a)
    ensures RowCounts(s + {e}, A.KeyOf(e), A.Counted(a, e))
  {
    forall c ensures A.Value(A.Counted(a, e), c) == |MovedBy(s + {e}, A.KeyOf(e), c)| {
      CountedMoves(a, e, c);
      OneMoreMoves(s, e, c);
    }
    CountedGap(a, e);
    OneMoreGap(s, e);
  }

  lemma RowCountsElsewhere(s: set<A.Event>, e: A.Event, k: A.RowKey, a: A.Acc)
    requires e !in s && k != A.KeyOf(e) && RowCounts(s, k, a)
    ensures RowCounts(s + {e}, k, a)
  {
    OneMore(s, e, k);
  }

  lemma NewEventCounts(m: A.Memory, s: set<A.Event>, e: A.Event)
    requires CountsExactly(m, s) && A.WellFormed(e) && e.id !in m.seen
    ensures CountsExactly(A.MemoryApply(m, e), s + {e})
  {
    assert e !in s;
    var n := A.MemoryApply(m, e);
    var at := A.KeyOf(e);
    if at !in m.rows {
      EmptyRow(s, at);
    }
    RowCountsOneMore(s, e, A.RowIn(m.rows, at));
    forall k ensures k in n.rows <==> OfRow(s + {e}, k) != {} {
      OneMore(s, e, k);
    }
    forall k | k in n.rows ensures RowCounts(s + {e}, k, n.rows[k]) {
      if k != at {
        RowCountsElsewhere(s, e, k, m.rows[k]);
      }
    }
  }

  /** After any stream, with whatever duplicates and in whatever order, every counter of every row is
      the number of distinct events that move it there, and every gap sum is the sum over them. */
  lemma {:induction false} StreamCounts(events: seq<A.Event>)
    requires Consistent(events) && AllWellFormed(events)
    ensures CountsExactly(MemoryAfter(events), EventSet(events))
  {
    if events != [] {
      var n := |events| - 1;
      var init, e := events[..n], events[n];
      assert events == init + [e];
      StreamCounts(init);
      var m := MemoryAfter(init);
      assert EventSet(events) == EventSet(init) + {e};
      if e.id in m.seen {
        var x :| x in EventSet(init) && x.id == e.id;
        assert x in events && e in events;
        assert EventSet(events) == EventSet(init);
      } else {
        NewEventCounts(m, EventSet(init), e);
      }
    }
  }

  lemma SameAcc(a: A.Acc, b: A.Acc)
    requires forall c :: A.Value(a, c) == A.Value(b, c)
    requires a.funnel.gapSum == b.funnel.gapSum && a.funnel.gapSamples == b.funnel.gapSamples
    ensures a == b
  {
    assert A.Value(a, A.Received) == A.Value(b, A.Received);
    assert A.Value(a, A.Allocated_) == A.Value(b, A.Allocated_);
    assert A.Value(a, A.PartiallyAllocated) == A.Value(b, A.PartiallyAllocated);
    assert A.Value(a, A.AllocationFailed) == A.Value(b, A.AllocationFailed);
    assert A.Value(a, A.Released_) == A.Value(b, A.Released_);
    assert A.Value(a, A.Cancelled_) == A.Value(b, A.Cancelled_);
    assert A.Value(a, A.LineAllocated) == A.Value(b, A.LineAllocated);
    assert A.Value(a, A.LineBackordered) == A.Value(b, A.LineBackordered);
    assert A.Value(a, A.LineReleased) == A.Value(b, A.LineReleased);
    assert A.Value(a, A.Repromised) == A.Value(b, A.Repromised);
    assert A.Value(a, A.BasisCapability) == A.Value(b, A.BasisCapability);
    assert A.Value(a, A.BasisLeadTime) == A.Value(b, A.BasisLeadTime);
    assert A.Value(a, A.Split) == A.Value(b, A.Split);
  }

  /** Two streams with the same distinct events leave the same rows. */
  lemma OrderAndDuplicatesDoNotMatter(xs: seq<A.Event>, ys: seq<A.Event>)
    requires Consistent(xs) && AllWellFormed(xs) && Consistent(ys) && AllWellFormed(ys)
    requires EventSet(xs) == EventSet(ys)
    ensures MemoryAfter(xs).rows == MemoryAfter(ys).rows
  {
    StreamCounts(xs);
    StreamCounts(ys);
    var s := EventSet(xs);
    var m, n := MemoryAfter(xs), MemoryAfter(ys);
    forall k | k in m.rows ensures k in n.rows && m.rows[k] == n.rows[k] {
      assert RowCounts(s, k, m.rows[k]) && RowCounts(s, k, n.rows[k]);
      SameAcc(m.rows[k], n.rows[k]);
    }
  }

  // ---------------------------------------------------------------- totals

  /** The ten stage counters of a row, together. */
  function Stages(a: A.Acc): nat {
    a.funnel.received + a.funnel.allocated_ + a.funnel.partially + a.funnel.failed + a.funnel.released
    + a.funnel.cancelled + a.funnel.lineAllocated + a.funnel.lineBackordered + a.funnel.lineReleased + a.repromised
  }

  ghost function Total(rows: map<A.RowKey, A.Acc>): nat {
    if rows == map[] then 0
    else
      var k :| k in rows;
      Stages(rows[k]) + Total(rows - {k})
  }

  lemma {:induction false} TotalSplits(rows: map<A.RowKey, A.Acc>, k: A.RowKey)
    requires k in rows
    ensures Total(rows) == Stages(rows[k]) + Total(rows - {k})
    decreases |rows|
  {
    var x :| x in rows && Total(rows) == Stages(rows[x]) + Total(rows - {x});
    if x != k {
      assert (rows - {x}).Keys < rows.Keys && (rows - {k}).Keys < rows.Keys;
      Fewer(rows, x);
      Fewer(rows, k);
      TotalSplits(rows - {x}, k);
      TotalSplits(rows - {k}, x);
      assert rows - {x} - {k} == rows - {k} - {x};
    }
  }

  lemma Fewer(rows: map<A.RowKey, A.Acc>, k: A.RowKey)
    requires k in rows
    ensures |rows - {k}| < |rows|
  {
    assert (rows - {k}).Keys == rows.Keys - {k};
  }

  lemma CountedStage(a: A.Acc, e: A.Event)
    requires A.WellFormed(e)
    ensures Stages(A.Counted(a, e)) == Stages(a) + 1
  {
  }

  lemma TotalOneMore(rows: map<A.RowKey, A.Acc>, e: A.Event)
    requires A.WellFormed(e)
    ensures Total(rows[A.KeyOf(e) := A.Counted(A.RowIn(rows, A.KeyOf(e)), e)]) == Total(rows) + 1
  {
    var k := A.KeyOf(e);
    var after := rows[k := A.Counted(A.RowIn(rows, k), e)];
    CountedStage(A.RowIn(rows, k), e);
    TotalSplits(after, k);
    if k in rows {
      TotalSplits(rows, k);
      assert after - {k} == rows - {k};
    } else {
      assert after - {k} == rows;
    }
  }

  /** Every distinct event is counted in exactly one stage of one row: over all rows the stage
      counters add up to the number of distinct event ids. */
  lemma {:induction false} StagesAddUpToDistinctIds(events: seq<A.Event>)
    requires AllWellFormed(events)
    ensures Total(MemoryAfter(events).rows) == |MemoryAfter(events).seen|
    ensures MemoryAfter(events).seen == set e | e in events :: e.id
  {
    if events != [] {
      var n := |events| - 1;
      assert events == events[..n] + [events[n]];
      StagesAddUpToDistinctIds(events[..n]);
      if events[n].id !in MemoryAfter(events[..n]).seen {
        TotalOneMore(MemoryAfter(events[..n]).rows, events[n]);
      }
    }
  }
}
