/** The two read models answer every query alike, over every stream of events. */
module AnalyticsTheorems {
  import A = Analytics

  // ---------------------------------------------------------------- both stores agree

  /** The single map is the join of the two tables. */
  ghost predicate Agree(m: A.Memory, t: A.Tables) {
    && m.seen == t.processed
    && (forall k :: k in m.rows <==> k in t.funnel || (k.pathId == "" && k.hour in t.repromise))
    && (forall k :: k in m.rows ==> m.rows[k].funnel == A.FunnelIn(t.funnel, k))
    && (forall k :: k in m.rows ==> m.rows[k].repromised == if k.pathId == "" then A.RepromisesIn(t.repromise, k.hour) else 0)
  }

  lemma RepromisedUnchanged(a: A.Acc, e: A.Event)
    requires !e.fact.Moved?
    ensures A.Counted(a, e).repromised == a.repromised
    ensures forall n: nat :: A.Counted(a.(repromised := n), e).funnel == A.Counted(a, e).funnel
  {
  }

  lemma ApplyAgrees(m: A.Memory, t: A.Tables, e: A.Event)
    requires Agree(m, t)
    ensures Agree(A.MemoryApply(m, e), A.TablesApply(t, e))
  {
    if e.id !in m.seen {
      var k := A.KeyOf(e);
      var a := A.RowIn(m.rows, k);
      assert a.funnel == A.FunnelIn(t.funnel, k);
      if !e.fact.Moved? {
        RepromisedUnchanged(a, e);
        assert a == A.Acc(A.FunnelIn(t.funnel, k), 0).(repromised := a.repromised);
        RepromisedUnchanged(A.Acc(A.FunnelIn(t.funnel, k), 0), e);
      }
    }
  }

  function MemoryAfter(events: seq<A.Event>): A.Memory {
    if events == [] then A.Memory({}, map[])
    else A.MemoryApply(MemoryAfter(events[..|events| - 1]), events[|events| - 1])
  }

  function TablesAfter(events: seq<A.Event>): A.Tables {
    if events == [] then A.Tables({}, map[], map[])
    else A.TablesApply(TablesAfter(events[..|events| - 1]), events[|events| - 1])
  }

  lemma {:induction false} StreamsAgree(events: seq<A.Event>)
    ensures Agree(MemoryAfter(events), TablesAfter(events))
  {
    if events != [] {
      StreamsAgree(events[..|events| - 1]);
      ApplyAgrees(MemoryAfter(events[..|events| - 1]), TablesAfter(events[..|events| - 1]), events[|events| - 1]);
    }
  }

  lemma QueriesAgree(m: A.Memory, t: A.Tables, q: A.Query)
    requires Agree(m, t)
    ensures A.MemoryQuery(m, q) == A.TablesQuery(t, q)
  {
    forall r | r in A.MemoryQuery(m, q) ensures r in A.TablesQuery(t, q) {
      var k :| k in m.rows && A.Matches(q, k) && r == A.RowOf(k, m.rows[k].funnel, m.rows[k].repromised);
      if k in t.funnel {
        assert r in A.FunnelPart(t, q);
      } else {
        assert k == A.RowKey("", k.hour);
        assert r in A.RepromiseOnlyPart(t, q);
      }
    }
    forall r | r in A.FunnelPart(t, q) ensures r in A.MemoryQuery(m, q) {
      var k :| k in t.funnel && A.Matches(q, k)
               && r == A.RowOf(k, t.funnel[k], if k.pathId == "" then A.RepromisesIn(t.repromise, k.hour) else 0);
      assert k in m.rows;
    }
    forall r | r in A.RepromiseOnlyPart(t, q) ensures r in A.MemoryQuery(m, q) {
      var h :| h in t.repromise && A.InWindow(q, h) && q.pathId == "" && A.RowKey("", h) !in t.funnel
               && r == A.RowOf(A.RowKey("", h), A.ZERO, t.repromise[h]);
      assert A.RowKey("", h) in m.rows;
    }
  }

  /** For every event stream, window and path filter, the join and UNION ALL of the two tables gives
      exactly the rows of the single map. */
  lemma ProjectionEqualsMemory(events: seq<A.Event>, q: A.Query)
    ensures A.TablesQuery(TablesAfter(events), q) == A.MemoryQuery(MemoryAfter(events), q)
  {
    StreamsAgree(events);
    QueriesAgree(MemoryAfter(events), TablesAfter(events), q);
  }

  /** UNION ALL keeps duplicates, but there are none: a key comes from one part only, and once. */
  lemma UnionHasNoDuplicates(t: A.Tables, q: A.Query)
    ensures A.FunnelPart(t, q) !! A.RepromiseOnlyPart(t, q)
    ensures forall r1, r2 :: r1 in A.TablesQuery(t, q) && r2 in A.TablesQuery(t, q) && r1.key == r2.key ==> r1 == r2
  {
    forall r | r in A.FunnelPart(t, q) ensures r.key in t.funnel {
    }
    forall r | r in A.RepromiseOnlyPart(t, q) ensures r.key !in t.funnel {
    }
  }
}
