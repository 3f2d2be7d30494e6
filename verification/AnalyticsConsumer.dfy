/** The analytics consumer: it records an event id as consumed before it applies the event, so an
    event whose first application fails is never counted. */
module AnalyticsConsumer {
  import A = Analytics
  import opened AnalyticsTheorems

  /** One delivery of a message and what happens to it: whether it is a CloudEvent, whether its type
      projects, whether the id can be recorded, whether the payload decodes and the projection takes it. */
  datatype Delivery = Delivery(cloudEvent: bool, projecting: bool, event: A.Event, records: bool, decodes: bool, applies: bool)

  datatype State = State(consumed: set<string>, store: A.Memory)

  const START := State({}, A.Memory({}, map[]))

  /** Gets as far as the consumed set. */
  predicate Reaches(d: Delivery) {
    d.cloudEvent && d.projecting && d.records
  }

  predicate Lands(d: Delivery) {
    d.decodes && d.applies
  }

  function Handle(s: State, d: Delivery): State {
    if !Reaches(d) || d.event.id in s.consumed then s
    else State(s.consumed + {d.event.id}, if Lands(d) then A.MemoryApply(s.store, d.event) else s.store)
  }

  function After(ds: seq<Delivery>): State {
    if ds == [] then START else Handle(After(ds[..|ds| - 1]), ds[|ds| - 1])
  }

  class Consumer {
    var consumed: set<string>
    var projection: A.MemoryStore

    constructor ()
      ensures fresh(projection) && State(consumed, projection.Contents()) == START
    {
      consumed := {};
      projection := new A.MemoryStore();
    }

    method MarkProcessed(id: string) returns (isNew: bool)
      modifies this`consumed
      ensures isNew == (id !in old(consumed)) && consumed == old(consumed) + {id}
    {
      isNew := id !in consumed;
      consumed := consumed + {id};
    }

    method HandleMessage(d: Delivery) returns (error: bool)
      requires A.WellFormed(d.event)
      modifies this`consumed, projection
      ensures State(consumed, projection.Contents()) == Handle(State(old(consumed), old(projection.Contents())), d)
      ensures error <==> !d.cloudEvent || (d.projecting && (!d.records || (d.event.id !in old(consumed) && !Lands(d))))
    {
      if !d.cloudEvent { return true; }
      if !d.projecting { return false; }
      if !d.records { return true; }
      var isNew := MarkProcessed(d.event.id);
      if !isNew {
        assert consumed == old(consumed);
        return false;
      }
      if !d.decodes || !d.applies { return true; }
      projection.Apply(d.event);
      return false;
    }
  }

  // ---------------------------------------------------------------- what is counted, and what is lost

  /** The first delivery of its event that gets as far as the consumed set. */
  ghost predicate First(ds: seq<Delivery>, i: int) {
    0 <= i < |ds| && Reaches(ds[i]) && forall j :: 0 <= j < i && Reaches(ds[j]) ==> ds[j].event.id != ds[i].event.id
  }

  ghost predicate Counted(ds: seq<Delivery>, id: string) {
    exists i :: First(ds, i) && ds[i].event.id == id && Lands(ds[i])
  }

  lemma FirstStays(ds: seq<Delivery>, d: Delivery, i: int)
    requires 0 <= i < |ds|
    ensures First(ds + [d], i) <==> First(ds, i)
  {
    forall j | 0 <= j < i ensures (ds + [d])[j] == ds[j] {
    }
  }

  lemma CountedGrows(ds: seq<Delivery>, d: Delivery, id: string)
    ensures Counted(ds + [d], id) <==> Counted(ds, id) || (First(ds + [d], |ds|) && d.event.id == id && Lands(d))
  {
    var es := ds + [d];
    if Counted(ds, id) {
      var i :| First(ds, i) && ds[i].event.id == id && Lands(ds[i]);
      FirstStays(ds, d, i);
      assert First(es, i) && es[i] == ds[i];
    }
    if Counted(es, id) {
      var i :| First(es, i) && es[i].event.id == id && Lands(es[i]);
      if i < |ds| {
        FirstStays(ds, d, i);
        assert First(ds, i) && es[i] == ds[i];
      }
    }
  }

  lemma {:induction false} ConsumedMeans(ds: seq<Delivery>, id: string)
    ensures id in After(ds).consumed <==> exists j :: 0 <= j < |ds| && Reaches(ds[j]) && ds[j].event.id == id
  {
    if ds != [] {
      var n := |ds| - 1;
      ConsumedMeans(ds[..n], id);
      forall j | 0 <= j < n ensures ds[..n][j] == ds[j] {
      }
      if id in After(ds[..n]).consumed {
        var j :| 0 <= j < n && Reaches(ds[..n][j]) && ds[..n][j].event.id == id;
        assert Reaches(ds[j]);
      }
    }
  }

  lemma {:induction false} SeenIsConsumed(ds: seq<Delivery>)
    ensures After(ds).store.seen <= After(ds).consumed
  {
    if ds != [] {
      SeenIsConsumed(ds[..|ds| - 1]);
    }
  }

  lemma LastIsFirst(ds: seq<Delivery>)
    requires ds != []
    ensures First(ds, |ds| - 1) <==>
              Reaches(ds[|ds| - 1]) && ds[|ds| - 1].event.id !in After(ds[..|ds| - 1]).consumed
  {
    var n := |ds| - 1;
    ConsumedMeans(ds[..n], ds[n].event.id);
    forall j | 0 <= j < n ensures ds[..n][j] == ds[j] {
    }
    if Reaches(ds[n]) && !First(ds, n) {
      var j :| 0 <= j < n && Reaches(ds[j]) && ds[j].event.id == ds[n].event.id;
      assert Reaches(ds[..n][j]);
    }
  }

  /** An event is in the read model if and only if the first delivery that recorded it also decoded and
      was applied. A later delivery makes no difference, whatever happens to it. */
  lemma {:induction false} CountedIffFirstLands(ds: seq<Delivery>, id: string)
    ensures id in After(ds).store.seen <==> Counted(ds, id)
  {
    if ds != [] {
      var n := |ds| - 1;
      CountedIffFirstLands(ds[..n], id);
      CountedGrows(ds[..n], ds[n], id);
      LastIsFirst(ds);
      SeenIsConsumed(ds[..n]);
      assert ds == ds[..n] + [ds[n]];
    }
  }

  /** A concrete loss: the first delivery is recorded but cannot be applied, the redelivery is perfect,
      and the event is still not counted. */
  lemma RedeliveryDoesNotRepair(e: A.Event)
    ensures
      var failed := Delivery(true, true, e, true, true, false);
      var perfect := Delivery(true, true, e, true, true, true);
      After([failed, perfect]).store.seen == {} && e.id in After([perfect]).store.seen
  {
    var failed := Delivery(true, true, e, true, true, false);
    var perfect := Delivery(true, true, e, true, true, true);
    assert [failed, perfect][..1] == [failed];
    assert [failed][..0] == [] && [perfect][..0] == [];
    assert After([]) == START;
  }

  /** The events of the deliveries that were recorded, in order, duplicates included. */
  function Recorded(ds: seq<Delivery>): seq<A.Event> {
    if ds == [] then []
    else Recorded(ds[..|ds| - 1]) + (if Reaches(ds[|ds| - 1]) then [ds[|ds| - 1].event] else [])
  }

  /** If no first application fails, the read model is that of the recorded stream, in which every
      distinct event counts once. */
  lemma {:induction false} NoFailureNoLoss(ds: seq<Delivery>)
    requires forall i :: First(ds, i) ==> Lands(ds[i])
    ensures After(ds).store == MemoryAfter(Recorded(ds))
    ensures After(ds).store.seen == After(ds).consumed
  {
    if ds != [] {
      var n := |ds| - 1;
      var init, d := ds[..n], ds[n];
      assert ds == init + [d];
      forall i | First(init, i) ensures Lands(init[i]) {
        FirstStays(init, d, i);
        assert First(ds, i) && ds[i] == init[i];
      }
      NoFailureNoLoss(init);
      LastIsFirst(ds);
      if Reaches(d) {
        assert Recorded(ds)[..|Recorded(ds)| - 1] == Recorded(init);
        assert First(ds, n) ==> Lands(d);
      } else {
        assert Recorded(ds) == Recorded(init);
      }
    }
  }
}
