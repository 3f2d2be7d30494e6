/** The machine's map of orders is what the three tables hold: saves, guards and the three reads of a
    load agree statement by statement, over every run of the real use cases. */
module TableRefinement {
  import opened Wrappers
  import opened Orders
  import opened Allocation
  import opened PassTheorems
  import opened UseCases
  import opened UseCaseTheorems
  import opened JoinedReceive
  import opened NumberOrder
  import opened OrderSystem
  import opened Serializability
  import opened History
  import OrderRepo

  type Tables = OrderRepo.Tables

  const EMPTY := OrderRepo.Tables(map[], map[], map[])

  /** Every order loads as it is in the map, no other loads, and no child row is without its header. */
  ghost predicate Represents(t: Tables, orders: map<OrderId, OrderState>) {
    && (forall id :: OrderRepo.Find(t, id) == if id in orders then Some(orders[id]) else None)
    && (forall key :: key in t.lines ==> key.id in t.orders)
  }

  // ---------------------------------------------------------------- the statements of a transaction

  /** The version guard of a save sees the same in the tables and in the map. */
  lemma SameGuard(t: Tables, orders: map<OrderId, OrderState>, o: OrderState)
    requires Represents(t, orders)
    ensures o.id in t.orders <==> o.id in orders
    ensures OrderRepo.GuardPasses(t, o) <==> (o.id in orders ==> orders[o.id].version == o.version)
  {
    assert OrderRepo.Find(t, o.id) == if o.id in orders then Some(orders[o.id]) else None;
  }

  /** The order that three queries piece together, each against the tables of its own moment. */
  function Loaded(header: Tables, lines: Tables, groups: Tables, id: OrderId): OrderState
    requires id in header.orders
  {
    var h := header.orders[id];
    OrderState(id, OrderRepo.StoredLines(lines.lines, id), h.allowPartial, h.promiseDate, h.promiseCptId, h.promiseBasis,
      OrderRepo.StoredGroups(groups.groups, id), h.held, h.requiredShipBy, h.version)
  }

  /** The machine's three reads assemble what the repository's three queries load, torn or not. */
  lemma SameLoad(t: Tables, u: Tables, v: Tables, first: map<OrderId, OrderState>, second: map<OrderId, OrderState>,
      third: map<OrderId, OrderState>, id: OrderId)
    requires Represents(t, first) && Represents(u, second) && Represents(v, third)
    requires id in first && id in second && id in third
    ensures id in t.orders && Loaded(t, u, v, id) == Assembled(first[id], second[id].lines, third[id].promiseGroups)
  {
    assert OrderRepo.Find(t, id) == Some(first[id]);
    assert OrderRepo.Find(u, id) == Some(second[id]);
    assert OrderRepo.Find(v, id) == Some(third[id]);
  }

  lemma LoadedFits(t: Tables, s: OrderState, o: OrderState)
    requires OrderRepo.Find(t, o.id) == Some(s) && WellNumbered(s.lines)
    requires o.allowPartial == s.allowPartial && SameGoodsThroughout(s.lines, o.lines)
    ensures OrderRepo.Fits(t, o)
  {
    var nos := InOrder(OrderRepo.Numbers(t.lines, o.id));
    InOrderMembers(OrderRepo.Numbers(t.lines, o.id));
    InOrderAscends(OrderRepo.Numbers(t.lines, o.id));
    forall n | No(n) in OrderRepo.Numbers(t.lines, o.id)
      ensures 1 <= n <= |o.lines| && OrderRepo.SameGoodsRow(o.lines[n - 1], t.lines[OrderRepo.Key(o.id, n)])
    {
      var k :| 0 <= k < |nos| && nos[k] == n;
      assert s.lines[k] == OrderRepo.LineFrom(n, t.lines[OrderRepo.Key(o.id, n)]);
      assert s.lines[k].lineNo == k + 1;
      assert SameGoods(s.lines[k], o.lines[k]);
    }
  }

  lemma AbsentFits(t: Tables, orders: map<OrderId, OrderState>, o: OrderState)
    requires Represents(t, orders) && o.id !in orders
    ensures OrderRepo.Fits(t, o)
  {
    SameGuard(t, orders, o);
    assert forall key :: key in t.lines ==> key.id != o.id;
  }

  /** What a save may assume of the order it replaces. */
  ghost predicate Replaces(orders: map<OrderId, OrderState>, o: OrderState) {
    && WellNumbered(o.lines)
    && (o.id in orders ==>
          && orders[o.id].version == o.version && orders[o.id].allowPartial == o.allowPartial
          && WellNumbered(orders[o.id].lines) && SameGoodsThroughout(orders[o.id].lines, o.lines))
  }

  function Put(orders: map<OrderId, OrderState>, o: OrderState): map<OrderId, OrderState> {
    orders[o.id := if o.id in orders then Bumped(o) else o]
  }

  lemma SavedRowsHaveHeaders(t: Tables, o: OrderState)
    requires OrderRepo.Fits(t, o) && WellNumbered(o.lines)
    requires forall key :: key in t.lines ==> key.id in t.orders
    ensures forall key :: key in OrderRepo.SavedTables(t, o).lines ==> key.id in OrderRepo.SavedTables(t, o).orders
  {
    OrderRepo.UpsertedHolds(t.lines, o.id, o.lines, |o.lines|);
  }

  /** A save in the tables is a write in the map. */
  lemma SaveRefines(t: Tables, orders: map<OrderId, OrderState>, o: OrderState)
    requires Represents(t, orders) && Replaces(orders, o)
    ensures OrderRepo.GuardPasses(t, o) && Represents(OrderRepo.SavedTables(t, o), Put(orders, o))
  {
    SameGuard(t, orders, o);
    if o.id in orders {
      LoadedFits(t, orders[o.id], o);
    } else {
      AbsentFits(t, orders, o);
    }
    SavedRowsHaveHeaders(t, o);
    OrderRepo.FindAfterSave(t, o);
    forall id | id != o.id ensures OrderRepo.Find(OrderRepo.SavedTables(t, o), id) == OrderRepo.Find(t, id) {
      OrderRepo.SaveTouchesOneOrder(t, o, id);
    }
  }

  // ---------------------------------------------------------------- runs

  /** The tables after these saves, one after the other. */
  function SaveEach(t: Tables, stores: seq<OrderState>): Tables {
    if stores == [] then t else OrderRepo.SavedTables(SaveEach(t, stores[..|stores| - 1]), stores[|stores| - 1])
  }

  /** The tables after the saves of the committed transactions. */
  function TablesAfter(hist: seq<Rec>): Tables {
    if hist == [] then EMPTY
    else SaveEach(TablesAfter(hist[..|hist| - 1]), StoresOf(hist[|hist| - 1].plan.effects))
  }

  lemma OneSave(t: Tables, o: OrderState)
    ensures SaveEach(t, [o]) == OrderRepo.SavedTables(t, o)
  {
    assert [o][..0] == [];
    assert SaveEach(t, [o][..0]) == t;
  }

  lemma TwoSaves(t: Tables, s: OrderState, o: OrderState)
    ensures SaveEach(t, [s, o]) == OrderRepo.SavedTables(OrderRepo.SavedTables(t, s), o)
  {
    OneSave(t, s);
    assert [s, o][..1] == [s];
  }

  /** A transaction that works on a stored order saves at most once. */
  lemma PlanStoresOnce(job: Job, s: OrderState)
    requires Lifecycle(s)
    ensures |StoresOf(PlanOf(job, s).effects)| <= 1
  {
    match job
    case Receive(_, _, _, _, _, _, _, env) => PassWritesWhatItReleases(s, WithStatus(s.lines, Pending), false, !s.held, env);
    case Retry(_, env) => PassWritesWhatItReleases(s, WithStatus(s.lines, Backordered), true, !s.held, env);
    case ReleaseHeld(_, env) => PassWritesWhatItReleases(s, [], false, true, env);
    case CancelIt(_, env) => FewWrites(PlanOf(job, s).effects);
    case Repromise(_, _, _, _, _) => FewWrites(PlanOf(job, s).effects);
  }

  lemma FewWrites(effects: seq<Effect>)
    requires |effects| <= 1 || (|effects| == 2 && effects[1].Emit?)
    ensures |StoresOf(effects)| <= 1
  {
    if |effects| == 2 {
      assert effects[..1][..0] == [] && StoresOf(effects[..1][..0]) == [];
      assert |StoresOf(effects[..1])| <= 1;
    } else if |effects| == 1 {
      assert effects[..0] == [] && StoresOf(effects[..0]) == [];
    }
  }

  lemma {:induction false} SavedOrStored(effects: seq<Effect>, base: Option<OrderState>, k: nat)
    requires k <= |effects|
    ensures AfterSaves(effects, base, k).None? <==> StoresOf(effects[..k]) == []
    ensures base.Some? && StoresOf(effects[..k]) != [] ==>
              AfterSaves(effects, base, k) == Some(Bumped(StoresOf(effects[..k])[|StoresOf(effects[..k])| - 1]))
  {
    if k > 0 {
      SavedOrStored(effects, base, k - 1);
      assert effects[..k][..k - 1] == effects[..k - 1];
    }
  }

  lemma UpdateStores(copies: Event -> nat, keyed: bool, orders: map<OrderId, OrderState>, r: Rec) returns (o: OrderState)
    requires Serial(Real(copies, keyed), orders, r) && AllGood(orders) && r.stored.Some? && r.base.Some?
    ensures StoresOf(r.plan.effects) == [o] && r.stored.value == Bumped(o)
  {
    var effects := r.plan.effects;
    SavedOrStored(effects, r.base, |effects|);
    assert effects[..|effects|] == effects;
    PlanStoresOnce(r.job, orders[r.id]);
    o := StoresOf(effects)[0];
  }

  lemma UpdateRefines(copies: Event -> nat, keyed: bool, t: Tables, orders: map<OrderId, OrderState>, r: Rec)
    requires Serial(Real(copies, keyed), orders, r) && AllGood(orders) && r.stored.Some? && r.base.Some?
    requires Represents(t, orders)
    ensures Represents(SaveEach(t, StoresOf(r.plan.effects)), Apply(orders, r))
  {
    var o := UpdateStores(copies, keyed, orders, r);
    var last := SavedStep(copies, keyed, orders, r);
    OneSave(t, o);
    SaveRefines(t, orders, o);
  }

  lemma {:induction false} StoredIsWritten(effects: seq<Effect>, o: OrderState)
    requires o in StoresOf(effects)
    ensures Store(o) in effects
  {
    var n := |effects| - 1;
    if o in StoresOf(effects[..n]) {
      StoredIsWritten(effects[..n], o);
    }
  }

  /** What a request to receive saves: the order as received, and perhaps one update of it. */
  lemma CreationStores(copies: Event -> nat, keyed: bool, orders: map<OrderId, OrderState>, r: Rec, s: OrderState)
    returns (more: seq<OrderState>)
    requires Serial(Real(copies, keyed), orders, r) && r.stored.Some? && r.base.None?
    requires StartOf(r.job, keyed).Create? && s == StartOf(r.job, keyed).order
    ensures StoresOf(r.plan.effects) == [s] + more && |more| <= 1
    ensures r.stored.value == if more == [] then s else Bumped(more[0])
    ensures more != [] ==> more[0].id == s.id && more[0].version == s.version
  {
    var q := IntakeStarts(r.job, keyed);
    if keyed {
      more := KeyedStores(s, r.job.intake, r.job.env);
      KeyedIsHonest(s, r.job.intake, r.job.env);
      if more != [] {
        StoredIsWritten(r.plan.effects, more[0]);
      }
    } else {
      more := [];
      IntakeStores(s, r.job.intake);
      IntakeWrites(s, r.job.intake);
    }
  }

  lemma IntakeStores(s: OrderState, env: Env)
    requires IntakePlan(s, env).verdict == Commit
    ensures StoresOf(IntakePlan(s, env).effects) == [s] + []
  {
    IntakeWritesOnce(s, env);
    assert Unbroken(env) == env;
  }

  lemma CreationRefines(copies: Event -> nat, keyed: bool, t: Tables, orders: map<OrderId, OrderState>, r: Rec)
    requires Serial(Real(copies, keyed), orders, r) && r.stored.Some? && r.base.None?
    requires Represents(t, orders)
    ensures Represents(SaveEach(t, StoresOf(r.plan.effects)), Apply(orders, r))
  {
    var s := CreatedStep(copies, keyed, orders, r);
    var more := CreationStores(copies, keyed, orders, r, s);
    SaveRefines(t, orders, s);
    if more == [] {
      assert [s] + more == [s];
      OneSave(t, s);
    } else {
      assert [s] + more == [s, more[0]];
      TwoSaves(t, s, more[0]);
      SecondSaveRefines(OrderRepo.SavedTables(t, s), orders, s, more[0], r.stored.value);
    }
  }

  lemma SecondSaveRefines(t: Tables, orders: map<OrderId, OrderState>, s: OrderState, o: OrderState, stored: OrderState)
    requires s.id !in orders && Represents(t, orders[s.id := s]) && o.id == s.id && o.version == s.version
    requires stored == Bumped(o) && Follows(s, stored, !s.held) && WellNumbered(s.lines)
    ensures Represents(OrderRepo.SavedTables(t, o), orders[s.id := stored])
  {
    var created := orders[s.id := s];
    assert created[o.id] == s && Put(created, o) == orders[s.id := stored];
    assert SameGoodsThroughout(s.lines, o.lines) && WellNumbered(o.lines) && o.allowPartial == s.allowPartial;
    SaveRefines(t, created, o);
  }

  lemma NothingStored()
    ensures Represents(EMPTY, map[])
  {
  }

  /** The saves of one committed transaction, in the tables, are its one write in the map. */
  lemma RecRefines(copies: Event -> nat, keyed: bool, t: Tables, orders: map<OrderId, OrderState>, r: Rec)
    requires Serial(Real(copies, keyed), orders, r) && AllGood(orders) && Represents(t, orders)
    ensures Represents(SaveEach(t, StoresOf(r.plan.effects)), Apply(orders, r))
  {
    if r.stored.None? {
      var effects := r.plan.effects;
      SavedOrStored(effects, r.base, |effects|);
      assert effects[..|effects|] == effects;
    } else if r.base.Some? {
      UpdateRefines(copies, keyed, t, orders, r);
    } else {
      CreationRefines(copies, keyed, t, orders, r);
    }
  }

  lemma {:induction false} HistoryIsInTheTables(copies: Event -> nat, keyed: bool, hist: seq<Rec>)
    requires SerialHistory(Real(copies, keyed), hist)
    ensures Represents(TablesAfter(hist), Replay(hist))
  {
    if hist == [] {
      NothingStored();
    } else {
      var n := |hist| - 1;
      PrefixIsSerial(Real(copies, keyed), hist);
      ReplayIsGood(copies, keyed, hist[..n]);
      HistoryIsInTheTables(copies, keyed, hist[..n]);
      RecRefines(copies, keyed, TablesAfter(hist[..n]), Replay(hist[..n]), hist[n]);
    }
  }

  /** In every run of the real use cases the three tables, written by nothing but the committed saves,
      load every order exactly as the machine has it committed. */
  lemma TablesHoldEveryRun(copies: Event -> nat, keyed: bool, actions: seq<Action>)
    ensures
      var s := Run(Real(copies, keyed), actions);
      Represents(TablesAfter(s.hist), s.orders)
  {
    RealIsHonest(copies, keyed);
    EveryRunIsSerial(Real(copies, keyed), actions);
    HistoryIsInTheTables(copies, keyed, Run(Real(copies, keyed), actions).hist);
  }

  /** In every run, three reads at three moments, in the tables of those moments, load what the machine
      assembles, and a save of any order passes the guard in the tables exactly when it does in the
      machine. */
  lemma StatementsAgreeInEveryRun(copies: Event -> nat, keyed: bool, first: seq<Action>, second: seq<Action>, third: seq<Action>, id: OrderId, o: OrderState)
    requires id in Run(Real(copies, keyed), first).orders
    ensures
      var s, t, u := Run(Real(copies, keyed), first), Run(Real(copies, keyed), first + second), Run(Real(copies, keyed), first + second + third);
      && id in t.orders && id in u.orders
      && id in TablesAfter(s.hist).orders
      && Loaded(TablesAfter(s.hist), TablesAfter(t.hist), TablesAfter(u.hist), id)
         == Assembled(s.orders[id], t.orders[id].lines, u.orders[id].promiseGroups)
      && (OrderRepo.GuardPasses(TablesAfter(u.hist), o) <==> GuardPasses(Committed(u, o.id), o))
  {
    var s, t, u := Run(Real(copies, keyed), first), Run(Real(copies, keyed), first + second), Run(Real(copies, keyed), first + second + third);
    assert (first + second)[..|first|] == first && (first + second + third)[..|first + second|] == first + second;
    ReleasedIsForever(copies, keyed, first + second, |first|, id);
    ReleasedIsForever(copies, keyed, first + second + third, |first + second|, id);
    TablesHoldEveryRun(copies, keyed, first);
    TablesHoldEveryRun(copies, keyed, first + second);
    TablesHoldEveryRun(copies, keyed, first + second + third);
    SameLoad(TablesAfter(s.hist), TablesAfter(t.hist), TablesAfter(u.hist), s.orders, t.orders, u.orders, id);
    SameGuard(TablesAfter(u.hist), u.orders, o);
  }
}
