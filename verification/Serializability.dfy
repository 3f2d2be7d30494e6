/** Every committed order is one use case applied to exactly the previously committed order. */
module Serializability {
  import opened Wrappers
  import opened Orders
  import opened Allocation
  import opened UseCases
  import opened OrderSystem

  /** What the machine relies on about use cases: none changes the id or the version of the order it
      works on; only a save moves the version. */
  ghost predicate Honest(cfg: Config) {
    && (forall job, s :: SavesUnder(cfg.plan(job, s).effects, s.id, s.version))
    && (forall job :: FirstIsHonest(cfg.start(job)))
  }

  ghost predicate FirstIsHonest(start: Start) {
    start.Create? ==> SavesUnder(start.first.effects, start.order.id, start.order.version)
  }

  // ---------------------------------------------------------------- the serial history

  /** The orders after executing committed transactions one after the other. */
  function Replay(hist: seq<Rec>): map<OrderId, OrderState> {
    if hist == [] then map[] else Apply(Replay(hist[..|hist| - 1]), hist[|hist| - 1])
  }

  /** The transaction did what its use case does with `base`. */
  ghost predicate FromPlan(cfg: Config, job: Job, id: OrderId, base: Option<OrderState>, plan: Plan) {
    match base
    case Some(b) => b.id == id && plan == cfg.plan(job, b)
    case None =>
      || (cfg.start(job).Create? && cfg.start(job).order.id == id && plan == cfg.start(job).first)
      || (cfg.start(job).Load? && plan.effects == [])
  }

  /** A transaction is serial after `orders`: if it stored an order, then either it created it, or
      it applied its use case to exactly the order in `orders` and moved the version up by one. */
  ghost predicate Serial(cfg: Config, orders: map<OrderId, OrderState>, r: Rec) {
    && FromPlan(cfg, r.job, r.id, r.base, r.plan)
    && r.plan.verdict == Commit
    && r.stored == AfterSaves(r.plan.effects, r.base, |r.plan.effects|)
    && (r.stored.Some? ==>
          && r.stored.value.id == r.id
          && (r.base.None? ==> r.id !in orders)
          && (r.base.Some? ==> r.id in orders && orders[r.id] == r.base.value)
          && (r.base.Some? ==> r.stored.value.version == r.base.value.version + 1))
  }

  ghost predicate SerialHistory(cfg: Config, hist: seq<Rec>) {
    forall k :: 0 <= k < |hist| ==> Serial(cfg, Replay(hist[..k]), hist[k])
  }

  // ---------------------------------------------------------------- what is known of a client

  /** A read of an order: it may be out of date, but not if the version has not moved since. */
  predicate ReadBefore(orders: map<OrderId, OrderState>, id: OrderId, version: int) {
    id in orders && version <= orders[id].version
  }

  predicate Unmoved(orders: map<OrderId, OrderState>, id: OrderId, version: int) {
    id in orders && version == orders[id].version
  }

  predicate Creating(cfg: Config, c: Client) {
    c.Running? && c.txn.base.None? && cfg.start(c.job).Create?
  }

  ghost predicate TxnOk(cfg: Config, orders: map<OrderId, OrderState>, minted: set<OrderId>, job: Job, t: Txn) {
    && FromPlan(cfg, job, t.id, t.base, t.plan)
    && t.pc <= |t.plan.effects|
    && (t.base.Some? ==> ReadBefore(orders, t.id, t.base.value.version))
    && (t.base.Some? && Unmoved(orders, t.id, t.base.value.version) ==> orders[t.id] == t.base.value)
    && (t.base.None? && cfg.start(job).Create? ==> t.id in minted && t.id !in orders)
    && t.stored == AfterSaves(t.plan.effects, t.base, t.pc)
    && (t.stored.Some? ==>
          && t.stored.value.id == t.id
          && (t.base.Some? ==> Unmoved(orders, t.id, t.base.value.version))
          && (t.base.Some? ==> t.stored.value.version == t.base.value.version + 1))
  }

  ghost predicate ClientOk(cfg: Config, orders: map<OrderId, OrderState>, minted: set<OrderId>, c: Client) {
    match c
    case GotHeader(_, _, header, _) =>
      ReadBefore(orders, header.id, header.version)
      && (Unmoved(orders, header.id, header.version) ==> header == orders[header.id])
    case GotLines(_, _, header, lines, _) =>
      ReadBefore(orders, header.id, header.version)
      && (Unmoved(orders, header.id, header.version) ==> header == orders[header.id] && lines == orders[header.id].lines)
    case Running(job, t) => TxnOk(cfg, orders, minted, job, t)
    case _ => true
  }

  ghost predicate Exclusive(clients: seq<Client>) {
    forall i, j, id | 0 <= i < |clients| && 0 <= j < |clients| ::
      HoldsOrder(clients[i], id) && HoldsOrder(clients[j], id) ==> i == j
  }

  ghost predicate DistinctCreators(cfg: Config, clients: seq<Client>) {
    forall i, j | 0 <= i < |clients| && 0 <= j < |clients| ::
      Creating(cfg, clients[i]) && Creating(cfg, clients[j]) && clients[i].txn.id == clients[j].txn.id ==> i == j
  }

  ghost predicate ClientsOk(cfg: Config, s: Sys) {
    && (forall i :: 0 <= i < |s.clients| ==> ClientOk(cfg, s.orders, s.minted, s.clients[i]))
    && Exclusive(s.clients)
    && DistinctCreators(cfg, s.clients)
  }

  ghost predicate HistoryOk(cfg: Config, s: Sys) {
    && SerialHistory(cfg, s.hist)
    && s.orders == Replay(s.hist)
    && (forall id :: id in s.orders ==> s.orders[id].id == id && id in s.minted)
  }

  ghost predicate Inv(cfg: Config, s: Sys) {
    HistoryOk(cfg, s) && ClientsOk(cfg, s)
  }

  // ---------------------------------------------------------------- steps that commit nothing

  lemma Replaced(cfg: Config, s: Sys, i: nat, c: Client)
    requires Inv(cfg, s) && i < |s.clients|
    requires ClientOk(cfg, s.orders, s.minted, c)
    requires forall id :: HoldsOrder(c, id) ==> HoldsOrder(s.clients[i], id) || !OrderLocked(s, id)
    requires Creating(cfg, c) ==> Creating(cfg, s.clients[i]) && c.txn.id == s.clients[i].txn.id
    ensures Inv(cfg, SetClient(s, i, c))
  {
    var t := SetClient(s, i, c);
    forall j, id | 0 <= j < |t.clients| && j != i && HoldsOrder(t.clients[j], id) ensures !HoldsOrder(c, id) {
      assert HoldsOrder(s.clients[j], id);
    }
  }

  lemma MoreMinted(cfg: Config, s: Sys, minted: set<OrderId>, nextId: nat)
    requires Inv(cfg, s) && s.minted <= minted
    ensures Inv(cfg, s.(minted := minted, nextId := nextId))
  {
    forall i | 0 <= i < |s.clients| ensures ClientOk(cfg, s.orders, minted, s.clients[i]) {
      assert ClientOk(cfg, s.orders, s.minted, s.clients[i]);
    }
  }

  lemma BeginKeeps(cfg: Config, s: Sys, i: nat)
    requires Inv(cfg, s) && i < |s.clients| && s.clients[i].Waiting?
    ensures Inv(cfg, BeginStep(cfg, s, i))
  {
    var job := s.clients[i].job;
    match cfg.start(job)
    case Refuse => Replaced(cfg, s, i, Done);
    case Load(_, None) =>
    case Load(_, Some(m)) =>
      Replaced(cfg, s, i, Done);
      Replaced(cfg, s, i, Marked(job, m));
    case Create(order, first, _) =>
      if order.id !in s.minted {
        CreateKeeps(cfg, s, i, order, first);
      }
  }

  lemma CreateKeeps(cfg: Config, s: Sys, i: nat, order: OrderState, first: Plan)
    requires Inv(cfg, s) && i < |s.clients| && s.clients[i].Waiting?
    requires cfg.start(s.clients[i].job).Create? && cfg.start(s.clients[i].job).order == order
    requires cfg.start(s.clients[i].job).first == first && order.id !in s.minted
    ensures Inv(cfg, BeginStep(cfg, s, i))
  {
    var minted := s.minted + {order.id};
    MoreMinted(cfg, s, minted, s.nextId);
    var t := BeginStep(cfg, s, i);
    var c := t.clients[i];
    assert ClientOk(cfg, s.orders, minted, c);
    forall j | 0 <= j < |s.clients| && Creating(cfg, s.clients[j]) ensures s.clients[j].txn.id != order.id {
      assert ClientOk(cfg, s.orders, s.minted, s.clients[j]);
    }
    forall j, id | 0 <= j < |t.clients| && HoldsOrder(t.clients[j], id) ensures j != i && HoldsOrder(s.clients[j], id) {
    }
  }

  lemma HeaderKeeps(cfg: Config, s: Sys, i: nat)
    requires Inv(cfg, s) && i < |s.clients| && (s.clients[i].Waiting? || s.clients[i].Marked?)
    ensures Inv(cfg, HeaderStep(cfg, s, i))
  {
    var c := s.clients[i];
    if cfg.start(c.job).Load? {
      var id, mark := cfg.start(c.job).id, cfg.start(c.job).mark;
      Replaced(cfg, s, i, Done);
      Replaced(cfg, s, i, Running(c.job, Txn0(id, None, mark, s.nextId, Plan([], Commit))));
      if id in s.orders {
        Replaced(cfg, s, i, GotHeader(c.job, mark, s.orders[id], s.nextId));
      }
    }
  }

  lemma LinesKeep(cfg: Config, s: Sys, i: nat)
    requires Inv(cfg, s) && i < |s.clients| && s.clients[i].GotHeader?
    ensures Inv(cfg, LinesStep(s, i))
  {
    var c := s.clients[i];
    assert ClientOk(cfg, s.orders, s.minted, c);
    Replaced(cfg, s, i, GotLines(c.job, c.mark, c.header, s.orders[c.header.id].lines, c.floor));
  }

  /** A load pieced together from three reads is the committed order, or is out of date and says so
      by its version. */
  lemma GroupsKeep(cfg: Config, s: Sys, i: nat)
    requires Inv(cfg, s) && i < |s.clients| && s.clients[i].GotLines?
    ensures Inv(cfg, GroupsStep(cfg, s, i))
  {
    var c := s.clients[i];
    assert ClientOk(cfg, s.orders, s.minted, c);
    var t := GroupsStep(cfg, s, i);
    assert ClientOk(cfg, s.orders, s.minted, t.clients[i]);
    Replaced(cfg, s, i, t.clients[i]);
  }

  lemma {:induction false} EmitKeeps(cfg: Config, s: Sys, i: nat, e: Event)
    requires Honest(cfg) && Inv(cfg, s)
    requires i < |s.clients| && s.clients[i].Running? && s.clients[i].txn.pc < |s.clients[i].txn.plan.effects|
    requires s.clients[i].txn.plan.effects[s.clients[i].txn.pc] == Emit(e)
    ensures Inv(cfg, ExecStep(cfg, s, i))
  {
    var d := EmitMoves(cfg, s, i, e);
    ReplacedNext(cfg, s, i, d, s.nextId + cfg.copies(e));
  }

  lemma {:induction false} EmitMoves(cfg: Config, s: Sys, i: nat, e: Event) returns (d: Client)
    requires ClientsOk(cfg, s)
    requires i < |s.clients| && s.clients[i].Running? && s.clients[i].txn.pc < |s.clients[i].txn.plan.effects|
    requires s.clients[i].txn.plan.effects[s.clients[i].txn.pc] == Emit(e)
    ensures ExecStep(cfg, s, i) == SetClient(s, i, d).(nextId := s.nextId + cfg.copies(e))
    ensures ClientOk(cfg, s.orders, s.minted, d) && forall id :: HoldsOrder(d, id) ==> HoldsOrder(s.clients[i], id)
    ensures Creating(cfg, d) ==> Creating(cfg, s.clients[i]) && d.txn.id == s.clients[i].txn.id
  {
    var c := s.clients[i];
    assert ClientOk(cfg, s.orders, s.minted, c);
    var rows := c.txn.rows + Fresh(s.nextId, e, cfg.copies(e));
    EmitIsOk(cfg, s.orders, s.minted, c.job, c.txn, e, rows);
    d := Running(c.job, c.txn.(pc := c.txn.pc + 1, rows := rows));
  }

  lemma ReplacedNext(cfg: Config, s: Sys, i: nat, d: Client, nextId: nat)
    requires Inv(cfg, s) && i < |s.clients| && ClientOk(cfg, s.orders, s.minted, d)
    requires forall id :: HoldsOrder(d, id) ==> HoldsOrder(s.clients[i], id)
    requires Creating(cfg, d) ==> Creating(cfg, s.clients[i]) && d.txn.id == s.clients[i].txn.id
    ensures Inv(cfg, SetClient(s, i, d).(nextId := nextId))
  {
    Replaced(cfg, s, i, d);
    MoreMinted(cfg, SetClient(s, i, d), s.minted, nextId);
  }

  lemma {:induction false} EmitIsOk(cfg: Config, orders: map<OrderId, OrderState>, minted: set<OrderId>, job: Job, t: Txn, e: Event, rows: seq<Row>)
    requires TxnOk(cfg, orders, minted, job, t) && t.pc < |t.plan.effects| && t.plan.effects[t.pc] == Emit(e)
    ensures TxnOk(cfg, orders, minted, job, t.(pc := t.pc + 1, rows := rows))
  {
  }

  /** A save that the guard lets through leaves a client that holds the row. */
  lemma {:induction false} SavedKeeps(cfg: Config, s: Sys, i: nat, o: OrderState)
    requires Honest(cfg) && Inv(cfg, s) && i < |s.clients| && s.clients[i].Running?
    requires s.clients[i].txn.pc < |s.clients[i].txn.plan.effects|
    requires s.clients[i].txn.plan.effects[s.clients[i].txn.pc] == Store(o)
    requires OrderLocked(s, o.id) ==> HoldsOrder(s.clients[i], o.id)
    requires GuardPasses(Visible(s, s.clients[i].txn, o.id), o)
    ensures
      var t := s.clients[i].txn;
      var d := t.(pc := t.pc + 1, stored := Some(Written(Visible(s, t, o.id), o)));
      Inv(cfg, SetClient(s, i, Running(s.clients[i].job, d)))
  {
    var c := s.clients[i];
    assert ClientOk(cfg, s.orders, s.minted, c);
    SaveIsOk(cfg, s, c.job, c.txn, o);
    Replaced(cfg, s, i, Running(c.job, c.txn.(pc := c.txn.pc + 1, stored := Some(Written(Visible(s, c.txn, o.id), o)))));
  }

  lemma {:induction false} SaveKeeps(cfg: Config, s: Sys, i: nat, o: OrderState)
    requires Honest(cfg) && Inv(cfg, s)
    requires i < |s.clients| && s.clients[i].Running? && s.clients[i].txn.pc < |s.clients[i].txn.plan.effects|
    requires s.clients[i].txn.plan.effects[s.clients[i].txn.pc] == Store(o)
    ensures Inv(cfg, StoreStep(s, i, o))
  {
    var c := s.clients[i];
    var t := StoreStep(s, i, o);
    if t == SetClient(s, i, Done) {
      Replaced(cfg, s, i, Done);
    } else if t != s {
      SavedKeeps(cfg, s, i, o);
      assert t == SetClient(s, i, Running(c.job, c.txn.(pc := c.txn.pc + 1, stored := Some(Written(Visible(s, c.txn, o.id), o)))));
    }
  }

  lemma ExecKeeps(cfg: Config, s: Sys, i: nat)
    requires Honest(cfg) && Inv(cfg, s)
    requires i < |s.clients| && s.clients[i].Running? && s.clients[i].txn.pc < |s.clients[i].txn.plan.effects|
    ensures Inv(cfg, ExecStep(cfg, s, i))
  {
    match s.clients[i].txn.plan.effects[s.clients[i].txn.pc]
    case Emit(e) => EmitKeeps(cfg, s, i, e);
    case Store(o) => SaveKeeps(cfg, s, i, o);
  }

  lemma {:induction false} SaveIsOk(cfg: Config, s: Sys, job: Job, t: Txn, o: OrderState)
    requires Honest(cfg) && TxnOk(cfg, s.orders, s.minted, job, t)
    requires t.pc < |t.plan.effects| && t.plan.effects[t.pc] == Store(o) && GuardPasses(Visible(s, t, o.id), o)
    ensures TxnOk(cfg, s.orders, s.minted, job, t.(pc := t.pc + 1, stored := Some(Written(Visible(s, t, o.id), o))))
    ensures o.id == t.id
  {
    assert Store(o) in t.plan.effects;
  }

  // ---------------------------------------------------------------- commit

  /** A commit leaves every other client right about what it knows: reads of the stored order become
      out of date, and nobody else has written or is creating it. */
  lemma OthersStayOk(cfg: Config, orders: map<OrderId, OrderState>, minted: set<OrderId>, r: Rec, c: Client)
    requires ClientOk(cfg, orders, minted, c) && Serial(cfg, orders, r)
    requires r.stored.Some? ==> !HoldsOrder(c, r.id)
    requires r.stored.Some? && Creating(cfg, c) ==> c.txn.id != r.id
    ensures ClientOk(cfg, Apply(orders, r), minted, c)
  {
  }

  lemma CommittedIsSerial(cfg: Config, s: Sys, i: nat)
    requires Inv(cfg, s) && i < |s.clients| && CanCommit(s.clients[i])
    ensures Serial(cfg, s.orders, RecOf(s.clients[i]))
  {
    assert ClientOk(cfg, s.orders, s.minted, s.clients[i]);
  }

  lemma HistoryGrows(cfg: Config, hist: seq<Rec>, r: Rec)
    requires SerialHistory(cfg, hist) && Serial(cfg, Replay(hist), r)
    ensures SerialHistory(cfg, hist + [r])
    ensures Replay(hist + [r]) == Apply(Replay(hist), r)
  {
    assert (hist + [r])[..|hist|] == hist;
    forall k | 0 <= k < |hist + [r]| ensures Serial(cfg, Replay((hist + [r])[..k]), (hist + [r])[k]) {
      if k < |hist| {
        assert (hist + [r])[..k] == hist[..k];
      }
    }
  }

  lemma PrefixIsSerial(cfg: Config, hist: seq<Rec>)
    requires SerialHistory(cfg, hist) && hist != []
    ensures SerialHistory(cfg, hist[..|hist| - 1])
    ensures Serial(cfg, Replay(hist[..|hist| - 1]), hist[|hist| - 1])
  {
    var n := |hist| - 1;
    forall k | 0 <= k < n ensures Serial(cfg, Replay(hist[..n][..k]), hist[..n][k]) {
      assert hist[..n][..k] == hist[..k];
    }
  }

  /** Induction over serial histories, for any property. */
  lemma {:induction false} HistoryInduction(cfg: Config, hist: seq<Rec>, holds: seq<Rec> -> bool)
    requires SerialHistory(cfg, hist) && holds([])
    requires forall h, r :: SerialHistory(cfg, h) && holds(h) && Serial(cfg, Replay(h), r) ==> holds(h + [r])
    ensures holds(hist)
    decreases |hist|
  {
    if hist != [] {
      var h, r := LastOfHistory(cfg, hist);
      HistoryInduction(cfg, h, holds);
      assert holds(h + [r]);
    }
  }

  lemma {:induction false} LastOfHistory(cfg: Config, hist: seq<Rec>) returns (h: seq<Rec>, r: Rec)
    requires SerialHistory(cfg, hist) && hist != []
    ensures hist == h + [r] && |h| < |hist| && SerialHistory(cfg, h) && Serial(cfg, Replay(h), r)
  {
    PrefixIsSerial(cfg, hist);
    h, r := hist[..|hist| - 1], hist[|hist| - 1];
  }

  lemma CommitKeepsHistory(cfg: Config, s: Sys, i: nat)
    requires Honest(cfg) && Inv(cfg, s) && i < |s.clients| && CanCommit(s.clients[i])
    ensures HistoryOk(cfg, CommitStep(cfg, s, i))
  {
    CommittedIsSerial(cfg, s, i);
    HistoryGrows(cfg, s.hist, RecOf(s.clients[i]));
    assert ClientOk(cfg, s.orders, s.minted, s.clients[i]);
  }

  lemma CommitKeeps(cfg: Config, s: Sys, i: nat)
    requires Honest(cfg) && Inv(cfg, s) && i < |s.clients| && s.clients[i].Running?
    ensures Inv(cfg, CommitStep(cfg, s, i))
  {
    var c := s.clients[i];
    if CanCommit(c) {
      CommitKeepsHistory(cfg, s, i);
      CommitKeepsClients(cfg, s, i);
    }
  }

  lemma CommitKeepsClients(cfg: Config, s: Sys, i: nat)
    requires Honest(cfg) && Inv(cfg, s) && i < |s.clients| && CanCommit(s.clients[i])
    ensures ClientsOk(cfg, CommitStep(cfg, s, i))
  {
    var c := s.clients[i];
    var t := CommitStep(cfg, s, i);
    CommittedIsSerial(cfg, s, i);
    forall j | 0 <= j < |t.clients| ensures ClientOk(cfg, t.orders, t.minted, t.clients[j]) {
      if j == i {
        NextLegIsOk(cfg, s, c);
      } else {
        assert ClientOk(cfg, s.orders, s.minted, s.clients[j]);
        assert c.txn.stored.Some? ==> HoldsOrder(c, c.txn.id);
        assert Creating(cfg, s.clients[j]) && c.txn.stored.Some? && c.txn.base.None? ==> Creating(cfg, c);
        OthersStayOk(cfg, s.orders, s.minted, RecOf(c), s.clients[j]);
      }
    }
    forall j, id | 0 <= j < |t.clients| && HoldsOrder(t.clients[j], id) ensures j != i && HoldsOrder(s.clients[j], id) {
    }
    forall j | 0 <= j < |t.clients| && Creating(cfg, t.clients[j]) ensures j != i && Creating(cfg, s.clients[j]) {
    }
  }

  /** Having created an order, the client goes on with the very order it created. */
  lemma NextLegIsOk(cfg: Config, s: Sys, c: Client)
    requires c.Running? && Serial(cfg, s.orders, RecOf(c))
    ensures ClientOk(cfg, Apply(s.orders, RecOf(c)), s.minted, AfterCommit(cfg, c, s.nextId))
  {
  }

  // ---------------------------------------------------------------- stale and torn loads

  /** A load that is not the committed order, because it is out of date or was pieced together from
      reads of different versions, fails the version guard: it can never be saved. */
  lemma TornLoadIsNeverSaved(cfg: Config, s: Sys, i: nat, o: OrderState)
    requires Honest(cfg) && Inv(cfg, s) && i < |s.clients| && s.clients[i].Running?
    requires s.clients[i].txn.base.Some? && Store(o) in s.clients[i].txn.plan.effects
    requires o.id in s.orders && s.orders[o.id] != s.clients[i].txn.base.value
    ensures !GuardPasses(Visible(s, s.clients[i].txn, o.id), o)
  {
    assert ClientOk(cfg, s.orders, s.minted, s.clients[i]);
  }

  /** A save that fails the guard changes nothing that is committed and ends its transaction. */
  lemma StaleSaveChangesNothing(cfg: Config, s: Sys, i: nat, o: OrderState)
    requires Inv(cfg, s) && i < |s.clients| && s.clients[i].Running?
    requires s.clients[i].txn.pc < |s.clients[i].txn.plan.effects|
    requires s.clients[i].txn.plan.effects[s.clients[i].txn.pc] == Store(o)
    requires !GuardPasses(Visible(s, s.clients[i].txn, o.id), o)
    ensures
      var t := Next(cfg, s, Exec(i));
      && t.orders == s.orders && t.outbox == s.outbox && t.processed == s.processed && t.hist == s.hist
      && (t != s ==> t.clients[i].Done?)
  {
  }

  // ---------------------------------------------------------------- all steps, all runs

  lemma ClientStepKeeps(cfg: Config, s: Sys, a: Action, i: nat)
    requires Honest(cfg) && Inv(cfg, s) && i < |s.clients|
    ensures Inv(cfg, ClientStep(cfg, s, a, i))
  {
    var c := s.clients[i];
    match a
    case Begin(_) => if c.Waiting? { BeginKeeps(cfg, s, i); }
    case ReadHeader(_) => if c.Waiting? || c.Marked? { HeaderKeeps(cfg, s, i); }
    case ReadLines(_) => if c.GotHeader? { LinesKeep(cfg, s, i); }
    case ReadGroups(_) => if c.GotLines? { GroupsKeep(cfg, s, i); }
    case Exec(_) => if c.Running? && c.txn.pc < |c.txn.plan.effects| { ExecKeeps(cfg, s, i); }
    case CommitTxn(_) => if c.Running? { CommitKeeps(cfg, s, i); }
    case AbortTxn(_) => Replaced(cfg, s, i, Done);
    case _ =>
  }

  lemma RelayKeeps(cfg: Config, s: Sys, a: Action)
    requires Inv(cfg, s)
    ensures Inv(cfg, RelayStep(s, a))
  {
  }

  lemma NextKeeps(cfg: Config, s: Sys, a: Action)
    requires Honest(cfg) && Inv(cfg, s)
    ensures Inv(cfg, Next(cfg, s, a))
  {
    match a
    case Spawn(job) => SpawnKeeps(cfg, s, job);
    case Claim(_) => RelayKeeps(cfg, s, a);
    case Send => RelayKeeps(cfg, s, a);
    case SendFails(_) => RelayKeeps(cfg, s, a);
    case RelayCommit => RelayKeeps(cfg, s, a);
    case RelayAbort => RelayKeeps(cfg, s, a);
    case _ => if a.i < |s.clients| { ClientStepKeeps(cfg, s, a, a.i); }
  }

  lemma SpawnKeeps(cfg: Config, s: Sys, job: Job)
    requires Inv(cfg, s)
    ensures Inv(cfg, Next(cfg, s, Spawn(job)))
  {
  }

  /** In every reachable state, whatever the interleaving: the committed orders are the result of
      executing the committed transactions serially in commit order, each one that stored an order
      having worked on exactly the order committed before it, one version up. */
  lemma {:induction false} EveryRunIsSerial(cfg: Config, actions: seq<Action>)
    requires Honest(cfg)
    ensures Inv(cfg, Run(cfg, actions))
  {
    if actions != [] {
      EveryRunIsSerial(cfg, actions[..|actions| - 1]);
      NextKeeps(cfg, Run(cfg, actions[..|actions| - 1]), actions[|actions| - 1]);
    }
  }
}
