/** What the machine does get done: in any state that a run can reach, a use case that nobody stands in
    the way of is carried out in full. Its writes become visible together, each event once per encoder
    under the next row ids, its source event is processed, and everything else stays. */
module UndisturbedRuns {
  import opened Wrappers
  import opened Orders
  import opened Allocation
  import opened PassTheorems
  import opened UseCases
  import opened UseCaseTheorems
  import opened IntakePass
  import opened JoinedReceive
  import opened OrderSystem
  import opened Serializability
  import opened OutboxContents
  import opened History
  import opened TableRefinement

  /** The state after more actions. */
  function Then(cfg: Config, s: Sys, actions: seq<Action>): Sys {
    if actions == [] then s
    else Next(cfg, Then(cfg, s, actions[..|actions| - 1]), actions[|actions| - 1])
  }

  function Times(a: Action, n: nat): (r: seq<Action>)
    ensures |r| == n
  {
    seq(n, _ => a)
  }

  /** Rows of these events, numbered upwards. */
  function Numbered(events: seq<Event>, from: nat): (r: seq<Row>)
    ensures |r| == |events|
    ensures forall k :: 0 <= k < |events| ==> r[k] == Row(from + k, events[k])
  {
    seq(|events|, k requires 0 <= k < |events| => Row(from + k, events[k]))
  }

  predicate HoldsRow(outbox: map<nat, Event>, id: nat, e: Event) {
    id in outbox && outbox[id] == e
  }

  /** The outbox gains exactly these events, in this order, from this row id on. */
  ghost predicate Gains(before: map<nat, Event>, after: map<nat, Event>, events: seq<Event>, from: nat) {
    && (forall k :: 0 <= k < |events| ==> HoldsRow(after, from + k, events[k]))
    && (forall id :: id in after && !(from <= id < from + |events|) ==> id in before && after[id] == before[id])
    && (forall id :: id in before && !(from <= id < from + |events|) ==> id in after)
  }

  /** No other client has written the order in a transaction still open. */
  ghost predicate OrderFree(s: Sys, i: nat, id: OrderId) {
    forall j :: 0 <= j < |s.clients| && j != i && s.clients[j].Running? && s.clients[j].txn.stored.Some? ==>
      s.clients[j].txn.stored.value.id != id
  }

  function MarkOf(c: Client): Option<string> {
    match c
    case Marked(_, m) => Some(m)
    case GotHeader(_, mark, _, _) => mark
    case GotLines(_, mark, _, _, _) => mark
    case Running(_, txn) => txn.mark
    case _ => None
  }

  /** No other client has claimed the source event in a transaction still open. */
  ghost predicate MarkFree(s: Sys, i: nat, mark: Option<string>) {
    mark.Some? ==> forall j :: 0 <= j < |s.clients| && j != i ==> MarkOf(s.clients[j]) != mark
  }

  /** The row that the next write meets: what the transaction has saved, or what it started from. */
  function RowBefore(effects: seq<Effect>, base: Option<OrderState>, k: nat): Option<OrderState>
    requires k <= |effects|
  {
    if AfterSaves(effects, base, k).Some? then AfterSaves(effects, base, k) else base
  }

  /** Every save is of this order and meets the version it expects. */
  ghost predicate Savable(effects: seq<Effect>, base: Option<OrderState>, id: OrderId) {
    forall k :: 0 <= k < |effects| && effects[k].Store? ==>
      effects[k].order.id == id && GuardPasses(RowBefore(effects, base, k), effects[k].order)
  }

  // ---------------------------------------------------------------- runs of actions

  lemma {:induction false} RunThen(cfg: Config, a: seq<Action>, b: seq<Action>)
    ensures Run(cfg, a + b) == Then(cfg, Run(cfg, a), b)
  {
    if b == [] {
      assert a + b == a;
    } else {
      RunThen(cfg, a, b[..|b| - 1]);
      assert (a + b)[..|a + b| - 1] == a + b[..|b| - 1];
    }
  }

  lemma {:induction false} ThenThen(cfg: Config, s: Sys, a: seq<Action>, b: seq<Action>)
    ensures Then(cfg, s, a + b) == Then(cfg, Then(cfg, s, a), b)
  {
    if b == [] {
      assert a + b == a;
    } else {
      ThenThen(cfg, s, a, b[..|b| - 1]);
      assert (a + b)[..|a + b| - 1] == a + b[..|b| - 1];
    }
  }

  lemma {:induction false} ThenOne(cfg: Config, s: Sys, a: Action)
    ensures Then(cfg, s, [a]) == Next(cfg, s, a)
  {
    assert [a][..0] == [];
    assert Then(cfg, s, [a][..0]) == s;
  }

  // ---------------------------------------------------------------- the writes of a transaction

  /** The client has just opened its transaction. */
  predicate Opened(s: Sys, i: nat) {
    && i < |s.clients| && s.clients[i].Running?
    && s.clients[i].txn.pc == 0 && s.clients[i].txn.stored == None && s.clients[i].txn.rows == []
  }

  /** The state after its first `k` writes. */
  function Executed(cfg: Config, s: Sys, i: nat, k: nat): Sys
    requires Opened(s, i) && k <= |s.clients[i].txn.plan.effects|
  {
    var c := s.clients[i];
    var rows := Numbered(Fanned(cfg, c.txn.plan.effects, k), s.nextId);
    var txn := c.txn.(pc := k, stored := AfterSaves(c.txn.plan.effects, c.txn.base, k), rows := rows);
    s.(clients := s.clients[i := Running(c.job, txn)], nextId := s.nextId + |rows|)
  }

  ghost predicate Unhindered(s: Sys, i: nat) {
    && Opened(s, i)
    && (var t := s.clients[i].txn;
        OrderFree(s, i, t.id) && Savable(t.plan.effects, t.base, t.id) && SameRow(t.base, Committed(s, t.id)))
  }

  /** The transaction started from what is committed, as far as the version guard can tell. */
  predicate SameRow(base: Option<OrderState>, row: Option<OrderState>) {
    (base.Some? <==> row.Some?) && (base.Some? ==> base.value.version == row.value.version)
  }

  lemma {:induction false} StoreGoesOn(cfg: Config, s: Sys, i: nat, k: nat, u: Sys)
    requires Unhindered(s, i) && k < |s.clients[i].txn.plan.effects| && s.clients[i].txn.plan.effects[k].Store?
    requires u == Executed(cfg, s, i, k)
    ensures Next(cfg, u, Exec(i)) == Executed(cfg, s, i, k + 1)
  {
    var t := s.clients[i].txn;
    var o := t.plan.effects[k].order;
    forall j | 0 <= j < |u.clients| && j != i ensures !HoldsOrder(u.clients[j], o.id) {
    }
    var row := Visible(u, u.clients[i].txn, o.id);
    var before := AfterSaves(t.plan.effects, t.base, k);
    StoredUnder(t.plan.effects, t.base, t.id, k);
    assert row.Some? <==> before.Some? || t.base.Some?;
    assert GuardPasses(row, o);
    assert Fanned(cfg, t.plan.effects, k + 1) == Fanned(cfg, t.plan.effects, k);
    assert u.clients[i := Executed(cfg, s, i, k + 1).clients[i]] == Executed(cfg, s, i, k + 1).clients;
  }

  lemma {:induction false} StoredUnder(effects: seq<Effect>, base: Option<OrderState>, id: OrderId, k: nat)
    requires Savable(effects, base, id) && k <= |effects|
    ensures var saved := AfterSaves(effects, base, k); saved.Some? ==> saved.value.id == id
  {
    if k > 0 {
      StoredUnder(effects, base, id, k - 1);
    }
  }

  lemma {:induction false} EmitGoesOn(cfg: Config, s: Sys, i: nat, k: nat, u: Sys)
    requires Unhindered(s, i) && k < |s.clients[i].txn.plan.effects| && s.clients[i].txn.plan.effects[k].Emit?
    requires u == Executed(cfg, s, i, k)
    ensures Next(cfg, u, Exec(i)) == Executed(cfg, s, i, k + 1)
  {
    var t := s.clients[i].txn;
    var e := t.plan.effects[k].event;
    var n := cfg.copies(e);
    var rows := Numbered(Fanned(cfg, t.plan.effects, k), s.nextId);
    assert Fanned(cfg, t.plan.effects, k + 1) == Fanned(cfg, t.plan.effects, k) + Repeat(e, n);
    assert rows + Fresh(u.nextId, e, n) == Numbered(Fanned(cfg, t.plan.effects, k + 1), s.nextId);
    assert u.clients[i := Executed(cfg, s, i, k + 1).clients[i]] == Executed(cfg, s, i, k + 1).clients;
  }

  /** One write after the other. */
  lemma {:induction false} WritesGoOn(cfg: Config, s: Sys, i: nat, k: nat)
    requires Unhindered(s, i) && k <= |s.clients[i].txn.plan.effects|
    ensures Then(cfg, s, Times(Exec(i), k)) == Executed(cfg, s, i, k)
  {
    if k == 0 {
      assert s.clients[i := s.clients[i]] == s.clients;
    } else {
      WritesGoOn(cfg, s, i, k - 1);
      assert Times(Exec(i), k)[..k - 1] == Times(Exec(i), k - 1);
      var u := Then(cfg, s, Times(Exec(i), k - 1));
      if s.clients[i].txn.plan.effects[k - 1].Store? {
        StoreGoesOn(cfg, s, i, k - 1, u);
      } else {
        EmitGoesOn(cfg, s, i, k - 1, u);
      }
    }
  }

  // ---------------------------------------------------------------- the commit

  /** What a transaction leaves behind, all at once: the order it saved, its events in the outbox, its
      source event processed, and its record. Nothing else has changed but the client and the next row
      id. */
  ghost predicate CarriedOut(cfg: Config, s: Sys, t: Sys, job: Job, id: OrderId, base: Option<OrderState>,
                             mark: Option<string>, plan: Plan, saved: Option<OrderState>)
  {
    var events := Fanned(cfg, plan.effects, |plan.effects|);
    && t.orders == (if saved.Some? then s.orders[id := saved.value] else s.orders)
    && Gains(s.outbox, t.outbox, events, s.nextId)
    && t.processed == (if mark.Some? then s.processed + {mark.value} else s.processed)
    && t.nextId == s.nextId + |events|
    && t.hist == s.hist + [Rec(job, id, base, mark, plan, saved, Numbered(events, s.nextId))]
    && t.published == s.published && t.relay == s.relay && t.sent == s.sent
  }

  lemma {:induction false} RowsOfNumbered(events: seq<Event>, from: nat)
    ensures Gains(map[], RowMap(Numbered(events, from)), events, from)
  {
    if events != [] {
      var n := |events| - 1;
      RowsOfNumbered(events[..n], from);
      assert Numbered(events, from)[..n] == Numbered(events[..n], from);
      forall k | 0 <= k < |events| ensures HoldsRow(RowMap(Numbered(events, from)), from + k, events[k]) {
        assert k < n ==> events[..n][k] == events[k] && HoldsRow(RowMap(Numbered(events[..n], from)), from + k, events[..n][k]);
      }
    }
  }

  lemma {:induction false} RowsAreGained(outbox: map<nat, Event>, events: seq<Event>, from: nat)
    ensures Gains(outbox, outbox + RowMap(Numbered(events, from)), events, from)
  {
    RowsOfNumbered(events, from);
  }

  lemma {:induction false} CommitGoesOn(cfg: Config, s: Sys, i: nat, u: Sys) returns (t: Sys)
    requires Unhindered(s, i) && s.clients[i].txn.plan.verdict == Commit
    requires u == Executed(cfg, s, i, |s.clients[i].txn.plan.effects|)
    ensures t == Next(cfg, u, CommitTxn(i))
    ensures
      var c := s.clients[i];
      var saved := AfterSaves(c.txn.plan.effects, c.txn.base, |c.txn.plan.effects|);
      && CarriedOut(cfg, s, t, c.job, c.txn.id, c.txn.base, c.txn.mark, c.txn.plan, saved)
      && t.clients == s.clients[i := AfterCommit(cfg, u.clients[i], t.nextId)] && t.minted == s.minted
  {
    var c := s.clients[i];
    var n := |c.txn.plan.effects|;
    StoredUnder(c.txn.plan.effects, c.txn.base, c.txn.id, n);
    RowsAreGained(s.outbox, Fanned(cfg, c.txn.plan.effects, n), s.nextId);
    t := Next(cfg, u, CommitTxn(i));
    assert u.clients[i := AfterCommit(cfg, u.clients[i], t.nextId)] == s.clients[i := AfterCommit(cfg, u.clients[i], t.nextId)];
  }

  function Finish(i: nat, plan: Plan): seq<Action> {
    Times(Exec(i), |plan.effects|) + [CommitTxn(i)]
  }

  /** A transaction that has just been opened, carried out alone. */
  lemma {:induction false} TransactionIsDone(cfg: Config, s: Sys, i: nat) returns (t: Sys)
    requires Unhindered(s, i) && s.clients[i].txn.plan.verdict == Commit
    ensures t == Then(cfg, s, Finish(i, s.clients[i].txn.plan))
    ensures
      var c := s.clients[i];
      var saved := AfterSaves(c.txn.plan.effects, c.txn.base, |c.txn.plan.effects|);
      && CarriedOut(cfg, s, t, c.job, c.txn.id, c.txn.base, c.txn.mark, c.txn.plan, saved)
      && t.minted == s.minted && |t.clients| == |s.clients|
      && (forall j :: 0 <= j < |s.clients| && j != i ==> t.clients[j] == s.clients[j])
      && t.clients[i] == if cfg.start(c.job).Create? && cfg.start(c.job).goesOn && c.txn.base.None? && saved.Some?
                         then Running(c.job, Txn(c.txn.id, saved, None, t.nextId, cfg.plan(c.job, saved.value), 0, None, []))
                         else Done
  {
    var plan := s.clients[i].txn.plan;
    WritesGoOn(cfg, s, i, |plan.effects|);
    var u := Then(cfg, s, Times(Exec(i), |plan.effects|));
    t := CommitGoesOn(cfg, s, i, u);
    ThenThen(cfg, s, Times(Exec(i), |plan.effects|), [CommitTxn(i)]);
    ThenOne(cfg, u, CommitTxn(i));
  }

  // ---------------------------------------------------------------- the saves of a transaction fit

  lemma {:induction false} StoresUpTo(effects: seq<Effect>, k: nat)
    requires k < |effects| && effects[k].Store?
    ensures |StoresOf(effects[..k])| < |StoresOf(effects)|
  {
    WritesInSequence(effects[..k], effects[k..]);
    assert effects == effects[..k] + effects[k..];
    WritesInSequence([effects[k]], effects[k + 1..]);
    assert effects[k..] == [effects[k]] + effects[k + 1..];
    assert [effects[k]][..0] == [] && StoresOf([effects[k]][..0]) == [];
    assert StoresOf([effects[k]]) == [effects[k].order];
  }

  /** What the last of several saves leaves behind: its order, one version up. */
  function LastRow(stores: seq<OrderState>): Option<OrderState> {
    if stores == [] then None else Some(stores[|stores| - 1].(version := stores[|stores| - 1].version + 1))
  }

  /** The one save of a stored order meets the version it was loaded at. */
  lemma {:induction false} OneSaveFits(effects: seq<Effect>, b: OrderState)
    requires SavesUnder(effects, b.id, b.version) && |StoresOf(effects)| <= 1
    ensures Savable(effects, Some(b), b.id)
    ensures AfterSaves(effects, Some(b), |effects|) == LastRow(StoresOf(effects))
  {
    forall k | 0 <= k < |effects| && effects[k].Store?
      ensures effects[k].order.id == b.id && GuardPasses(RowBefore(effects, Some(b), k), effects[k].order)
    {
      StoresUpTo(effects, k);
      SavedOrStored(effects, Some(b), k);
      assert Store(effects[k].order) in effects;
    }
    SavedOrStored(effects, Some(b), |effects|);
    assert effects[..|effects|] == effects;
  }

  /** The saves of a new order: the first inserts it, and a second meets the version inserted. */
  lemma {:induction false} NewOrderSavesFit(effects: seq<Effect>, s: OrderState)
    requires SavesUnder(effects, s.id, s.version) && 1 <= |StoresOf(effects)| <= 2
    ensures Savable(effects, None, s.id)
    ensures AfterSaves(effects, None, |effects|)
         == if |StoresOf(effects)| == 1 then Some(StoresOf(effects)[0]) else LastRow(StoresOf(effects)[1..])
  {
    forall k | 0 <= k < |effects| && effects[k].Store?
      ensures effects[k].order.id == s.id && GuardPasses(RowBefore(effects, None, k), effects[k].order)
    {
      StoresUpTo(effects, k);
      RowAfterSaves(effects, k);
      assert Store(effects[k].order) in effects;
      if |StoresOf(effects[..k])| == 1 {
        StoredIsWritten(effects[..k], StoresOf(effects[..k])[0]);
        assert Store(StoresOf(effects[..k])[0]) in effects;
      }
    }
    RowAfterSaves(effects, |effects|);
    assert effects[..|effects|] == effects;
  }

  // ---------------------------------------------------------------- a job on a stored order

  function LoadSteps(i: nat, job: Job, mark: Option<string>): seq<Action> {
    [Spawn(job)] + (if mark.Some? then [Begin(i)] else []) + [ReadHeader(i), ReadLines(i), ReadGroups(i)]
  }

  function LoadedTxn(cfg: Config, job: Job, b: OrderState, mark: Option<string>, floor: nat): Txn {
    Txn(b.id, Some(b), mark, floor, cfg.plan(job, b), 0, None, [])
  }

  lemma {:induction false} Arrives(cfg: Config, s: Sys, job: Job, mark: Option<string>) returns (u: Sys)
    requires cfg.start(job).Load? && cfg.start(job).mark == mark
    requires MarkFree(s, |s.clients|, mark) && (mark.Some? ==> mark.value !in s.processed)
    ensures u == Then(cfg, s, [Spawn(job)] + (if mark.Some? then [Begin(|s.clients|)] else []))
    ensures u == s.(clients := s.clients + [match mark case None => Waiting(job) case Some(m) => Marked(job, m)])
  {
    var i := |s.clients|;
    ThenOne(cfg, s, Spawn(job));
    u := Next(cfg, s, Spawn(job));
    if mark.Some? {
      ThenThen(cfg, s, [Spawn(job)], [Begin(i)]);
      ThenOne(cfg, u, Begin(i));
      forall j | 0 <= j < |u.clients| ensures !HoldsMark(u.clients[j], mark.value) {
        assert j < i ==> u.clients[j] == s.clients[j] && MarkOf(s.clients[j]) != mark;
      }
      assert !MarkLocked(u, mark.value);
      u := Next(cfg, u, Begin(i));
    } else {
      assert [Spawn(job)] + [] == [Spawn(job)];
    }
  }

  /** The three reads, with nobody in between, give the committed order. */
  lemma {:induction false} Loads(cfg: Config, s: Sys, i: nat, job: Job, id: OrderId, mark: Option<string>) returns (u: Sys)
    requires cfg.start(job) == Load(id, mark) && id in s.orders && s.orders[id].id == id
    requires i < |s.clients| && s.clients[i] == (match mark case None => Waiting(job) case Some(m) => Marked(job, m))
    ensures u == Then(cfg, s, [ReadHeader(i), ReadLines(i), ReadGroups(i)])
    ensures u == s.(clients := s.clients[i := Running(job, LoadedTxn(cfg, job, s.orders[id], mark, s.nextId))])
  {
    var b := s.orders[id];
    var u1 := Next(cfg, s, ReadHeader(i));
    assert u1 == s.(clients := s.clients[i := GotHeader(job, mark, b, s.nextId)]);
    var u2 := Next(cfg, u1, ReadLines(i));
    assert u2 == s.(clients := s.clients[i := GotLines(job, mark, b, b.lines, s.nextId)]) by {
      assert u1.clients[i := GotLines(job, mark, b, b.lines, s.nextId)] == s.clients[i := GotLines(job, mark, b, b.lines, s.nextId)];
    }
    u := Next(cfg, u2, ReadGroups(i));
    assert Assembled(b, b.lines, b.promiseGroups) == b;
    var last := Running(job, LoadedTxn(cfg, job, b, mark, s.nextId));
    assert u2.clients[i := last] == s.clients[i := last];
    ThenOne(cfg, s, ReadHeader(i));
    ThenThen(cfg, s, [ReadHeader(i)], [ReadLines(i)]);
    ThenOne(cfg, u1, ReadLines(i));
    ThenThen(cfg, s, [ReadHeader(i)] + [ReadLines(i)], [ReadGroups(i)]);
    ThenOne(cfg, u2, ReadGroups(i));
    assert [ReadHeader(i)] + [ReadLines(i)] + [ReadGroups(i)] == [ReadHeader(i), ReadLines(i), ReadGroups(i)];
  }

  /** A job on a stored order, started now and not disturbed. */
  function LoadedJob(cfg: Config, s: Sys, job: Job, id: OrderId, mark: Option<string>): seq<Action>
    requires id in s.orders
  {
    LoadSteps(|s.clients|, job, mark) + Finish(|s.clients|, cfg.plan(job, s.orders[id]))
  }

  lemma {:induction false} OpensLoaded(cfg: Config, s: Sys, job: Job, id: OrderId, mark: Option<string>) returns (u: Sys)
    requires cfg.start(job) == Load(id, mark) && id in s.orders && s.orders[id].id == id
    requires MarkFree(s, |s.clients|, mark) && (mark.Some? ==> mark.value !in s.processed)
    ensures u == Then(cfg, s, LoadSteps(|s.clients|, job, mark))
    ensures u == s.(clients := s.clients + [Running(job, LoadedTxn(cfg, job, s.orders[id], mark, s.nextId))])
  {
    var i := |s.clients|;
    var u1 := Arrives(cfg, s, job, mark);
    u := Loads(cfg, u1, i, job, id, mark);
    ThenThen(cfg, s, [Spawn(job)] + (if mark.Some? then [Begin(i)] else []), [ReadHeader(i), ReadLines(i), ReadGroups(i)]);
    assert u.clients == s.clients + [Running(job, LoadedTxn(cfg, job, s.orders[id], mark, s.nextId))];
  }

  lemma {:induction false} LoadedJobIsDone(cfg: Config, s: Sys, job: Job, id: OrderId, mark: Option<string>) returns (t: Sys)
    requires cfg.start(job) == Load(id, mark) && id in s.orders && s.orders[id].id == id
    requires OrderFree(s, |s.clients|, id) && MarkFree(s, |s.clients|, mark) && (mark.Some? ==> mark.value !in s.processed)
    requires cfg.plan(job, s.orders[id]).verdict == Commit && Savable(cfg.plan(job, s.orders[id]).effects, Some(s.orders[id]), id)
    ensures t == Then(cfg, s, LoadedJob(cfg, s, job, id, mark))
    ensures
      var plan := cfg.plan(job, s.orders[id]);
      var saved := AfterSaves(plan.effects, Some(s.orders[id]), |plan.effects|);
      CarriedOut(cfg, s, t, job, id, Some(s.orders[id]), mark, plan, saved)
    ensures t.clients == s.clients + [Done] && t.minted == s.minted
  {
    var i := |s.clients|;
    var u := OpensLoaded(cfg, s, job, id, mark);
    assert u.clients[i] == Running(job, LoadedTxn(cfg, job, s.orders[id], mark, s.nextId));
    forall j | 0 <= j < |u.clients| && j != i ensures u.clients[j] == s.clients[j] {
    }
    t := TransactionIsDone(cfg, u, i);
    ThenThen(cfg, s, LoadSteps(i, job, mark), Finish(i, cfg.plan(job, s.orders[id])));
  }

  // ---------------------------------------------------------------- a job that creates an order

  function CreatedJob(i: nat, job: Job, first: Plan): seq<Action> {
    ([Spawn(job)] + [Begin(i)]) + Finish(i, first)
  }

  lemma {:induction false} OpensCreated(cfg: Config, s: Sys, job: Job, o: OrderState, first: Plan) returns (u: Sys)
    requires cfg.start(job).Create? && cfg.start(job).order == o && cfg.start(job).first == first && o.id !in s.minted
    ensures u == Then(cfg, s, [Spawn(job)] + [Begin(|s.clients|)])
    ensures u == s.(clients := s.clients + [Running(job, Txn(o.id, None, None, s.nextId, first, 0, None, []))],
                    minted := s.minted + {o.id})
  {
    var i := |s.clients|;
    ThenOne(cfg, s, Spawn(job));
    var u1 := Next(cfg, s, Spawn(job));
    ThenThen(cfg, s, [Spawn(job)], [Begin(i)]);
    ThenOne(cfg, u1, Begin(i));
    u := Next(cfg, u1, Begin(i));
    assert u.clients == s.clients + [Running(job, Txn(o.id, None, None, s.nextId, first, 0, None, []))];
  }

  lemma {:induction false} CreatedJobIsDone(cfg: Config, s: Sys, job: Job, o: OrderState, first: Plan) returns (t: Sys)
    requires cfg.start(job).Create? && cfg.start(job).order == o && cfg.start(job).first == first && o.id !in s.minted
    requires o.id !in s.orders && OrderFree(s, |s.clients|, o.id)
    requires first.verdict == Commit && Savable(first.effects, None, o.id)
    ensures t == Then(cfg, s, CreatedJob(|s.clients|, job, first))
    ensures
      var saved := AfterSaves(first.effects, None, |first.effects|);
      && CarriedOut(cfg, s, t, job, o.id, None, None, first, saved)
      && t.clients == s.clients + [
           if cfg.start(job).goesOn && saved.Some?
           then Running(job, Txn(o.id, saved, None, t.nextId, cfg.plan(job, saved.value), 0, None, [])) else Done]
    ensures t.minted == s.minted + {o.id}
  {
    var i := |s.clients|;
    var u := OpensCreated(cfg, s, job, o, first);
    forall j | 0 <= j < |u.clients| && j != i ensures u.clients[j] == s.clients[j] {
    }
    t := TransactionIsDone(cfg, u, i);
    ThenThen(cfg, s, [Spawn(job)] + [Begin(i)], Finish(i, first));
    assert t.clients == s.clients + [t.clients[i]];
  }

  // ---------------------------------------------------------------- the use cases

  /** What is known of one order id in a reachable state. */
  lemma {:induction false} Reached(copies: Event -> nat, keyed: bool, actions: seq<Action>, id: OrderId) returns (s: Sys)
    ensures s == Run(Real(copies, keyed), actions)
    ensures id in s.orders ==> s.orders[id].id == id && Lifecycle(s.orders[id])
    ensures id !in s.minted ==> id !in s.orders && OrderFree(s, |s.clients|, id)
  {
    s := Run(Real(copies, keyed), actions);
    RealIsHonest(copies, keyed);
    EveryRunIsSerial(Real(copies, keyed), actions);
    if id in s.orders {
      LifecycleInEveryRun(copies, keyed, actions, id);
    }
    if id !in s.minted {
      UnmintedIsFree(Real(copies, keyed), s, id);
    }
  }

  lemma {:induction false} UnmintedIsFree(cfg: Config, s: Sys, id: OrderId)
    requires Inv(cfg, s) && id !in s.minted
    ensures id !in s.orders && OrderFree(s, |s.clients|, id)
  {
    forall j | 0 <= j < |s.clients| && s.clients[j].Running? && s.clients[j].txn.stored.Some?
      ensures s.clients[j].txn.stored.value.id != id
    {
      assert ClientOk(cfg, s.orders, s.minted, s.clients[j]);
    }
  }

  lemma {:induction false} PlanFits(job: Job, b: OrderState) returns (plan: Plan, stores: seq<OrderState>)
    requires Lifecycle(b)
    ensures plan == PlanOf(job, b) && stores == StoresOf(plan.effects) && |stores| <= 1
    ensures Savable(plan.effects, Some(b), b.id) && AfterSaves(plan.effects, Some(b), |plan.effects|) == LastRow(stores)
  {
    plan := HonestPlan(job, b);
    stores := StoresOf(plan.effects);
    OneSaveFits(plan.effects, b);
  }

  lemma {:induction false} HonestPlan(job: Job, b: OrderState) returns (plan: Plan)
    requires Lifecycle(b)
    ensures plan == PlanOf(job, b) && SavesUnder(plan.effects, b.id, b.version) && |StoresOf(plan.effects)| <= 1
  {
    plan := PlanOf(job, b);
    PlanSameRow(job, b);
    PlanStoresOnce(job, b);
  }

  /** In any reachable state: a retry, a release, a cancellation or a repromise that ends well with what is
      stored, and that nobody stands in the way of, is committed. The order it saves replaces the stored
      one, one version up; if it saves none, no order changes. */
  lemma {:induction false} UseCaseIsDone(copies: Event -> nat, keyed: bool, actions: seq<Action>, job: Job, mark: Option<string>)
    returns (s: Sys, plan: Plan, t: Sys)
    requires !job.Receive? && mark == (if job.Repromise? then Some(job.eventId) else None)
    requires
      var s := Run(Real(copies, keyed), actions);
      && OrderFree(s, |s.clients|, job.id) && MarkFree(s, |s.clients|, mark) && (mark.Some? ==> mark.value !in s.processed)
      && job.id in s.orders && PlanOf(job, s.orders[job.id]).verdict == Commit
    ensures s == Run(Real(copies, keyed), actions) && job.id in s.orders && plan == PlanOf(job, s.orders[job.id])
    ensures t == Run(Real(copies, keyed), actions + LoadedJob(Real(copies, keyed), s, job, job.id, mark))
    ensures |StoresOf(plan.effects)| <= 1
    ensures CarriedOut(Real(copies, keyed), s, t, job, job.id, Some(s.orders[job.id]), mark, plan, LastRow(StoresOf(plan.effects)))
    ensures t.clients == s.clients + [Done]
  {
    s := Reached(copies, keyed, actions, job.id);
    var stores;
    plan, stores := PlanFits(job, s.orders[job.id]);
    t := RealJobIsDone(copies, keyed, s, job, mark, plan);
    RunThen(Real(copies, keyed), actions, LoadedJob(Real(copies, keyed), s, job, job.id, mark));
  }

  lemma {:induction false} RealJobIsDone(copies: Event -> nat, keyed: bool, s: Sys, job: Job, mark: Option<string>, plan: Plan)
    returns (t: Sys)
    requires !job.Receive? && mark == (if job.Repromise? then Some(job.eventId) else None)
    requires OrderFree(s, |s.clients|, job.id) && MarkFree(s, |s.clients|, mark) && (mark.Some? ==> mark.value !in s.processed)
    requires job.id in s.orders && s.orders[job.id].id == job.id && plan == PlanOf(job, s.orders[job.id])
    requires plan.verdict == Commit && Savable(plan.effects, Some(s.orders[job.id]), job.id)
    ensures t == Then(Real(copies, keyed), s, LoadedJob(Real(copies, keyed), s, job, job.id, mark))
    ensures
      var saved := AfterSaves(plan.effects, Some(s.orders[job.id]), |plan.effects|);
      CarriedOut(Real(copies, keyed), s, t, job, job.id, Some(s.orders[job.id]), mark, plan, saved)
    ensures t.clients == s.clients + [Done]
  {
    t := LoadedJobIsDone(Real(copies, keyed), s, job, job.id, mark);
  }

  /** In any reachable state, under an idempotency key: an accepted request is committed, intake and first
      pass together, whatever the pass runs into. */
  lemma {:induction false} KeyedReceiveIsDone(copies: Event -> nat, actions: seq<Action>, job: Job, o: OrderState)
    returns (s: Sys, plan: Plan, t: Sys, more: seq<OrderState>)
    requires job.Receive? && job.id !in Run(Real(copies, true), actions).minted
    requires Received(job.id, job.goods, job.routes, job.allowPartial, job.releaseOnAllocation, job.deadline) == Ok(o)
    ensures s == Run(Real(copies, true), actions) && plan == KeyedPlan(o, job.intake, job.env)
    ensures t == Run(Real(copies, true), actions + CreatedJob(|s.clients|, job, plan))
    ensures StoresOf(plan.effects) == [o] + more && |more| <= 1
    ensures CarriedOut(Real(copies, true), s, t, job, job.id, None, None, plan, if more == [] then Some(o) else LastRow(more))
    ensures t.clients == s.clients + [Done]
  {
    s := Reached(copies, true, actions, job.id);
    plan, more := KeyedPlanFits(job, o);
    t := KeyedLeg(copies, s, job, o, plan);
    RunThen(Real(copies, true), actions, CreatedJob(|s.clients|, job, plan));
  }

  lemma {:induction false} KeyedLeg(copies: Event -> nat, s: Sys, job: Job, o: OrderState, plan: Plan) returns (t: Sys)
    requires job.Receive? && job.id !in s.minted && job.id !in s.orders && OrderFree(s, |s.clients|, job.id)
    requires Received(job.id, job.goods, job.routes, job.allowPartial, job.releaseOnAllocation, job.deadline) == Ok(o)
    requires plan == KeyedPlan(o, job.intake, job.env) && Savable(plan.effects, None, o.id)
    ensures t == Then(Real(copies, true), s, CreatedJob(|s.clients|, job, plan))
    ensures CarriedOut(Real(copies, true), s, t, job, job.id, None, None, plan, AfterSaves(plan.effects, None, |plan.effects|))
    ensures t.clients == s.clients + [Done]
  {
    t := NewJobIsDone(copies, true, s, job, o, plan);
  }

  lemma {:induction false} KeyedPlanFits(job: Job, o: OrderState) returns (plan: Plan, more: seq<OrderState>)
    requires job.Receive?
    requires Received(job.id, job.goods, job.routes, job.allowPartial, job.releaseOnAllocation, job.deadline) == Ok(o)
    ensures plan == KeyedPlan(o, job.intake, job.env) && StoresOf(plan.effects) == [o] + more && |more| <= 1
    ensures Savable(plan.effects, None, o.id)
    ensures AfterSaves(plan.effects, None, |plan.effects|) == if more == [] then Some(o) else LastRow(more)
  {
    plan := KeyedPlan(o, job.intake, job.env);
    var started := IntakeStarts(job, true);
    KeyedIsHonest(o, job.intake, job.env);
    more := KeyedStores(o, job.intake, job.env);
    NewRowFits(plan.effects, o, more);
  }

  lemma {:induction false} NewRowFits(effects: seq<Effect>, o: OrderState, more: seq<OrderState>)
    requires SavesUnder(effects, o.id, o.version) && StoresOf(effects) == [o] + more && |more| <= 1
    ensures Savable(effects, None, o.id)
    ensures AfterSaves(effects, None, |effects|) == if more == [] then Some(o) else LastRow(more)
  {
    NewOrderSavesFit(effects, o);
    assert ([o] + more)[1..] == more;
  }

  lemma {:induction false} NewJobIsDone(copies: Event -> nat, keyed: bool, s: Sys, job: Job, o: OrderState, plan: Plan)
    returns (t: Sys)
    requires job.Receive? && job.id !in s.minted && job.id !in s.orders && OrderFree(s, |s.clients|, job.id)
    requires Received(job.id, job.goods, job.routes, job.allowPartial, job.releaseOnAllocation, job.deadline) == Ok(o)
    requires plan == if keyed then KeyedPlan(o, job.intake, job.env) else IntakePlan(o, job.intake)
    requires plan.verdict == Commit && Savable(plan.effects, None, o.id)
    ensures t == Then(Real(copies, keyed), s, CreatedJob(|s.clients|, job, plan))
    ensures
      var saved := AfterSaves(plan.effects, None, |plan.effects|);
      && CarriedOut(Real(copies, keyed), s, t, job, job.id, None, None, plan, saved)
      && t.clients == s.clients + [
           if !keyed && saved.Some?
           then Running(job, Txn(job.id, saved, None, t.nextId, PlanOf(job, saved.value), 0, None, [])) else Done]
  {
    var started := IntakeStarts(job, keyed);
    t := CreatedJobIsDone(Real(copies, keyed), s, job, o, plan);
  }

  /** Without one: the intake, if its save and its event succeed, is committed by itself. */
  lemma {:induction false} IntakeIsDone(copies: Event -> nat, actions: seq<Action>, job: Job, o: OrderState)
    returns (s: Sys, plan: Plan, t: Sys)
    requires job.Receive? && job.id !in Run(Real(copies, false), actions).minted
    requires Received(job.id, job.goods, job.routes, job.allowPartial, job.releaseOnAllocation, job.deadline) == Ok(o)
    requires job.intake.saves && job.intake.publishes(1, OrderReceived(job.id, |o.lines|))
    ensures s == Run(Real(copies, false), actions)
    ensures plan == Plan([Store(o), Emit(OrderReceived(job.id, |o.lines|))], Commit)
    ensures t == Run(Real(copies, false), actions + CreatedJob(|s.clients|, job, plan))
    ensures CarriedOut(Real(copies, false), s, t, job, job.id, None, None, plan, Some(o))
    ensures t.clients == s.clients + [Running(job, Txn(job.id, Some(o), None, t.nextId, PlanOf(job, o), 0, None, []))]
    ensures OrderFree(s, |s.clients|, job.id)
  {
    s := Reached(copies, false, actions, job.id);
    plan, t := IntakeLeg(copies, s, job, o);
    RunThen(Real(copies, false), actions, CreatedJob(|s.clients|, job, plan));
  }

  lemma {:induction false} IntakeLeg(copies: Event -> nat, s: Sys, job: Job, o: OrderState) returns (plan: Plan, t: Sys)
    requires job.Receive? && job.id !in s.minted && job.id !in s.orders && OrderFree(s, |s.clients|, job.id)
    requires Received(job.id, job.goods, job.routes, job.allowPartial, job.releaseOnAllocation, job.deadline) == Ok(o)
    requires job.intake.saves && job.intake.publishes(1, OrderReceived(job.id, |o.lines|))
    ensures plan == Plan([Store(o), Emit(OrderReceived(job.id, |o.lines|))], Commit)
    ensures t == Then(Real(copies, false), s, CreatedJob(|s.clients|, job, plan))
    ensures CarriedOut(Real(copies, false), s, t, job, job.id, None, None, plan, Some(o))
    ensures t.clients == s.clients + [Running(job, Txn(job.id, Some(o), None, t.nextId, PlanOf(job, o), 0, None, []))]
  {
    plan := IntakePlanFits(job, o);
    t := NewJobIsDone(copies, false, s, job, o, plan);
  }

  lemma {:induction false} IntakePlanFits(job: Job, o: OrderState) returns (plan: Plan)
    requires job.Receive?
    requires Received(job.id, job.goods, job.routes, job.allowPartial, job.releaseOnAllocation, job.deadline) == Ok(o)
    requires job.intake.saves && job.intake.publishes(1, OrderReceived(job.id, |o.lines|))
    ensures plan == IntakePlan(o, job.intake) == Plan([Store(o), Emit(OrderReceived(job.id, |o.lines|))], Commit)
    ensures Savable(plan.effects, None, o.id) && AfterSaves(plan.effects, None, |plan.effects|) == Some(o)
  {
    plan := IntakePlan(o, job.intake);
    var started := IntakeStarts(job, false);
    IntakeWrites(o, job.intake);
    IntakeWritesOnce(o, job.intake);
    assert Unbroken(job.intake) == job.intake;
    TwoWrites(o, OrderReceived(o.id, |o.lines|));
    NewOrderSavesFit(plan.effects, o);
  }

  /** And its first pass follows on the order as committed, if it ends well. */
  lemma {:induction false} FirstPassFollows(copies: Event -> nat, keyed: bool, s: Sys, i: nat, job: Job, o: OrderState)
    returns (plan: Plan, t: Sys)
    requires AcceptedIntake(o) && job.Receive? && job.id == o.id && o.id in s.orders && s.orders[o.id] == o
    requires i < |s.clients| && s.clients[i] == Running(job, Txn(o.id, Some(o), None, s.nextId, PlanOf(job, o), 0, None, []))
    requires OrderFree(s, i, o.id) && PlanOf(job, o).verdict == Commit
    ensures plan == PassPlan(FirstPass(o, job.env))
    ensures t == Then(Real(copies, keyed), s, Finish(i, plan))
    ensures |StoresOf(plan.effects)| <= 1
    ensures CarriedOut(Real(copies, keyed), s, t, job, job.id, Some(o), None, plan, LastRow(StoresOf(plan.effects)))
    ensures t.clients == s.clients[i := Done]
  {
    var stores;
    plan, stores := PlanFits(job, o);
    t := TransactionIsDone(Real(copies, keyed), s, i);
    assert t.clients == s.clients[i := Done];
  }

  // ---------------------------------------------------------------- what is refused

  /** A request that intake refuses, or a repromise whose source event is processed already, is done at
      once and leaves everything as it was. */
  lemma {:induction false} RefusedAtOnce(copies: Event -> nat, keyed: bool, s: Sys, i: nat)
    requires i < |s.clients| && s.clients[i].Waiting?
    requires
      match s.clients[i].job
      case Receive(id, goods, routes, allowPartial, releaseOnAllocation, deadline, _, _) =>
        Received(id, goods, routes, allowPartial, releaseOnAllocation, deadline).Err?
      case Repromise(_, eventId, _, _, _) => eventId in s.processed && MarkFree(s, i, Some(eventId))
      case _ => false
    ensures Next(Real(copies, keyed), s, Begin(i)) == s.(clients := s.clients[i := Done])
  {
    if s.clients[i].job.Repromise? {
      forall j | 0 <= j < |s.clients| ensures !HoldsMark(s.clients[j], s.clients[i].job.eventId) {
        assert j != i ==> MarkOf(s.clients[j]) != Some(s.clients[i].job.eventId);
      }
    }
  }

  /** A job on an order that is not stored is done at once; only a repromise goes on to commit its mark. */
  lemma {:induction false} UnknownOrderIsDone(copies: Event -> nat, keyed: bool, s: Sys, i: nat)
    requires i < |s.clients| && s.clients[i].Waiting? && s.clients[i].job.id !in s.orders
    requires !s.clients[i].job.Receive? && !s.clients[i].job.Repromise?
    ensures Next(Real(copies, keyed), s, ReadHeader(i)) == s.(clients := s.clients[i := Done])
  {
  }

  lemma {:induction false} UnknownOrderIsMarked(copies: Event -> nat, keyed: bool, s: Sys, i: nat, job: Job) returns (t: Sys)
    requires job.Repromise? && job.id !in s.orders && i < |s.clients| && s.clients[i] == Marked(job, job.eventId)
    ensures t == Then(Real(copies, keyed), s, [ReadHeader(i)] + Finish(i, Plan([], Commit)))
    ensures CarriedOut(Real(copies, keyed), s, t, job, job.id, None, Some(job.eventId), Plan([], Commit), None)
    ensures t.clients == s.clients[i := Done]
  {
    var cfg := Real(copies, keyed);
    var u := Next(cfg, s, ReadHeader(i));
    ThenOne(cfg, s, ReadHeader(i));
    ThenThen(cfg, s, [ReadHeader(i)], Finish(i, Plan([], Commit)));
    assert u.clients[i] == Running(job, Txn(job.id, None, Some(job.eventId), s.nextId, Plan([], Commit), 0, None, []));
    t := Next(cfg, u, CommitTxn(i));
    assert Times(Exec(i), 0) + [CommitTxn(i)] == [CommitTxn(i)];
    ThenOne(cfg, u, CommitTxn(i));
    RowsAreGained(s.outbox, [], s.nextId);
    assert Numbered([], s.nextId) == [];
    assert u.clients[i := Done] == s.clients[i := Done];
  }
}
