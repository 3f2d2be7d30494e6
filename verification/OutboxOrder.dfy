/** Outbox rows of one order get their ids in the order of the committed versions, although every
    transaction appends rows before it saves: it read the version first. */
module OutboxOrder {
  import opened Orders
  import opened UseCases
  import opened OrderSystem
  import opened Serializability

  // ---------------------------------------------------------------- rows

  predicate Within(rows: seq<Row>, low: nat, high: nat) {
    forall x :: x in rows ==> low <= x.id < high
  }

  predicate AllBefore(xs: seq<Row>, ys: seq<Row>) {
    forall x, y :: x in xs && y in ys ==> x.id < y.id
  }

  predicate Disjoint(xs: seq<Row>, ys: seq<Row>) {
    forall x, y :: x in xs && y in ys ==> x.id != y.id
  }

  function RowsOf(c: Client): seq<Row> {
    if c.Running? then c.txn.rows else []
  }

  lemma {:induction false} RowMapHolds(rows: seq<Row>)
    ensures forall id :: id in RowMap(rows) <==> exists x :: x in rows && x.id == id
  {
    if rows != [] {
      var n := |rows| - 1;
      RowMapHolds(rows[..n]);
      assert rows == rows[..n] + [rows[n]];
      forall x | x in rows ensures x.id in RowMap(rows) {
        if x in rows[..n] {
          assert x.id in RowMap(rows[..n]);
        }
      }
    }
  }

  // ---------------------------------------------------------------- the invariant

  ghost predicate StoredOrder(r: Rec, id: OrderId) {
    r.stored.Some? && r.stored.value.id == id
  }

  /** Everything committed for the order up to that version lies below the floor. */
  ghost predicate FloorHolds(hist: seq<Rec>, id: OrderId, version: int, floor: nat) {
    forall k :: 0 <= k < |hist| && StoredOrder(hist[k], id) && hist[k].stored.value.version <= version ==>
      Within(hist[k].rows, 0, floor)
  }

  ghost predicate ClientRows(s: Sys, c: Client) {
    match c
    case GotHeader(_, _, header, floor) => floor <= s.nextId && FloorHolds(s.hist, header.id, header.version, floor)
    case GotLines(_, _, header, _, floor) => floor <= s.nextId && FloorHolds(s.hist, header.id, header.version, floor)
    case Running(_, t) =>
      && t.floor <= s.nextId && Within(t.rows, t.floor, s.nextId)
      && (forall x :: x in t.rows ==> x.id !in s.outbox)
      && (t.base.Some? ==> FloorHolds(s.hist, t.id, t.base.value.version, t.floor))
    case _ => true
  }

  ghost predicate ClientsRows(s: Sys) {
    && (forall i :: 0 <= i < |s.clients| ==> ClientRows(s, s.clients[i]))
    && forall i, j :: 0 <= i < j < |s.clients| ==> Disjoint(RowsOf(s.clients[i]), RowsOf(s.clients[j]))
  }

  ghost predicate CommittedRows(s: Sys) {
    && (forall id :: id in s.outbox ==> id < s.nextId)
    && (forall k, x :: 0 <= k < |s.hist| && x in s.hist[k].rows ==> x.id in s.outbox)
  }

  /** Every stored version is at most the current one. */
  ghost predicate VersionsBelow(s: Sys) {
    forall k, id :: 0 <= k < |s.hist| && StoredOrder(s.hist[k], id) ==>
      id in s.orders && s.hist[k].stored.value.version <= s.orders[id].version
  }

  /** Of two transactions that saved the same order, the earlier has the lower row ids. */
  ghost predicate VersionOrder(hist: seq<Rec>) {
    forall j, k, id :: 0 <= j < k < |hist| && StoredOrder(hist[j], id) && StoredOrder(hist[k], id) ==>
      AllBefore(hist[j].rows, hist[k].rows)
  }

  ghost predicate RowsInv(s: Sys) {
    ClientsRows(s) && CommittedRows(s) && VersionsBelow(s) && VersionOrder(s.hist)
  }

  // ---------------------------------------------------------------- steps that commit nothing

  lemma ReplacedRows(s: Sys, i: nat, c: Client, nextId: nat)
    requires RowsInv(s) && i < |s.clients| && s.nextId <= nextId
    requires ClientRows(s.(nextId := nextId), c)
    requires forall x :: x in RowsOf(c) ==> x in RowsOf(s.clients[i]) || s.nextId <= x.id
    ensures RowsInv(SetClient(s, i, c).(nextId := nextId))
  {
    var t := SetClient(s, i, c).(nextId := nextId);
    forall j | 0 <= j < |t.clients| ensures ClientRows(t, t.clients[j]) {
      if j != i {
        assert ClientRows(s, s.clients[j]);
      }
    }
    forall j | 0 <= j < |t.clients| && j != i ensures Disjoint(RowsOf(t.clients[j]), RowsOf(c)) {
      assert ClientRows(s, s.clients[j]);
      assert j < i ==> Disjoint(RowsOf(s.clients[j]), RowsOf(s.clients[i]));
      assert i < j ==> Disjoint(RowsOf(s.clients[i]), RowsOf(s.clients[j]));
    }
  }

  lemma BeginRows(cfg: Config, s: Sys, i: nat)
    requires RowsInv(s) && i < |s.clients| && s.clients[i].Waiting?
    ensures RowsInv(BeginStep(cfg, s, i))
  {
    var t := BeginStep(cfg, s, i);
    var c := t.clients[i];
    ReplacedRows(s, i, c, s.nextId);
  }

  /** A header read now has everything committed so far below its floor. */
  lemma HeaderRows(cfg: Config, s: Sys, i: nat)
    requires RowsInv(s) && i < |s.clients| && (s.clients[i].Waiting? || s.clients[i].Marked?)
    ensures RowsInv(HeaderStep(cfg, s, i))
  {
    var t := HeaderStep(cfg, s, i);
    var c := t.clients[i];
    forall k | 0 <= k < |s.hist| ensures Within(s.hist[k].rows, 0, s.nextId) {
    }
    ReplacedRows(s, i, c, s.nextId);
  }

  lemma LoadRows(cfg: Config, s: Sys, i: nat)
    requires RowsInv(s) && i < |s.clients|
    ensures s.clients[i].GotHeader? ==> RowsInv(LinesStep(s, i))
    ensures s.clients[i].GotLines? ==> RowsInv(GroupsStep(cfg, s, i))
  {
    assert ClientRows(s, s.clients[i]);
    if s.clients[i].GotHeader? {
      ReplacedRows(s, i, LinesStep(s, i).clients[i], s.nextId);
    } else if s.clients[i].GotLines? {
      ReplacedRows(s, i, GroupsStep(cfg, s, i).clients[i], s.nextId);
    }
  }

  lemma ExecRows(cfg: Config, s: Sys, i: nat)
    requires RowsInv(s)
    requires i < |s.clients| && s.clients[i].Running? && s.clients[i].txn.pc < |s.clients[i].txn.plan.effects|
    ensures RowsInv(ExecStep(cfg, s, i))
  {
    assert ClientRows(s, s.clients[i]);
    var t := ExecStep(cfg, s, i);
    ReplacedRows(s, i, t.clients[i], t.nextId);
  }

  // ---------------------------------------------------------------- commit

  /** The committed transaction comes after every earlier one that saved the same order: those are at
      most at the version it read, so their rows are below its floor. */
  lemma CommitsAfter(cfg: Config, s: Sys, i: nat, k: nat)
    requires Inv(cfg, s) && RowsInv(s) && i < |s.clients| && CanCommit(s.clients[i])
    requires k < |s.hist| && s.clients[i].txn.stored.Some? && StoredOrder(s.hist[k], s.clients[i].txn.id)
    ensures AllBefore(s.hist[k].rows, s.clients[i].txn.rows)
  {
    CommittedIsSerial(cfg, s, i);
    assert ClientRows(s, s.clients[i]);
  }

  lemma CommitVersionsBelow(cfg: Config, s: Sys, i: nat)
    requires Inv(cfg, s) && RowsInv(s) && i < |s.clients| && CanCommit(s.clients[i])
    ensures VersionsBelow(CommitStep(cfg, s, i))
  {
    CommittedIsSerial(cfg, s, i);
  }

  lemma CommitVersionOrder(cfg: Config, s: Sys, i: nat)
    requires Inv(cfg, s) && RowsInv(s) && i < |s.clients| && CanCommit(s.clients[i])
    ensures VersionOrder(s.hist + [RecOf(s.clients[i])])
  {
    CommittedIsSerial(cfg, s, i);
    var hist := s.hist + [RecOf(s.clients[i])];
    forall j, k, id | 0 <= j < k < |hist| && StoredOrder(hist[j], id) && StoredOrder(hist[k], id)
      ensures AllBefore(hist[j].rows, hist[k].rows)
    {
      if k == |s.hist| {
        CommitsAfter(cfg, s, i, j);
      }
    }
  }

  lemma CommitClientRows(cfg: Config, s: Sys, i: nat, c: Client)
    requires Inv(cfg, s) && RowsInv(s) && i < |s.clients| && CanCommit(s.clients[i])
    requires ClientRows(s, c) && ClientOk(cfg, s.orders, s.minted, c) && Disjoint(s.clients[i].txn.rows, RowsOf(c))
    ensures ClientRows(CommitStep(cfg, s, i), c)
  {
    CommittedIsSerial(cfg, s, i);
    RowMapHolds(s.clients[i].txn.rows);
  }

  lemma NextLegRows(cfg: Config, s: Sys, i: nat)
    requires Inv(cfg, s) && RowsInv(s) && i < |s.clients| && CanCommit(s.clients[i])
    ensures ClientRows(CommitStep(cfg, s, i), AfterCommit(cfg, s.clients[i], s.nextId))
  {
    assert ClientRows(s, s.clients[i]);
    var t := CommitStep(cfg, s, i);
    forall k | 0 <= k < |t.hist| ensures Within(t.hist[k].rows, 0, s.nextId) {
    }
  }

  lemma CommitRows(cfg: Config, s: Sys, i: nat)
    requires Inv(cfg, s) && RowsInv(s) && i < |s.clients| && CanCommit(s.clients[i])
    ensures RowsInv(CommitStep(cfg, s, i))
  {
    var c := s.clients[i];
    var t := CommitStep(cfg, s, i);
    CommitVersionsBelow(cfg, s, i);
    CommitVersionOrder(cfg, s, i);
    RowMapHolds(c.txn.rows);
    assert ClientRows(s, c);
    assert CommittedRows(t);
    forall j | 0 <= j < |t.clients| ensures ClientRows(t, t.clients[j]) {
      if j == i {
        NextLegRows(cfg, s, i);
      } else {
        assert ClientRows(s, s.clients[j]) && ClientOk(cfg, s.orders, s.minted, s.clients[j]);
        assert j < i ==> Disjoint(RowsOf(s.clients[j]), RowsOf(c));
        assert i < j ==> Disjoint(RowsOf(c), RowsOf(s.clients[j]));
        CommitClientRows(cfg, s, i, s.clients[j]);
      }
    }
  }

  // ---------------------------------------------------------------- all steps, all runs

  lemma ClientStepRows(cfg: Config, s: Sys, a: Action, i: nat)
    requires Inv(cfg, s) && RowsInv(s) && i < |s.clients|
    ensures RowsInv(ClientStep(cfg, s, a, i))
  {
    var c := s.clients[i];
    match a
    case Begin(_) => if c.Waiting? { BeginRows(cfg, s, i); }
    case ReadHeader(_) => if c.Waiting? || c.Marked? { HeaderRows(cfg, s, i); }
    case ReadLines(_) => LoadRows(cfg, s, i);
    case ReadGroups(_) => LoadRows(cfg, s, i);
    case Exec(_) => if c.Running? && c.txn.pc < |c.txn.plan.effects| { ExecRows(cfg, s, i); }
    case CommitTxn(_) => if CanCommit(c) { CommitRows(cfg, s, i); }
    case AbortTxn(_) => ReplacedRows(s, i, Done, s.nextId);
    case _ =>
  }

  lemma RelayRows(s: Sys, a: Action)
    requires RowsInv(s)
    ensures RowsInv(RelayStep(s, a))
  {
    forall i | 0 <= i < |s.clients| ensures ClientRows(RelayStep(s, a), s.clients[i]) {
      assert ClientRows(s, s.clients[i]);
    }
  }

  lemma SpawnRows(cfg: Config, s: Sys, job: Job)
    requires RowsInv(s)
    ensures RowsInv(Next(cfg, s, Spawn(job)))
  {
    forall i | 0 <= i < |s.clients| ensures ClientRows(Next(cfg, s, Spawn(job)), s.clients[i]) {
      assert ClientRows(s, s.clients[i]);
    }
  }

  lemma NextRows(cfg: Config, s: Sys, a: Action)
    requires Inv(cfg, s) && RowsInv(s)
    ensures RowsInv(Next(cfg, s, a))
  {
    match a
    case Spawn(job) => SpawnRows(cfg, s, job);
    case Claim(_) => RelayRows(s, a);
    case Send => RelayRows(s, a);
    case SendFails(_) => RelayRows(s, a);
    case RelayCommit => RelayRows(s, a);
    case RelayAbort => RelayRows(s, a);
    case _ => if a.i < |s.clients| { ClientStepRows(cfg, s, a, a.i); }
  }

  /** In every reachable state the rows of one order are numbered in the order of the versions that
      its transactions committed. */
  lemma {:induction false} RowIdsFollowVersions(cfg: Config, actions: seq<Action>)
    requires Honest(cfg)
    ensures RowsInv(Run(cfg, actions))
  {
    if actions != [] {
      RowIdsFollowVersions(cfg, actions[..|actions| - 1]);
      EveryRunIsSerial(cfg, actions[..|actions| - 1]);
      NextRows(cfg, Run(cfg, actions[..|actions| - 1]), actions[|actions| - 1]);
    }
  }
}
