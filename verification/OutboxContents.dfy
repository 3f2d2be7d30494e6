/** The outbox holds exactly the rows of the committed transactions, and every committed transaction
    has, for each event it published and in that order, one row per encoder. */
module OutboxContents {
  import opened Allocation
  import opened UseCases
  import opened OrderSystem
  import opened Serializability
  import opened OutboxOrder

  function Repeat(e: Event, n: nat): (r: seq<Event>)
    ensures |r| == n
  {
    seq(n, _ => e)
  }

  /** The events of the first `k` writes, each as often as there are encoders for it. */
  function Fanned(cfg: Config, effects: seq<Effect>, k: nat): seq<Event>
    requires k <= |effects|
  {
    if k == 0 then []
    else
      Fanned(cfg, effects, k - 1)
      + (if effects[k - 1].Emit? then Repeat(effects[k - 1].event, cfg.copies(effects[k - 1].event)) else [])
  }

  function EventsOf(rows: seq<Row>): (r: seq<Event>)
    ensures |r| == |rows|
  {
    seq(|rows|, i requires 0 <= i < |rows| => rows[i].event)
  }

  predicate Sorted(rows: seq<Row>) {
    forall i, j :: 0 <= i < j < |rows| ==> rows[i].id < rows[j].id
  }

  /** The rows written so far, in id order, are those of the writes done so far. */
  ghost predicate RowsRecord(cfg: Config, plan: Plan, rows: seq<Row>, k: nat) {
    k <= |plan.effects| && Sorted(rows) && EventsOf(rows) == Fanned(cfg, plan.effects, k)
  }

  ghost predicate InOutbox(s: Sys, x: Row) {
    x.id in s.outbox && s.outbox[x.id] == x.event
  }

  ghost predicate FromHistory(hist: seq<Rec>, id: nat) {
    exists k, x :: 0 <= k < |hist| && x in hist[k].rows && x.id == id
  }

  ghost predicate ClientRecords(cfg: Config, c: Client) {
    c.Running? ==> RowsRecord(cfg, c.txn.plan, c.txn.rows, c.txn.pc)
  }

  ghost predicate RecRecords(cfg: Config, r: Rec) {
    RowsRecord(cfg, r.plan, r.rows, |r.plan.effects|)
  }

  ghost predicate AllRecorded(cfg: Config, s: Sys) {
    && (forall i :: 0 <= i < |s.clients| ==> ClientRecords(cfg, s.clients[i]))
    && (forall k :: 0 <= k < |s.hist| ==> RecRecords(cfg, s.hist[k]))
  }

  ghost predicate OutboxIsHistory(s: Sys) {
    && (forall k, x :: 0 <= k < |s.hist| && x in s.hist[k].rows ==> InOutbox(s, x))
    && (forall id :: id in s.outbox ==> FromHistory(s.hist, id))
  }

  ghost predicate ContentsInv(cfg: Config, s: Sys) {
    AllRecorded(cfg, s) && OutboxIsHistory(s)
  }

  lemma {:induction false} RowMapKeeps(rows: seq<Row>)
    requires Sorted(rows)
    ensures forall x :: x in rows ==> x.id in RowMap(rows) && RowMap(rows)[x.id] == x.event
  {
    if rows != [] {
      var n := |rows| - 1;
      RowMapKeeps(rows[..n]);
      assert rows == rows[..n] + [rows[n]];
    }
  }

  lemma EmitRecords(cfg: Config, nextId: nat, plan: Plan, rows: seq<Row>, pc: nat, e: Event)
    requires RowsRecord(cfg, plan, rows, pc) && Within(rows, 0, nextId) && pc < |plan.effects| && plan.effects[pc] == Emit(e)
    ensures RowsRecord(cfg, plan, rows + Fresh(nextId, e, cfg.copies(e)), pc + 1)
  {
    var more := Fresh(nextId, e, cfg.copies(e));
    assert EventsOf(rows + more) == EventsOf(rows) + Repeat(e, cfg.copies(e));
  }

  lemma ExecRecords(cfg: Config, s: Sys, i: nat)
    requires i < |s.clients| && s.clients[i].Running? && s.clients[i].txn.pc < |s.clients[i].txn.plan.effects|
    requires ClientRows(s, s.clients[i]) && ClientRecords(cfg, s.clients[i])
    ensures ClientRecords(cfg, ExecStep(cfg, s, i).clients[i])
  {
    var txn := s.clients[i].txn;
    match txn.plan.effects[txn.pc]
    case Emit(e) => EmitRecords(cfg, s.nextId, txn.plan, txn.rows, txn.pc, e);
    case Store(o) =>
  }

  /** What a step of a client leaves to record, when it is not a commit. */
  lemma StepRecords(cfg: Config, s: Sys, a: Action, i: nat)
    requires i < |s.clients| && !a.CommitTxn?
    requires ClientRows(s, s.clients[i]) && ClientRecords(cfg, s.clients[i])
    ensures ClientRecords(cfg, ClientStep(cfg, s, a, i).clients[i])
  {
    if a.Exec? && s.clients[i].Running? && s.clients[i].txn.pc < |s.clients[i].txn.plan.effects| {
      ExecRecords(cfg, s, i);
    }
  }

  lemma OneClientMoves(cfg: Config, s: Sys, a: Action, i: nat)
    requires i < |s.clients| && !a.CommitTxn?
    ensures
      var t := ClientStep(cfg, s, a, i);
      && t.hist == s.hist && t.outbox == s.outbox
      && |t.clients| == |s.clients| && forall j :: 0 <= j < |s.clients| && j != i ==> t.clients[j] == s.clients[j]
  {
  }

  lemma Quiet(s: Sys, t: Sys)
    requires OutboxIsHistory(s) && t.hist == s.hist && t.outbox == s.outbox
    ensures OutboxIsHistory(t)
  {
    assert forall x :: InOutbox(s, x) ==> InOutbox(t, x);
  }

  lemma CommitOutbox(cfg: Config, s: Sys, t: Sys, r: Rec)
    requires OutboxIsHistory(s) && Sorted(r.rows) && forall x :: x in r.rows ==> x.id !in s.outbox
    requires t.hist == s.hist + [r] && t.outbox == s.outbox + RowMap(r.rows)
    ensures OutboxIsHistory(t)
  {
    RowMapHolds(r.rows);
    RowMapKeeps(r.rows);
    forall k, x | 0 <= k < |t.hist| && x in t.hist[k].rows ensures InOutbox(t, x) {
      assert k < |s.hist| ==> InOutbox(s, x);
    }
    forall id | id in t.outbox ensures FromHistory(t.hist, id) {
      if id in RowMap(r.rows) {
        var x :| x in r.rows && x.id == id;
        assert x in t.hist[|s.hist|].rows;
      } else {
        var k, x :| 0 <= k < |s.hist| && x in s.hist[k].rows && x.id == id;
        assert x in t.hist[k].rows;
      }
    }
  }

  lemma CommitRecords(cfg: Config, s: Sys, i: nat)
    requires RowsInv(s) && ContentsInv(cfg, s) && i < |s.clients| && CanCommit(s.clients[i])
    ensures ContentsInv(cfg, CommitStep(cfg, s, i))
  {
    assert ClientRows(s, s.clients[i]) && ClientRecords(cfg, s.clients[i]);
    CommitOutbox(cfg, s, CommitStep(cfg, s, i), RecOf(s.clients[i]));
  }

  lemma ClientStepRecords(cfg: Config, s: Sys, a: Action, i: nat)
    requires RowsInv(s) && ContentsInv(cfg, s) && i < |s.clients|
    ensures ContentsInv(cfg, ClientStep(cfg, s, a, i))
  {
    if !a.CommitTxn? {
      assert ClientRows(s, s.clients[i]) && ClientRecords(cfg, s.clients[i]);
      StepRecords(cfg, s, a, i);
      OneClientMoves(cfg, s, a, i);
      Quiet(s, ClientStep(cfg, s, a, i));
    } else if CanCommit(s.clients[i]) {
      CommitRecords(cfg, s, i);
    }
  }

  lemma RelayRecords(cfg: Config, s: Sys, a: Action)
    requires ContentsInv(cfg, s)
    ensures ContentsInv(cfg, RelayStep(s, a))
  {
    Quiet(s, RelayStep(s, a));
  }

  lemma SpawnRecords(cfg: Config, s: Sys, job: Job)
    requires ContentsInv(cfg, s)
    ensures ContentsInv(cfg, Next(cfg, s, Spawn(job)))
  {
    Quiet(s, Next(cfg, s, Spawn(job)));
  }

  lemma NextRecords(cfg: Config, s: Sys, a: Action)
    requires RowsInv(s) && ContentsInv(cfg, s)
    ensures ContentsInv(cfg, Next(cfg, s, a))
  {
    match a
    case Spawn(job) => SpawnRecords(cfg, s, job);
    case Claim(_) => RelayRecords(cfg, s, a);
    case Send => RelayRecords(cfg, s, a);
    case SendFails(_) => RelayRecords(cfg, s, a);
    case RelayCommit => RelayRecords(cfg, s, a);
    case RelayAbort => RelayRecords(cfg, s, a);
    case _ => if a.i < |s.clients| { ClientStepRecords(cfg, s, a, a.i); }
  }

  /** In every run: the outbox is the rows of the committed transactions and nothing else, each with
      its own event, and a transaction's rows list its events in order, once per encoder. */
  lemma {:induction false} OutboxHoldsCommittedEvents(cfg: Config, actions: seq<Action>)
    requires Honest(cfg)
    ensures ContentsInv(cfg, Run(cfg, actions))
  {
    if actions != [] {
      OutboxHoldsCommittedEvents(cfg, actions[..|actions| - 1]);
      RowIdsFollowVersions(cfg, actions[..|actions| - 1]);
      NextRecords(cfg, Run(cfg, actions[..|actions| - 1]), actions[|actions| - 1]);
    }
  }
}
