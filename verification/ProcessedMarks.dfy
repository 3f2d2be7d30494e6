/** Each source event is processed by at most one committed transaction. */
module ProcessedMarks {
  import opened Wrappers
  import opened UseCases
  import opened OrderSystem

  /** The source event a job must claim before it does anything. */
  function Claims(cfg: Config, job: Job): Option<string> {
    match cfg.start(job)
    case Load(_, mark) => mark
    case _ => None
  }

  /** A client past its first step holds exactly the mark its job must claim. */
  ghost predicate MarkOk(cfg: Config, processed: set<string>, c: Client) {
    match c
    case Marked(job, m) => Claims(cfg, job) == Some(m) && m !in processed
    case GotHeader(job, mark, _, _) => mark == Claims(cfg, job) && (mark.Some? ==> mark.value !in processed)
    case GotLines(job, mark, _, _, _) => mark == Claims(cfg, job) && (mark.Some? ==> mark.value !in processed)
    case Running(job, t) => t.mark == Claims(cfg, job) && (t.mark.Some? ==> t.mark.value !in processed)
    case _ => true
  }

  ghost predicate MarksExclusive(clients: seq<Client>) {
    forall i, j, m | 0 <= i < |clients| && 0 <= j < |clients| :: HoldsMark(clients[i], m) && HoldsMark(clients[j], m) ==> i == j
  }

  ghost predicate MarksInv(cfg: Config, s: Sys) {
    && (forall i :: 0 <= i < |s.clients| ==> MarkOk(cfg, s.processed, s.clients[i]))
    && MarksExclusive(s.clients)
    && (forall k :: 0 <= k < |s.hist| ==> s.hist[k].mark == Claims(cfg, s.hist[k].job))
    && (forall k :: 0 <= k < |s.hist| && s.hist[k].mark.Some? ==> s.hist[k].mark.value in s.processed)
    && (forall m :: m in s.processed ==> exists k :: 0 <= k < |s.hist| && s.hist[k].mark == Some(m))
    && (forall j, k :: 0 <= j < k < |s.hist| && s.hist[j].mark.Some? ==> s.hist[j].mark != s.hist[k].mark)
  }

  lemma ReplacedMark(cfg: Config, s: Sys, i: nat, c: Client)
    requires MarksInv(cfg, s) && i < |s.clients|
    requires MarkOk(cfg, s.processed, c)
    requires forall m :: HoldsMark(c, m) ==> HoldsMark(s.clients[i], m) || !MarkLocked(s, m)
    ensures MarksInv(cfg, SetClient(s, i, c))
  {
    forall j, m | 0 <= j < |s.clients| && j != i && HoldsMark(s.clients[j], m) ensures !HoldsMark(c, m) {
    }
  }

  lemma ReadMarks(cfg: Config, s: Sys, a: Action, i: nat)
    requires MarksInv(cfg, s) && i < |s.clients|
    requires a.Begin? || a.ReadHeader? || a.ReadLines? || a.ReadGroups? || a.AbortTxn?
    ensures MarksInv(cfg, ClientStep(cfg, s, a, i))
  {
    assert MarkOk(cfg, s.processed, s.clients[i]);
    var t := ClientStep(cfg, s, a, i);
    ReplacedMark(cfg, s, i, t.clients[i]);
  }

  lemma ExecMarks(cfg: Config, s: Sys, i: nat)
    requires MarksInv(cfg, s)
    requires i < |s.clients| && s.clients[i].Running? && s.clients[i].txn.pc < |s.clients[i].txn.plan.effects|
    ensures MarksInv(cfg, ExecStep(cfg, s, i))
  {
    assert MarkOk(cfg, s.processed, s.clients[i]);
    var t := ExecStep(cfg, s, i);
    ReplacedMark(cfg, s, i, t.clients[i]);
  }

  lemma CommitMarks(cfg: Config, s: Sys, i: nat)
    requires MarksInv(cfg, s) && i < |s.clients| && s.clients[i].Running?
    ensures MarksInv(cfg, CommitStep(cfg, s, i))
  {
    var c := s.clients[i];
    var t := CommitStep(cfg, s, i);
    assert MarkOk(cfg, s.processed, c);
    if t != s {
      assert c.txn.mark.Some? ==> HoldsMark(c, c.txn.mark.value);
      forall j | 0 <= j < |t.clients| ensures MarkOk(cfg, t.processed, t.clients[j]) {
        if j != i {
          assert MarkOk(cfg, s.processed, s.clients[j]);
          CommitKeepsMark(cfg, s, c, s.clients[j]);
        }
      }
      forall m | m in t.processed ensures exists k :: 0 <= k < |t.hist| && t.hist[k].mark == Some(m) {
        if m in s.processed {
          var k :| 0 <= k < |s.hist| && s.hist[k].mark == Some(m);
          assert t.hist[k].mark == Some(m);
        } else {
          assert t.hist[|s.hist|].mark == Some(m);
        }
      }
    }
  }

  lemma CommitKeepsMark(cfg: Config, s: Sys, c: Client, d: Client)
    requires c.Running? && MarkOk(cfg, s.processed, d)
    requires forall m :: HoldsMark(c, m) ==> !HoldsMark(d, m)
    ensures MarkOk(cfg, s.processed + (if c.txn.mark.Some? then {c.txn.mark.value} else {}), d)
  {
    if c.txn.mark.Some? {
      assert HoldsMark(c, c.txn.mark.value);
    }
  }

  lemma ClientStepMarks(cfg: Config, s: Sys, a: Action, i: nat)
    requires MarksInv(cfg, s) && i < |s.clients|
    ensures MarksInv(cfg, ClientStep(cfg, s, a, i))
  {
    var c := s.clients[i];
    match a
    case Exec(_) => if c.Running? && c.txn.pc < |c.txn.plan.effects| { ExecMarks(cfg, s, i); }
    case CommitTxn(_) => if c.Running? { CommitMarks(cfg, s, i); }
    case Begin(_) => ReadMarks(cfg, s, a, i);
    case ReadHeader(_) => ReadMarks(cfg, s, a, i);
    case ReadLines(_) => ReadMarks(cfg, s, a, i);
    case ReadGroups(_) => ReadMarks(cfg, s, a, i);
    case AbortTxn(_) => ReadMarks(cfg, s, a, i);
    case _ =>
  }

  lemma RelayMarks(cfg: Config, s: Sys, a: Action)
    requires MarksInv(cfg, s)
    ensures MarksInv(cfg, RelayStep(s, a))
  {
  }

  lemma NextMarks(cfg: Config, s: Sys, a: Action)
    requires MarksInv(cfg, s)
    ensures MarksInv(cfg, Next(cfg, s, a))
  {
    match a
    case Spawn(job) =>
    case Claim(_) => RelayMarks(cfg, s, a);
    case Send => RelayMarks(cfg, s, a);
    case SendFails(_) => RelayMarks(cfg, s, a);
    case RelayCommit => RelayMarks(cfg, s, a);
    case RelayAbort => RelayMarks(cfg, s, a);
    case _ => if a.i < |s.clients| { ClientStepMarks(cfg, s, a, a.i); }
  }

  lemma {:induction false} MarksInvHolds(cfg: Config, actions: seq<Action>)
    ensures MarksInv(cfg, Run(cfg, actions))
  {
    if actions != [] {
      MarksInvHolds(cfg, actions[..|actions| - 1]);
      NextMarks(cfg, Run(cfg, actions[..|actions| - 1]), actions[|actions| - 1]);
    }
  }

  /** Under any redelivery and any interleaving, two committed transactions never answer to the same
      source event, and an event counts as processed exactly when one has. */
  lemma OneCommitPerSourceEvent(cfg: Config, actions: seq<Action>, m: string)
    ensures
      var hist := Run(cfg, actions).hist;
      && (forall j, k :: 0 <= j < |hist| && 0 <= k < |hist| && Answers(cfg, hist[j], m) && Answers(cfg, hist[k], m) ==> j == k)
      && (m in Run(cfg, actions).processed <==> exists k :: 0 <= k < |hist| && Answers(cfg, hist[k], m))
  {
    MarksInvHolds(cfg, actions);
    var hist := Run(cfg, actions).hist;
    forall k | 0 <= k < |hist| ensures Answers(cfg, hist[k], m) <==> hist[k].mark == Some(m) {
    }
  }

  /** The committed transaction is that of a job for the source event. */
  predicate Answers(cfg: Config, r: Rec, m: string) {
    Claims(cfg, r.job) == Some(m)
  }

  lemma HolderIsUnprocessed(cfg: Config, s: Sys, i: nat, m: string)
    requires MarksInv(cfg, s) && i < |s.clients| && HoldsMark(s.clients[i], m)
    ensures m !in s.processed
    ensures !MarkLocked(SetClient(s, i, Done), m)
  {
    assert MarkOk(cfg, s.processed, s.clients[i]);
  }

  lemma BeginClaims(cfg: Config, s: Sys, job: Job, m: string)
    requires Claims(cfg, job) == Some(m) && m !in s.processed && !MarkLocked(s, m)
    ensures
      var n := |s.clients|;
      Next(cfg, Next(cfg, s, Spawn(job)), Begin(n)) == s.(clients := s.clients + [Marked(job, m)])
  {
    var n := |s.clients|;
    var t := Next(cfg, s, Spawn(job));
    forall i | 0 <= i < |t.clients| ensures !HoldsMark(t.clients[i], m) {
      assert i < n ==> t.clients[i] == s.clients[i];
    }
    assert t.clients[n := Marked(job, m)] == s.clients + [Marked(job, m)];
  }

  /** A transaction that holds a source event and fails, at whatever point of whatever run, leaves no
      trace; the event is then neither processed nor locked, and a redelivery can claim it at once. */
  lemma FailureLeavesNoTrace(cfg: Config, actions: seq<Action>, i: nat, m: string, redelivery: Job)
    requires i < |Run(cfg, actions).clients| && HoldsMark(Run(cfg, actions).clients[i], m)
    requires Claims(cfg, redelivery) == Some(m)
    ensures
      var s, t := Run(cfg, actions), Run(cfg, actions + [AbortTxn(i)]);
      && t.orders == s.orders && t.outbox == s.outbox && t.processed == s.processed && t.hist == s.hist
      && t.published == s.published && t.sent == s.sent
      && m !in t.processed && !MarkLocked(t, m)
      && Run(cfg, actions + [AbortTxn(i), Spawn(redelivery), Begin(|t.clients|)])
         == t.(clients := t.clients + [Marked(redelivery, m)])
  {
    MarksInvHolds(cfg, actions);
    HolderIsUnprocessed(cfg, Run(cfg, actions), i, m);
    OneMore(cfg, actions, AbortTxn(i));
    var t := Run(cfg, actions + [AbortTxn(i)]);
    BeginClaims(cfg, t, redelivery, m);
    OneMore(cfg, actions + [AbortTxn(i)], Spawn(redelivery));
    OneMore(cfg, actions + [AbortTxn(i)] + [Spawn(redelivery)], Begin(|t.clients|));
    assert actions + [AbortTxn(i)] + [Spawn(redelivery)] + [Begin(|t.clients|)]
        == actions + [AbortTxn(i), Spawn(redelivery), Begin(|t.clients|)];
  }

  lemma OneMore(cfg: Config, actions: seq<Action>, a: Action)
    ensures Run(cfg, actions + [a]) == Next(cfg, Run(cfg, actions), a)
  {
    assert (actions + [a])[..|actions|] == actions;
  }
}
