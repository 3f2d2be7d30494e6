/** With one relay, the first sends of an order's outbox rows follow the order in which the versions
    were committed, across writers, failed sends, lost relay commits and crashes. */
module RelayOrder {
  import opened OrderSystem
  import opened Serializability
  import opened OutboxOrder

  /** Row `a` belongs before row `b`: both come from committed transactions that saved one and the
      same order, and `a` from the earlier one, or earlier in the same one. */
  ghost predicate Precedes(hist: seq<Rec>, j: nat, k: nat, a: Row, b: Row) {
    && j <= k < |hist|
    && hist[j].stored.Some? && hist[k].stored.Some? && hist[j].stored.value.id == hist[k].stored.value.id
    && a in hist[j].rows && b in hist[k].rows && a.id < b.id
  }

  ghost predicate PublishedOk(s: Sys) {
    && (forall id :: id in s.published ==> id in s.sent)
    && (forall id :: id in s.sent ==> id in s.outbox)
  }

  /** Whatever belongs before row `b` has been sent before the first `n` sends are over. */
  ghost predicate SentInOrder(s: Sys) {
    forall j, k, a, b, q :: Precedes(s.hist, j, k, a, b) && 0 <= q < |s.sent| && s.sent[q] == b.id ==> a.id in s.sent[..q]
  }

  ghost predicate RelayOk(s: Sys) {
    s.relay.Sending? ==>
      && s.relay.k <= |s.relay.batch|
      && (forall p :: 0 <= p < |s.relay.batch| ==> s.relay.batch[p] in s.outbox)
      && (forall p :: 0 <= p < s.relay.k ==> s.relay.batch[p] in s.sent)
      && (forall j, k, a, b, p :: Precedes(s.hist, j, k, a, b) && 0 <= p < |s.relay.batch| && s.relay.batch[p] == b.id ==>
            a.id in s.published || a.id in s.relay.batch[..p])
  }

  ghost predicate RelayInv(s: Sys) {
    PublishedOk(s) && SentInOrder(s) && RelayOk(s)
  }

  lemma ClaimKeeps(s: Sys, batch: seq<nat>)
    requires RowsInv(s) && RelayInv(s) && s.relay.Resting? && Claimable(s, batch)
    ensures RelayInv(s.(relay := Sending(batch, 0)))
  {
    forall j, k, a, b, p | Precedes(s.hist, j, k, a, b) && 0 <= p < |batch| && batch[p] == b.id
      ensures a.id in s.published || a.id in batch[..p]
    {
      assert a.id in s.outbox;
    }
  }

  /** Whatever belongs before the next row of the batch has been sent already. */
  lemma NextSendIsInOrder(s: Sys)
    requires RelayInv(s) && s.relay.Sending? && s.relay.k < |s.relay.batch|
    ensures SentInOrder(s.(sent := s.sent + [s.relay.batch[s.relay.k]]))
  {
    var n := |s.sent|;
    var t := s.(sent := s.sent + [s.relay.batch[s.relay.k]]);
    forall j, k, a, b, q | Precedes(t.hist, j, k, a, b) && 0 <= q < |t.sent| && t.sent[q] == b.id
      ensures a.id in t.sent[..q]
    {
      if q < n {
        assert t.sent[..q] == s.sent[..q];
      } else {
        assert t.sent[..n] == s.sent;
      }
    }
  }

  lemma SendKeeps(s: Sys)
    requires RelayInv(s) && s.relay.Sending? && s.relay.k < |s.relay.batch|
    ensures RelayInv(RelayStep(s, Send))
  {
    NextSendIsInOrder(s);
    var t := RelayStep(s, Send);
    assert SentInOrder(t);
  }

  lemma FailureKeeps(s: Sys, taken: bool)
    requires RelayInv(s) && s.relay.Sending? && s.relay.k < |s.relay.batch|
    ensures RelayInv(RelayStep(s, SendFails(taken)))
  {
    NextSendIsInOrder(s);
    var t := RelayStep(s, SendFails(taken));
    assert !taken ==> t.sent == s.sent;
    assert SentInOrder(t);
  }

  lemma RelayStepKeeps(s: Sys, a: Action)
    requires RowsInv(s) && RelayInv(s)
    ensures RelayInv(RelayStep(s, a))
  {
    match s.relay
    case Resting => if a.Claim? && Claimable(s, a.batch) { ClaimKeeps(s, a.batch); }
    case Sending(batch, k) =>
      if a.Send? && k < |batch| {
        SendKeeps(s);
      } else if a.SendFails? && k < |batch| {
        FailureKeeps(s, a.taken);
      } else {
        RestKeeps(s, a);
      }
  }

  lemma RestKeeps(s: Sys, a: Action)
    requires RelayInv(s) && s.relay.Sending?
    requires a.Send? || a.SendFails? ==> s.relay.k == |s.relay.batch|
    ensures RelayInv(RelayStep(s, a))
  {
  }

  /** Rows committed now are new to the relay: they are in no batch and were never sent, and what
      they belong after was committed before them. */
  lemma NewRowsAreUnsent(s: Sys, t: Sys, r: Rec)
    requires RelayInv(s) && CommittedRows(s)
    requires t.hist == s.hist + [r] && t.sent == s.sent && t.relay == s.relay && t.published == s.published
    requires forall id :: id in s.outbox ==> id in t.outbox
    requires forall x :: x in r.rows ==> x.id !in s.outbox
    requires VersionOrder(t.hist)
    ensures RelayInv(t)
  {
    forall j: nat, k: nat, a, b | Precedes(t.hist, j, k, a, b) && b.id in s.outbox
      ensures Precedes(s.hist, j, k, a, b)
    {
      assert k < |s.hist|;
    }
  }

  lemma CommitRelay(cfg: Config, s: Sys, i: nat)
    requires Inv(cfg, s) && RowsInv(s) && RelayInv(s) && i < |s.clients| && CanCommit(s.clients[i])
    ensures RelayInv(CommitStep(cfg, s, i))
  {
    assert ClientRows(s, s.clients[i]);
    CommitVersionOrder(cfg, s, i);
    NewRowsAreUnsent(s, CommitStep(cfg, s, i), RecOf(s.clients[i]));
  }

  /** Only a commit and the relay itself touch what the relay works on. */
  lemma QuietStep(cfg: Config, s: Sys, a: Action, i: nat)
    requires i < |s.clients| && !a.CommitTxn?
    ensures
      var t := ClientStep(cfg, s, a, i);
      t.hist == s.hist && t.sent == s.sent && t.relay == s.relay && t.published == s.published && t.outbox == s.outbox
  {
  }

  lemma QuietKeeps(s: Sys, t: Sys)
    requires RelayInv(s)
    requires t.hist == s.hist && t.sent == s.sent && t.relay == s.relay && t.published == s.published && t.outbox == s.outbox
    ensures RelayInv(t)
  {
  }

  lemma ClientStepRelay(cfg: Config, s: Sys, a: Action, i: nat)
    requires Inv(cfg, s) && RowsInv(s) && RelayInv(s) && i < |s.clients|
    ensures RelayInv(ClientStep(cfg, s, a, i))
  {
    if !a.CommitTxn? {
      QuietStep(cfg, s, a, i);
      QuietKeeps(s, ClientStep(cfg, s, a, i));
    } else if CanCommit(s.clients[i]) {
      CommitRelay(cfg, s, i);
    }
  }

  lemma NextRelay(cfg: Config, s: Sys, a: Action)
    requires Inv(cfg, s) && RowsInv(s) && RelayInv(s)
    ensures RelayInv(Next(cfg, s, a))
  {
    match a
    case Claim(_) => RelayStepKeeps(s, a);
    case Send => RelayStepKeeps(s, a);
    case SendFails(_) => RelayStepKeeps(s, a);
    case RelayCommit => RelayStepKeeps(s, a);
    case RelayAbort => RelayStepKeeps(s, a);
    case Spawn(_) => QuietKeeps(s, Next(cfg, s, a));
    case _ => if a.i < |s.clients| { ClientStepRelay(cfg, s, a, a.i); }
  }

  lemma {:induction false} RelayInvHolds(cfg: Config, actions: seq<Action>)
    requires Honest(cfg)
    ensures RelayInv(Run(cfg, actions))
  {
    if actions != [] {
      RelayInvHolds(cfg, actions[..|actions| - 1]);
      EveryRunIsSerial(cfg, actions[..|actions| - 1]);
      RowIdsFollowVersions(cfg, actions[..|actions| - 1]);
      NextRelay(cfg, Run(cfg, actions[..|actions| - 1]), actions[|actions| - 1]);
    }
  }

  /** The position of the first send of a row, or the number of sends. */
  function FirstSend(sent: seq<nat>, id: nat, from: nat): (q: nat)
    requires from <= |sent|
    ensures from <= q <= |sent|
    ensures q < |sent| ==> sent[q] == id
    ensures forall p :: from <= p < q ==> sent[p] != id
    decreases |sent| - from
  {
    if from == |sent| || sent[from] == id then from else FirstSend(sent, id, from + 1)
  }

  /** In every run: take two transactions that committed versions of the same order, in commit order,
      and a row of each. If the later row was ever sent, the earlier was sent before, counting first
      sends. Rows of one transaction are first sent in the order they were written. */
  lemma FirstSendsFollowCommits(cfg: Config, actions: seq<Action>, j: nat, k: nat, a: Row, b: Row)
    requires Honest(cfg)
    requires
      var hist := Run(cfg, actions).hist;
      && j <= k < |hist|
      && hist[j].stored.Some? && hist[k].stored.Some? && hist[j].stored.value.id == hist[k].stored.value.id
      && a in hist[j].rows && b in hist[k].rows && (j == k ==> a.id < b.id)
    ensures
      var sent := Run(cfg, actions).sent;
      b.id in sent ==> FirstSend(sent, a.id, 0) < FirstSend(sent, b.id, 0) < |sent|
  {
    var s := Run(cfg, actions);
    RelayInvHolds(cfg, actions);
    RowIdsFollowVersions(cfg, actions);
    assert StoredOrder(s.hist[j], s.hist[k].stored.value.id) && StoredOrder(s.hist[k], s.hist[k].stored.value.id);
    assert Precedes(s.hist, j, k, a, b);
    if b.id in s.sent {
      var q := FirstSend(s.sent, b.id, 0);
      assert a.id in s.sent[..q];
    }
  }

  /** No committed row is ever marked published without having been sent. */
  lemma PublishedMeansSent(cfg: Config, actions: seq<Action>, id: nat)
    requires Honest(cfg) && id in Run(cfg, actions).published
    ensures id in Run(cfg, actions).sent && id in Run(cfg, actions).outbox
  {
    RelayInvHolds(cfg, actions);
  }
}
