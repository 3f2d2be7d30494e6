/** The relay's passes over the outbox table are steps of the machine: what holds of every run of the
    machine holds of the table. */
module RelayRefinement {
  import opened OrderSystem
  import Relay

  /** The table holds the rows that the machine has, and has marked those that it has published. */
  ghost predicate Mirrors(rows: Relay.Rows, s: Sys) {
    && (forall id :: id in rows <==> id in s.outbox)
    && (forall id :: id in rows ==> (rows[id].published <==> id in s.published))
  }

  /** The machine's steps for one pass. */
  function PassActions(rows: Relay.Rows, p: Relay.Pass): seq<Action> {
    var batch := Relay.Claimed(rows, p.batchSize);
    var n := Relay.Stop(p, batch, 0);
    if !p.claims then [] else [Action.Claim(batch)] + Sends(n) + Ending(p, batch, n)
  }

  function Sends(n: nat): (r: seq<Action>)
    ensures |r| == n && forall k :: 0 <= k < n ==> r[k] == Send
  {
    seq(n, k => Send)
  }

  function Ending(p: Relay.Pass, batch: seq<nat>, n: nat): seq<Action>
    requires n <= |batch|
  {
    if n == |batch| then [if p.commits then RelayCommit else RelayAbort]
    else
      match p.sink(batch[n])
      case Accepted => [Send, RelayAbort]
      case Refused(_, taken) =>
        if p.marks(batch[n]) && p.commits then [SendFails(taken)]
        else if taken then [Send, RelayAbort]
        else [RelayAbort]
  }

  function Steps(cfg: Config, s: Sys, actions: seq<Action>): Sys {
    if actions == [] then s else Next(cfg, Steps(cfg, s, actions[..|actions| - 1]), actions[|actions| - 1])
  }

  lemma {:induction false} StepsInSequence(cfg: Config, s: Sys, xs: seq<Action>, ys: seq<Action>)
    ensures Steps(cfg, s, xs + ys) == Steps(cfg, Steps(cfg, s, xs), ys)
  {
    if ys == [] {
      assert xs + ys == xs;
    } else {
      var n := |ys| - 1;
      assert (xs + ys)[..|xs + ys| - 1] == xs + ys[..n];
      StepsInSequence(cfg, s, xs, ys[..n]);
    }
  }

  lemma OneStep(cfg: Config, s: Sys, a: Action)
    ensures Steps(cfg, s, [a]) == Next(cfg, s, a)
  {
    assert [a][..0] == [];
    assert Steps(cfg, s, [a][..0]) == s;
  }

  lemma {:induction false} RunGoesOn(cfg: Config, actions: seq<Action>, more: seq<Action>)
    ensures Run(cfg, actions + more) == Steps(cfg, Run(cfg, actions), more)
  {
    if more == [] {
      assert actions + more == actions;
    } else {
      var n := |more| - 1;
      assert (actions + more)[..|actions + more| - 1] == actions + more[..n];
      RunGoesOn(cfg, actions, more[..n]);
    }
  }

  // ---------------------------------------------------------------- the claim

  /** What a pass claims from the table is a batch that the machine may claim. */
  lemma ClaimIsClaimable(rows: Relay.Rows, s: Sys, batchSize: nat)
    requires Mirrors(rows, s)
    ensures Claimable(s, Relay.Claimed(rows, batchSize))
  {
    var batch := Relay.Claimed(rows, batchSize);
    Relay.ClaimAscends(rows, batchSize);
    forall k, id | 0 <= k < |batch| && id in s.outbox && id !in s.published && id < batch[k] ensures id in batch[..k] {
      Relay.ClaimsOldestFirst(rows, batchSize, k, id);
    }
  }

  // ---------------------------------------------------------------- the sends

  lemma {:induction false} SendsInOrder(cfg: Config, s: Sys, batch: seq<nat>, n: nat)
    requires s.relay == Sending(batch, 0) && n <= |batch|
    ensures Steps(cfg, s, Sends(n)) == s.(relay := Sending(batch, n), sent := s.sent + batch[..n])
  {
    if n > 0 {
      SendsInOrder(cfg, s, batch, n - 1);
      assert Sends(n)[..n - 1] == Sends(n - 1);
      assert batch[..n] == batch[..n - 1] + [batch[n - 1]];
    } else {
      assert s.sent + batch[..0] == s.sent;
    }
  }

  /** What the machine's steps at the end of a batch do, seen from the state before the claim. */
  function After(s: Sys, p: Relay.Pass, batch: seq<nat>, n: nat): Sys
    requires n <= |batch|
  {
    var kept := p.commits && (n < |batch| ==> p.sink(batch[n]).Refused? && p.marks(batch[n]));
    s.(relay := Resting,
       sent := s.sent + Relay.EndSends(p, batch, n),
       published := if kept then s.published + Marks(batch, n) else s.published)
  }

  /** Where the machine stands when the pass has come to position `n`. */
  function Before(s: Sys, batch: seq<nat>, n: nat): Sys
    requires n <= |batch|
  {
    s.(relay := Sending(batch, n), sent := s.sent + batch[..n])
  }

  lemma SendThenAbort(cfg: Config, s: Sys, batch: seq<nat>, n: nat)
    requires s.relay == Resting && n < |batch|
    ensures Steps(cfg, Before(s, batch, n), [Send, RelayAbort]) == s.(sent := s.sent + (batch[..n] + [batch[n]]))
  {
    var t := Before(s, batch, n);
    assert [Send, RelayAbort] == [Send] + [RelayAbort];
    StepsInSequence(cfg, t, [Send], [RelayAbort]);
    OneStep(cfg, t, Send);
    OneStep(cfg, Next(cfg, t, Send), RelayAbort);
    assert s.sent + batch[..n] + [batch[n]] == s.sent + (batch[..n] + [batch[n]]);
  }

  lemma FailedSend(cfg: Config, s: Sys, batch: seq<nat>, n: nat, taken: bool)
    requires s.relay == Resting && n < |batch|
    ensures Steps(cfg, Before(s, batch, n), [SendFails(taken)])
         == s.(sent := s.sent + (batch[..n] + (if taken then [batch[n]] else [])), published := s.published + Marks(batch, n))
  {
    OneStep(cfg, Before(s, batch, n), SendFails(taken));
    assert s.sent + batch[..n] + (if taken then [batch[n]] else []) == s.sent + (batch[..n] + (if taken then [batch[n]] else []));
  }

  lemma CommitOrAbort(cfg: Config, s: Sys, batch: seq<nat>, n: nat)
    requires s.relay == Resting && n <= |batch|
    ensures Steps(cfg, Before(s, batch, n), [RelayAbort]) == s.(sent := s.sent + batch[..n])
    ensures n == |batch| ==>
              Steps(cfg, Before(s, batch, n), [RelayCommit]) == s.(sent := s.sent + batch[..n], published := s.published + Marks(batch, n))
  {
    OneStep(cfg, Before(s, batch, n), RelayAbort);
    OneStep(cfg, Before(s, batch, n), RelayCommit);
  }

  lemma EndingSteps(cfg: Config, s: Sys, p: Relay.Pass, batch: seq<nat>, n: nat)
    requires s.relay == Resting && n == Relay.Stop(p, batch, 0)
    ensures Steps(cfg, Before(s, batch, n), Ending(p, batch, n)) == After(s, p, batch, n)
  {
    CommitOrAbort(cfg, s, batch, n);
    if n < |batch| {
      SendThenAbort(cfg, s, batch, n);
      FailedSend(cfg, s, batch, n, true);
      FailedSend(cfg, s, batch, n, false);
    }
    assert batch[..n] + [] == batch[..n];
  }

  lemma PassSteps(cfg: Config, s: Sys, rows: Relay.Rows, p: Relay.Pass)
    requires Mirrors(rows, s) && s.relay == Resting && p.claims
    ensures
      var batch := Relay.Claimed(rows, p.batchSize);
      Steps(cfg, s, PassActions(rows, p)) == After(s, p, batch, Relay.Stop(p, batch, 0))
  {
    var batch := Relay.Claimed(rows, p.batchSize);
    var n := Relay.Stop(p, batch, 0);
    ClaimIsClaimable(rows, s, p.batchSize);
    OneStep(cfg, s, Action.Claim(batch));
    StepsInSequence(cfg, s, [Action.Claim(batch)], Sends(n));
    StepsInSequence(cfg, s, [Action.Claim(batch)] + Sends(n), Ending(p, batch, n));
    SendsInOrder(cfg, s.(relay := Sending(batch, 0)), batch, n);
    EndingSteps(cfg, s, p, batch, n);
  }

  // ---------------------------------------------------------------- the marks

  lemma MarksMirror(rows: Relay.Rows, s: Sys, batchSize: nat, n: nat, id: nat)
    requires Mirrors(rows, s) && n <= |Relay.Claimed(rows, batchSize)| && id in rows
    ensures
      var batch := Relay.Claimed(rows, batchSize);
      Relay.Marked(rows, batch, n)[id].published <==> id in s.published + Marks(batch, n)
  {
    Relay.ClaimAscends(rows, batchSize);
    Relay.MarkedRows(rows, Relay.Claimed(rows, batchSize), n, id);
  }

  lemma PassMirrors(rows: Relay.Rows, s: Sys, p: Relay.Pass)
    requires Mirrors(rows, s) && p.claims
    ensures
      var batch := Relay.Claimed(rows, p.batchSize);
      Mirrors(Relay.PassRows(rows, p), After(s, p, batch, Relay.Stop(p, batch, 0)))
  {
    var batch := Relay.Claimed(rows, p.batchSize);
    var n := Relay.Stop(p, batch, 0);
    forall id | id in rows ensures Relay.Marked(rows, batch, n)[id].published <==> id in s.published + Marks(batch, n) {
      MarksMirror(rows, s, p.batchSize, n, id);
    }
  }

  /** A pass over the table, whatever goes wrong in it, is a sequence of the machine's steps: they send
      what the pass sends and leave what the pass leaves, and touch nothing but the relay's own. */
  lemma PassIsMachineSteps(cfg: Config, actions: seq<Action>, rows: Relay.Rows, p: Relay.Pass)
    requires Mirrors(rows, Run(cfg, actions)) && Run(cfg, actions).relay == Resting
    ensures
      var s, t := Run(cfg, actions), Run(cfg, actions + PassActions(rows, p));
      && Mirrors(Relay.PassRows(rows, p), t) && t.relay == Resting
      && t == s.(published := t.published, sent := s.sent + Relay.PassSends(rows, p))
  {
    var s := Run(cfg, actions);
    RunGoesOn(cfg, actions, PassActions(rows, p));
    if p.claims {
      PassSteps(cfg, s, rows, p);
      PassMirrors(rows, s, p);
    } else {
      assert s.sent + [] == s.sent;
    }
  }
}
