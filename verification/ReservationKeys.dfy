/** No two reservation calls share a key, within a pass or across passes with a committed save in
    between: the attempt in the key is the version of the order the pass started from. */
module ReservationKeys {
  import opened Orders
  import opened Allocation
  import opened ReservationTheorems
  import opened OrderSystem
  import opened Serializability
  import opened OutboxOrder
  import opened WorkUnits

  /** The keys a pass from `s` uses are pairwise different. */
  lemma PassKeysAreDistinct(s: OrderState, lines: seq<Line>, retry: bool, releaseOnAllocation: bool, env: Env, i: nat, j: nat)
    requires Sound(s) && ReservationTheorems.NoRepeats(LineNos(lines))
    requires i < j < |AllocateAndRelease(s, lines, retry, releaseOnAllocation, env).asked|
    ensures
      var asked := AllocateAndRelease(s, lines, retry, releaseOnAllocation, env).asked;
      ReservationKey(s.id, asked[i], s.version) != ReservationKey(s.id, asked[j], s.version)
  {
    var asked := AllocateAndRelease(s, lines, retry, releaseOnAllocation, env).asked;
    ReserveIsAskedOnce(s, lines, retry, releaseOnAllocation, env);
    if ReservationKey(s.id, asked[i], s.version) == ReservationKey(s.id, asked[j], s.version) {
      ReservationKeyIsInjective(s.id, asked[i], s.version, s.id, asked[j], s.version);
    }
  }

  /** A version is never used for two different states of an order. */
  ghost predicate VersionsGrow(before: map<OrderId, OrderState>, after: map<OrderId, OrderState>) {
    forall id :: id in before ==>
      id in after && before[id].version <= after[id].version
      && (before[id].version == after[id].version ==> before[id] == after[id])
  }

  lemma CommitGrows(cfg: Config, s: Sys, i: nat)
    requires Inv(cfg, s) && i < |s.clients| && CanCommit(s.clients[i])
    ensures VersionsGrow(s.orders, CommitStep(cfg, s, i).orders)
  {
    CommittedIsSerial(cfg, s, i);
  }

  lemma LastStepGrows(cfg: Config, actions: seq<Action>)
    requires Honest(cfg) && actions != []
    ensures VersionsGrow(Run(cfg, actions[..|actions| - 1]).orders, Run(cfg, actions).orders)
  {
    var s := Run(cfg, actions[..|actions| - 1]);
    var a := actions[|actions| - 1];
    EveryRunIsSerial(cfg, actions[..|actions| - 1]);
    if Commits(s, a) {
      CommitGrows(cfg, s, a.i);
    } else {
      QuietAction(cfg, s, a);
    }
  }

  /** Between two moments of a run, an order is unchanged or at a higher version. */
  lemma {:induction false} VersionsNeverReused(cfg: Config, actions: seq<Action>, n: nat)
    requires Honest(cfg) && n <= |actions|
    ensures VersionsGrow(Run(cfg, actions[..n]).orders, Run(cfg, actions).orders)
  {
    if n == |actions| {
      assert actions[..n] == actions;
    } else {
      var earlier := actions[..|actions| - 1];
      assert earlier[..n] == actions[..n];
      VersionsNeverReused(cfg, earlier, n);
      LastStepGrows(cfg, actions);
    }
  }

  /** A pass that starts from an order as committed at one moment, and a pass that starts from it after
      a save has been committed since, share no reservation key, whatever lines they ask about. */
  lemma LaterPassUsesNewKeys(cfg: Config, actions: seq<Action>, n: nat, id: OrderId, line1: int, line2: int)
    requires Honest(cfg) && n <= |actions| && id in Run(cfg, actions[..n]).orders
    requires id in Run(cfg, actions).orders && Run(cfg, actions).orders[id] != Run(cfg, actions[..n]).orders[id]
    ensures ReservationKey(id, line1, Run(cfg, actions[..n]).orders[id].version)
         != ReservationKey(id, line2, Run(cfg, actions).orders[id].version)
  {
    VersionsNeverReused(cfg, actions, n);
    var v, w := Run(cfg, actions[..n]).orders[id].version, Run(cfg, actions).orders[id].version;
    if ReservationKey(id, line1, v) == ReservationKey(id, line2, w) {
      ReservationKeyIsInjective(id, line1, v, id, line2, w);
    }
  }

  /** A transaction that stores an order does not lower its version. */
  predicate Raises(orders: map<OrderId, OrderState>, r: Rec) {
    r.stored.Some? && r.stored.value.id in orders ==> orders[r.stored.value.id].version <= r.stored.value.version
  }

  lemma SerialRaises(cfg: Config, hist: seq<Rec>)
    requires SerialHistory(cfg, hist)
    ensures forall k :: 0 <= k < |hist| ==> Raises(Replay(hist[..k]), hist[k])
  {
    forall k | 0 <= k < |hist| ensures Raises(Replay(hist[..k]), hist[k]) {
      assert Serial(cfg, Replay(hist[..k]), hist[k]);
    }
  }

  /** Once a version of an order is committed, the order stays at that version or above. */
  lemma {:induction false} SavedVersionIsBelow(hist: seq<Rec>, j: nat, n: nat, id: OrderId)
    requires forall k :: 0 <= k < |hist| ==> Raises(Replay(hist[..k]), hist[k])
    requires j < n <= |hist| && StoredOrder(hist[j], id)
    ensures id in Replay(hist[..n]) && hist[j].stored.value.version <= Replay(hist[..n])[id].version
    decreases n
  {
    assert hist[..n][..n - 1] == hist[..n - 1];
    if j < n - 1 {
      SavedVersionIsBelow(hist, j, n - 1, id);
    }
  }

  /** In every run: two committed passes that each saved the same order asked inventory-storage under
      different keys, whatever lines they asked about, and however their loads and saves interleaved. */
  lemma SavingPassesShareNoKey(cfg: Config, actions: seq<Action>, j: nat, k: nat, id: OrderId, line1: int, line2: int)
    requires Honest(cfg) && j < k < |Run(cfg, actions).hist|
    requires
      var hist := Run(cfg, actions).hist;
      StoredOrder(hist[j], id) && StoredOrder(hist[k], id) && hist[j].base.Some? && hist[k].base.Some?
    ensures
      var hist := Run(cfg, actions).hist;
      && hist[j].base.value.version < hist[k].base.value.version
      && ReservationKey(id, line1, hist[j].base.value.version) != ReservationKey(id, line2, hist[k].base.value.version)
  {
    EveryRunIsSerial(cfg, actions);
    var hist := Run(cfg, actions).hist;
    SerialRaises(cfg, hist);
    SavedVersionIsBelow(hist, j, k, id);
    assert Serial(cfg, Replay(hist[..j]), hist[j]) && Serial(cfg, Replay(hist[..k]), hist[k]);
    var v, w := hist[j].base.value.version, hist[k].base.value.version;
    if ReservationKey(id, line1, v) == ReservationKey(id, line2, w) {
      ReservationKeyIsInjective(id, line1, v, id, line2, w);
    }
  }
}
