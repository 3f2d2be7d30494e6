/** The order system with its real use cases: what holds of every committed order in every run, and
    how the committed events account for every released line. */
module History {
  import opened Wrappers
  import opened Orders
  import opened Allocation
  import opened PassTheorems
  import opened ReservationTheorems
  import opened UseCases
  import opened UseCaseTheorems
  import opened IntakePass
  import opened JoinedReceive
  import opened OrderSystem
  import opened Serializability
  import opened OutboxOrder

  /** The machine with the five use cases, for any choice of encoders. With a database every request to
      receive is `keyed`: its intake and its first pass are one transaction. */
  function Real(copies: Event -> nat, keyed: bool): Config {
    Config(job => StartOf(job, keyed), (job, s) => PlanOf(job, s), copies)
  }

  lemma RealIsHonest(copies: Event -> nat, keyed: bool)
    ensures Honest(Real(copies, keyed))
  {
    forall job, s ensures SavesUnder(PlanOf(job, s).effects, s.id, s.version) {
      PlanSameRow(job, s);
    }
    forall job ensures FirstIsHonest(StartOf(job, keyed)) {
      IntakeIsHonest(job, keyed);
    }
  }

  lemma IntakeIsHonest(job: Job, keyed: bool)
    ensures FirstIsHonest(StartOf(job, keyed))
  {
    if StartOf(job, keyed).Create? && keyed {
      KeyedIsHonest(StartOf(job, keyed).order, job.intake, job.env);
    }
  }

  // ---------------------------------------------------------------- one committed transaction

  /** What an intake transaction of its own that commits has written. */
  lemma IntakeWrites(s: OrderState, env: Env)
    requires IntakePlan(s, env).verdict == Commit
    ensures
      var effects := IntakePlan(s, env).effects;
      AfterSaves(effects, None, |effects|) == Some(s) && ReleasedBy(effects) == []
  {
    var e := OrderReceived(s.id, |s.lines|);
    var effects := IntakePlan(s, env).effects;
    assert effects == [Store(s), Emit(e)];
    TwoWrites(s, e);
    assert AfterSaves(effects, None, 1) == Some(s) by {
      assert AfterSaves(effects, None, 0) == None;
    }
  }

  lemma IntakeStarts(job: Job, keyed: bool) returns (s: OrderState)
    requires StartOf(job, keyed).Create?
    ensures s == StartOf(job, keyed).order && job.Receive? && AcceptedIntake(s)
    ensures StartOf(job, keyed).first == if keyed then KeyedPlan(s, job.intake, job.env) else IntakePlan(s, job.intake)
    ensures s.version == 1 && s.held == !job.releaseOnAllocation && s.id == job.id
  {
    s := StartOf(job, keyed).order;
    ReceivedStartsFresh(job.id, job.goods, job.routes, job.allowPartial, job.releaseOnAllocation, job.deadline);
  }

  /** What is left in a new order's row follows the order as received. */
  lemma CreatedStep(copies: Event -> nat, keyed: bool, orders: map<OrderId, OrderState>, r: Rec) returns (s: OrderState)
    requires Serial(Real(copies, keyed), orders, r) && r.stored.Some? && r.base.None?
    ensures r.job.Receive? && StartOf(r.job, keyed).Create? && s == StartOf(r.job, keyed).order && AcceptedIntake(s)
    ensures s.id == r.id
    ensures Follows(s, r.stored.value, !s.held) && DeadlineKept(r.stored.value)
    ensures keyed ==> r.plan == KeyedPlan(s, r.job.intake, r.job.env)
    ensures !keyed ==> r.stored.value == s && ReleasedBy(r.plan.effects) == []
  {
    s := IntakeStarts(r.job, keyed);
    if keyed {
      JoinedOrderIsSound(s, r.job.intake, r.job.env);
    } else {
      IntakeWrites(s, r.job.intake);
    }
  }

  lemma SavedStep(copies: Event -> nat, keyed: bool, orders: map<OrderId, OrderState>, r: Rec) returns (o: OrderState)
    requires Serial(Real(copies, keyed), orders, r) && r.stored.Some? && r.base.Some?
    requires Lifecycle(orders[r.id])
    ensures Store(o) in r.plan.effects && r.stored.value == Bumped(o)
    ensures Follows(orders[r.id], r.stored.value, r.job.ReleaseHeld? || !orders[r.id].held)
    ensures ReleasedBy(r.plan.effects) == NewlyReleased(orders[r.id].lines, r.stored.value.lines)
    ensures !r.job.Repromise? && DeadlineKept(orders[r.id]) ==> DeadlineKept(r.stored.value)
  {
    o := LastSave(r.plan.effects, r.base, |r.plan.effects|);
    PlanFollows(r.job, orders[r.id], o);
  }

  lemma {:induction false} LastSave(effects: seq<Effect>, base: Option<OrderState>, k: nat) returns (o: OrderState)
    requires base.Some? && k <= |effects| && AfterSaves(effects, base, k).Some?
    ensures Store(o) in effects && AfterSaves(effects, base, k) == Some(Bumped(o))
  {
    if effects[k - 1].Store? {
      o := effects[k - 1].order;
    } else {
      o := LastSave(effects, base, k - 1);
    }
  }

  lemma {:induction false} NothingSaved(effects: seq<Effect>, base: Option<OrderState>, k: nat)
    requires k <= |effects| && AfterSaves(effects, base, k).None?
    ensures NoSaves(effects[..k])
  {
    if k > 0 {
      NothingSaved(effects, base, k - 1);
      assert effects[..k] == effects[..k - 1] + [effects[k - 1]];
    }
  }

  /** A committed transaction that saved nothing announces no released line. */
  lemma UnsavedStep(copies: Event -> nat, keyed: bool, orders: map<OrderId, OrderState>, r: Rec)
    requires Serial(Real(copies, keyed), orders, r) && r.stored.None?
    ensures ReleasedBy(r.plan.effects) == []
  {
    var effects := r.plan.effects;
    NothingSaved(effects, r.base, |effects|);
    assert effects[..|effects|] == effects;
    if r.base.Some? {
      NoSaveNoRelease(r.job, r.base.value);
    } else if effects != [] {
      var s := IntakeStarts(r.job, keyed);
      if keyed {
        JoinedOrderIsSound(s, r.job.intake, r.job.env);
      } else {
        IntakeWrites(s, r.job.intake);
      }
    }
  }

  // ---------------------------------------------------------------- serial histories

  ghost predicate AllGood(orders: map<OrderId, OrderState>) {
    forall id :: id in orders ==> orders[id].id == id && Lifecycle(orders[id])
  }

  lemma {:induction false} ReplayIsGood(copies: Event -> nat, keyed: bool, hist: seq<Rec>)
    requires SerialHistory(Real(copies, keyed), hist)
    ensures AllGood(Replay(hist))
  {
    if hist != [] {
      var n := |hist| - 1;
      PrefixIsSerial(Real(copies, keyed), hist);
      ReplayIsGood(copies, keyed, hist[..n]);
      ApplyIsGood(copies, keyed, Replay(hist[..n]), hist[n]);
    }
  }

  lemma ApplyIsGood(copies: Event -> nat, keyed: bool, orders: map<OrderId, OrderState>, r: Rec)
    requires Serial(Real(copies, keyed), orders, r) && AllGood(orders)
    ensures AllGood(Apply(orders, r))
    ensures OrdersFollow(orders, Apply(orders, r))
  {
    if r.stored.Some? {
      if r.base.None? {
        var s := CreatedStep(copies, keyed, orders, r);
      } else {
        var o := SavedStep(copies, keyed, orders, r);
      }
    }
  }

  /** Every committed order of every run: reservation ids match statuses, a ship-complete order has no
      released line or only released ones, a cancelled line means a cancelled order, and a held order
      is ship-complete. */
  lemma LifecycleInEveryRun(copies: Event -> nat, keyed: bool, actions: seq<Action>, id: OrderId)
    requires id in Run(Real(copies, keyed), actions).orders
    ensures Lifecycle(Run(Real(copies, keyed), actions).orders[id])
  {
    RealIsHonest(copies, keyed);
    EveryRunIsSerial(Real(copies, keyed), actions);
    ReplayIsGood(copies, keyed, Run(Real(copies, keyed), actions).hist);
  }

  ghost predicate OrdersFollow(before: map<OrderId, OrderState>, after: map<OrderId, OrderState>) {
    forall id :: id in before ==> id in after && KeepsReleased(before[id], after[id])
  }

  lemma CommitKeepsReleased(copies: Event -> nat, keyed: bool, s: Sys, i: nat)
    requires Inv(Real(copies, keyed), s) && AllGood(s.orders) && i < |s.clients| && CanCommit(s.clients[i])
    ensures OrdersFollow(s.orders, CommitStep(Real(copies, keyed), s, i).orders)
  {
    CommittedIsSerial(Real(copies, keyed), s, i);
    ApplyIsGood(copies, keyed, s.orders, RecOf(s.clients[i]));
  }

  lemma StepKeepsReleased(copies: Event -> nat, keyed: bool, s: Sys, a: Action)
    requires Inv(Real(copies, keyed), s) && AllGood(s.orders)
    ensures OrdersFollow(s.orders, Next(Real(copies, keyed), s, a).orders)
  {
    if Commits(s, a) {
      CommitAction(Real(copies, keyed), s, a);
      CommitKeepsReleased(copies, keyed, s, a.i);
    } else {
      QuietAction(Real(copies, keyed), s, a);
      UnchangedFollow(s.orders);
    }
  }

  lemma UnchangedFollow(orders: map<OrderId, OrderState>)
    ensures OrdersFollow(orders, orders)
  {
  }

  lemma LastStepKeepsReleased(copies: Event -> nat, keyed: bool, actions: seq<Action>, id: OrderId)
    requires actions != [] && id in Run(Real(copies, keyed), actions[..|actions| - 1]).orders
    ensures id in Run(Real(copies, keyed), actions).orders
    ensures KeepsReleased(Run(Real(copies, keyed), actions[..|actions| - 1]).orders[id], Run(Real(copies, keyed), actions).orders[id])
  {
    var earlier := Run(Real(copies, keyed), actions[..|actions| - 1]);
    RealIsHonest(copies, keyed);
    EveryRunIsSerial(Real(copies, keyed), actions[..|actions| - 1]);
    ReplayIsGood(copies, keyed, earlier.hist);
    StepKeepsReleased(copies, keyed, earlier, actions[|actions| - 1]);
  }

  /** Released is never left: whatever happens later, the line stays exactly as it was released. */
  lemma {:induction false} ReleasedIsForever(copies: Event -> nat, keyed: bool, actions: seq<Action>, n: nat, id: OrderId)
    requires n <= |actions| && id in Run(Real(copies, keyed), actions[..n]).orders
    ensures id in Run(Real(copies, keyed), actions).orders
    ensures KeepsReleased(Run(Real(copies, keyed), actions[..n]).orders[id], Run(Real(copies, keyed), actions).orders[id])
  {
    if n == |actions| {
      assert actions[..n] == actions;
    } else {
      var earlier := actions[..|actions| - 1];
      assert earlier[..n] == actions[..n];
      ReleasedIsForever(copies, keyed, earlier, n, id);
      LastStepKeepsReleased(copies, keyed, actions, id);
    }
  }

  // ---------------------------------------------------------------- holds and deadlines

  /** No release of a held order has committed for this order. */
  ghost predicate NeverReleasedOnDemand(hist: seq<Rec>, id: OrderId) {
    forall k :: 0 <= k < |hist| && StoredOrder(hist[k], id) ==> !hist[k].job.ReleaseHeld?
  }

  lemma {:induction false} HeldWaits(copies: Event -> nat, keyed: bool, hist: seq<Rec>, id: OrderId)
    requires SerialHistory(Real(copies, keyed), hist) && NeverReleasedOnDemand(hist, id)
    requires id in Replay(hist) && Replay(hist)[id].held
    ensures !AnyLine(Replay(hist)[id].lines, Released)
  {
    if hist != [] {
      var n := |hist| - 1;
      var r := hist[n];
      PrefixIsSerial(Real(copies, keyed), hist);
      ReplayIsGood(copies, keyed, hist[..n]);
      if StoredOrder(r, id) {
        if r.base.None? {
          var s := CreatedStep(copies, keyed, Replay(hist[..n]), r);
        } else {
          var o := SavedStep(copies, keyed, Replay(hist[..n]), r);
          HeldWaits(copies, keyed, hist[..n], id);
        }
      } else {
        HeldWaits(copies, keyed, hist[..n], id);
      }
    }
  }

  /** A held order has no released line until a release on demand has committed. */
  lemma HeldUntilReleased(copies: Event -> nat, keyed: bool, actions: seq<Action>, id: OrderId)
    requires id in Run(Real(copies, keyed), actions).orders && Run(Real(copies, keyed), actions).orders[id].held
    requires NeverReleasedOnDemand(Run(Real(copies, keyed), actions).hist, id)
    ensures !AnyLine(Run(Real(copies, keyed), actions).orders[id].lines, Released)
  {
    RealIsHonest(copies, keyed);
    EveryRunIsSerial(Real(copies, keyed), actions);
    HeldWaits(copies, keyed, Run(Real(copies, keyed), actions).hist, id);
  }

  ghost predicate NeverRepromised(hist: seq<Rec>, id: OrderId) {
    forall k :: 0 <= k < |hist| && StoredOrder(hist[k], id) ==> !hist[k].job.Repromise?
  }

  lemma {:induction false} DeadlineHolds(copies: Event -> nat, keyed: bool, hist: seq<Rec>, id: OrderId)
    requires SerialHistory(Real(copies, keyed), hist) && NeverRepromised(hist, id) && id in Replay(hist)
    ensures DeadlineKept(Replay(hist)[id])
  {
    if hist != [] {
      var n := |hist| - 1;
      var r := hist[n];
      PrefixIsSerial(Real(copies, keyed), hist);
      ReplayIsGood(copies, keyed, hist[..n]);
      if StoredOrder(r, id) {
        if r.base.None? {
          var s := CreatedStep(copies, keyed, Replay(hist[..n]), r);
        } else {
          var o := SavedStep(copies, keyed, Replay(hist[..n]), r);
          DeadlineHolds(copies, keyed, hist[..n], id);
        }
      } else {
        DeadlineHolds(copies, keyed, hist[..n], id);
      }
    }
  }

  /** Over receive, retry, release on demand and cancel, an order with an external deadline has no
      promise or a network promise within the deadline. A repromise is the one thing that can break
      this: it ignores the deadline. */
  lemma DeadlineKeptInEveryRun(copies: Event -> nat, keyed: bool, actions: seq<Action>, id: OrderId)
    requires id in Run(Real(copies, keyed), actions).orders && NeverRepromised(Run(Real(copies, keyed), actions).hist, id)
    ensures DeadlineKept(Run(Real(copies, keyed), actions).orders[id])
  {
    RealIsHonest(copies, keyed);
    EveryRunIsSerial(Real(copies, keyed), actions);
    DeadlineHolds(copies, keyed, Run(Real(copies, keyed), actions).hist, id);
  }

  // ---------------------------------------------------------------- released lines and events

  /** The line numbers that the events about `id`, among these writes, announce as released. */
  function ReleasedFor(effects: seq<Effect>, id: OrderId): seq<int> {
    if effects == [] then []
    else
      var n := |effects| - 1;
      ReleasedFor(effects[..n], id)
      + (if effects[n].Emit? && effects[n].event.orderId == id then Announces(effects[n].event) else [])
  }

  lemma {:induction false} CarriedRelease(effects: seq<Effect>, of: OrderId, id: OrderId)
    requires Carries(effects, of)
    ensures ReleasedFor(effects, id) == if id == of then ReleasedBy(effects) else []
  {
    if effects != [] {
      CarriedRelease(effects[..|effects| - 1], of, id);
    }
  }

  /** Everything the committed events of a history announce as released for one order, in order. */
  function ReleasedLines(hist: seq<Rec>, id: OrderId): seq<int> {
    if hist == [] then []
    else ReleasedLines(hist[..|hist| - 1], id) + ReleasedFor(hist[|hist| - 1].plan.effects, id)
  }

  lemma RecCarries(copies: Event -> nat, keyed: bool, orders: map<OrderId, OrderState>, r: Rec)
    requires Serial(Real(copies, keyed), orders, r)
    ensures Carries(r.plan.effects, r.id)
  {
    if r.base.Some? {
      PlanSameRow(r.job, r.base.value);
    } else if r.plan.effects != [] {
      var s := IntakeStarts(r.job, keyed);
      IntakeWritesOnce(s, r.job.intake);
      PassPlansKeepRow(s, Unbroken(r.job.env));
    }
  }

  predicate IsReleased(lines: seq<Line>, n: int) {
    1 <= n <= |lines| && lines[n - 1].status == Released
  }

  lemma {:induction false} NewlyReleasedCounts(ls: seq<Line>, ks: seq<Line>, n: int)
    requires |ls| == |ks|
    ensures multiset(NewlyReleased(ls, ks))[n] == if IsReleased(ks, n) && !IsReleased(ls, n) then 1 else 0
  {
    if ls != [] {
      var m := |ls| - 1;
      var init := NewlyReleased(ls[..m], ks[..m]);
      NewlyReleasedCounts(ls[..m], ks[..m], n);
      assert multiset(init + [m + 1])[n] == multiset(init)[n] + if n == m + 1 then 1 else 0;
    }
  }

  function CommittedLines(orders: map<OrderId, OrderState>, id: OrderId): seq<Line> {
    if id in orders then orders[id].lines else []
  }

  /** The transaction created the order and, its order-level event unpublished, told nobody of the
      line that it released. Nothing but a keyed request can, and its inputs say when it does. */
  ghost predicate SilentOn(keyed: bool, r: Rec, id: OrderId, n: int) {
    && keyed && r.base.None? && StoredOrder(r, id) && IsReleased(r.stored.value.lines, n)
    && StartOf(r.job, keyed).Create? && r.job.Receive? && ReleasesInSilence(StartOf(r.job, keyed).order, r.job.intake, r.job.env)
  }

  ghost predicate EverSilent(keyed: bool, hist: seq<Rec>, id: OrderId, n: int) {
    exists k :: 0 <= k < |hist| && SilentOn(keyed, hist[k], id, n)
  }

  /** What one committed transaction adds to the account of released lines. */
  lemma ReleaseStep(copies: Event -> nat, keyed: bool, orders: map<OrderId, OrderState>, r: Rec, id: OrderId, n: int)
    requires Serial(Real(copies, keyed), orders, r) && AllGood(orders)
    ensures
      var before, after := CommittedLines(orders, id), CommittedLines(Apply(orders, r), id);
      && multiset(ReleasedFor(r.plan.effects, id))[n]
         == (if IsReleased(after, n) && !IsReleased(before, n) && !SilentOn(keyed, r, id, n) then 1 else 0)
      && (IsReleased(before, n) ==> IsReleased(after, n))
      && (SilentOn(keyed, r, id, n) ==> id !in orders && IsReleased(after, n))
  {
    RecCarries(copies, keyed, orders, r);
    CarriedRelease(r.plan.effects, r.id, id);
    if r.stored.None? {
      UnsavedStep(copies, keyed, orders, r);
    } else if r.base.None? {
      CreationAnnounces(copies, keyed, orders, r, n);
    } else {
      UpdateAnnounces(copies, keyed, orders, r, n);
    }
  }

  lemma UpdateAnnounces(copies: Event -> nat, keyed: bool, orders: map<OrderId, OrderState>, r: Rec, n: int)
    requires Serial(Real(copies, keyed), orders, r) && r.stored.Some? && r.base.Some? && AllGood(orders)
    ensures
      var before, after := orders[r.id].lines, r.stored.value.lines;
      && multiset(ReleasedBy(r.plan.effects))[n] == (if IsReleased(after, n) && !IsReleased(before, n) then 1 else 0)
      && (IsReleased(before, n) ==> IsReleased(after, n))
  {
    var o := SavedStep(copies, keyed, orders, r);
    NewlyReleasedCounts(orders[r.id].lines, r.stored.value.lines, n);
  }

  lemma CreationAnnounces(copies: Event -> nat, keyed: bool, orders: map<OrderId, OrderState>, r: Rec, n: int)
    requires Serial(Real(copies, keyed), orders, r) && r.stored.Some? && r.base.None?
    ensures multiset(ReleasedBy(r.plan.effects))[n]
         == if IsReleased(r.stored.value.lines, n) && !SilentOn(keyed, r, r.id, n) then 1 else 0
  {
    var s := CreatedStep(copies, keyed, orders, r);
    if keyed {
      JoinedAnnouncesReleasesIff(s, r.job.intake, r.job.env);
      NewlyReleasedCounts(s.lines, r.stored.value.lines, n);
      if ReleasesInSilence(s, r.job.intake, r.job.env) {
        SilenceSaysNothing(s, r.job.intake, r.job.env);
      }
    }
  }

  lemma {:induction false} SomeGrows<T>(p: T -> bool, xs: seq<T>, last: T)
    ensures (exists k :: 0 <= k < |xs + [last]| && p((xs + [last])[k])) <==> (exists k :: 0 <= k < |xs| && p(xs[k])) || p(last)
  {
    forall k | 0 <= k < |xs| ensures (xs + [last])[k] == xs[k] {
    }
    assert (xs + [last])[|xs|] == last;
  }

  lemma {:induction false} EverSilentGrows(keyed: bool, hist: seq<Rec>, r: Rec, id: OrderId, n: int)
    ensures EverSilent(keyed, hist + [r], id, n) <==> EverSilent(keyed, hist, id, n) || SilentOn(keyed, r, id, n)
  {
    SomeGrows((x: Rec) => SilentOn(keyed, x, id, n), hist, r);
  }

  /** The account so far: every released line once, except those released in silence. */
  ghost predicate Accounted(keyed: bool, hist: seq<Rec>, id: OrderId, n: int) {
    var released := IsReleased(CommittedLines(Replay(hist), id), n);
    && multiset(ReleasedLines(hist, id))[n] == (if released && !EverSilent(keyed, hist, id, n) then 1 else 0)
    && (EverSilent(keyed, hist, id, n) ==> released)
  }

  lemma {:induction false} AccountGrows(copies: Event -> nat, keyed: bool, hist: seq<Rec>, r: Rec, id: OrderId, n: int)
    requires Serial(Real(copies, keyed), Replay(hist), r) && AllGood(Replay(hist)) && Accounted(keyed, hist, id, n)
    ensures Accounted(keyed, hist + [r], id, n)
  {
    ReleaseStep(copies, keyed, Replay(hist), r, id, n);
    EverSilentGrows(keyed, hist, r, id, n);
    OneMoreRecord(hist, r, id);
  }

  lemma {:induction false} OneMoreRecord(hist: seq<Rec>, r: Rec, id: OrderId)
    ensures ReleasedLines(hist + [r], id) == ReleasedLines(hist, id) + ReleasedFor(r.plan.effects, id)
    ensures Replay(hist + [r]) == Apply(Replay(hist), r)
  {
    assert (hist + [r])[..|hist|] == hist;
  }

  lemma {:induction false} EventsAccount(copies: Event -> nat, keyed: bool, hist: seq<Rec>, id: OrderId, n: int)
    requires SerialHistory(Real(copies, keyed), hist)
    ensures Accounted(keyed, hist, id, n)
  {
    var holds := (h: seq<Rec>) => Accounted(keyed, h, id, n);
    forall h, r | SerialHistory(Real(copies, keyed), h) && holds(h) && Serial(Real(copies, keyed), Replay(h), r)
      ensures holds(h + [r])
    {
      ReplayIsGood(copies, keyed, h);
      AccountGrows(copies, keyed, h, r, id, n);
    }
    HistoryInduction(Real(copies, keyed), hist, holds);
  }

  /** In every run, the committed order-level events of an order list every released line exactly once and
      nothing else, over all retries, held releases, cancellations and lost races; the one exception are
      lines that a keyed request to receive releases in silence, which are never listed. */
  lemma EventsListEachReleasedLineOnce(copies: Event -> nat, keyed: bool, actions: seq<Action>, id: OrderId, n: int)
    ensures
      var s := Run(Real(copies, keyed), actions);
      multiset(ReleasedLines(s.hist, id))[n]
        == if id in s.orders && IsReleased(s.orders[id].lines, n) && !EverSilent(keyed, s.hist, id, n) then 1 else 0
  {
    RealIsHonest(copies, keyed);
    EveryRunIsSerial(Real(copies, keyed), actions);
    EventsAccount(copies, keyed, Run(Real(copies, keyed), actions).hist, id, n);
  }

  /** The publishes of the first passes all succeed. */
  ghost predicate PublishesSucceed(r: Rec) {
    r.job.Receive? ==> forall k, e :: r.job.env.publishes(k, e)
  }

  ghost predicate AllPublish(hist: seq<Rec>) {
    forall k :: 0 <= k < |hist| ==> PublishesSucceed(hist[k])
  }

  ghost predicate SilentOnlyOnFailure(keyed: bool, hist: seq<Rec>, id: OrderId, n: int) {
    (keyed ==> AllPublish(hist)) ==> !EverSilent(keyed, hist, id, n)
  }

  /** No exception where intake and first pass are two transactions, or every publish succeeds. */
  lemma {:induction false} NobodyIsSilent(copies: Event -> nat, keyed: bool, actions: seq<Action>, id: OrderId, n: int)
    requires keyed ==> AllPublish(Run(Real(copies, keyed), actions).hist)
    ensures !EverSilent(keyed, Run(Real(copies, keyed), actions).hist, id, n)
  {
    var hist := Run(Real(copies, keyed), actions).hist;
    var holds := (h: seq<Rec>) => SilentOnlyOnFailure(keyed, h, id, n);
    RealIsHonest(copies, keyed);
    EveryRunIsSerial(Real(copies, keyed), actions);
    forall h, r | SerialHistory(Real(copies, keyed), h) && holds(h) && Serial(Real(copies, keyed), Replay(h), r)
      ensures holds(h + [r])
    {
      OneMoreTransaction(copies, keyed, h, r, id, n);
    }
    HistoryInduction(Real(copies, keyed), hist, holds);
  }

  lemma {:induction false} OneMoreTransaction(copies: Event -> nat, keyed: bool, hist: seq<Rec>, r: Rec, id: OrderId, n: int)
    requires SilentOnlyOnFailure(keyed, hist, id, n) && Serial(Real(copies, keyed), Replay(hist), r)
    ensures SilentOnlyOnFailure(keyed, hist + [r], id, n)
  {
    EverSilentGrows(keyed, hist, r, id, n);
    if keyed ==> AllPublish(hist + [r]) {
      assert keyed ==> AllPublish(hist) by {
        forall k | 0 <= k < |hist| ensures (hist + [r])[k] == hist[k] {
        }
      }
      assert (hist + [r])[|hist|] == r;
      TransactionIsNotSilent(copies, keyed, Replay(hist), r, id, n);
    }
  }

  lemma TransactionIsNotSilent(copies: Event -> nat, keyed: bool, orders: map<OrderId, OrderState>, r: Rec, id: OrderId, n: int)
    requires Serial(Real(copies, keyed), orders, r)
    requires keyed ==> PublishesSucceed(r)
    ensures !SilentOn(keyed, r, id, n)
  {
    if r.base.None? && StartOf(r.job, keyed).Create? && Releases(StartOf(r.job, keyed).order, r.job.env) {
      var s := IntakeStarts(r.job, keyed);
      ReleasedIsTold(s, r.job.env);
    }
  }
}
