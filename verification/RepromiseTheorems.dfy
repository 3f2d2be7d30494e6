/** When a repromise breaks an external deadline: it recomputes the promise without looking at the
    deadline, and never as a network promise. */
module RepromiseTheorems {
  import opened Wrappers
  import opened Orders
  import opened PromisePolicies
  import opened PromiseTheorems
  import opened Allocation
  import opened ReservationTheorems
  import opened UseCases

  /** No search but the one against a deadline makes a network promise. */
  lemma NeverNetwork(p: Policy, now: Instant, s: OrderState, lines: seq<Line>)
    ensures PromiseForLines(p, now, s, lines).Some? ==> PromiseForLines(p, now, s, lines).value.basis != Network
  {
  }

  lemma GroupIsNeverNetwork(p: Policy, now: Instant, s: OrderState, groups: seq<PromiseGroup>, j: nat, lineNo: int)
    requires PromiseGroupsOf(p, now, s) == Some(groups) && j < |groups| && lineNo in groups[j].lineNos
    ensures groups[j].promise.basis != Network
  {
    var lines := Promisable(s.lines);
    if s.allowPartial {
      var ks, i := EntryInGroup(p, now, s, groups, j, lineNo);
      NeverNetwork(p, now, s, [lines[i]]);
    } else {
      NeverNetwork(p, now, s, lines);
    }
  }

  ghost predicate Listed(groups: seq<PromiseGroup>, lineNo: int) {
    exists g :: g in groups && lineNo in g.lineNos
  }

  lemma ContainedIff(groups: seq<PromiseGroup>, lineNo: int)
    ensures GroupContaining(groups, lineNo, 0).Some? <==> Listed(groups, lineNo)
  {
  }

  /** A fresh computation lists a line exactly when the line is allocated or released. */
  lemma FreshlyListedIff(p: Policy, now: Instant, s: OrderState, lineNo: int)
    requires WellNumbered(s.lines)
    ensures
      var groups := PromiseGroupsOf(p, now, s);
      groups.Some? && Listed(groups.value, lineNo) <==> CountedLine(s, lineNo)
  {
    GroupsExistWhenPromiseDoes(p, now, s);
    if Promisable(s.lines) != [] {
      EachCountedLineInOneGroup(p, now, s, lineNo);
      ListedMeansOccurs(PromiseGroupsOf(p, now, s).value, lineNo);
    }
    PromisableMembers(s.lines);
    assert CountedLine(s, lineNo) ==> s.lines[lineNo - 1] in Promisable(s.lines);
  }

  /** The signal concerns a line that a stored group lists and that is allocated or released. */
  ghost predicate Concerns(s: OrderState, lineNo: int) {
    Listed(s.promiseGroups, lineNo) && CountedLine(s, lineNo)
  }

  lemma RewriteNetworkGroup(s: OrderState, lineNo: int, env: Env)
    requires DeadlineKept(s) && s.requiredShipBy.Some? && Listed(s.promiseGroups, lineNo)
    requires PromiseGroupsOf(env.policy, env.now, s).Some? && Listed(PromiseGroupsOf(env.policy, env.now, s).value, lineNo)
    ensures RewriteFor(s, lineNo, env).Some?
  {
    var groups := PromiseGroupsOf(env.policy, env.now, s).value;
    ContainedIff(s.promiseGroups, lineNo);
    ContainedIff(groups, lineNo);
    var renewed := GroupContaining(groups, lineNo, 0).value;
    var j :| 0 <= j < |groups| && groups[j] == renewed;
    GroupIsNeverNetwork(env.policy, env.now, s, groups, j, lineNo);
  }

  /** For an order within its deadline, whatever the inputs of the search, a signal rewrites the promise
      exactly when it concerns a listed line that is allocated or released. */
  lemma RewritesIff(s: OrderState, lineNo: int, env: Env)
    requires WellNumbered(s.lines) && DeadlineKept(s) && s.requiredShipBy.Some?
    ensures RewriteFor(s, lineNo, env).Some? <==> Concerns(s, lineNo)
  {
    FreshlyListedIff(env.policy, env.now, s, lineNo);
    ContainedIff(s.promiseGroups, lineNo);
    if Concerns(s, lineNo) {
      RewriteNetworkGroup(s, lineNo, env);
    } else if PromiseGroupsOf(env.policy, env.now, s).Some? {
      ContainedIff(PromiseGroupsOf(env.policy, env.now, s).value, lineNo);
    }
  }

  // ---------------------------------------------------------------- when a promise moves, for every order

  /** The promise that the line has now: that of the first stored group that lists it. */
  ghost predicate HasNow(groups: seq<PromiseGroup>, lineNo: int, was: Promise) {
    exists k :: 0 <= k < |groups| && lineNo in groups[k].lineNos && groups[k].promise == was
      && forall j :: 0 <= j < k ==> lineNo !in groups[j].lineNos
  }

  /** The promise that the line would get: by itself in a partial order, with the whole order otherwise. */
  function FreshPromise(s: OrderState, lineNo: int, env: Env): Option<Promise>
    requires CountedLine(s, lineNo)
  {
    if s.allowPartial then PromiseAlone(env.policy, env.now, s, s.lines[lineNo - 1]) else PromiseOf(env.policy, env.now, s)
  }

  predicate Differs(was: Promise, now: Promise) {
    was.cptId != now.cptId || was.basis != now.basis || was.cutoffAt != now.cutoffAt
  }

  /** The line still counts, a stored group lists it, and its promise has moved from one to the other. */
  ghost predicate HasMoved(s: OrderState, lineNo: int, env: Env, was: Promise, now: Promise) {
    && CountedLine(s, lineNo) && HasNow(s.promiseGroups, lineNo, was)
    && FreshPromise(s, lineNo, env) == Some(now) && Differs(was, now)
  }

  lemma {:induction false} FirstListing(groups: seq<PromiseGroup>, lineNo: int, from: nat) returns (k: nat)
    requires from <= |groups| && GroupContaining(groups, lineNo, from).Some?
    ensures from <= k < |groups| && groups[k] == GroupContaining(groups, lineNo, from).value && lineNo in groups[k].lineNos
    ensures forall j :: from <= j < k ==> lineNo !in groups[j].lineNos
    decreases |groups| - from
  {
    if lineNo in groups[from].lineNos {
      k := from;
    } else {
      k := FirstListing(groups, lineNo, from + 1);
    }
  }

  lemma {:induction false} OneNow(groups: seq<PromiseGroup>, lineNo: int, was: Promise)
    ensures HasNow(groups, lineNo, was) <==>
              GroupContaining(groups, lineNo, 0).Some? && GroupContaining(groups, lineNo, 0).value.promise == was
  {
    if GroupContaining(groups, lineNo, 0).Some? {
      var k := FirstListing(groups, lineNo, 0);
    }
  }

  lemma {:induction false} FreshGroupIs(s: OrderState, lineNo: int, env: Env, groups: seq<PromiseGroup>, g: PromiseGroup)
    requires WellNumbered(s.lines) && PromiseGroupsOf(env.policy, env.now, s) == Some(groups)
    requires GroupContaining(groups, lineNo, 0) == Some(g) && CountedLine(s, lineNo)
    ensures FreshPromise(s, lineNo, env) == Some(g.promise)
  {
    var k := FirstListing(groups, lineNo, 0);
    if s.allowPartial {
      GroupsCarryEachLinesOwnPromise(env.policy, env.now, s, groups, k, lineNo);
    } else {
      PromisableMembers(s.lines);
      assert s.lines[lineNo - 1] in Promisable(s.lines);
      ShipCompleteIsOneGroup(env.policy, env.now, s);
    }
  }

  /** For every order: the use case rewrites its promise if and only if the promise of the line has moved. */
  lemma {:induction false} RewrittenIff(s: OrderState, lineNo: int, env: Env, was: Promise, now: Promise)
    requires WellNumbered(s.lines)
    ensures RewriteFor(s, lineNo, env).Some? && RewriteFor(s, lineNo, env).value.was == was && RewriteFor(s, lineNo, env).value.now == now
       <==> HasMoved(s, lineNo, env, was, now)
  {
    OneNow(s.promiseGroups, lineNo, was);
    FreshlyListedIff(env.policy, env.now, s, lineNo);
    var groups := PromiseGroupsOf(env.policy, env.now, s);
    if groups.Some? {
      ContainedIff(groups.value, lineNo);
      var renewed := GroupContaining(groups.value, lineNo, 0);
      if renewed.Some? {
        FreshGroupIs(s, lineNo, env, groups.value, renewed.value);
      }
    }
  }

  /** The order keeps everything but its promise, which is computed anew. */
  ghost predicate PromisedAnew(s: OrderState, env: Env, t: OrderState) {
    && t == s.(promiseGroups := t.promiseGroups, promiseDate := t.promiseDate, promiseBasis := t.promiseBasis, promiseCptId := t.promiseCptId)
    && PromiseGroupsOf(env.policy, env.now, s) == Some(t.promiseGroups)
    && exists k :: 0 <= k < |t.promiseGroups| && SummaryIs(t, t.promiseGroups[k].promise)
  }

  lemma {:induction false} RewriteStores(s: OrderState, lineNo: int, env: Env) returns (t: OrderState)
    requires RewriteFor(s, lineNo, env).Some?
    ensures t == WithPromiseGroups(s, RewriteFor(s, lineNo, env).value.groups) && PromisedAnew(s, env, t)
  {
    var r := RewriteFor(s, lineNo, env).value;
    t := WithPromiseGroups(s, r.groups);
    SummaryDescribesLatestGroup(s, r.groups);
  }

  /** What a repromise comes to, for every order. If the promise of the line has moved, the order is saved
      with its promise computed anew, the event names the departure before and after, and the transaction
      commits if both writes succeed. If it has not, the signal is just marked as processed. */
  lemma {:induction false} RepromiseWritesIff(s: OrderState, lineNo: int, reason: string, env: Env)
    requires WellNumbered(s.lines)
    ensures (forall was, now :: !HasMoved(s, lineNo, env, was, now)) ==> RepromisePlan(s, lineNo, reason, env) == Plan([], Commit)
    ensures forall was, now :: HasMoved(s, lineNo, env, was, now) ==>
              var e := OrderRepromised(s.id, was.cptId, now.cptId, reason);
              var plan := RepromisePlan(s, lineNo, reason, env);
              && (plan.verdict == Commit <==> env.saves && env.publishes(1, e))
              && (plan.verdict == Commit ==> exists t :: PromisedAnew(s, env, t) && plan.effects == [Store(t), Emit(e)])
  {
    var r := RewriteFor(s, lineNo, env);
    if r.Some? {
      RewrittenIff(s, lineNo, env, r.value.was, r.value.now);
      var t := RewriteStores(s, lineNo, env);
    }
    forall was, now | HasMoved(s, lineNo, env, was, now)
      ensures r.Some? && r.value.was == was && r.value.now == now
    {
      RewrittenIff(s, lineNo, env, was, now);
    }
  }

  // ---------------------------------------------------------------- when a deadline breaks

  function Repromised(s: OrderState, lineNo: int, env: Env): OrderState {
    match RewriteFor(s, lineNo, env)
    case None => s
    case Some(r) => WithPromiseGroups(s, r.groups)
  }

  /** A signal leaves an order within its external deadline if and only if no stored group lists the
      line, or the line is neither allocated nor released. */
  lemma RepromiseKeepsDeadlineIff(s: OrderState, lineNo: int, env: Env)
    requires WellNumbered(s.lines) && DeadlineKept(s) && s.requiredShipBy.Some?
    ensures DeadlineKept(Repromised(s, lineNo, env)) <==> !Concerns(s, lineNo)
  {
    RewritesIff(s, lineNo, env);
    var r := RewriteFor(s, lineNo, env);
    if r.Some? {
      var g := GroupContaining(r.value.groups, lineNo, 0).value;
      var j :| 0 <= j < |r.value.groups| && r.value.groups[j] == g;
      GroupIsNeverNetwork(env.policy, env.now, s, r.value.groups, j, lineNo);
      assert g in Repromised(s, lineNo, env).promiseGroups;
    }
  }

  const PUNCTUAL := OrderState("o", [Line(1, "sku", 1, "x", false, Allocated, Some("r1"))], false,
    Some(5), Some("c"), Some(Network), [PromiseGroup([1], Promise("c", 5, Network))], false, Some(10), 2)

  /** An allocated order promised within its deadline, and one signal about its line: whatever the
      policy and the time, the order that the repromise commits breaks the deadline. */
  lemma RepromiseBreaksADeadline(reason: string, env: Env)
    requires env.saves && forall k, e :: env.publishes(k, e)
    ensures Lifecycle(PUNCTUAL) && DeadlineKept(PUNCTUAL)
    ensures RepromisePlan(PUNCTUAL, 1, reason, env).verdict == Commit
    ensures exists t :: Store(t) in RepromisePlan(PUNCTUAL, 1, reason, env).effects && !DeadlineKept(t)
  {
    var g := PromiseGroup([1], Promise("c", 5, Network));
    assert PUNCTUAL.promiseGroups == [g] && g in PUNCTUAL.promiseGroups && 1 in g.lineNos;
    assert Concerns(PUNCTUAL, 1);
    RewritesIff(PUNCTUAL, 1, env);
    RepromiseKeepsDeadlineIff(PUNCTUAL, 1, env);
    var t := Repromised(PUNCTUAL, 1, env);
    assert RepromisePlan(PUNCTUAL, 1, reason, env).effects[0] == Store(t);
  }
}
