/** What a pass achieves: when inventory-storage grants everything and nothing fails, every line is
    allocated and released, and what is stored carries the promise computed for it. */
module PassProgress {
  import opened Wrappers
  import opened Orders
  import opened PromisePolicies
  import opened PromiseTheorems
  import opened Allocation
  import opened AllocationTheorems
  import opened PassTheorems
  import opened ReservationTheorems
  import opened UseCases
  import opened UseCaseTheorems

  // ---------------------------------------------------------------- the promise that is stored

  predicate SamePromise(s: OrderState, t: OrderState) {
    && t.promiseGroups == s.promiseGroups && t.promiseDate == s.promiseDate
    && t.promiseBasis == s.promiseBasis && t.promiseCptId == s.promiseCptId
  }

  /** Whatever a pass stores, in whichever way it ends, carries the promise of the order as it was
      after the reservations. */
  lemma StoredPromiseIsFresh(s: OrderState, lines: seq<Line>, retry: bool, releaseOnAllocation: bool, env: Env)
    requires Sound(s)
    ensures
      var o := AllocateAndRelease(s, lines, retry, releaseOnAllocation, env);
      StoresOf(o.effects) != [] ==>
        SamePromise(SetPromiseDate(AllocateLines(s, lines, |lines|, retry, env).order, env), StoresOf(o.effects)[0])
  {
    var a := AllocateLines(s, lines, |lines|, retry, env);
    AllocateLinesKeep(s, lines, |lines|, retry, env);
    LineEventsSayNothing(a.effects);
    PromisingKeepsLines(a.order, env);
    var b := a.(order := SetPromiseDate(a.order, env));
    if a.failure.Some? {
      SalvageStores(a, a.failure.value, env);
    } else if releaseOnAllocation {
      var base := b.order.(lines := s.lines);
      var w := WithStatus(b.order.lines, Allocated);
      ReconfirmLinesKeep(base, b, w, |w|, LineNos(lines), env);
      ReleaseLegStores(base, b, LineNos(lines), env);
    } else {
      ConcludeStores(b, [], env);
    }
  }

  /** Without a deadline, an order with an allocated line is promised: its groups list every allocated
      or released line exactly once and no other, and its summary is that of the latest group. */
  lemma AllocatedOrderGetsItsPromise(s: OrderState, env: Env, n: int)
    requires WellNumbered(s.lines) && s.requiredShipBy.None? && Promisable(s.lines) != []
    ensures
      var t := SetPromiseDate(s, env);
      && t.promiseDate.Some? && t.promiseGroups != []
      && Occurrences(t.promiseGroups, n) == (if 1 <= n <= |s.lines| && Counts(s.lines[n - 1]) then 1 else 0)
      && exists k :: 0 <= k < |t.promiseGroups| && SummaryIs(t, t.promiseGroups[k].promise)
  {
    GroupsExistWhenPromiseDoes(env.policy, env.now, s);
    var groups := PromiseGroupsOf(env.policy, env.now, s).value;
    EachCountedLineInOneGroup(env.policy, env.now, s, n);
    if s.allowPartial {
      var ks := GroupsPartitionAllocatedLines(env.policy, env.now, s);
      assert HasBin(Binned(ks), ks[0].key);
    }
    SummaryDescribesLatestGroup(s, groups);
  }

  // ---------------------------------------------------------------- when everything is granted

  ghost predicate GrantsEverything(env: Env) {
    && env.saves
    && (forall n :: env.reserve(n).Granted?)
    && (forall k, e :: env.publishes(k, e))
  }

  /** The status a pass over lines of one kind starts from. */
  function Kind(retry: bool): LineStatus {
    if retry then Backordered else Pending
  }

  function StatusUpTo(l: Line, kind: LineStatus, bound: int): LineStatus {
    if l.status == kind && l.lineNo <= bound then Allocated else l.status
  }

  /** Up to that number, the lines of that kind are allocated; all others are as they were. */
  ghost predicate GrantedUpTo(s: OrderState, a: Progress, kind: LineStatus, bound: int) {
    && a.failure.None? && WellNumbered(a.order.lines) && |a.order.lines| == |s.lines|
    && forall i :: 0 <= i < |s.lines| ==> a.order.lines[i].status == StatusUpTo(s.lines[i], kind, bound)
  }

  lemma GrantNext(s: OrderState, a: Progress, retry: bool, bound: int, l: Line, env: Env)
    requires WellNumbered(s.lines) && GrantsEverything(env) && GrantedUpTo(s, a, Kind(retry), bound)
    requires bound < l.lineNo && 1 <= l.lineNo <= |s.lines| && s.lines[l.lineNo - 1].status == Kind(retry)
    requires forall i :: 0 <= i < |s.lines| && bound < i + 1 < l.lineNo ==> s.lines[i].status != Kind(retry)
    ensures GrantedUpTo(s, AllocateOne(a, l, retry, env), Kind(retry), l.lineNo)
  {
    LookupByNumber(a.order.lines, l.lineNo);
  }

  lemma {:induction false} GrantEach(s: OrderState, w: seq<Line>, k: nat, retry: bool, env: Env)
    requires WellNumbered(s.lines) && GrantsEverything(env) && Listing(s.lines, w, Kind(retry)) && k <= |w|
    ensures GrantedUpTo(s, AllocateLines(s, w, k, retry, env), Kind(retry), Bound(w, k))
  {
    if k > 0 {
      GrantEach(s, w, k - 1, retry, env);
      assert Following(w, k - 1, |s.lines| + 1) == w[k - 1].lineNo;
      GrantNext(s, AllocateLines(s, w, k - 1, retry, env), retry, Bound(w, k - 1), w[k - 1], env);
    }
  }

  /** Every line of the kind is allocated, and no other line changes status. */
  predicate AllGranted(ls: seq<Line>, ks: seq<Line>, kind: LineStatus) {
    |ks| == |ls| && forall i :: 0 <= i < |ls| ==> ks[i].status == if ls[i].status == kind then Allocated else ls[i].status
  }

  lemma GrantAll(s: OrderState, retry: bool, env: Env) returns (a: Progress)
    requires Sound(s) && GrantsEverything(env)
    ensures a == AllocateLines(s, WithStatus(s.lines, Kind(retry)), |WithStatus(s.lines, Kind(retry))|, retry, env)
    ensures a.failure.None? && InPass(s, a) && AllGranted(s.lines, a.order.lines, Kind(retry))
  {
    var w := WithStatusLists(s.lines, Kind(retry));
    a := AllocateLines(s, w, |w|, retry, env);
    AllocateLinesKeep(s, w, |w|, retry, env);
    GrantEach(s, w, |w|, retry, env);
    assert Following(w, |w|, |s.lines| + 1) == |s.lines| + 1;
  }

  /** Reconfirmed reservations change no status. */
  ghost predicate StatusesKept(s: OrderState, b: Progress) {
    && b.failure.None? && WellNumbered(b.order.lines) && |b.order.lines| == |s.lines|
    && forall i :: 0 <= i < |s.lines| ==> b.order.lines[i].status == s.lines[i].status
  }

  lemma ReconfirmNext(s: OrderState, b: Progress, l: Line, skip: seq<int>, env: Env)
    requires StatusesKept(s, b) && GrantsEverything(env)
    requires 1 <= l.lineNo <= |s.lines| && s.lines[l.lineNo - 1].status == Allocated
    ensures StatusesKept(s, ReconfirmOne(b, l, skip, env))
    ensures ReconfirmOne(b, l, skip, env).nBackordered == b.nBackordered
  {
    LookupByNumber(b.order.lines, l.lineNo);
  }

  lemma {:induction false} ReconfirmEach(a: Progress, w: seq<Line>, k: nat, skip: seq<int>, env: Env)
    requires a.failure.None? && WellNumbered(a.order.lines) && GrantsEverything(env) && k <= |w|
    requires Listing(a.order.lines, w, Allocated)
    ensures StatusesKept(a.order, ReconfirmLines(a, w, k, skip, env))
    ensures ReconfirmLines(a, w, k, skip, env).nBackordered == a.nBackordered
  {
    if k > 0 {
      ReconfirmEach(a, w, k - 1, skip, env);
      ReconfirmNext(a.order, ReconfirmLines(a, w, k - 1, skip, env), w[k - 1], skip, env);
    }
  }

  lemma ConcludeCommits(a: Progress, released: seq<ReleasedLine>, env: Env)
    requires GrantsEverything(env)
    ensures Conclude(a, released, env).verdict == Commit && Conclude(a, released, env).reported == None
  {
  }

  lemma GrantedLegReleases(s: OrderState, a: Progress, skip: seq<int>, env: Env)
    requires InPass(s, a) && a.failure.None? && GrantsEverything(env)
    requires forall i :: 0 <= i < |a.order.lines| ==> a.order.lines[i].status in {Allocated, Released}
    ensures
      var o := ReleaseLeg(a, skip, env);
      && o.verdict == Commit && o.reported == None
      && |StoresOf(o.effects)| == 1 && AllLines(StoresOf(o.effects)[0].lines, Released)
  {
    var w := WithStatusLists(a.order.lines, Allocated);
    ReconfirmLinesKeep(s, a, w, |w|, skip, env);
    ReconfirmEach(a, w, |w|, skip, env);
    var b := ReconfirmLines(a, w, |w|, skip, env);
    assert Releasable(b.order);
    ReleaseIsAllOrNothing(b.order);
    var r := ReleaseAllocatedLines(b.order);
    ConcludeStores(b.(order := r.order), r.released, env);
    ConcludeCommits(b.(order := r.order), r.released, env);
  }

  /** When everything is granted and nothing fails, a pass over the lines of its kind commits with all
      lines released, provided every line was of that kind, allocated or released. */
  lemma FullGrantReleasesAll(s: OrderState, retry: bool, env: Env)
    requires Sound(s) && GrantsEverything(env)
    requires forall i :: 0 <= i < |s.lines| ==> s.lines[i].status in {Kind(retry), Allocated, Released}
    ensures
      var o := AllocateAndRelease(s, WithStatus(s.lines, Kind(retry)), retry, true, env);
      && o.verdict == Commit && o.reported == None
      && |StoresOf(o.effects)| == 1 && AllLines(StoresOf(o.effects)[0].lines, Released)
  {
    var a := GrantAll(s, retry, env);
    PromisingKeepsLines(a.order, env);
    var b := a.(order := SetPromiseDate(a.order, env));
    GrantedLegReleases(b.order.(lines := s.lines), b, LineNos(WithStatus(s.lines, Kind(retry))), env);
  }

  /** With the release held back, the same pass commits with every line of its kind allocated and no
      status changed otherwise. */
  lemma FullGrantAllocatesHeld(s: OrderState, retry: bool, env: Env)
    requires Sound(s) && GrantsEverything(env)
    ensures
      var o := AllocateAndRelease(s, WithStatus(s.lines, Kind(retry)), retry, false, env);
      && o.verdict == Commit && o.reported == None
      && |StoresOf(o.effects)| == 1 && AllGranted(s.lines, StoresOf(o.effects)[0].lines, Kind(retry))
  {
    var a := GrantAll(s, retry, env);
    PromisingKeepsLines(a.order, env);
    var b := a.(order := SetPromiseDate(a.order, env));
    ConcludeStores(b, [], env);
    ConcludeCommits(b, [], env);
  }

  /** The release on demand of a held order whose lines are all allocated releases all of them. */
  lemma HeldOrderIsReleased(s: OrderState, env: Env)
    requires Sound(s) && s.held && AllLines(s.lines, Allocated) && GrantsEverything(env)
    ensures
      && HeldPlan(s, env).verdict == Commit
      && |StoresOf(HeldPlan(s, env).effects)| == 1
      && AllLines(StoresOf(HeldPlan(s, env).effects)[0].lines, Released)
  {
    AllWithStatus(s.lines, Allocated);
    NoneWithStatus(s.lines, Pending);
    FullGrantReleasesAll(s, false, env);
  }

  lemma {:induction false} NoneWithStatus(lines: seq<Line>, st: LineStatus)
    requires forall i :: 0 <= i < |lines| ==> lines[i].status != st
    ensures WithStatus(lines, st) == []
  {
    if lines != [] {
      NoneWithStatus(lines[..|lines| - 1], st);
    }
  }
}
