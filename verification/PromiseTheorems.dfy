/** What the promise search guarantees: exact feasibility, a partition into groups, and that
    splitting an order into groups never delays a line. */
module PromiseTheorems {
  import opened Wrappers
  import opened Orders
  import opened PromisePolicies

  // ---------------------------------------------------------------- feasibility by a deadline

  /** Some offered window at or before the deadline fits every allocated line. */
  predicate SomeWindowMeets(p: Policy, now: Instant, s: OrderState, deadline: Instant) {
    && Promisable(s.lines) != []
    && Offered(p, now).Some?
    && exists w :: w in Offered(p, now).value && Qualifies(p, now, Promisable(s.lines), w, deadline)
  }

  /** The promise is a network promise for a qualifying window, and no qualifying window is later. */
  predicate IsLatestQualifying(p: Policy, now: Instant, s: OrderState, deadline: Instant, r: Promise)
    requires Offered(p, now).Some?
  {
    var ws := Offered(p, now).value;
    && r.basis == Network
    && (exists w :: w in ws && Qualifies(p, now, Promisable(s.lines), w, deadline) && w.cptId == r.cptId && w.cutoffAt == r.cutoffAt)
    && forall w :: w in ws && Qualifies(p, now, Promisable(s.lines), w, deadline) ==> w.cutoffAt <= r.cutoffAt
  }

  lemma FeasibleByIsExact(p: Policy, now: Instant, s: OrderState, deadline: Instant)
    ensures FeasibleBy(p, now, s, deadline).Some? <==> SomeWindowMeets(p, now, s, deadline)
    ensures FeasibleBy(p, now, s, deadline).Some? ==>
              && IsLatestQualifying(p, now, s, deadline, FeasibleBy(p, now, s, deadline).value)
              && FeasibleBy(p, now, s, deadline).value.cutoffAt <= deadline
  {
    var lines := Promisable(s.lines);
    if lines != [] && Offered(p, now).Some? {
      var ws := Offered(p, now).value;
      var best := BestBy(p, now, lines, ws, deadline);
      if best.Some? {
        var w := ws[best.value];
        assert w in ws && Qualifies(p, now, lines, w, deadline);
      }
    }
  }

  /** The order in which the schedule lists its windows does not change the cutoff. */
  lemma FeasibleByIgnoresWindowOrder(p: Policy, q: Policy, now: Instant, s: OrderState, deadline: Instant)
    requires p.capability == q.capability && p.capacity == q.capacity
    requires Offered(p, now).Some? && Offered(q, now).Some?
    requires forall w :: w in Offered(p, now).value <==> w in Offered(q, now).value
    ensures FeasibleBy(p, now, s, deadline).Some? <==> FeasibleBy(q, now, s, deadline).Some?
    ensures FeasibleBy(p, now, s, deadline).Some? ==>
              FeasibleBy(p, now, s, deadline).value.cutoffAt == FeasibleBy(q, now, s, deadline).value.cutoffAt
  {
    FeasibleByIsExact(p, now, s, deadline);
    FeasibleByIsExact(q, now, s, deadline);
    var lines := Promisable(s.lines);
    forall w ensures Qualifies(p, now, lines, w, deadline) == Qualifies(q, now, lines, w, deadline) {
      forall i | 0 <= i < |lines| ensures LineFits(p, now, lines[i], w) == LineFits(q, now, lines[i], w) {
      }
    }
  }

  /** A later deadline keeps a feasible order feasible and never moves its departure earlier. */
  lemma FeasibleByIsMonotone(p: Policy, now: Instant, s: OrderState, d: Instant, e: Instant)
    requires d <= e && FeasibleBy(p, now, s, d).Some?
    ensures FeasibleBy(p, now, s, e).Some?
    ensures FeasibleBy(p, now, s, d).value.cutoffAt <= FeasibleBy(p, now, s, e).value.cutoffAt
  {
    FeasibleByIsExact(p, now, s, d);
    FeasibleByIsExact(p, now, s, e);
    var lines := Promisable(s.lines);
    var r := FeasibleBy(p, now, s, d).value;
    var w :| w in Offered(p, now).value && Qualifies(p, now, lines, w, d) && w.cutoffAt == r.cutoffAt;
    assert Qualifies(p, now, lines, w, e);
  }

  /** The two searches are duals: whatever window the order can be promised by itself is feasible
      for any deadline that is not earlier, and the feasible departure is not earlier than it. */
  lemma PromisableIsFeasible(p: Policy, now: Instant, s: OrderState, deadline: Instant)
    requires PromiseOf(p, now, s).Some?
    requires PromiseOf(p, now, s).value.basis == Capability && PromiseOf(p, now, s).value.cutoffAt <= deadline
    ensures FeasibleBy(p, now, s, deadline).Some?
    ensures PromiseOf(p, now, s).value.cutoffAt <= FeasibleBy(p, now, s, deadline).value.cutoffAt
  {
    FeasibleByIsExact(p, now, s, deadline);
    var lines := Promisable(s.lines);
    var ws := Offered(p, now).value;
    var k := FirstFit(p, now, lines, ws, 0);
    assert ws[k] in ws && Qualifies(p, now, lines, ws[k], deadline);
  }

  // ---------------------------------------------------------------- a promise always exists and is in the future

  /** An order with an allocated line always has a promise; a fallback promise is strictly in the future. */
  lemma AllocatedOrderIsPromised(p: Policy, now: Instant, s: OrderState)
    requires Promisable(s.lines) != []
    ensures PromiseOf(p, now, s).Some?
    ensures PromiseOf(p, now, s).value.basis in {Capability, LeadTime}
    ensures PromiseOf(p, now, s).value.basis == LeadTime ==> PromiseOf(p, now, s).value.cutoffAt > now
  {
    PromisableMembers(s.lines);
    assert Promisable(s.lines)[0] in Promisable(s.lines);
  }

  // ---------------------------------------------------------------- groups

  /** The numbers of the entries with a given key, in order. */
  function NosWith(ks: seq<Keyed>, key: Key): seq<int> {
    if ks == [] then []
    else
      var n := |ks| - 1;
      NosWith(ks[..n], key) + (if ks[n].key == key then [ks[n].lineNo] else [])
  }

  /** The position of the first entry with a given key, or the number of entries. */
  function FirstWith(ks: seq<Keyed>, key: Key): (i: nat)
    ensures i <= |ks|
    ensures i < |ks| ==> ks[i].key == key
    ensures forall j :: 0 <= j < i ==> ks[j].key != key
  {
    if ks == [] then 0
    else
      var n := |ks| - 1;
      var i := FirstWith(ks[..n], key);
      assert forall j :: 0 <= j < i ==> ks[j] == ks[..n][j];
      if i < n || ks[n].key == key then i else |ks|
  }

  /** The bins are the fibres of the key: one per distinct key, each holding exactly the lines with that
      key in line order, and the bins stand in order of first occurrence. */
  ghost predicate BinsArePartition(ks: seq<Keyed>, bins: seq<Bin>) {
    && DistinctKeys(bins)
    && (forall j :: 0 <= j < |bins| ==> bins[j].lineNos == NosWith(ks, bins[j].key))
    && (forall j :: 0 <= j < |bins| ==> FirstWith(ks, bins[j].key) < |ks|)
    && (forall i, j :: 0 <= i < j < |bins| ==> FirstWith(ks, bins[i].key) < FirstWith(ks, bins[j].key))
    && (forall i :: 0 <= i < |ks| ==> HasBin(bins, ks[i].key))
  }

  predicate HasBin(bins: seq<Bin>, key: Key) {
    exists j :: 0 <= j < |bins| && bins[j].key == key
  }

  lemma {:induction false} GroupedIsPartition(ks: seq<Keyed>)
    ensures BinsArePartition(ks, Binned(ks))
    ensures |Grouped(ks)| == |Binned(ks)|
    ensures forall j :: 0 <= j < |Binned(ks)| ==> Grouped(ks)[j] == PromiseGroup(Binned(ks)[j].lineNos, Binned(ks)[j].key.promise)
  {
    if ks != [] {
      var n := |ks| - 1;
      GroupedIsPartition(ks[..n]);
      BinStep(ks, Binned(ks[..n]));
    }
  }

  lemma BinStep(ks: seq<Keyed>, before: seq<Bin>)
    requires ks != [] && BinsArePartition(ks[..|ks| - 1], before)
    ensures BinsArePartition(ks, AddToBins(before, ks[|ks| - 1]))
  {
    var k := ks[|ks| - 1];
    var at := BinAt(before, k.key, 0);
    if at == |before| {
      assert ks == ks[..|ks| - 1] + [k];
      OpenBin(ks[..|ks| - 1], k, before);
    } else {
      JoinBin(ks, before, at);
    }
  }

  lemma EntryAppended(init: seq<Keyed>, k: Keyed, q: Key)
    ensures NosWith(init + [k], q) == NosWith(init, q) + (if k.key == q then [k.lineNo] else [])
    ensures FirstWith(init + [k], q) ==
              if FirstWith(init, q) < |init| then FirstWith(init, q)
              else if k.key == q then |init| else |init| + 1
  {
    assert (init + [k])[..|init|] == init;
  }

  lemma OpenBin(init: seq<Keyed>, k: Keyed, before: seq<Bin>)
    requires BinsArePartition(init, before)
    requires forall j :: 0 <= j < |before| ==> before[j].key != k.key
    ensures BinsArePartition(init + [k], before + [Bin([k.lineNo], k.key)])
  {
    var bins := before + [Bin([k.lineNo], k.key)];
    forall i | 0 <= i < |init| ensures init[i].key != k.key {
      assert HasBin(before, init[i].key);
    }
    NoneWith(init, k.key);
    forall j | 0 <= j < |bins|
      ensures bins[j].lineNos == NosWith(init + [k], bins[j].key)
      ensures FirstWith(init + [k], bins[j].key) == if j < |before| then FirstWith(init, before[j].key) else |init|
    {
      EntryAppended(init, k, bins[j].key);
    }
    forall i | 0 <= i <= |init| ensures HasBin(bins, (init + [k])[i].key) {
      assert i < |init| ==> HasBin(before, init[i].key);
      OneMoreBin(before, bins[|before|], (init + [k])[i].key);
    }
  }

  lemma OneMoreBin(before: seq<Bin>, g: Bin, q: Key)
    requires HasBin(before, q) || g.key == q
    ensures HasBin(before + [g], q)
  {
    if HasBin(before, q) {
      var j :| 0 <= j < |before| && before[j].key == q;
      assert (before + [g])[j].key == q;
    } else {
      assert (before + [g])[|before|].key == q;
    }
  }

  lemma JoinBin(ks: seq<Keyed>, before: seq<Bin>, at: nat)
    requires ks != [] && BinsArePartition(ks[..|ks| - 1], before)
    requires at < |before| && before[at].key == ks[|ks| - 1].key
    ensures BinsArePartition(ks, before[at := before[at].(lineNos := before[at].lineNos + [ks[|ks| - 1].lineNo])])
  {
    var n := |ks| - 1;
    var init, k := ks[..n], ks[n];
    var bins := before[at := before[at].(lineNos := before[at].lineNos + [k.lineNo])];
    forall j | 0 <= j < |bins|
      ensures bins[j].key == before[j].key && bins[j].lineNos == NosWith(ks, bins[j].key)
      ensures FirstWith(ks, bins[j].key) == FirstWith(init, before[j].key)
    {
    }
    forall i | 0 <= i < |ks| ensures HasBin(bins, ks[i].key) {
      if i < n {
        assert HasBin(before, init[i].key);
        var j :| 0 <= j < |before| && before[j].key == init[i].key;
        assert bins[j].key == ks[i].key;
      } else {
        assert bins[at].key == k.key;
      }
    }
  }

  lemma {:induction false} NoneWith(ks: seq<Keyed>, key: Key)
    requires FirstWith(ks, key) == |ks|
    ensures NosWith(ks, key) == []
  {
    if ks != [] {
      var n := |ks| - 1;
      NoneWith(ks[..n], key);
    }
  }

  /** How often a line number occurs in the groups, all together. */
  function Occurrences(groups: seq<PromiseGroup>, lineNo: int): nat {
    if groups == [] then 0
    else Occurrences(groups[..|groups| - 1], lineNo) + multiset(groups[|groups| - 1].lineNos)[lineNo]
  }

  function NoCount(ks: seq<Keyed>, lineNo: int): nat {
    if ks == [] then 0
    else NoCount(ks[..|ks| - 1], lineNo) + (if ks[|ks| - 1].lineNo == lineNo then 1 else 0)
  }

  lemma AddOccurrence(bins: seq<Bin>, k: Keyed, lineNo: int)
    ensures Occurrences(GroupsOf(AddToBins(bins, k)), lineNo)
         == Occurrences(GroupsOf(bins), lineNo) + (if k.lineNo == lineNo then 1 else 0)
  {
    var j, groups := BinAt(bins, k.key, 0), GroupsOf(bins);
    if j == |bins| {
      assert GroupsOf(AddToBins(bins, k))[..|bins|] == groups;
    } else {
      ReplaceOccurrence(groups, j, k.lineNo, lineNo);
      assert GroupsOf(AddToBins(bins, k)) == groups[j := groups[j].(lineNos := groups[j].lineNos + [k.lineNo])];
    }
  }

  lemma {:induction false} ReplaceOccurrence(groups: seq<PromiseGroup>, j: nat, added: int, lineNo: int)
    requires j < |groups|
    ensures Occurrences(groups[j := groups[j].(lineNos := groups[j].lineNos + [added])], lineNo)
         == Occurrences(groups, lineNo) + (if added == lineNo then 1 else 0)
  {
    var n := |groups| - 1;
    var after := groups[j := groups[j].(lineNos := groups[j].lineNos + [added])];
    if j == n {
      assert after[..n] == groups[..n];
    } else {
      ReplaceOccurrence(groups[..n], j, added, lineNo);
      assert after[..n] == groups[..n][j := groups[j].(lineNos := groups[j].lineNos + [added])];
    }
  }

  /** Grouping moves line numbers around; it neither loses nor duplicates one. */
  lemma {:induction false} GroupingConservesLines(ks: seq<Keyed>, lineNo: int)
    ensures Occurrences(Grouped(ks), lineNo) == NoCount(ks, lineNo)
  {
    if ks != [] {
      GroupingConservesLines(ks[..|ks| - 1], lineNo);
      AddOccurrence(Binned(ks[..|ks| - 1]), ks[|ks| - 1], lineNo);
    }
  }

  /** The promise a line would get as the only line of an order. */
  function PromiseAlone(p: Policy, now: Instant, s: OrderState, l: Line): Option<Promise> {
    PromiseOf(p, now, s.(lines := [l]))
  }

  lemma SingleLinePromise(p: Policy, now: Instant, s: OrderState, l: Line)
    requires l in Promisable(s.lines)
    ensures PromiseForLines(p, now, s, [l]) == PromiseAlone(p, now, s, l)
    ensures PromiseForLines(p, now, s, [l]).Some?
  {
    PromisableMembers(s.lines);
    assert Promisable([l]) == [l] by { assert [l][..0] == []; }
    if |Promisable(s.lines)| == 1 {
      SameLeadTime(p.fallback, s.lines, [l]);
    }
  }

  lemma SameLeadTime(p: LeadTimePolicy, ls: seq<Line>, ks: seq<Line>)
    requires forall l :: l in Promisable(ls) <==> l in Promisable(ks)
    ensures SlowestLead(p, ls) == SlowestLead(p, ks)
    ensures Promisable(ls) == [] <==> Promisable(ks) == []
  {
    PromisableMembers(ls);
    PromisableMembers(ks);
    if Promisable(ls) != [] {
      assert Promisable(ls)[0] in Promisable(ls);
    }
    if Promisable(ks) != [] {
      assert Promisable(ks)[0] in Promisable(ks);
    }
    forall l | l in ls && Counts(l) ensures l in ks { assert l in Promisable(ls); }
    forall l | l in ks && Counts(l) ensures l in ls { assert l in Promisable(ks); }
  }

  lemma {:induction false} PerLineSucceeds(p: Policy, now: Instant, s: OrderState, lines: seq<Line>)
    requires forall l :: l in lines ==> l in Promisable(s.lines)
    ensures PerLine(p, now, s, lines).Some?
  {
    if lines != [] {
      var n := |lines| - 1;
      PerLineSucceeds(p, now, s, lines[..n]);
      SingleLinePromise(p, now, s, lines[n]);
    }
  }

  /** Grouping refuses exactly when the single promise does: when no line is allocated. */
  lemma GroupsExistWhenPromiseDoes(p: Policy, now: Instant, s: OrderState)
    ensures PromiseGroupsOf(p, now, s).Some? <==> PromiseOf(p, now, s).Some?
    ensures PromiseGroupsOf(p, now, s).Some? <==> Promisable(s.lines) != []
  {
    var lines := Promisable(s.lines);
    if lines != [] {
      AllocatedOrderIsPromised(p, now, s);
      PerLineSucceeds(p, now, s, lines);
    }
  }

  /** A ship-complete order has one group: all its allocated lines, at the whole-order promise. */
  lemma ShipCompleteIsOneGroup(p: Policy, now: Instant, s: OrderState)
    requires !s.allowPartial && Promisable(s.lines) != []
    ensures PromiseGroupsOf(p, now, s) ==
              Some([PromiseGroup(LineNos(Promisable(s.lines)), PromiseOf(p, now, s).value)])
    ensures PromiseOf(p, now, s).Some?
  {
    AllocatedOrderIsPromised(p, now, s);
  }

  /** For an order that may ship in parts the groups are the partition of its allocated lines by
      the key of each line's own promise, in order of first occurrence. */
  lemma GroupsPartitionAllocatedLines(p: Policy, now: Instant, s: OrderState) returns (ks: seq<Keyed>)
    requires s.allowPartial && Promisable(s.lines) != []
    ensures PerLine(p, now, s, Promisable(s.lines)) == Some(ks)
    ensures PromiseGroupsOf(p, now, s) == Some(Grouped(ks))
    ensures BinsArePartition(ks, Binned(ks))
    ensures Keys(ks) == LineNos(Promisable(s.lines))
  {
    PerLineSucceeds(p, now, s, Promisable(s.lines));
    ks := PerLine(p, now, s, Promisable(s.lines)).value;
    GroupedIsPartition(ks);
  }

  /** Every allocated line number is in exactly one group, exactly once; no other number is in any. */
  lemma EachAllocatedLineInOneGroup(p: Policy, now: Instant, s: OrderState, n: int)
    requires s.allowPartial && WellNumbered(s.lines) && Promisable(s.lines) != []
    ensures PromiseGroupsOf(p, now, s).Some?
    ensures Occurrences(PromiseGroupsOf(p, now, s).value, n) ==
              if 1 <= n <= |s.lines| && Counts(s.lines[n - 1]) then 1 else 0
  {
    var ks := GroupsPartitionAllocatedLines(p, now, s);
    GroupingConservesLines(ks, n);
    CountNumbered(s.lines, ks, n);
  }

  lemma {:induction false} PromisableNumbers(lines: seq<Line>, n: int)
    requires WellNumbered(lines)
    ensures multiset(LineNos(Promisable(lines)))[n] == if 1 <= n <= |lines| && Counts(lines[n - 1]) then 1 else 0
  {
    if lines != [] {
      var m := |lines| - 1;
      PromisableNumbers(lines[..m], n);
      if Counts(lines[m]) {
        assert LineNos(Promisable(lines)) == LineNos(Promisable(lines[..m])) + [m + 1];
      } else {
        assert Promisable(lines) == Promisable(lines[..m]);
      }
    }
  }

  lemma ListedMeansOccurs(groups: seq<PromiseGroup>, n: int)
    ensures Occurrences(groups, n) > 0 <==> exists g :: g in groups && n in g.lineNos
  {
    if groups != [] {
      var k := |groups| - 1;
      ListedMeansOccurs(groups[..k], n);
      assert groups == groups[..k] + [groups[k]];
    }
  }

  /** In either kind of order: every allocated or released line is in exactly one group, once, and no
      other number is in any. */
  lemma EachCountedLineInOneGroup(p: Policy, now: Instant, s: OrderState, n: int)
    requires WellNumbered(s.lines) && Promisable(s.lines) != []
    ensures PromiseGroupsOf(p, now, s).Some?
    ensures Occurrences(PromiseGroupsOf(p, now, s).value, n) ==
              if 1 <= n <= |s.lines| && Counts(s.lines[n - 1]) then 1 else 0
  {
    if s.allowPartial {
      EachAllocatedLineInOneGroup(p, now, s, n);
    } else {
      ShipCompleteIsOneGroup(p, now, s);
      PromisableNumbers(s.lines, n);
      var groups := PromiseGroupsOf(p, now, s).value;
      assert groups[..0] == [];
    }
  }

  /** The group a line is in carries the promise the line would get as the only line of an order. */
  lemma {:induction false} GroupsCarryEachLinesOwnPromise(p: Policy, now: Instant, s: OrderState, groups: seq<PromiseGroup>, j: nat, n: int)
    requires s.allowPartial && WellNumbered(s.lines)
    requires PromiseGroupsOf(p, now, s) == Some(groups)
    requires j < |groups| && n in groups[j].lineNos
    ensures 1 <= n <= |s.lines| && Counts(s.lines[n - 1])
    ensures PromiseAlone(p, now, s, s.lines[n - 1]) == Some(groups[j].promise)
  {
    var ks, i := EntryInGroup(p, now, s, groups, j, n);
    EntryIsOwnPromise(p, now, s, ks, i, n);
  }

  lemma {:induction false} EntryInGroup(p: Policy, now: Instant, s: OrderState, groups: seq<PromiseGroup>, j: nat, n: int)
    returns (ks: seq<Keyed>, i: nat)
    requires s.allowPartial && PromiseGroupsOf(p, now, s) == Some(groups)
    requires j < |groups| && n in groups[j].lineNos
    ensures PerLine(p, now, s, Promisable(s.lines)) == Some(ks)
    ensures groups == Grouped(ks)
    ensures i < |ks| && ks[i] == Keyed(n, Binned(ks)[j].key) && ks[i].key.promise == groups[j].promise
  {
    ks := GroupsPartitionAllocatedLines(p, now, s);
    i := EntryOf(ks, Binned(ks)[j].key, n);
  }

  lemma {:induction false} EntryIsOwnPromise(p: Policy, now: Instant, s: OrderState, ks: seq<Keyed>, i: nat, n: int)
    requires WellNumbered(s.lines) && PerLine(p, now, s, Promisable(s.lines)) == Some(ks)
    requires i < |ks| && ks[i].lineNo == n
    ensures 1 <= n <= |s.lines| && Counts(s.lines[n - 1])
    ensures PromiseAlone(p, now, s, s.lines[n - 1]) == Some(ks[i].key.promise)
  {
    var l := LineBehind(s.lines, i);
    SingleLinePromise(p, now, s, l);
  }

  lemma LineBehind(lines: seq<Line>, i: nat) returns (l: Line)
    requires WellNumbered(lines) && i < |Promisable(lines)|
    ensures l == Promisable(lines)[i] && l in Promisable(lines) && Counts(l)
    ensures LineNos(Promisable(lines))[i] == l.lineNo
    ensures 1 <= l.lineNo <= |lines| && lines[l.lineNo - 1] == l
  {
    l := Promisable(lines)[i];
    PromisableMembers(lines);
    assert l in Promisable(lines);
    var at :| 0 <= at < |lines| && lines[at] == l;
  }

  function Keys(ks: seq<Keyed>): (r: seq<int>)
    ensures |r| == |ks|
  {
    seq(|ks|, i requires 0 <= i < |ks| => ks[i].lineNo)
  }

  lemma {:induction false} EntryOf(ks: seq<Keyed>, key: Key, n: int) returns (i: nat)
    requires n in NosWith(ks, key)
    ensures i < |ks| && ks[i] == Keyed(n, key)
  {
    var m := |ks| - 1;
    if ks[m] == Keyed(n, key) {
      i := m;
    } else {
      i := EntryOf(ks[..m], key, n);
    }
  }

  lemma {:induction false} CountNumbered(lines: seq<Line>, ks: seq<Keyed>, n: int)
    requires WellNumbered(lines)
    requires Keys(ks) == LineNos(Promisable(lines))
    ensures NoCount(ks, n) == if 1 <= n <= |lines| && Counts(lines[n - 1]) then 1 else 0
  {
    if lines == [] {
      assert ks == [];
    } else {
      var m := |lines| - 1;
      var init := lines[..m];
      if Counts(lines[m]) {
        LastKey(ks, Promisable(init), lines[m]);
        CountNumbered(init, ks[..|ks| - 1], n);
      } else {
        CountNumbered(init, ks, n);
      }
    }
  }

  lemma LastKey(ks: seq<Keyed>, init: seq<Line>, l: Line)
    requires Keys(ks) == LineNos(init + [l])
    ensures ks != [] && ks[|ks| - 1].lineNo == l.lineNo
    ensures Keys(ks[..|ks| - 1]) == LineNos(init)
  {
    var k := |init|;
    assert |ks| == k + 1;
    assert Keys(ks)[k] == LineNos(init + [l])[k];
    forall i | 0 <= i < k ensures Keys(ks[..k])[i] == LineNos(init)[i] {
      assert Keys(ks)[i] == LineNos(init + [l])[i];
    }
  }

  // ---------------------------------------------------------------- which lines share a group

  predicate CountedLine(s: OrderState, lineNo: int) {
    1 <= lineNo <= |s.lines| && Counts(s.lines[lineNo - 1])
  }

  lemma {:induction false} EntryIsListed(ks: seq<Keyed>, i: nat)
    requires i < |ks|
    ensures ks[i].lineNo in NosWith(ks, ks[i].key)
  {
    var n := |ks| - 1;
    if i < n {
      EntryIsListed(ks[..n], i);
    }
  }

  lemma PositionOf(lines: seq<Line>, l: Line) returns (i: nat)
    requires l in lines && Counts(l)
    ensures i < |Promisable(lines)| && Promisable(lines)[i] == l
  {
    PromisableMembers(lines);
    i :| 0 <= i < |Promisable(lines)| && Promisable(lines)[i] == l;
  }

  lemma EntryOfLine(p: Policy, now: Instant, s: OrderState, ks: seq<Keyed>, n: int) returns (i: nat)
    requires WellNumbered(s.lines) && CountedLine(s, n) && PerLine(p, now, s, Promisable(s.lines)) == Some(ks)
    ensures PromiseAlone(p, now, s, s.lines[n - 1]).Some?
    ensures i < |ks| && ks[i] == Keyed(n, KeyFor(p, n, PromiseAlone(p, now, s, s.lines[n - 1]).value))
  {
    i := PositionOf(s.lines, s.lines[n - 1]);
    SingleLinePromise(p, now, s, s.lines[n - 1]);
  }

  ghost predicate ShareGroup(groups: seq<PromiseGroup>, n: int, m: int) {
    exists j :: 0 <= j < |groups| && n in groups[j].lineNos && m in groups[j].lineNos
  }

  lemma {:induction false} BinOfEntry(ks: seq<Keyed>, i: nat) returns (b: nat)
    requires BinsArePartition(ks, Binned(ks)) && i < |ks|
    ensures b < |Binned(ks)| && Binned(ks)[b].key == ks[i].key
  {
    assert HasBin(Binned(ks), ks[i].key);
    b :| 0 <= b < |Binned(ks)| && Binned(ks)[b].key == ks[i].key;
  }

  lemma {:induction false} SameKeySharesGroup(ks: seq<Keyed>, i: nat, j: nat)
    requires BinsArePartition(ks, Binned(ks)) && i < |ks| && j < |ks| && ks[i].key == ks[j].key
    ensures ShareGroup(Grouped(ks), ks[i].lineNo, ks[j].lineNo)
  {
    var b := BinOfEntry(ks, i);
    EntryIsListed(ks, i);
    EntryIsListed(ks, j);
    assert Grouped(ks)[b].lineNos == NosWith(ks, ks[i].key);
  }

  /** Two lines of a partial order share a group if and only if each by itself gets the same promise,
      and the searches for the two got the same zone object wherever the promise is a window's cutoff.
      Where every search loads a zone object of its own, two lines that make the very same window are
      therefore in two groups. */
  lemma {:induction false} ShareGroupIff(p: Policy, now: Instant, s: OrderState, n: int, m: int)
    requires s.allowPartial && WellNumbered(s.lines) && CountedLine(s, n) && CountedLine(s, m)
    ensures PromiseGroupsOf(p, now, s).Some?
    ensures
      var a, b := PromiseAlone(p, now, s, s.lines[n - 1]), PromiseAlone(p, now, s, s.lines[m - 1]);
      && a.Some? && b.Some?
      && (ShareGroup(PromiseGroupsOf(p, now, s).value, n, m)
          <==> a == b && (a.value.basis == Capability ==> p.zone(n) == p.zone(m)))
  {
    GroupsExistWhenPromiseDoes(p, now, s);
    var l := PositionOf(s.lines, s.lines[n - 1]);
    var ks := GroupsPartitionAllocatedLines(p, now, s);
    var i := EntryOfLine(p, now, s, ks, n);
    var j := EntryOfLine(p, now, s, ks, m);
    if ks[i].key == ks[j].key {
      SameKeySharesGroup(ks, i, j);
    }
    forall g | 0 <= g < |Grouped(ks)| && n in Grouped(ks)[g].lineNos && m in Grouped(ks)[g].lineNos
      ensures ks[i].key == ks[j].key
    {
      KeyOfGroup(p, now, s, ks, g, n, i);
      KeyOfGroup(p, now, s, ks, g, m, j);
    }
  }

  /** The entry of a line has the key of the bin that lists the line. */
  lemma {:induction false} KeyOfGroup(p: Policy, now: Instant, s: OrderState, ks: seq<Keyed>, g: nat, n: int, i: nat)
    requires WellNumbered(s.lines) && PerLine(p, now, s, Promisable(s.lines)) == Some(ks)
    requires BinsArePartition(ks, Binned(ks)) && g < |Grouped(ks)| && n in Grouped(ks)[g].lineNos
    requires i < |ks| && ks[i].lineNo == n
    ensures ks[i].key == Binned(ks)[g].key
  {
    var x := EntryOf(ks, Binned(ks)[g].key, n);
    EntryIsOwnPromise(p, now, s, ks, i, n);
    EntryIsOwnPromise(p, now, s, ks, x, n);
  }

  /** Where all searches share one zone object, the groups have pairwise distinct promises. */
  lemma SharedZoneGroupsByPromise(p: Policy, now: Instant, s: OrderState)
    requires s.allowPartial && Promisable(s.lines) != [] && forall n, m :: p.zone(n) == p.zone(m)
    ensures PromiseGroupsOf(p, now, s).Some?
    ensures
      var groups := PromiseGroupsOf(p, now, s).value;
      forall i, j :: 0 <= i < j < |groups| ==> groups[i].promise != groups[j].promise
  {
    var ks := GroupsPartitionAllocatedLines(p, now, s);
    GroupedIsPartition(ks);
    var bins := Binned(ks);
    forall i, j | 0 <= i < j < |bins| ensures bins[i].key.promise != bins[j].key.promise {
      var a, b := FirstWith(ks, bins[i].key), FirstWith(ks, bins[j].key);
      assert ks[a].key == KeyFor(p, ks[a].lineNo, bins[i].key.promise) && ks[b].key == KeyFor(p, ks[b].lineNo, bins[j].key.promise);
    }
  }

  // ---------------------------------------------------------------- splitting never delays

  predicate Ascending(ws: seq<CPTWindow>) {
    forall i, j :: 0 <= i < j < |ws| ==> ws[i].cutoffAt <= ws[j].cutoffAt
  }

  /** With ascending windows, a line promised by itself departs no later than the whole order would. */
  lemma LineAloneIsNoLater(p: Policy, now: Instant, s: OrderState, l: Line)
    requires Offered(p, now).Some? ==> Ascending(Offered(p, now).value)
    requires PromiseOf(p, now, s).Some? && PromiseOf(p, now, s).value.basis == Capability
    requires l in Promisable(s.lines)
    ensures PromiseForLines(p, now, s, [l]).Some?
    ensures PromiseForLines(p, now, s, [l]).value.basis == Capability
    ensures PromiseForLines(p, now, s, [l]).value.cutoffAt <= PromiseOf(p, now, s).value.cutoffAt
  {
    var lines := Promisable(s.lines);
    var ws := Offered(p, now).value;
    var k := FirstFit(p, now, lines, ws, 0);
    assert LinesFit(p, now, [l], ws[k]);
    var j := FirstFit(p, now, [l], ws, 0);
    assert j <= k;
  }

  lemma GroupsDepartNoLater(p: Policy, now: Instant, s: OrderState)
    requires Offered(p, now).Some? ==> Ascending(Offered(p, now).value)
    requires PromiseOf(p, now, s).Some? && PromiseOf(p, now, s).value.basis == Capability
    ensures PromiseGroupsOf(p, now, s).Some? && PromiseGroupsOf(p, now, s).value != []
    ensures forall g :: g in PromiseGroupsOf(p, now, s).value ==>
              g.promise.basis == Capability && g.promise.cutoffAt <= PromiseOf(p, now, s).value.cutoffAt
  {
    GroupsExistWhenPromiseDoes(p, now, s);
    if s.allowPartial {
      var ks := GroupsPartitionAllocatedLines(p, now, s);
      var bins := Binned(ks);
      assert HasBin(bins, ks[0].key);
      forall j | 0 <= j < |bins|
        ensures bins[j].key.promise.basis == Capability
        ensures bins[j].key.promise.cutoffAt <= PromiseOf(p, now, s).value.cutoffAt
      {
        var i := FirstWith(ks, bins[j].key);
        LineAloneIsNoLater(p, now, s, Promisable(s.lines)[i]);
      }
    }
  }

  /** Splitting never delays: every group departs no later than the whole-order promise, and so does
      the date, departure and basis that the order shows as its summary. */
  lemma SplittingNeverDelays(p: Policy, now: Instant, s: OrderState)
    requires Offered(p, now).Some? ==> Ascending(Offered(p, now).value)
    requires PromiseOf(p, now, s).Some? && PromiseOf(p, now, s).value.basis == Capability
    ensures PromiseGroupsOf(p, now, s).Some?
    ensures
      var groups := PromiseGroupsOf(p, now, s).value;
      var t := WithPromiseGroups(s, groups);
      && (forall g :: g in groups ==>
            g.promise.basis == Capability && g.promise.cutoffAt <= PromiseOf(p, now, s).value.cutoffAt)
      && t.promiseBasis == Some(Capability)
      && t.promiseDate.Some? && t.promiseDate.value <= PromiseOf(p, now, s).value.cutoffAt
      && exists j :: 0 <= j < |groups| && SummaryIs(t, groups[j].promise)
  {
    GroupsDepartNoLater(p, now, s);
    SummaryDescribesLatestGroup(s, PromiseGroupsOf(p, now, s).value);
  }
}
