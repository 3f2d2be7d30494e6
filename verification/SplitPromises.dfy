/** What splitting an order does to its promise. The order's documentation says that the summary date is
    never earlier than the single promise; it can be, and this is exactly when. It also says that lines
    with the same promise share a group; where searches do not share a zone object they need not. */
module SplitPromises {
  import opened Wrappers
  import opened Orders
  import opened PromisePolicies
  import opened PromiseTheorems

  /** The summary date that the groups of an order leave on it. */
  function SummaryDate(p: Policy, now: Instant, s: OrderState): Option<Instant> {
    match PromiseGroupsOf(p, now, s)
    case None => s.promiseDate
    case Some(groups) => WithPromiseGroups(s, groups).promiseDate
  }

  ghost predicate FitsSome(p: Policy, now: Instant, l: Line) {
    Offered(p, now).Some? && exists w :: w in Offered(p, now).value && LinesFit(p, now, [l], w)
  }

  /** Every offered window that the line fits by itself is at or after `at`. */
  ghost predicate FitsOnlyFrom(p: Policy, now: Instant, l: Line, at: Instant)
    requires Offered(p, now).Some?
  {
    forall w :: w in Offered(p, now).value && LinesFit(p, now, [l], w) ==> w.cutoffAt >= at
  }

  /** By itself the line cannot depart before `at`: so say the windows it fits, or else, when it fits
      none, its lead time. */
  ghost predicate AloneNotBefore(p: Policy, now: Instant, l: Line, at: Instant) {
    if FitsSome(p, now, l) then FitsOnlyFrom(p, now, l, at) else now + LeadTimeFor(p.fallback, l.pathId) >= at
  }

  lemma OneLineLead(p: LeadTimePolicy, now: Instant, l: Line)
    requires Counts(l)
    ensures LeadTimeDate(p, now, [l]) == Some(now + LeadTimeFor(p, l.pathId)) && Promisable([l]) == [l]
  {
    assert [l][..0] == [];
    assert SlowestLead(p, [l][..0]) == 0;
  }

  lemma AloneDate(p: Policy, now: Instant, s: OrderState, l: Line, at: Instant)
    requires Offered(p, now).Some? ==> Ascending(Offered(p, now).value)
    requires l in Promisable(s.lines)
    ensures PromiseForLines(p, now, s, [l]).Some?
    ensures PromiseForLines(p, now, s, [l]).value.cutoffAt >= at <==> AloneNotBefore(p, now, l, at)
  {
    PromisableMembers(s.lines);
    SingleLinePromise(p, now, s, l);
    OneLineLead(p.fallback, now, l);
    if Offered(p, now).Some? {
      var ws := Offered(p, now).value;
      var k := FirstFit(p, now, [l], ws, 0);
      if k < |ws| {
        assert ws[k] in ws;
      }
    }
  }

  /** The summary date of a partial order is the latest of its lines' own dates. */
  lemma SummaryIsLatestLine(p: Policy, now: Instant, s: OrderState) returns (latest: Line)
    requires s.allowPartial && Promisable(s.lines) != []
    ensures SummaryDate(p, now, s).Some? && latest in Promisable(s.lines)
    ensures forall l :: l in Promisable(s.lines) ==>
              PromiseForLines(p, now, s, [l]).Some?
              && PromiseForLines(p, now, s, [l]).value.cutoffAt <= SummaryDate(p, now, s).value
    ensures PromiseForLines(p, now, s, [latest]).value.cutoffAt == SummaryDate(p, now, s).value
  {
    var lines := Promisable(s.lines);
    var ks := GroupsPartitionAllocatedLines(p, now, s);
    var groups := Grouped(ks);
    assert HasBin(Binned(ks), ks[0].key);
    SummaryDescribesLatestGroup(s, groups);
    var j := LatestGroup(groups, |groups|);
    latest := lines[FirstWith(ks, Binned(ks)[j].key)];
    forall l | l in lines
      ensures PromiseForLines(p, now, s, [l]).Some?
      ensures PromiseForLines(p, now, s, [l]).value.cutoffAt <= SummaryDate(p, now, s).value
    {
      var i :| 0 <= i < |lines| && lines[i] == l;
      assert HasBin(Binned(ks), ks[i].key);
      var b :| 0 <= b < |groups| && Binned(ks)[b].key == ks[i].key;
      assert groups[b].promise == ks[i].key.promise;
    }
  }

  /** A partial order's summary date is not earlier than its single promise if and only if some
      allocated line cannot depart before that promise by itself. This is for every basis. */
  lemma SummaryNotEarlierIff(p: Policy, now: Instant, s: OrderState)
    requires Offered(p, now).Some? ==> Ascending(Offered(p, now).value)
    requires s.allowPartial && PromiseOf(p, now, s).Some?
    ensures SummaryDate(p, now, s).Some?
    ensures
      var at := PromiseOf(p, now, s).value.cutoffAt;
      SummaryDate(p, now, s).value >= at <==> exists l :: l in Promisable(s.lines) && AloneNotBefore(p, now, l, at)
  {
    var at := PromiseOf(p, now, s).value.cutoffAt;
    var latest := SummaryIsLatestLine(p, now, s);
    AloneDate(p, now, s, latest, at);
    forall l | l in Promisable(s.lines) && AloneNotBefore(p, now, l, at) ensures SummaryDate(p, now, s).value >= at {
      AloneDate(p, now, s, l, at);
    }
  }

  lemma EachLineFitsSome(p: Policy, now: Instant, s: OrderState, l: Line)
    requires PromiseOf(p, now, s).Some? && PromiseOf(p, now, s).value.basis == Capability
    requires l in Promisable(s.lines)
    ensures FitsSome(p, now, l)
  {
    var lines, ws := Promisable(s.lines), Offered(p, now).value;
    var k := FirstFit(p, now, lines, ws, 0);
    assert LinesFit(p, now, [l], ws[k]);
  }

  /** At capability basis, where the summary is never later, it equals the single promise if and only
      if every offered window that some allocated line fits is at or after the promise. */
  lemma SummaryEqualsPromiseIff(p: Policy, now: Instant, s: OrderState)
    requires Offered(p, now).Some? && Ascending(Offered(p, now).value)
    requires s.allowPartial && PromiseOf(p, now, s).Some? && PromiseOf(p, now, s).value.basis == Capability
    ensures
      var at := PromiseOf(p, now, s).value.cutoffAt;
      SummaryDate(p, now, s) == Some(at) <==> exists l :: l in Promisable(s.lines) && FitsOnlyFrom(p, now, l, at)
  {
    var at := PromiseOf(p, now, s).value.cutoffAt;
    SummaryNotEarlierIff(p, now, s);
    SummaryIsNoLater(p, now, s);
    forall l | l in Promisable(s.lines) ensures AloneNotBefore(p, now, l, at) <==> FitsOnlyFrom(p, now, l, at) {
      EachLineFitsSome(p, now, s, l);
    }
  }

  lemma SummaryIsNoLater(p: Policy, now: Instant, s: OrderState)
    requires Offered(p, now).Some? ==> Ascending(Offered(p, now).value)
    requires PromiseOf(p, now, s).Some? && PromiseOf(p, now, s).value.basis == Capability
    ensures SummaryDate(p, now, s).Some? && SummaryDate(p, now, s).value <= PromiseOf(p, now, s).value.cutoffAt
  {
    SplittingNeverDelays(p, now, s);
  }

  /** A ship-complete order always shows its single promise. */
  lemma ShipCompleteShowsItsPromise(p: Policy, now: Instant, s: OrderState)
    requires !s.allowPartial && PromiseOf(p, now, s).Some?
    ensures SummaryDate(p, now, s) == Some(PromiseOf(p, now, s).value.cutoffAt)
  {
    ShipCompleteIsOneGroup(p, now, s);
  }

  // ---------------------------------------------------------------- the date can be earlier

  const EARLY := CPTWindow("c1", 1, ["x"])
  const MIDDLE := CPTWindow("c2", 2, ["y"])
  const LATE := CPTWindow("c3", 3, ["x", "y"])

  const THREE_WINDOWS := Policy(
    Some((site, now, n) => Some([EARLY, MIDDLE, LATE])), Some(path => Some(0)), None, LeadTimePolicy(0, map[]), "site", 0, n => n)

  const LINE_X := Line(1, "sku", 1, "x", false, Allocated, Some("r1"))
  const LINE_Y := Line(2, "sku", 1, "y", false, Allocated, Some("r2"))

  const SPLIT_ORDER := OrderState("o", [LINE_X, LINE_Y], true, None, None, None, [], false, None, 1)

  lemma WhichLinesFit()
    ensures
      var p := THREE_WINDOWS;
      && LinesFit(p, 0, [LINE_X], EARLY) && !LinesFit(p, 0, [LINE_Y], EARLY) && LinesFit(p, 0, [LINE_Y], MIDDLE)
      && !LinesFit(p, 0, [LINE_X, LINE_Y], EARLY) && !LinesFit(p, 0, [LINE_X, LINE_Y], MIDDLE)
      && LinesFit(p, 0, [LINE_X, LINE_Y], LATE)
  {
    var p := THREE_WINDOWS;
    assert !LineFits(p, 0, LINE_X, MIDDLE) && !LineFits(p, 0, LINE_Y, EARLY);
    assert [LINE_Y][0] == LINE_Y && [LINE_X, LINE_Y][0] == LINE_X && [LINE_X, LINE_Y][1] == LINE_Y;
  }

  lemma ThreeSearches()
    ensures
      var ws := [EARLY, MIDDLE, LATE];
      && FirstFit(THREE_WINDOWS, 0, [LINE_X], ws, 0) == 0
      && FirstFit(THREE_WINDOWS, 0, [LINE_Y], ws, 0) == 1
      && FirstFit(THREE_WINDOWS, 0, [LINE_X, LINE_Y], ws, 0) == 2
  {
    var ws := [EARLY, MIDDLE, LATE];
    WhichLinesFit();
    assert ws[0] == EARLY && ws[1] == MIDDLE && ws[2] == LATE;
  }

  lemma BothLinesCount()
    ensures Promisable([LINE_X, LINE_Y]) == [LINE_X, LINE_Y]
  {
    OneCounts(LINE_X);
    assert [LINE_X, LINE_Y][..1] == [LINE_X];
  }

  lemma OneCounts(l: Line)
    requires Counts(l)
    ensures Promisable([l]) == [l]
  {
    assert [l][..0] == [];
  }

  lemma ThreePromises()
    ensures PromiseOf(THREE_WINDOWS, 0, SPLIT_ORDER) == Some(Promise("c3", 3, Capability))
    ensures PromiseForLines(THREE_WINDOWS, 0, SPLIT_ORDER, [LINE_X]) == Some(Promise("c1", 1, Capability))
    ensures PromiseForLines(THREE_WINDOWS, 0, SPLIT_ORDER, [LINE_Y]) == Some(Promise("c2", 2, Capability))
  {
    ThreeSearches();
    BothLinesCount();
  }

  lemma TwoKeys(p: Policy, s: OrderState, a: Line, b: Line, k: Keyed, l: Keyed)
    requires a in Promisable(s.lines) && b in Promisable(s.lines)
    requires PromiseForLines(p, 0, s, [a]) == Some(k.key.promise) && k == Keyed(a.lineNo, KeyFor(p, a.lineNo, k.key.promise))
    requires PromiseForLines(p, 0, s, [b]) == Some(l.key.promise) && l == Keyed(b.lineNo, KeyFor(p, b.lineNo, l.key.promise))
    ensures PerLine(p, 0, s, [a, b]) == Some([k, l])
  {
    var lines := [a, b];
    PerLineSucceeds(p, 0, s, lines);
    var ks := PerLine(p, 0, s, lines).value;
    assert [lines[0]] == [a] && [lines[1]] == [b];
    assert ks[0] == k && ks[1] == l;
    assert ks == [k, l];
  }

  lemma OneGroup(k: Keyed)
    ensures Binned([k]) == [Bin([k.lineNo], k.key)]
  {
    assert [k][..0] == [];
    assert Binned([k][..0]) == [];
  }

  lemma TwoGroups(k: Keyed, l: Keyed)
    requires k.key != l.key
    ensures Grouped([k, l]) == [PromiseGroup([k.lineNo], k.key.promise), PromiseGroup([l.lineNo], l.key.promise)]
  {
    OneGroup(k);
    assert [k, l][..1] == [k];
    assert Binned([k, l]) == [Bin([k.lineNo], k.key), Bin([l.lineNo], l.key)];
  }

  lemma LaterOfTwo(g: PromiseGroup, h: PromiseGroup)
    requires g.promise.cutoffAt < h.promise.cutoffAt
    ensures LatestGroup([g, h], 2) == 1
  {
    assert LatestGroup([g, h], 1) == 0;
  }

  /** Two lines that only meet in a late window: the single promise is that window, each line alone
      goes earlier, and the summary date is earlier than the single promise. */
  lemma SummaryCanBeEarlier()
    ensures PromiseOf(THREE_WINDOWS, 0, SPLIT_ORDER) == Some(Promise("c3", 3, Capability))
    ensures PromiseGroupsOf(THREE_WINDOWS, 0, SPLIT_ORDER)
         == Some([PromiseGroup([1], Promise("c1", 1, Capability)), PromiseGroup([2], Promise("c2", 2, Capability))])
    ensures SummaryDate(THREE_WINDOWS, 0, SPLIT_ORDER) == Some(2)
  {
    var k, l := Keyed(1, Key(Promise("c1", 1, Capability), 1)), Keyed(2, Key(Promise("c2", 2, Capability), 2));
    ThreePromises();
    BothLinesCount();
    TwoKeys(THREE_WINDOWS, SPLIT_ORDER, LINE_X, LINE_Y, k, l);
    TwoGroups(k, l);
    LaterOfTwo(PromiseGroup([1], k.key.promise), PromiseGroup([2], l.key.promise));
  }

  // ---------------------------------------------------------------- one window, two groups

  const ALSO_X := Line(2, "sku", 1, "x", false, Allocated, Some("r2"))
  const SAME_PATH := OrderState("o", [LINE_X, ALSO_X], true, None, None, None, [], false, None, 1)

  lemma BothAreCounted()
    ensures Promisable([LINE_X, ALSO_X]) == [LINE_X, ALSO_X]
  {
    OneCounts(LINE_X);
    assert [LINE_X, ALSO_X][..1] == [LINE_X];
  }

  lemma BothMakeTheFirstWindow()
    ensures PromiseForLines(THREE_WINDOWS, 0, SAME_PATH, [LINE_X]) == Some(Promise("c1", 1, Capability))
    ensures PromiseForLines(THREE_WINDOWS, 0, SAME_PATH, [ALSO_X]) == Some(Promise("c1", 1, Capability))
  {
    var ws := [EARLY, MIDDLE, LATE];
    WhichLinesFit();
    assert LineFits(THREE_WINDOWS, 0, ALSO_X, EARLY);
    assert [ALSO_X][0] == ALSO_X && ws[0] == EARLY;
    assert FirstFit(THREE_WINDOWS, 0, [LINE_X], ws, 0) == 0 && FirstFit(THREE_WINDOWS, 0, [ALSO_X], ws, 0) == 0;
  }

  /** Two lines of one path that make the same window, whose searches got two zone objects: they get equal promises
      and still stand in two groups. */
  lemma EqualPromisesCanSplit()
    ensures PromiseGroupsOf(THREE_WINDOWS, 0, SAME_PATH)
         == Some([PromiseGroup([1], Promise("c1", 1, Capability)), PromiseGroup([2], Promise("c1", 1, Capability))])
  {
    var promise := Promise("c1", 1, Capability);
    var k, l := Keyed(1, Key(promise, 1)), Keyed(2, Key(promise, 2));
    BothAreCounted();
    BothMakeTheFirstWindow();
    TwoKeys(THREE_WINDOWS, SAME_PATH, LINE_X, ALSO_X, k, l);
    TwoGroups(k, l);
  }
}
