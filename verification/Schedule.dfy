/** The CPT schedule: the next concrete occurrences of recurring cutoffs, in a zone with a fixed offset. */
module Schedule {
  import opened Wrappers
  import opened Orders
  import opened PromisePolicies
  import T = PromiseTheorems

  const MINUTE: Duration := 60_000_000_000
  const DAY: Duration := 24 * HOUR
  const SEARCH_HORIZON_DAYS := 14

  /** `minuteOfDay` is the parsed local time, `None` when the text does not parse. */
  datatype Cutoff = Cutoff(cptId: string, minuteOfDay: Option<int>, daysOfWeek: seq<string>, eligiblePathIds: seq<PathId>)

  /** `zone` is the offset of local time from UTC, `None` when the zone does not load. */
  datatype Timetable = Timetable(zone: Option<Duration>, cutoffs: seq<Cutoff>)

  datatype ScheduleError = BadZone | BadLocalTime(cptId: string)

  const WEEKDAYS := ["Sun", "Mon", "Tue", "Wed", "Thu", "Fri", "Sat"]

  /** Days count from the epoch, which was a Thursday. */
  function Weekday(day: int): string {
    WEEKDAYS[(day + 4) % 7]
  }

  /** An empty list of days means every day. */
  predicate RunsOn(c: Cutoff, day: int) {
    c.daysOfWeek == [] || Weekday(day) in c.daysOfWeek
  }

  function Today(zone: Duration, from: Instant): int {
    (from + zone) / DAY
  }

  /** One occurrence: which cutoff, on which local day. */
  datatype Occurrence = Occurrence(cutoff: nat, day: int)

  /** The cutoff exists and has a time to occur at. */
  predicate Timed(p: Timetable, c: nat) {
    p.zone.Some? && c < |p.cutoffs| && p.cutoffs[c].minuteOfDay.Some?
  }

  function At(p: Timetable, o: Occurrence): Instant
    requires Timed(p, o.cutoff)
  {
    o.day * DAY + p.cutoffs[o.cutoff].minuteOfDay.value * MINUTE - p.zone.value
  }

  function WindowOf(p: Timetable, o: Occurrence): CPTWindow
    requires Timed(p, o.cutoff)
  {
    CPTWindow(p.cutoffs[o.cutoff].cptId, At(p, o), p.cutoffs[o.cutoff].eligiblePathIds)
  }

  predicate WellFormed(p: Timetable) {
    p.zone.Some? && forall i :: 0 <= i < |p.cutoffs| ==> p.cutoffs[i].minuteOfDay.Some?
  }

  /** A parsed local time lies within the day. */
  predicate LocalTimesOk(p: Timetable) {
    forall i :: 0 <= i < |p.cutoffs| && p.cutoffs[i].minuteOfDay.Some? ==> 0 <= p.cutoffs[i].minuteOfDay.value < 24 * 60
  }

  /** Any occurrence strictly after `from`, on any day at all. */
  predicate Occurs(p: Timetable, from: Instant, o: Occurrence) {
    Timed(p, o.cutoff) && RunsOn(p.cutoffs[o.cutoff], o.day) && At(p, o) > from
  }

  predicate InHorizon(p: Timetable, from: Instant, o: Occurrence)
    requires p.zone.Some?
  {
    Today(p.zone.value, from) <= o.day <= Today(p.zone.value, from) + SEARCH_HORIZON_DAYS
  }

  /** An occurrence that the search looks at. */
  predicate Searched(p: Timetable, from: Instant, o: Occurrence) {
    Occurs(p, from, o) && InHorizon(p, from, o)
  }

  ghost predicate Distinct(os: seq<Occurrence>) {
    forall o :: multiset(os)[o] <= 1
  }

  predicate AllTimed(p: Timetable, os: seq<Occurrence>) {
    forall i :: 0 <= i < |os| ==> Timed(p, os[i].cutoff)
  }

  predicate AscendingAt(p: Timetable, os: seq<Occurrence>)
    requires AllTimed(p, os)
  {
    forall i, j :: 0 <= i < j < |os| ==> At(p, os[i]) <= At(p, os[j])
  }

  predicate Wanted(p: Timetable, from: Instant, searchedOnly: bool, o: Occurrence) {
    Occurs(p, from, o) && (searchedOnly ==> InHorizon(p, from, o))
  }

  /** `os` are the `n` earliest future occurrences (of the days searched, or of all days), in
      ascending order; all of them if there are fewer. */
  ghost predicate Earliest(p: Timetable, from: Instant, searchedOnly: bool, n: nat, os: seq<Occurrence>) {
    && |os| <= n && AllTimed(p, os) && Distinct(os) && AscendingAt(p, os)
    && (forall o :: o in os ==> Wanted(p, from, searchedOnly, o))
    && (forall o :: Wanted(p, from, searchedOnly, o) && o !in os ==> NoneLater(p, n, os, o))
  }

  /** There was no room for `o`, and nothing in `os` is later. */
  predicate NoneLater(p: Timetable, n: nat, os: seq<Occurrence>, o: Occurrence)
    requires AllTimed(p, os) && Timed(p, o.cutoff)
  {
    |os| == n && forall i :: 0 <= i < |os| ==> At(p, os[i]) <= At(p, o)
  }

  // ---------------------------------------------------------------- the search

  method CollectCutoff(p: Timetable, from: Instant, c: nat) returns (os: seq<Occurrence>)
    requires Timed(p, c)
    ensures Distinct(os)
    ensures forall o :: o in os <==> o.cutoff == c && Searched(p, from, o)
  {
    os := [];
    var today := Today(p.zone.value, from);
    for offset := 0 to SEARCH_HORIZON_DAYS + 1
      invariant Distinct(os)
      invariant forall o :: o in os <==> o.cutoff == c && Occurs(p, from, o) && today <= o.day < today + offset
    {
      var o := Occurrence(c, today + offset);
      if p.cutoffs[c].daysOfWeek != [] && Weekday(o.day) !in p.cutoffs[c].daysOfWeek { continue; }
      if At(p, o) <= from { continue; }
      assert o !in os;
      os := os + [o];
    }
  }

  method Collect(p: Timetable, from: Instant) returns (r: Result<seq<Occurrence>, ScheduleError>)
    requires p.zone.Some?
    ensures r.Ok? <==> WellFormed(p)
    ensures r.Ok? ==> Distinct(r.value)
    ensures r.Ok? ==> forall o :: o in r.value <==> Searched(p, from, o)
  {
    var all: seq<Occurrence> := [];
    for c := 0 to |p.cutoffs|
      invariant forall i :: 0 <= i < c ==> p.cutoffs[i].minuteOfDay.Some?
      invariant Distinct(all)
      invariant forall o :: o in all <==> o.cutoff < c && Searched(p, from, o)
    {
      if p.cutoffs[c].minuteOfDay.None? { return Err(BadLocalTime(p.cutoffs[c].cptId)); }
      var os := CollectCutoff(p, from, c);
      forall o ensures multiset(all + os)[o] <= 1 {
        assert o in all ==> o !in os;
      }
      all := all + os;
    }
    return Ok(all);
  }

  /** Puts one occurrence in its place in an ascending sequence. */
  method InsertSorted(p: Timetable, os: seq<Occurrence>, o: Occurrence) returns (r: seq<Occurrence>)
    requires AllTimed(p, os) && Timed(p, o.cutoff) && AscendingAt(p, os)
    ensures AllTimed(p, r) && AscendingAt(p, r) && multiset(r) == multiset(os) + multiset{o}
  {
    var i := 0;
    while i < |os| && At(p, os[i]) <= At(p, o)
      invariant i <= |os|
      invariant forall j :: 0 <= j < i ==> At(p, os[j]) <= At(p, o)
    {
      i := i + 1;
    }
    r := os[..i] + [o] + os[i..];
    InsertedAscends(p, os, o, i);
    assert os == os[..i] + os[i..];
  }

  lemma InsertedAscends(p: Timetable, os: seq<Occurrence>, o: Occurrence, i: nat)
    requires AllTimed(p, os) && Timed(p, o.cutoff) && AscendingAt(p, os) && i <= |os|
    requires forall j :: 0 <= j < i ==> At(p, os[j]) <= At(p, o)
    requires i < |os| ==> At(p, o) <= At(p, os[i])
    ensures AllTimed(p, os[..i] + [o] + os[i..]) && AscendingAt(p, os[..i] + [o] + os[i..])
  {
    var r := os[..i] + [o] + os[i..];
    forall j | 0 <= j < |r| ensures r[j] == if j < i then os[j] else if j == i then o else os[j - 1] {
    }
  }

  /** Ascending by instant; which of two simultaneous occurrences comes first is not promised. */
  method SortByInstant(p: Timetable, os: seq<Occurrence>) returns (r: seq<Occurrence>)
    requires AllTimed(p, os)
    ensures AllTimed(p, r) && AscendingAt(p, r) && multiset(r) == multiset(os)
  {
    r := [];
    for i := 0 to |os|
      invariant AllTimed(p, r) && AscendingAt(p, r) && multiset(r) == multiset(os[..i])
    {
      assert os[..i + 1] == os[..i] + [os[i]];
      r := InsertSorted(p, r, os[i]);
    }
    assert os[..|os|] == os;
  }

  lemma SameMembers(xs: seq<Occurrence>, ys: seq<Occurrence>)
    requires multiset(xs) == multiset(ys)
    ensures forall o :: o in xs <==> o in ys
  {
    forall o ensures o in xs <==> o in ys {
      assert o in multiset(xs) <==> o in multiset(ys);
    }
  }

  lemma PrefixIsDistinct(sorted: seq<Occurrence>, n: nat)
    requires Distinct(sorted) && n <= |sorted|
    ensures Distinct(sorted[..n])
  {
    assert sorted == sorted[..n] + sorted[n..];
    forall o ensures multiset(sorted[..n])[o] <= 1 {
      assert multiset(sorted)[o] == multiset(sorted[..n])[o] + multiset(sorted[n..])[o];
    }
  }

  lemma RestIsLater(p: Timetable, sorted: seq<Occurrence>, n: nat, o: Occurrence)
    requires AllTimed(p, sorted) && AscendingAt(p, sorted) && n <= |sorted| && o in sorted && o !in sorted[..n]
    ensures NoneLater(p, n, sorted[..n], o)
  {
    assert o in sorted[..n] + sorted[n..] by { assert sorted == sorted[..n] + sorted[n..]; }
    var j :| n <= j < |sorted| && sorted[j] == o;
  }

  lemma TruncatedIsEarliest(p: Timetable, from: Instant, n: nat, all: seq<Occurrence>, sorted: seq<Occurrence>)
    requires Distinct(all) && p.zone.Some? && forall o :: o in all <==> Searched(p, from, o)
    requires AllTimed(p, sorted) && AscendingAt(p, sorted) && multiset(sorted) == multiset(all)
    ensures Earliest(p, from, true, n, if |sorted| > n then sorted[..n] else sorted)
  {
    SameMembers(sorted, all);
    assert Distinct(sorted);
    forall o ensures o in sorted <==> Wanted(p, from, true, o) {
      assert Wanted(p, from, true, o) <==> Searched(p, from, o);
    }
    if |sorted| > n {
      PrefixIsDistinct(sorted, n);
      forall o | Wanted(p, from, true, o) && o !in sorted[..n] ensures NoneLater(p, n, sorted[..n], o) {
        RestIsLater(p, sorted, n, o);
      }
    }
  }

  method Windows(p: Timetable, os: seq<Occurrence>) returns (out: seq<CPTWindow>)
    requires AllTimed(p, os) && AscendingAt(p, os)
    ensures |out| == |os| && forall i :: 0 <= i < |os| ==> out[i] == WindowOf(p, os[i])
    ensures T.Ascending(out)
  {
    out := [];
    for i := 0 to |os|
      invariant |out| == i && forall j :: 0 <= j < i ==> out[j] == WindowOf(p, os[j])
    {
      out := out + [WindowOf(p, os[i])];
    }
  }

  /** The next `n` cutoffs; no window at all for a non-positive `n`, and an error for a zone or a
      local time that does not parse. */
  method ComputeNextCutoffs(p: Timetable, from: Instant, n: int)
    returns (r: Result<seq<CPTWindow>, ScheduleError>, ghost chosen: seq<Occurrence>)
    ensures n <= 0 ==> r == Ok([])
    ensures n > 0 ==> (r.Ok? <==> WellFormed(p))
    ensures n > 0 && r.Ok? ==>
              && Earliest(p, from, true, n, chosen)
              && |r.value| == |chosen|
              && forall i :: 0 <= i < |chosen| ==>
                   && r.value[i].cptId == p.cutoffs[chosen[i].cutoff].cptId && r.value[i].cutoffAt == At(p, chosen[i])
                   && r.value[i].eligiblePathIds == p.cutoffs[chosen[i].cutoff].eligiblePathIds
    ensures r.Ok? ==> T.Ascending(r.value)
  {
    chosen := [];
    if n <= 0 { return Ok([]), []; }
    if p.zone.None? { return Err(BadZone), []; }
    var collected := Collect(p, from);
    if collected.Err? { return Err(collected.error), []; }
    assert forall i :: 0 <= i < |collected.value| ==> Searched(p, from, collected.value[i]);
    var sorted := SortByInstant(p, collected.value);
    TruncatedIsEarliest(p, from, n, collected.value, sorted);
    var os := if |sorted| > n then sorted[..n] else sorted;
    var out := Windows(p, os);
    return Ok(out), os;
  }

  // ---------------------------------------------------------------- what the horizon does not hide

  /** An earlier day is over by `from`. */
  lemma EarlierDayIsOver(p: Timetable, from: Instant, o: Occurrence)
    requires LocalTimesOk(p) && Timed(p, o.cutoff)
    ensures o.day < Today(p.zone.value, from) ==> At(p, o) <= from
  {
    assert from + p.zone.value >= Today(p.zone.value, from) * DAY;
  }

  /** Nothing the search does not look at is earlier than anything it does. */
  lemma BeyondHorizonIsLater(p: Timetable, from: Instant, o: Occurrence, i: Occurrence)
    requires LocalTimesOk(p) && Occurs(p, from, o) && !InHorizon(p, from, o) && Searched(p, from, i)
    ensures At(p, i) < At(p, o)
  {
    EarlierDayIsOver(p, from, o);
  }

  /** When the search returns all `n` windows, they are the `n` earliest occurrences over all future
      days, not only over the days it searched. */
  lemma NEarliestOverAllDays(p: Timetable, from: Instant, n: nat, os: seq<Occurrence>)
    requires LocalTimesOk(p) && Earliest(p, from, true, n, os) && |os| == n
    ensures Earliest(p, from, false, n, os)
  {
    forall o | Wanted(p, from, false, o) && o !in os ensures NoneLater(p, n, os, o) {
      if InHorizon(p, from, o) {
        assert Wanted(p, from, true, o);
      } else {
        forall i | 0 <= i < |os| ensures At(p, os[i]) <= At(p, o) {
          assert os[i] in os && Wanted(p, from, true, os[i]);
          BeyondHorizonIsLater(p, from, o, os[i]);
        }
      }
    }
    forall o | o in os ensures Wanted(p, from, false, o) {
      assert Wanted(p, from, true, o);
    }
  }

  /** When it returns fewer, they are exactly the occurrences of today and the fourteen days after. */
  lemma FewerMeansAll(p: Timetable, from: Instant, n: nat, os: seq<Occurrence>, o: Occurrence)
    requires Earliest(p, from, true, n, os) && |os| < n
    ensures o in os <==> Wanted(p, from, true, o)
  {
  }

  // ---------------------------------------------------------------- occurrences as instants

  /** The epoch was a Thursday, and the week goes round from there. */
  lemma WeekGoesRound(week: int)
    ensures Weekday(7 * week) == "Thu" && Weekday(7 * week + 1) == "Fri" && Weekday(7 * week + 2) == "Sat"
    ensures Weekday(7 * week + 3) == "Sun" && Weekday(7 * week + 4) == "Mon" && Weekday(7 * week + 5) == "Tue"
    ensures Weekday(7 * week + 6) == "Wed"
  {
  }

  /** The midnight that the local day of `t` starts with, as an instant. */
  ghost predicate IsLocalMidnight(zone: Duration, t: Instant, midnight: Instant) {
    midnight <= t < midnight + DAY && exists day: int :: midnight + zone == Days(day)
  }

  function Days(n: int): Duration {
    n * DAY
  }

  lemma DayOfInstant(x: int, day: int, offset: int)
    requires x == day * DAY + offset && 0 <= offset < DAY
    ensures x / DAY == day && x % DAY == offset
  {
  }

  /** The instants at which a cutoff occurs after `from`: those whose local time of day is the cutoff's, on a
      day it runs on. */
  lemma OccursAtIff(p: Timetable, from: Instant, c: nat, t: Instant)
    requires LocalTimesOk(p) && Timed(p, c)
    ensures
      (exists o :: Occurs(p, from, o) && o.cutoff == c && At(p, o) == t) <==>
        && t > from
        && (t + p.zone.value) % DAY == p.cutoffs[c].minuteOfDay.value * MINUTE
        && (p.cutoffs[c].daysOfWeek == [] || Weekday((t + p.zone.value) / DAY) in p.cutoffs[c].daysOfWeek)
  {
    var x := t + p.zone.value;
    var minute := p.cutoffs[c].minuteOfDay.value;
    if exists o :: Occurs(p, from, o) && o.cutoff == c && At(p, o) == t {
      var o :| Occurs(p, from, o) && o.cutoff == c && At(p, o) == t;
      DayOfInstant(x, o.day, minute * MINUTE);
    }
    if t > from && x % DAY == minute * MINUTE && RunsOn(p.cutoffs[c], x / DAY) {
      var o := Occurrence(c, x / DAY);
      assert At(p, o) == t;
      assert Occurs(p, from, o);
    }
  }

  /** The search looks fourteen days past today: up to, and not including, the fifteenth local midnight
      after the one that today started with. */
  lemma SearchedUntil(p: Timetable, from: Instant, o: Occurrence, midnight: Instant)
    requires LocalTimesOk(p) && Occurs(p, from, o) && IsLocalMidnight(p.zone.value, from, midnight)
    ensures Searched(p, from, o) <==> At(p, o) < midnight + 15 * DAY
  {
    var zone := p.zone.value;
    var day: int :| midnight + zone == Days(day);
    DayOfInstant(from + zone, day, from - midnight);
    EarlierDayIsOver(p, from, o);
  }
}
