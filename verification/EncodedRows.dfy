/** What a request under an idempotency key leaves in the outbox, encoder by encoder. A publish asks the
    encoders in turn and inserts each row at once, so that one which fails at the second encoder leaves
    the row of the first, and the key's transaction commits it. Only the integration stream names the
    released lines. */
module EncodedRows {
  import opened Wrappers
  import opened Orders
  import opened Allocation
  import opened AllocationTheorems
  import opened PassTheorems
  import opened UseCases
  import opened UseCaseTheorems
  import opened IntakePass
  import P = PassOutcome
  import opened JoinedReceive

  datatype Stream = Integration | Analytics

  datatype OutboxRow = OutboxRow(stream: Stream, event: Event)

  /** Whether an encoder encodes an event that is published after that many writes. */
  type Encoders = (Stream, nat, Event) -> bool

  /** Events outside the contract of a stream have no message on it. */
  predicate HasMessage(st: Stream, e: Event) {
    st.Analytics? || e.OrderAllocated? || e.OrderPartiallyAllocated? || e.OrderRepromised?
  }

  const WIRED: seq<Stream> := [Integration, Analytics]

  predicate Encodes(encoders: Encoders, st: Stream, k: nat, e: Event) {
    HasMessage(st, e) ==> encoders(st, k, e)
  }

  predicate Published(encoders: Encoders, k: nat, e: Event) {
    Encodes(encoders, Integration, k, e) && Encodes(encoders, Analytics, k, e)
  }

  function RowIf(st: Stream, e: Event): seq<OutboxRow> {
    if HasMessage(st, e) then [OutboxRow(st, e)] else []
  }

  /** The rows that a publish leaves, whether it fails or not. */
  function Left(encoders: Encoders, k: nat, e: Event): seq<OutboxRow> {
    if !Encodes(encoders, Integration, k, e) then []
    else if !Encodes(encoders, Analytics, k, e) then RowIf(Integration, e)
    else RowIf(Integration, e) + RowIf(Analytics, e)
  }

  method Publish(encoders: Encoders, k: nat, e: Event) returns (rows: seq<OutboxRow>, ok: bool)
    ensures rows == Left(encoders, k, e)
    ensures ok <==> Published(encoders, k, e)
    ensures OutboxRow(Integration, e) in rows <==>
              (e.OrderAllocated? || e.OrderPartiallyAllocated? || e.OrderRepromised?) && encoders(Integration, k, e)
    ensures OutboxRow(Analytics, e) in rows <==> ok
  {
    rows := [];
    assert WIRED[0] == Integration && WIRED[1] == Analytics;
    for i := 0 to |WIRED|
      invariant forall j :: 0 <= j < i ==> Encodes(encoders, WIRED[j], k, e)
      invariant rows == (if i > 0 then RowIf(Integration, e) else []) + (if i > 1 then RowIf(Analytics, e) else [])
    {
      var st := WIRED[i];
      if !HasMessage(st, e) { continue; }
      if !encoders(st, k, e) {
        assert RowIf(Integration, e) + [] == RowIf(Integration, e);
        assert i == 0 || i == 1;
        return rows, false;
      }
      rows := rows + [OutboxRow(st, e)];
    }
    return rows, true;
  }

  /** An event with a message on one stream leaves nothing when it fails. */
  lemma OneMessageLeavesNothing(encoders: Encoders, k: nat, e: Event)
    requires !Published(encoders, k, e) && !HasMessage(Integration, e)
    ensures Left(encoders, k, e) == []
  {
  }

  // ---------------------------------------------------------------- the rows of a request

  function Encoded(env: Env, encoders: Encoders): Env {
    env.(publishes := (k: nat, e: Event) => Published(encoders, k, e))
  }

  /** The rows of the publishes that succeeded. */
  function RowsOf(effects: seq<Effect>): seq<OutboxRow> {
    if effects == [] then []
    else
      var n := |effects| - 1;
      RowsOf(effects[..n])
      + (if effects[n].Emit? then RowIf(Integration, effects[n].event) + RowIf(Analytics, effects[n].event) else [])
  }

  /** What failed publishes leave. The receipt, the events of lines and that of a partial failure have no
      message on the integration stream, so that only the order-level event can leave a row. */
  function LeftOver(s: OrderState, intake: Env, env: Env, encoders: Encoders): seq<OutboxRow> {
    var e := OrderLevelEvent(s, env);
    if IntakeEndsWell(s, intake) && Through(s, env, |s.lines|) && e.Some? && !Published(encoders, |s.lines| + 1, e.value)
    then Left(encoders, |s.lines| + 1, e.value)
    else []
  }

  function RequestRows(s: OrderState, intake: Env, env: Env, encoders: Encoders): seq<OutboxRow> {
    var i, p := Encoded(intake, encoders), Encoded(env, encoders);
    RowsOf(KeyedPlan(s, i, p).effects) + LeftOver(s, i, p, encoders)
  }

  function AnnouncedBy(row: OutboxRow): seq<int> {
    if row.stream.Integration? then Announces(row.event) else []
  }

  /** The line numbers that the messages of the integration stream announce as released. */
  function Announced(rows: seq<OutboxRow>): seq<int> {
    Flat(AnnouncedBy, rows)
  }

  lemma OneRow(st: Stream, e: Event)
    ensures Announced(RowIf(st, e)) == if st.Integration? then Announces(e) else []
  {
    assert [OutboxRow(st, e)][..0] == [];
    assert Flat(AnnouncedBy, [OutboxRow(st, e)][..0]) == [];
  }

  /** What succeeded publishes announce on the integration stream is what their events announce. */
  lemma {:induction false} RowsAnnounce(effects: seq<Effect>)
    ensures Announced(RowsOf(effects)) == ReleasedBy(effects)
  {
    if effects != [] {
      var n := |effects| - 1;
      RowsAnnounce(effects[..n]);
      if effects[n].Emit? {
        var e := effects[n].event;
        OneRow(Integration, e);
        OneRow(Analytics, e);
        FlatInSequence(AnnouncedBy, RowIf(Integration, e), RowIf(Analytics, e));
        FlatInSequence(AnnouncedBy, RowsOf(effects[..n]), RowIf(Integration, e) + RowIf(Analytics, e));
      } else {
        assert RowsOf(effects[..n]) + [] == RowsOf(effects[..n]);
      }
    }
  }

  lemma RefusedEventAnnounces(encoders: Encoders, k: nat, e: Event)
    requires !Published(encoders, k, e)
    ensures Announced(Left(encoders, k, e)) == if Encodes(encoders, Integration, k, e) then Announces(e) else []
  {
    OneRow(Integration, e);
  }

  // ---------------------------------------------------------------- the order-level event

  lemma EndingReports(s: OrderState, env: Env) returns (end: P.Ending)
    requires AcceptedIntake(s) && Through(s, env, |s.lines|)
    ensures end == EndingOf(s, env) && |end.order.lines| == |s.lines|
    ensures ReleasedNos(end.released) == NewlyReleased(s.lines, end.order.lines)
    ensures end.released == [] || AnyLine(end.order.lines, Released)
  {
    end := EndingOf(s, env);
    var t := SetPromiseDate(Settled(s, env), env);
    PromisingKeepsLines(Settled(s, env), env);
    SettledStatuses(s, env, t.lines);
    ReleasedReports(s, t);
    if s.held {
      NoneReleased(s.lines, t.lines);
    }
  }

  /** The order-level event of a pass that goes through announces exactly what the pass releases. */
  lemma OrderLevelAnnounces(s: OrderState, env: Env) returns (end: P.Ending)
    requires AcceptedIntake(s) && Through(s, env, |s.lines|)
    ensures end == EndingOf(s, env) && |end.order.lines| == |s.lines|
    ensures EventAt(end).Some? ==> Announces(EventAt(end).value) == NewlyReleased(s.lines, end.order.lines)
  {
    end := EndingReports(s, env);
    EventTells(end);
  }

  lemma EventTells(end: P.Ending)
    requires end.released == [] || AnyLine(end.order.lines, Released)
    ensures EventAt(end).Some? ==> Announces(EventAt(end).value) == ReleasedNos(end.released)
  {
    ReleaseIsAnnounced(Bumped(end.order), end.nAllocated, end.nBackordered, end.released);
  }

  lemma ReleasedReports(s: OrderState, t: OrderState)
    requires AcceptedIntake(s) && WellNumbered(t.lines) && |t.lines| == |s.lines|
    requires forall i :: 0 <= i < |t.lines| ==> t.lines[i].status in {Allocated, Backordered}
    ensures
      var r := ReleaseAllocatedLines(t);
      && |r.order.lines| == |s.lines| && ReleasedNos(r.released) == NewlyReleased(s.lines, r.order.lines)
      && (r.released == [] || AnyLine(r.order.lines, Released))
  {
    ReleaseIsAllOrNothing(t);
    var r := ReleaseAllocatedLines(t);
    if Releasable(t) {
      ReleasedAreTheAllocated(s.lines, t.lines, r.order.lines);
      if r.released != [] {
        var w := WithStatusLists(t.lines, Allocated);
        assert |ReleasedNos(r.released)| == |LineNos(w)|;
        assert r.order.lines[w[0].lineNo - 1].status == Released;
      }
    } else {
      NoneReleased(s.lines, t.lines);
    }
  }

  // ---------------------------------------------------------------- what the stream is told

  /** The request releases lines, and the integration encoder refuses the event that tells of them. */
  ghost predicate IntegrationSilenced(s: OrderState, intake: Env, env: Env, encoders: Encoders) {
    && IntakeEndsWell(s, intake) && Releases(s, env)
    && (OrderLevelEvent(s, env).Some? ==> !Encodes(encoders, Integration, |s.lines| + 1, OrderLevelEvent(s, env).value))
  }

  lemma ThroughStores(s: OrderState, intake: Env, env: Env) returns (o: Outcome)
    requires AcceptedIntake(s) && IntakeEndsWell(s, intake) && Through(s, env, |s.lines|)
    ensures o == KeyedPass(s, env) && ReleasedBy(KeyedPlan(s, intake, env).effects) == ReleasedBy(o.effects)
    ensures FinalOrder(s, intake, env) == Some(Bumped(EndingOf(s, env).order))
    ensures OrderLevelEvent(s, env).Some? && !env.publishes(|s.lines| + 1, OrderLevelEvent(s, env).value) ==> o.verdict == Rollback
  {
    o := JoinedStores(s, intake, env);
    SavesDoNotMatter(s, env);
    var q, end := ThroughPassEnds(s, Unbroken(env));
  }

  /** The integration stream is told exactly of the lines that the committed order has released, unless
      the integration encoder refuses the event that tells of them. A refusal by the analytics encoder,
      though it fails the publish, leaves the integration row to be committed. */
  lemma IntegrationIsToldIff(s: OrderState, intake: Env, env: Env, encoders: Encoders)
    requires AcceptedIntake(s)
    ensures
      var i, p := Encoded(intake, encoders), Encoded(env, encoders);
      var stored := FinalOrder(s, i, p);
      && stored.Some? && |stored.value.lines| == |s.lines|
      && (Announced(RequestRows(s, intake, env, encoders)) == NewlyReleased(s.lines, stored.value.lines)
          <==> !IntegrationSilenced(s, i, p, encoders))
  {
    var i, p := Encoded(intake, encoders), Encoded(env, encoders);
    var effects := KeyedPlan(s, i, p).effects;
    var e := OrderLevelEvent(s, p);
    JoinedAnnouncesReleasesIff(s, i, p);
    RowsAnnounce(effects);
    FlatInSequence(AnnouncedBy, RowsOf(effects), LeftOver(s, i, p, encoders));
    if IntakeEndsWell(s, i) && Through(s, p, |s.lines|) && e.Some? && !Published(encoders, |s.lines| + 1, e.value) {
      RefusedLast(s, i, p, encoders);
    } else if Releases(s, p) {
      ReleasedIsTold(s, p);
    }
  }

  lemma RefusedLast(s: OrderState, i: Env, p: Env, encoders: Encoders)
    requires AcceptedIntake(s) && forall k, e :: p.publishes(k, e) <==> Published(encoders, k, e)
    requires IntakeEndsWell(s, i) && Through(s, p, |s.lines|)
    requires OrderLevelEvent(s, p).Some? && !Published(encoders, |s.lines| + 1, OrderLevelEvent(s, p).value)
    ensures ReleasedBy(KeyedPlan(s, i, p).effects) == []
    ensures
      var stored, e := FinalOrder(s, i, p), OrderLevelEvent(s, p).value;
      && stored.Some? && |stored.value.lines| == |s.lines|
      && Announced(LeftOver(s, i, p, encoders))
         == (if Encodes(encoders, Integration, |s.lines| + 1, e) then NewlyReleased(s.lines, stored.value.lines) else [])
      && (NewlyReleased(s.lines, stored.value.lines) == [] <==> !Releases(s, p))
  {
    var o := ThroughStores(s, i, p);
    RolledBackSaysNothing(s, s.lines, false, !s.held, Unbroken(p));
    var end := OrderLevelAnnounces(s, p);
    RefusedEventAnnounces(encoders, |s.lines| + 1, OrderLevelEvent(s, p).value);
    ReleasedOfReleases(s, p);
    ReleasedMeansSome(s.lines, end.order.lines);
  }

  lemma ReleasedMeansSome(ls: seq<Line>, ks: seq<Line>)
    requires |ls| == |ks| && !AnyLine(ls, Released)
    ensures NewlyReleased(ls, ks) == [] <==> !AnyLine(ks, Released)
  {
    if AnyLine(ks, Released) {
      var i :| 0 <= i < |ks| && ks[i].status == Released;
      SomeReleased(ls, ks, i);
    } else {
      NoneReleased(ls, ks);
    }
  }

  /** A silenced request says nothing at all about the lines it has released. */
  lemma SilencedSaysNothing(s: OrderState, intake: Env, env: Env, encoders: Encoders) returns (stored: OrderState)
    requires AcceptedIntake(s)
    requires IntegrationSilenced(s, Encoded(intake, encoders), Encoded(env, encoders), encoders)
    ensures FinalOrder(s, Encoded(intake, encoders), Encoded(env, encoders)) == Some(stored)
    ensures AnyLine(stored.lines, Released) && Announced(RequestRows(s, intake, env, encoders)) == []
  {
    var i, p := Encoded(intake, encoders), Encoded(env, encoders);
    ReleasedIsTold(s, p);
    RefusedLast(s, i, p, encoders);
    stored := FinalOrder(s, i, p).value;
    ReleasedMeansSome(s.lines, stored.lines);
    var effects := KeyedPlan(s, i, p).effects;
    RowsAnnounce(effects);
    FlatInSequence(AnnouncedBy, RowsOf(effects), LeftOver(s, i, p, encoders));
  }

  // ---------------------------------------------------------------- a silent release

  const REQUESTED := Line(1, "sku", 1, "x", false, Pending, None)
  const ONE_LINE := OrderState("o", [REQUESTED], false, None, None, None, [], false, None, 1)

  /** The integration encoder refuses order-level events; nothing else fails. */
  function Refusing(): Encoders {
    (st: Stream, k: nat, e: Event) => !(st.Integration? && e.OrderAllocated?)
  }

  lemma OneLineIsAccepted()
    ensures AcceptedIntake(ONE_LINE)
  {
    assert ONE_LINE.lines[0] == REQUESTED;
    assert [REQUESTED][..0] == [];
    PendingIsFresh(ONE_LINE);
  }

  lemma OneLineReleases(env: Env)
    requires env.reserve(1).Granted? && forall k: nat, e: Event :: LineEvent(e) ==> env.publishes(k, e)
    ensures Releases(ONE_LINE, env)
    ensures OrderLevelEvent(ONE_LINE, env).Some? && OrderLevelEvent(ONE_LINE, env).value.OrderAllocated?
  {
    OneLineIsAccepted();
    assert ONE_LINE.lines[0].lineNo == 1;
    assert LineGoesThrough(ONE_LINE, env, 0);
    assert SomeGranted(ONE_LINE, env);
    ReleasedOfReleases(ONE_LINE, env);
    ReleasedIsTold(ONE_LINE, env);
    AllReleasedIsAllocated(EndingOf(ONE_LINE, env));
  }

  lemma AllReleasedIsAllocated(end: P.Ending)
    requires |end.order.lines| == 1 && AnyLine(end.order.lines, Released) && EventAt(end).Some?
    ensures EventAt(end).value.OrderAllocated?
  {
    assert AllLines(end.order.lines, Released);
  }

  /** One line, granted and saved, whose order-level event the integration encoder refuses: the committed
      order has a released line, and no committed message of that stream names any. */
  lemma ReleaseCanBeSilent(intake: Env, env: Env) returns (stored: OrderState)
    requires env.reserve(1).Granted?
    ensures FinalOrder(ONE_LINE, Encoded(intake, Refusing()), Encoded(env, Refusing())) == Some(stored)
    ensures AnyLine(stored.lines, Released) && Announced(RequestRows(ONE_LINE, intake, env, Refusing())) == []
  {
    OneLineIsAccepted();
    OneLineReleases(Encoded(env, Refusing()));
    stored := SilencedSaysNothing(ONE_LINE, intake, env, Refusing());
  }
}
