/** The idempotency-key middleware as a protocol: any number of requests race on a unique insert, the
    wrapped handler writes in the same transaction, and the losers replay the stored response. */
module Idempotency {
  import opened Wrappers

  datatype Response = Response(status: int, headers: seq<(string, string)>, body: string)

  /** A committed row of the key table. */
  datatype KeyRow = KeyRow(hash: string, response: Option<Response>)

  datatype Reply =
    | KeyRequired
    | Answered(response: Response)
    | KeyReused
    | InternalError
    | Panicked
    | NoReply

  /** Where a request stands. From `Inserted` to `Updated` its transaction is open and holds the key;
      `writes` are the handler's, in that same transaction. */
  datatype Phase =
    | Arrived
    | Inserted
    | Handled(writes: seq<string>, response: Response)
    | Updated(writes: seq<string>, response: Response)
    | Committed(response: Response)
    | Reading
    | Finished(reply: Reply)

  datatype Request = Request(key: string, hash: string, phase: Phase)

  /** One handler execution whose writes were committed. */
  datatype Execution = Execution(request: nat, key: string, writes: seq<string>, response: Response)

  datatype State = State(rows: map<string, KeyRow>, requests: seq<Request>, executions: seq<Execution>)

  const EMPTY := State(map[], [], [])

  datatype Step =
    | Arrive(key: string, hash: string)
    | Insert(i: nat)
    | Handle(i: nat, writes: seq<string>, response: Response)
    | Panic(i: nat)
    | Update(i: nat)
    | Commit(i: nat)
    | CommitUnheard(i: nat)
    | Answer(i: nat)
    | Read(i: nat)
    | Fail(i: nat)
    | Crash(i: nat)

  predicate HoldsKey(r: Request, key: string) {
    r.key == key && (r.phase.Inserted? || r.phase.Handled? || r.phase.Updated?)
  }

  predicate Locked(s: State, key: string) {
    exists i :: 0 <= i < |s.requests| && HoldsKey(s.requests[i], key)
  }

  function Move(s: State, i: nat, phase: Phase): State
    requires i < |s.requests|
  {
    s.(requests := s.requests[i := s.requests[i].(phase := phase)])
  }

  /** The row and the handler's writes become visible together. */
  function CommitAs(s: State, i: nat, after: Phase): State
    requires i < |s.requests| && s.requests[i].phase.Updated?
  {
    var r := s.requests[i];
    Move(s, i, after).(rows := s.rows[r.key := KeyRow(r.hash, Some(r.phase.response))],
                       executions := s.executions + [Execution(i, r.key, r.phase.writes, r.phase.response)])
  }

  function ReadRow(s: State, r: Request): Reply {
    if r.key !in s.rows then InternalError
    else if s.rows[r.key].hash != r.hash then KeyReused
    else if s.rows[r.key].response.None? then InternalError
    else Answered(s.rows[r.key].response.value)
  }

  /** One step of a request; a step its phase does not allow changes nothing. An insert waits while
      another open transaction holds the key. Failing is the database refusing a statement or the
      commit: the transaction rolls back and nothing is kept. */
  function Advance(s: State, a: Step, i: nat): State
    requires i < |s.requests|
  {
    var r := s.requests[i];
    match r.phase
    case Arrived =>
      if a.Insert? && !Locked(s, r.key) then Move(s, i, if r.key in s.rows then Reading else Inserted) else Stop(s, a, i)
    case Inserted =>
      if a.Handle? then Move(s, i, Handled(a.writes, a.response))
      else if a.Panic? then Move(s, i, Finished(Panicked))
      else Stop(s, a, i)
    case Handled(writes, response) => if a.Update? then Move(s, i, Updated(writes, response)) else Stop(s, a, i)
    case Updated(_, response) =>
      if a.Commit? then CommitAs(s, i, Committed(response))
      // The commit took place but its confirmation was lost.
      else if a.CommitUnheard? then CommitAs(s, i, Finished(InternalError))
      else Stop(s, a, i)
    case Committed(response) =>
      if a.Answer? then Move(s, i, Finished(Answered(response)))
      else if a.Crash? then Move(s, i, Finished(NoReply))
      else s
    case Reading => if a.Read? then Move(s, i, Finished(ReadRow(s, r))) else Stop(s, a, i)
    case Finished(_) => s
  }

  function Stop(s: State, a: Step, i: nat): State
    requires i < |s.requests|
  {
    if a.Fail? then Move(s, i, Finished(InternalError)) else if a.Crash? then Move(s, i, Finished(NoReply)) else s
  }

  function Next(s: State, a: Step): State {
    match a
    case Arrive(key, hash) =>
      s.(requests := s.requests + [Request(key, hash, if key == "" then Finished(KeyRequired) else Arrived)])
    case _ => if a.i < |s.requests| then Advance(s, a, a.i) else s
  }

  function Run(steps: seq<Step>): State {
    if steps == [] then EMPTY else Next(Run(steps[..|steps| - 1]), steps[|steps| - 1])
  }

  // ---------------------------------------------------------------- the invariant

  ghost predicate Exclusive(s: State) {
    forall i, j, key | 0 <= i < |s.requests| && 0 <= j < |s.requests| ::
      HoldsKey(s.requests[i], key) && HoldsKey(s.requests[j], key) ==> i == j
  }

  /** Whoever holds a key, nothing is committed under it. */
  ghost predicate HeldKeysAreFree(s: State) {
    forall i, key :: 0 <= i < |s.requests| && HoldsKey(s.requests[i], key) ==> key !in s.rows
  }

  /** An execution and the row it committed. */
  ghost predicate Recorded(s: State, e: Execution) {
    && e.request < |s.requests| && s.requests[e.request].key == e.key
    && e.key in s.rows && s.rows[e.key] == KeyRow(s.requests[e.request].hash, Some(e.response))
  }

  /** A response given to a client is the committed one, for a request with the committed body. */
  ghost predicate RepliesMatch(s: State, r: Request) {
    && (r.phase.Committed? ==> r.key in s.rows && s.rows[r.key] == KeyRow(r.hash, Some(r.phase.response)))
    && (r.phase.Finished? && r.phase.reply.Answered? ==>
          r.key in s.rows && s.rows[r.key] == KeyRow(r.hash, Some(r.phase.reply.response)))
    && (r.phase.Finished? && r.phase.reply.KeyReused? ==> r.key in s.rows && s.rows[r.key].hash != r.hash)
  }

  ghost predicate KeysInv(s: State) {
    Exclusive(s) && HeldKeysAreFree(s)
  }

  ghost predicate ExecutionsInv(s: State) {
    && (forall k :: 0 <= k < |s.executions| ==> Recorded(s, s.executions[k]))
    && (forall j, k :: 0 <= j < k < |s.executions| ==> s.executions[j].key != s.executions[k].key)
    && (forall key :: key in s.rows ==> exists k :: 0 <= k < |s.executions| && s.executions[k].key == key)
  }

  ghost predicate RepliesInv(s: State) {
    forall i :: 0 <= i < |s.requests| ==> RepliesMatch(s, s.requests[i])
  }

  ghost predicate Inv(s: State) {
    KeysInv(s) && ExecutionsInv(s) && RepliesInv(s)
  }

  /** Requests may be added and may move on; their keys and bodies stay, and nothing else changes. */
  lemma ExecutionsStay(s: State, t: State)
    requires ExecutionsInv(s) && t.rows == s.rows && t.executions == s.executions && |s.requests| <= |t.requests|
    requires forall i :: 0 <= i < |s.requests| ==>
               t.requests[i].key == s.requests[i].key && t.requests[i].hash == s.requests[i].hash
    ensures ExecutionsInv(t)
  {
    forall k | 0 <= k < |t.executions| ensures Recorded(t, t.executions[k]) {
      assert Recorded(s, s.executions[k]);
    }
  }

  lemma MoveKeepsKeys(s: State, i: nat, phase: Phase)
    requires KeysInv(s) && i < |s.requests|
    requires
      var r := s.requests[i];
      HoldsKey(r.(phase := phase), r.key) ==> HoldsKey(r, r.key) || (!Locked(s, r.key) && r.key !in s.rows)
    ensures KeysInv(Move(s, i, phase))
  {
    var t := Move(s, i, phase);
    forall j, key | 0 <= j < |t.requests| && j != i && HoldsKey(t.requests[j], key) ensures !HoldsKey(t.requests[i], key) {
      assert HoldsKey(s.requests[j], key);
    }
  }

  lemma MoveKeeps(s: State, i: nat, phase: Phase)
    requires Inv(s) && i < |s.requests|
    requires RepliesMatch(s, s.requests[i].(phase := phase))
    requires
      var r := s.requests[i];
      HoldsKey(r.(phase := phase), r.key) ==> HoldsKey(r, r.key) || (!Locked(s, r.key) && r.key !in s.rows)
    ensures Inv(Move(s, i, phase))
  {
    MoveKeepsKeys(s, i, phase);
    ExecutionsStay(s, Move(s, i, phase));
  }

  lemma CommitKeepsExecutions(s: State, i: nat, after: Phase)
    requires ExecutionsInv(s) && i < |s.requests| && s.requests[i].phase.Updated? && s.requests[i].key !in s.rows
    ensures ExecutionsInv(CommitAs(s, i, after))
  {
    var t := CommitAs(s, i, after);
    var r := s.requests[i];
    forall k | 0 <= k < |t.executions| ensures Recorded(t, t.executions[k]) {
      assert k < |s.executions| ==> Recorded(s, s.executions[k]);
    }
    forall key | key in t.rows ensures exists k :: 0 <= k < |t.executions| && t.executions[k].key == key {
      if key == r.key {
        assert t.executions[|s.executions|].key == key;
      } else {
        var k :| 0 <= k < |s.executions| && s.executions[k].key == key;
        assert t.executions[k].key == key;
      }
    }
  }

  lemma CommitKeepsKeys(s: State, i: nat, after: Phase)
    requires KeysInv(s) && i < |s.requests| && s.requests[i].phase.Updated?
    requires after.Committed? || after.Finished?
    ensures KeysInv(CommitAs(s, i, after))
  {
    var t := CommitAs(s, i, after);
    var r := s.requests[i];
    assert HoldsKey(r, r.key);
    forall j, key | 0 <= j < |t.requests| && HoldsKey(t.requests[j], key)
      ensures j != i && HoldsKey(s.requests[j], key) && key != r.key
    {
    }
  }

  lemma CommitKeeps(s: State, i: nat, after: Phase)
    requires Inv(s) && i < |s.requests| && s.requests[i].phase.Updated?
    requires after == Committed(s.requests[i].phase.response) || after == Finished(InternalError)
    ensures Inv(CommitAs(s, i, after))
  {
    var t := CommitAs(s, i, after);
    var r := s.requests[i];
    assert HoldsKey(r, r.key);
    CommitKeepsKeys(s, i, after);
    CommitKeepsExecutions(s, i, after);
    forall j | 0 <= j < |t.requests| ensures RepliesMatch(t, t.requests[j]) {
      assert RepliesMatch(s, s.requests[j]);
    }
  }

  lemma ArriveKeeps(s: State, key: string, hash: string)
    requires Inv(s)
    ensures Inv(Next(s, Arrive(key, hash)))
  {
    var t := Next(s, Arrive(key, hash));
    forall j, k | 0 <= j < |t.requests| && HoldsKey(t.requests[j], k) ensures j < |s.requests| && HoldsKey(s.requests[j], k) {
    }
    ExecutionsStay(s, t);
    forall j | 0 <= j < |t.requests| ensures RepliesMatch(t, t.requests[j]) {
      assert j < |s.requests| ==> RepliesMatch(s, s.requests[j]);
    }
  }

  lemma AdvanceKeeps(s: State, a: Step, i: nat)
    requires Inv(s) && i < |s.requests|
    ensures Inv(Advance(s, a, i))
  {
    var r := s.requests[i];
    assert RepliesMatch(s, r);
    if r.phase.Updated? && a.Commit? {
      CommitKeeps(s, i, Committed(r.phase.response));
    } else if r.phase.Updated? && a.CommitUnheard? {
      CommitKeeps(s, i, Finished(InternalError));
    } else if Advance(s, a, i) != s {
      MoveKeeps(s, i, Advance(s, a, i).requests[i].phase);
    }
  }

  lemma NextKeeps(s: State, a: Step)
    requires Inv(s)
    ensures Inv(Next(s, a))
  {
    if a.Arrive? {
      ArriveKeeps(s, a.key, a.hash);
    } else if a.i < |s.requests| {
      AdvanceKeeps(s, a, a.i);
    }
  }

  lemma {:induction false} InvHolds(steps: seq<Step>)
    ensures Inv(Run(steps))
  {
    if steps != [] {
      InvHolds(steps[..|steps| - 1]);
      NextKeeps(Run(steps[..|steps| - 1]), steps[|steps| - 1]);
    }
  }

  // ---------------------------------------------------------------- what the caller relies on

  /** Whatever races, panics, failed or unconfirmed commits, crashes and retries: the writes of at most
      one handler execution are ever committed under one key. */
  lemma AtMostOneEffectPerKey(steps: seq<Step>, j: nat, k: nat)
    requires j < |Run(steps).executions| && k < |Run(steps).executions|
    requires Run(steps).executions[j].key == Run(steps).executions[k].key
    ensures j == k
  {
    InvHolds(steps);
  }

  /** Every committed row holds a full response: that of the one execution committed with it, for the
      body that execution was given. */
  lemma CommittedRowsAreComplete(steps: seq<Step>, key: string) returns (k: nat)
    requires key in Run(steps).rows
    ensures
      var s := Run(steps);
      && k < |s.executions| && s.executions[k].key == key
      && s.executions[k].request < |s.requests|
      && s.rows[key] == KeyRow(s.requests[s.executions[k].request].hash, Some(s.executions[k].response))
  {
    InvHolds(steps);
    var s := Run(steps);
    k :| 0 <= k < |s.executions| && s.executions[k].key == key;
    assert Recorded(s, s.executions[k]);
  }

  /** Every answered request, first or replayed, got exactly the committed response of its key, and
      had the body that response was computed for. */
  lemma RepliesAreTheCommittedResponse(steps: seq<Step>, i: nat)
    requires i < |Run(steps).requests|
    requires Run(steps).requests[i].phase.Finished? && Run(steps).requests[i].phase.reply.Answered?
    ensures
      var s := Run(steps);
      var r := s.requests[i];
      r.key in s.rows && s.rows[r.key] == KeyRow(r.hash, Some(r.phase.reply.response))
  {
    InvHolds(steps);
    assert RepliesMatch(Run(steps), Run(steps).requests[i]);
  }

  /** A request whose body differs from the committed one has no effect and gets no response of
      another: it executed nothing that was committed. */
  lemma DifferentBodyHasNoEffect(steps: seq<Step>, i: nat, k: nat)
    requires
      var s := Run(steps);
      && i < |s.requests| && s.requests[i].key in s.rows && s.rows[s.requests[i].key].hash != s.requests[i].hash
      && k < |s.executions|
    ensures Run(steps).executions[k].request != i
    ensures !(Run(steps).requests[i].phase.Finished? && Run(steps).requests[i].phase.reply.Answered?)
  {
    InvHolds(steps);
    assert Recorded(Run(steps), Run(steps).executions[k]);
    assert RepliesMatch(Run(steps), Run(steps).requests[i]);
  }

  /** A retry with the same body, once something is committed, is answered with the stored response
      and executes nothing. */
  lemma RetryReplays(s: State, i: nat)
    requires Inv(s) && i < |s.requests| && s.requests[i].phase.Arrived? && s.requests[i].key in s.rows
    requires s.rows[s.requests[i].key].hash == s.requests[i].hash
    ensures
      var t := Next(Next(s, Insert(i)), Read(i));
      && s.rows[s.requests[i].key].response.Some?
      && t.requests[i].phase == Finished(Answered(s.rows[s.requests[i].key].response.value))
      && t.executions == s.executions && t.rows == s.rows
  {
    var k :| 0 <= k < |s.executions| && s.executions[k].key == s.requests[i].key;
    assert Recorded(s, s.executions[k]);
    assert !Locked(s, s.requests[i].key);
  }

  /** A committed row is never changed again. */
  lemma RowsAreFinal(s: State, a: Step, key: string)
    requires Inv(s) && key in s.rows
    ensures key in Next(s, a).rows && Next(s, a).rows[key] == s.rows[key]
  {
    if (a.Commit? || a.CommitUnheard?) && a.i < |s.requests| && s.requests[a.i].phase.Updated? {
      assert HoldsKey(s.requests[a.i], s.requests[a.i].key);
    }
  }
}
