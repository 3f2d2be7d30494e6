/** The other half of the idempotency protocol: not only is nothing done twice, what is asked for is
    done. A fresh request that is not disturbed commits its own writes with its own response, whatever
    other requests do in between, and every committed execution is the one its handler made. */
module IdempotencyProgress {
  import opened Wrappers
  import opened Idempotency

  /** The state after more steps. */
  function Then(s: State, steps: seq<Step>): State {
    if steps == [] then s else Next(Then(s, steps[..|steps| - 1]), steps[|steps| - 1])
  }

  /** A request whose transaction is open and has its key inserted. */
  predicate InFlight(r: Request) {
    r.phase.Inserted? || r.phase.Handled? || r.phase.Updated?
  }

  predicate Takes(s: State, i: nat) {
    i < |s.requests| && s.requests[i].phase.Arrived?
  }

  /** The key is new: no row is committed under it and no open transaction has inserted it. */
  predicate IsFresh(s: State, key: string) {
    key !in s.rows && forall j :: 0 <= j < |s.requests| && InFlight(s.requests[j]) ==> s.requests[j].key != key
  }

  /** Steps of other requests, or arrivals. */
  predicate Others(steps: seq<Step>, i: nat) {
    forall k :: 0 <= k < |steps| ==> steps[k].Arrive? || steps[k].i != i
  }

  // ---------------------------------------------------------------- runs of steps

  lemma {:induction false} RunThen(a: seq<Step>, b: seq<Step>)
    ensures Run(a + b) == Then(Run(a), b)
  {
    if b == [] {
      assert a + b == a;
    } else {
      RunThen(a, b[..|b| - 1]);
      assert (a + b)[..|a + b| - 1] == a + b[..|b| - 1];
    }
  }

  lemma {:induction false} ThenThen(s: State, a: seq<Step>, b: seq<Step>)
    ensures Then(s, a + b) == Then(Then(s, a), b)
  {
    if b == [] {
      assert a + b == a;
    } else {
      ThenThen(s, a, b[..|b| - 1]);
      assert (a + b)[..|a + b| - 1] == a + b[..|b| - 1];
    }
  }

  lemma ThenOne(s: State, a: Step, b: seq<Step>)
    ensures Then(s, [a] + b) == Then(Next(s, a), b)
  {
    ThenThen(s, [a], b);
    assert [a][..0] == [];
    assert Then(s, [a]) == Next(s, a);
  }

  lemma {:induction false} ThenKeeps(s: State, steps: seq<Step>)
    requires Inv(s)
    ensures Inv(Then(s, steps))
  {
    if steps != [] {
      ThenKeeps(s, steps[..|steps| - 1]);
      NextKeeps(Then(s, steps[..|steps| - 1]), steps[|steps| - 1]);
    }
  }

  // ---------------------------------------------------------------- one step

  predicate Commits(s: State, a: Step) {
    (a.Commit? || a.CommitUnheard?) && a.i < |s.requests| && s.requests[a.i].phase.Updated?
  }

  /** What any step does to rows and executions: a commit, heard or not, of a request that has stored
      its response adds exactly its row and its execution; no other step touches either. */
  lemma OnlyCommitsHaveEffects(s: State, a: Step)
    ensures !Commits(s, a) ==> Next(s, a).rows == s.rows && Next(s, a).executions == s.executions
    ensures
      Commits(s, a) ==>
        var r := s.requests[a.i];
        && Next(s, a).rows == s.rows[r.key := KeyRow(r.hash, Some(r.phase.response))]
        && Next(s, a).executions == s.executions + [Execution(a.i, r.key, r.phase.writes, r.phase.response)]
  {
  }

  /** A request moves by its own steps only. */
  lemma OthersLeaveRequest(s: State, a: Step, i: nat)
    requires i < |s.requests| && (a.Arrive? || a.i != i)
    ensures i < |Next(s, a).requests| && Next(s, a).requests[i] == s.requests[i]
  {
  }

  predicate Extends(s: State, t: State) {
    && |s.executions| <= |t.executions| && t.executions[..|s.executions|] == s.executions
    && forall key :: key in s.rows ==> key in t.rows && t.rows[key] == s.rows[key]
  }

  /** Committed effects stay. */
  lemma NextExtends(s: State, a: Step)
    requires Inv(s)
    ensures Extends(s, Next(s, a))
  {
    OnlyCommitsHaveEffects(s, a);
    forall key | key in s.rows ensures key in Next(s, a).rows && Next(s, a).rows[key] == s.rows[key] {
      RowsAreFinal(s, a, key);
    }
  }

  /** Whatever the others do meanwhile: the request stays where it is, and what is committed stays. */
  lemma {:induction false} OthersPass(s: State, steps: seq<Step>, i: nat)
    requires Inv(s) && i < |s.requests| && Others(steps, i)
    ensures Inv(Then(s, steps))
    ensures i < |Then(s, steps).requests| && Then(s, steps).requests[i] == s.requests[i]
    ensures Extends(s, Then(s, steps))
  {
    if steps != [] {
      var before := steps[..|steps| - 1];
      OthersPass(s, before, i);
      var t := Then(s, before);
      var a := steps[|steps| - 1];
      OthersLeaveRequest(t, a, i);
      NextExtends(t, a);
      NextKeeps(t, a);
      assert Next(t, a).executions[..|t.executions|][..|s.executions|] == Next(t, a).executions[..|s.executions|];
    }
  }

  // ---------------------------------------------------------------- the request that goes first

  /** Inserting a new key opens the request's transaction; nothing else is touched. */
  lemma FreshKeyIsInserted(s: State, i: nat)
    requires Takes(s, i) && IsFresh(s, s.requests[i].key)
    ensures Next(s, Insert(i)) == s.(requests := s.requests[i := s.requests[i].(phase := Inserted)])
  {
  }

  /** From the open transaction on, alone. */
  lemma {:induction false} OpenRequestIsServed(s: State, i: nat, writes: seq<string>, response: Response)
    requires i < |s.requests| && s.requests[i].phase.Inserted?
    ensures
      var r := s.requests[i];
      && Then(s, [Handle(i, writes, response), Update(i), Commit(i), Answer(i)])
         == State(s.rows[r.key := KeyRow(r.hash, Some(response))],
                  s.requests[i := r.(phase := Finished(Answered(response)))],
                  s.executions + [Execution(i, r.key, writes, response)])
  {
    var s1 := Next(s, Handle(i, writes, response));
    var s2 := Next(s1, Update(i));
    var s3 := Next(s2, Commit(i));
    ThenOne(s, Handle(i, writes, response), [Update(i), Commit(i), Answer(i)]);
    assert [Handle(i, writes, response)] + [Update(i), Commit(i), Answer(i)]
        == [Handle(i, writes, response), Update(i), Commit(i), Answer(i)];
    ThenOne(s1, Update(i), [Commit(i), Answer(i)]);
    assert [Update(i)] + [Commit(i), Answer(i)] == [Update(i), Commit(i), Answer(i)];
    ThenOne(s2, Commit(i), [Answer(i)]);
    assert [Commit(i)] + [Answer(i)] == [Commit(i), Answer(i)];
    ThenOne(s3, Answer(i), []);
    assert [Answer(i)] + [] == [Answer(i)];
    assert s3.requests == s.requests[i := s.requests[i].(phase := Committed(response))];
    assert Next(s3, Answer(i)).requests == s.requests[i := s.requests[i].(phase := Finished(Answered(response)))];
  }

  /** A fresh request alone: its steps append one execution, its own, leave the row with its body's
      hash and its response and every other row as it was, and send it that response. */
  lemma {:induction false} FreshRequestIsServed(s: State, key: string, hash: string,
                                                writes: seq<string>, response: Response)
    requires key != "" && IsFresh(s, key)
    ensures
      var i := |s.requests|;
      Then(s, [Arrive(key, hash), Insert(i), Handle(i, writes, response), Update(i), Commit(i), Answer(i)])
      == State(s.rows[key := KeyRow(hash, Some(response))],
               s.requests + [Request(key, hash, Finished(Answered(response)))],
               s.executions + [Execution(i, key, writes, response)])
  {
    var i := |s.requests|;
    var s1 := Next(s, Arrive(key, hash));
    assert s1 == s.(requests := s.requests + [Request(key, hash, Arrived)]);
    FreshKeyIsInserted(s1, i);
    var s2 := Next(s1, Insert(i));
    var rest := [Handle(i, writes, response), Update(i), Commit(i), Answer(i)];
    OpenRequestIsServed(s2, i, writes, response);
    ThenOne(s1, Insert(i), rest);
    ThenOne(s, Arrive(key, hash), [Insert(i)] + rest);
    assert [Arrive(key, hash)] + ([Insert(i)] + rest)
        == [Arrive(key, hash), Insert(i), Handle(i, writes, response), Update(i), Commit(i), Answer(i)];
    assert s2.requests[i := s2.requests[i].(phase := Finished(Answered(response)))]
        == s.requests + [Request(key, hash, Finished(Answered(response)))];
  }

  /** The steps of one request, in their order, with any steps of others between them. */
  function Interleaved(i: nat, writes: seq<string>, response: Response, last: Step,
                       a: seq<Step>, b: seq<Step>, c: seq<Step>): seq<Step>
  {
    ([Insert(i)] + a) + (([Handle(i, writes, response)] + b) + (([Update(i)] + c) + [last]))
  }

  lemma {:induction false} ExtendsTwice(s: State, t: State, u: State)
    requires Extends(s, t) && Extends(t, u)
    ensures Extends(s, u)
  {
    assert u.executions[..|s.executions|] == u.executions[..|t.executions|][..|s.executions|];
  }

  /** One own step, then steps of others. */
  lemma {:induction false} Leg(s: State, i: nat, own: Step, others: seq<Step>) returns (t: State)
    requires Inv(s) && i < |s.requests| && i < |Next(s, own).requests| && Others(others, i)
    ensures t == Then(s, [own] + others) && Inv(t) && Extends(s, t)
    ensures i < |t.requests| && t.requests[i] == Next(s, own).requests[i]
  {
    ThenOne(s, own, others);
    t := LegAfter(s, i, own, others, Next(s, own));
  }

  lemma {:induction false} LegAfter(s: State, i: nat, own: Step, others: seq<Step>, u: State) returns (t: State)
    requires Inv(s) && u == Next(s, own) && i < |u.requests| && Others(others, i)
    ensures t == Then(u, others) && Inv(t) && Extends(s, t)
    ensures i < |t.requests| && t.requests[i] == u.requests[i]
  {
    NextKeeps(s, own);
    NextExtends(s, own);
    OthersPass(u, others, i);
    t := Then(u, others);
    ExtendsTwice(s, u, t);
  }

  /** Up to its commit, a fresh request gets through whatever others do. */
  lemma {:induction false} FreshRequestGetsReady(s: State, i: nat, writes: seq<string>, response: Response,
                                                 a: seq<Step>, b: seq<Step>, c: seq<Step>) returns (t: State)
    requires Inv(s) && Takes(s, i) && IsFresh(s, s.requests[i].key)
    requires Others(a, i) && Others(b, i) && Others(c, i)
    ensures t == Then(Then(Then(s, [Insert(i)] + a), [Handle(i, writes, response)] + b), [Update(i)] + c)
    ensures Inv(t) && Extends(s, t)
    ensures i < |t.requests| && t.requests[i] == s.requests[i].(phase := Updated(writes, response))
  {
    FreshKeyIsInserted(s, i);
    var s1 := Leg(s, i, Insert(i), a);
    var s2 := Leg(s1, i, Handle(i, writes, response), b);
    t := Leg(s2, i, Update(i), c);
    ExtendsTwice(s, s1, s2);
    ExtendsTwice(s, s2, t);
  }

  /** A fresh request among others: however their steps fall between its own, its commit, heard or not,
      appends its own execution and leaves its own row. */
  lemma {:induction false} FreshRequestCommits(s: State, i: nat, writes: seq<string>, response: Response, last: Step,
                                               a: seq<Step>, b: seq<Step>, c: seq<Step>) returns (t: State)
    requires Inv(s) && Takes(s, i) && IsFresh(s, s.requests[i].key)
    requires Others(a, i) && Others(b, i) && Others(c, i)
    requires last == Commit(i) || last == CommitUnheard(i)
    ensures t == Then(s, Interleaved(i, writes, response, last, a, b, c)) && Inv(t) && Extends(s, t)
    ensures |t.executions| > |s.executions|
    ensures t.executions[|t.executions| - 1] == Execution(i, s.requests[i].key, writes, response)
    ensures s.requests[i].key in t.rows && t.rows[s.requests[i].key] == KeyRow(s.requests[i].hash, Some(response))
    ensures i < |t.requests|
    ensures t.requests[i] == s.requests[i].(phase := if last.Commit? then Committed(response) else Finished(InternalError))
  {
    var u := FreshRequestGetsReady(s, i, writes, response, a, b, c);
    t := Next(u, last);
    NextKeeps(u, last);
    NextExtends(u, last);
    ExtendsTwice(s, u, t);
    var s1 := Then(s, [Insert(i)] + a);
    var s2 := Then(s1, [Handle(i, writes, response)] + b);
    ThenThen(s, [Insert(i)] + a, ([Handle(i, writes, response)] + b) + (([Update(i)] + c) + [last]));
    ThenThen(s1, [Handle(i, writes, response)] + b, ([Update(i)] + c) + [last]);
    ThenThen(s2, [Update(i)] + c, [last]);
    ThenOne(u, last, []);
  }

  /** And once it hears of its commit, the client is sent exactly that response, whatever others do first. */
  lemma CommittedRequestIsAnswered(s: State, i: nat, others: seq<Step>)
    requires Inv(s) && i < |s.requests| && s.requests[i].phase.Committed? && Others(others, i)
    ensures
      var t := Then(s, others + [Answer(i)]);
      && i < |t.requests| && t.requests[i] == s.requests[i].(phase := Finished(Answered(s.requests[i].phase.response)))
      && Extends(s, t)
  {
    OthersPass(s, others, i);
    ThenThen(s, others, [Answer(i)]);
    ThenOne(Then(s, others), Answer(i), []);
  }

  /** A lost confirmation: the client is told of an internal error, but row and execution are the same
      as those of a commit that was heard. */
  lemma UnheardCommitIsTheSameCommit(s: State, i: nat)
    requires i < |s.requests| && s.requests[i].phase.Updated?
    ensures Next(s, CommitUnheard(i)).rows == Next(s, Commit(i)).rows
    ensures Next(s, CommitUnheard(i)).executions == Next(s, Commit(i)).executions
    ensures |Next(s, Commit(i)).executions| == |s.executions| + 1
    ensures Next(s, CommitUnheard(i)).requests == s.requests[i := s.requests[i].(phase := Finished(InternalError))]
  {
  }

  // ---------------------------------------------------------------- the requests that do not

  /** While another open transaction holds the key, an insert waits. */
  lemma InsertWaits(s: State, i: nat, j: nat)
    requires Takes(s, i) && j < |s.requests| && InFlight(s.requests[j]) && s.requests[j].key == s.requests[i].key
    ensures Next(s, Insert(i)) == s
  {
    assert HoldsKey(s.requests[j], s.requests[i].key);
  }

  /** A request whose key is committed for another body is told so. */
  lemma OtherBodyIsRefused(s: State, i: nat)
    requires Inv(s) && Takes(s, i) && s.requests[i].key in s.rows && s.rows[s.requests[i].key].hash != s.requests[i].hash
    ensures Next(Next(s, Insert(i)), Read(i)) == s.(requests := s.requests[i := s.requests[i].(phase := Finished(KeyReused))])
  {
    assert !Locked(s, s.requests[i].key);
  }

  /** A request without a key is told that it needs one, and nothing is ever done for it. */
  lemma KeylessRequestIsRefused(s: State, hash: string)
    ensures Next(s, Arrive("", hash)) == s.(requests := s.requests + [Request("", hash, Finished(KeyRequired))])
  {
  }

  /** A refused statement, a crash or a panic before the commit leaves no trace of the request, and its
      key is new again: the next request that brings it is served as if this one had never been. */
  lemma FailureFreesTheKey(s: State, i: nat, a: Step)
    requires Inv(s) && i < |s.requests| && InFlight(s.requests[i])
    requires a == Fail(i) || a == Crash(i) || (a == Panic(i) && s.requests[i].phase.Inserted?)
    ensures
      var t := Next(s, a);
      && t.rows == s.rows && t.executions == s.executions && IsFresh(t, s.requests[i].key)
      && t.requests == s.requests[i := s.requests[i].(phase := Finished(
           match a case Fail(_) => InternalError case Panic(_) => Panicked case _ => NoReply))]
  {
    var t := Next(s, a);
    var key := s.requests[i].key;
    assert HoldsKey(s.requests[i], key);
    forall j | 0 <= j < |t.requests| && InFlight(t.requests[j]) ensures t.requests[j].key != key {
      assert s.requests[j].key == key ==> HoldsKey(s.requests[j], key);
    }
  }

  // ---------------------------------------------------------------- whose writes they are

  /** A request that has run its handler holds what its own handle step brought. */
  ghost predicate HandledBy(steps: seq<Step>, i: nat, writes: seq<string>, response: Response) {
    exists h :: 0 <= h < |steps| && steps[h] == Handle(i, writes, response)
  }

  ghost predicate HoldsItsOwn(steps: seq<Step>, r: Request, i: nat) {
    && (r.phase.Handled? ==> HandledBy(steps, i, r.phase.writes, r.phase.response))
    && (r.phase.Updated? ==> HandledBy(steps, i, r.phase.writes, r.phase.response))
  }

  ghost predicate OwnWrites(steps: seq<Step>, s: State) {
    && (forall i :: 0 <= i < |s.requests| ==> HoldsItsOwn(steps, s.requests[i], i))
    && (forall k :: 0 <= k < |s.executions| ==>
          HandledBy(steps, s.executions[k].request, s.executions[k].writes, s.executions[k].response))
  }

  lemma HandledStays(steps: seq<Step>, a: Step, i: nat, writes: seq<string>, response: Response)
    requires HandledBy(steps, i, writes, response)
    ensures HandledBy(steps + [a], i, writes, response)
  {
    var h :| 0 <= h < |steps| && steps[h] == Handle(i, writes, response);
    assert (steps + [a])[h] == Handle(i, writes, response);
  }

  lemma NextOwnWrites(steps: seq<Step>, s: State, a: Step)
    requires OwnWrites(steps, s)
    ensures OwnWrites(steps + [a], Next(s, a))
  {
    var t := Next(s, a);
    assert (steps + [a])[|steps|] == a;
    forall i | 0 <= i < |t.requests| ensures HoldsItsOwn(steps + [a], t.requests[i], i) {
      if i < |s.requests| && HoldsItsOwn(steps, s.requests[i], i) {
        if s.requests[i].phase.Handled? || s.requests[i].phase.Updated? {
          HandledStays(steps, a, i, s.requests[i].phase.writes, s.requests[i].phase.response);
        }
      }
    }
    OnlyCommitsHaveEffects(s, a);
    forall k | 0 <= k < |t.executions|
      ensures HandledBy(steps + [a], t.executions[k].request, t.executions[k].writes, t.executions[k].response)
    {
      if k < |s.executions| {
        HandledStays(steps, a, t.executions[k].request, t.executions[k].writes, t.executions[k].response);
      } else {
        assert HoldsItsOwn(steps, s.requests[a.i], a.i);
        HandledStays(steps, a, t.executions[k].request, t.executions[k].writes, t.executions[k].response);
      }
    }
  }

  lemma {:induction false} OwnWritesHold(steps: seq<Step>)
    ensures OwnWrites(steps, Run(steps))
  {
    if steps != [] {
      var before := steps[..|steps| - 1];
      OwnWritesHold(before);
      NextOwnWrites(before, Run(before), steps[|steps| - 1]);
      assert before + [steps[|steps| - 1]] == steps;
    }
  }

  /** In every run, what is committed for a request is what its own handler wrote and answered. */
  lemma ExecutionsAreTheHandlers(steps: seq<Step>, k: nat) returns (h: nat)
    requires k < |Run(steps).executions|
    ensures
      var e := Run(steps).executions[k];
      h < |steps| && steps[h] == Handle(e.request, e.writes, e.response)
  {
    OwnWritesHold(steps);
    var e := Run(steps).executions[k];
    assert HandledBy(steps, e.request, e.writes, e.response);
    h :| 0 <= h < |steps| && steps[h] == Handle(e.request, e.writes, e.response);
  }

  /** Every reachable state can be carried on: whoever brings a new key is served and gets the answer of
      its own handler, and the rest of the table stays. */
  lemma EveryRunServesANewKey(steps: seq<Step>, key: string, hash: string, writes: seq<string>, response: Response)
    requires key != "" && IsFresh(Run(steps), key)
    ensures
      var i := |Run(steps).requests|;
      var t := Run(steps + [Arrive(key, hash), Insert(i), Handle(i, writes, response), Update(i), Commit(i), Answer(i)]);
      && t.executions == Run(steps).executions + [Execution(i, key, writes, response)]
      && t.rows == Run(steps).rows[key := KeyRow(hash, Some(response))]
      && t.requests == Run(steps).requests + [Request(key, hash, Finished(Answered(response)))]
  {
    var i := |Run(steps).requests|;
    RunThen(steps, [Arrive(key, hash), Insert(i), Handle(i, writes, response), Update(i), Commit(i), Answer(i)]);
    FreshRequestIsServed(Run(steps), key, hash, writes, response);
  }
}
