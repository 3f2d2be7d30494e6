/** The unit of work: the outermost scope owns the transaction, an inner scope joins it. */
module UnitOfWork {

  type Db = map<string, string>

  /** What a function run inside a scope does: write through the transaction in its context, fail,
      panic, or run another function in a scope of its own, whose error it may swallow. */
  datatype Stmt = Put(key: string, value: string) | Fail | Panic | Scope(body: Prog, swallowError: bool)

  datatype Prog = Done | Then(first: Stmt, rest: Prog)

  datatype Ending = Success | Error | Panicking

  datatype Result = Result(db: Db, ending: Ending)

  /** After an inner scope its caller goes on when the scope succeeded, or its error is swallowed. */
  predicate GoesOn(ending: Ending, swallow: bool) {
    ending == Success || (ending == Error && swallow)
  }

  /** Running inside an open transaction: a scope joins, so what it wrote before failing stays. */
  function Joined(p: Prog, db: Db): Result {
    match p
    case Done => Result(db, Success)
    case Then(Put(k, v), rest) => Joined(rest, db[k := v])
    case Then(Fail, _) => Result(db, Error)
    case Then(Panic, _) => Result(db, Panicking)
    case Then(Scope(body, swallow), rest) =>
      var r := Joined(body, db);
      if GoesOn(r.ending, swallow) then Joined(rest, r.db) else r
  }

  /** Running outermost: one transaction for everything in it, committed only on success. */
  function Owned(p: Prog, db: Db, commits: bool): Result {
    var r := Joined(p, db);
    if r.ending == Success then if commits then r else Result(db, Error)
    else Result(db, r.ending)
  }

  function Seq(p: Prog, q: Prog): Prog {
    match p
    case Done => q
    case Then(s, rest) => Then(s, Seq(rest, q))
  }

  // ---------------------------------------------------------------- the service's own object

  /** The pool, and the transaction bound to the context, if any. */
  class Session {
    var committed: Db
    var tx: Db
    var open: bool

    constructor (db: Db)
      ensures committed == db && !open
    {
      committed, tx, open := db, db, false;
    }

    /** Joins the open transaction, or begins one and ends it: commit on success, otherwise rollback. */
    method Execute(p: Prog, commits: bool) returns (ending: Ending)
      modifies this
      ensures open == old(open)
      ensures old(open) ==> committed == old(committed) && Result(tx, ending) == Joined(p, old(tx))
      ensures !old(open) ==> Result(committed, ending) == Owned(p, old(committed), commits)
      decreases p, 1
    {
      if open {
        ending := RunBody(p);
        return;
      }
      tx, open := committed, true;
      ending := RunBody(p);
      open := false;
      if ending == Success {
        if commits { committed := tx; } else { ending := Error; }
      }
    }

    method RunBody(p: Prog) returns (ending: Ending)
      requires open
      modifies this
      ensures open && committed == old(committed) && Result(tx, ending) == Joined(p, old(tx))
      decreases p, 0
    {
      match p {
        case Done => return Success;
        case Then(first, rest) =>
          match first {
            case Put(k, v) => tx := tx[k := v];
            case Fail => return Error;
            case Panic => return Panicking;
            case Scope(body, swallow) =>
              ending := Execute(body, true);
              if ending == Panicking || (ending == Error && !swallow) { return; }
          }
          ending := RunBody(rest);
      }
    }
  }

  // ---------------------------------------------------------------- what composing use cases relies on

  /** How a program ends; no database has a say in it. */
  function Ends(p: Prog): Ending {
    match p
    case Done => Success
    case Then(Put(_, _), rest) => Ends(rest)
    case Then(Fail, _) => Error
    case Then(Panic, _) => Panicking
    case Then(Scope(body, swallow), rest) => if GoesOn(Ends(body), swallow) then Ends(rest) else Ends(body)
  }

  /** The last value that a program puts under each key before it ends, wherever that put stands. */
  function Puts(p: Prog): Db {
    match p
    case Done => map[]
    case Then(Put(k, v), rest) => map[k := v] + Puts(rest)
    case Then(Fail, _) => map[]
    case Then(Panic, _) => map[]
    case Then(Scope(body, swallow), rest) => if GoesOn(Ends(body), swallow) then Puts(body) + Puts(rest) else Puts(body)
  }

  /** Inside a transaction every put that is reached stands, those of failed inner scopes included. */
  lemma {:induction false} JoinedPutsEverything(p: Prog, db: Db)
    ensures Joined(p, db) == Result(db + Puts(p), Ends(p))
  {
    match p
    case Done =>
    case Then(Put(k, v), rest) =>
      JoinedPutsEverything(rest, db[k := v]);
      assert db[k := v] + Puts(rest) == db + (map[k := v] + Puts(rest));
    case Then(Fail, _) =>
    case Then(Panic, _) =>
    case Then(Scope(body, swallow), rest) =>
      JoinedPutsEverything(body, db);
      JoinedPutsEverything(rest, db + Puts(body));
      assert db + Puts(body) + Puts(rest) == db + (Puts(body) + Puts(rest));
  }

  /** All or nothing: a unit of work puts everything that it and whatever joined it reached, if it ends
      well and commits, and nothing otherwise. */
  lemma AllOrNothing(p: Prog, db: Db, commits: bool)
    ensures Owned(p, db, commits).db == if Ends(p) == Success && commits then db + Puts(p) else db
    ensures Owned(p, db, commits).ending == if Ends(p) == Success && !commits then Error else Ends(p)
    ensures Owned(p, db, commits).ending == Success ==> Owned(p, db, commits) == Joined(p, db)
    ensures Owned(p, db, commits).ending != Success ==> Owned(p, db, commits).db == db
  {
    JoinedPutsEverything(p, db);
  }

  lemma {:induction false} RunsInSequence(p: Prog, q: Prog, db: Db)
    ensures Joined(Seq(p, q), db) == (if Joined(p, db).ending == Success then Joined(q, Joined(p, db).db) else Joined(p, db))
  {
    match p
    case Done =>
    case Then(Put(k, v), rest) => RunsInSequence(rest, q, db[k := v]);
    case Then(Fail, _) =>
    case Then(Panic, _) =>
    case Then(Scope(body, swallow), rest) => RunsInSequence(rest, q, Joined(body, db).db);
  }

  /** Composing is inlining: an inner scope whose error is not swallowed means exactly what its body
      means in place, so composed use cases commit together or not at all. */
  lemma JoiningIsInlining(body: Prog, rest: Prog, db: Db)
    ensures Joined(Then(Scope(body, false), rest), db) == Joined(Seq(body, rest), db)
  {
    RunsInSequence(body, rest, db);
  }

  /** Every put of the program finds its value already there. */
  ghost predicate AlreadyThere(puts: Db, db: Db) {
    forall k :: k in puts ==> k in db && db[k] == puts[k]
  }

  /** A scope that would be rolled back on its own is not undone when it joins another and its error
      is swallowed: what it put before failing is committed. The two leave the same database if and
      only if the body does not end in an error, or whatever it puts was there already. */
  lemma SwallowedScopeIsNotUndone(body: Prog, db: Db)
    ensures
      var joined := Owned(Then(Scope(body, true), Done), db, true);
      && (Ends(body) != Panicking ==> joined == Result(db + Puts(body), Success))
      && (joined.db == Owned(body, db, true).db <==> Ends(body) != Error || AlreadyThere(Puts(body), db))
  {
    AllOrNothing(body, db, true);
    AllOrNothing(Then(Scope(body, true), Done), db, true);
    assert Puts(body) + Puts(Done) == Puts(body);
    if db + Puts(body) == db {
      forall k | k in Puts(body) ensures k in db && db[k] == Puts(body)[k] {
        assert (db + Puts(body))[k] == Puts(body)[k];
      }
    }
    if AlreadyThere(Puts(body), db) {
      assert db + Puts(body) == db;
    }
  }

  /** A concrete case: one write, then a failure that the caller swallows. */
  lemma SwallowedWriteSurvives(db: Db)
    requires "k" !in db
    ensures
      var body := Then(Put("k", "v"), Then(Fail, Done));
      Owned(body, db, true).db == db && "k" in Owned(Then(Scope(body, true), Done), db, true).db
  {
    var body := Then(Put("k", "v"), Then(Fail, Done));
    assert Joined(Then(Fail, Done), db["k" := "v"]) == Result(db["k" := "v"], Error);
    SwallowedScopeIsNotUndone(body, db);
  }
}
