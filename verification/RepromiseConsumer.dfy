/** The repromise consumer around its use case: up to three attempts for a message, dead letters, and
    version conflicts left for redelivery. */
module RepromiseConsumer {

  const MAX_ATTEMPTS := 3

  datatype Attempt = Succeeded | Conflict | Failed(cause: string)

  /** What happens to a message: `attempts` answers attempt 0, 1, 2; `cancelled` says whether the
      consumer is told to stop while it waits after an attempt. */
  datatype Fate = Fate(
    cloudEvent: bool,
    attempts: nat -> Attempt,
    cancelled: nat -> bool,
    deadLetterWrites: bool,
    commits: bool)

  /** How many attempts are made, the first being number `k`. */
  function AttemptsFrom(f: Fate, k: nat): (n: nat)
    requires k < MAX_ATTEMPTS
    ensures k < n <= MAX_ATTEMPTS
    ensures forall i :: k <= i < n - 1 ==> f.attempts(i).Failed? && !f.cancelled(i)
    ensures f.attempts(n - 1).Failed? ==> n == MAX_ATTEMPTS || f.cancelled(n - 1)
    decreases MAX_ATTEMPTS - k
  {
    if !f.attempts(k).Failed? || k + 1 == MAX_ATTEMPTS || f.cancelled(k) then k + 1 else AttemptsFrom(f, k + 1)
  }

  method HandleWithRetry(f: Fate) returns (last: Attempt, n: nat)
    ensures n == AttemptsFrom(f, 0) && last == f.attempts(n - 1)
  {
    n := 0;
    while true
      invariant n < MAX_ATTEMPTS && AttemptsFrom(f, 0) == AttemptsFrom(f, n)
      decreases MAX_ATTEMPTS - n
    {
      last := f.attempts(n);
      n := n + 1;
      if !last.Failed? || n == MAX_ATTEMPTS || f.cancelled(n - 1) { return; }
    }
  }

  /** The consume loop is told about an error only when the message could not be disposed of. */
  datatype Disposal = Disposal(attempts: nat, deadLettered: bool, committed: bool, error: bool)

  method HandleMessage(f: Fate) returns (d: Disposal)
    ensures !f.cloudEvent ==> d.attempts == 0
    ensures f.cloudEvent ==> d.attempts == AttemptsFrom(f, 0)
    // A dead letter is a poison message or one whose last attempt failed, and nothing else is.
    ensures d.deadLettered <==> (!f.cloudEvent || f.attempts(d.attempts - 1).Failed?) && f.deadLetterWrites
    // The offset moves past a message exactly if it was handled or safely dead-lettered and can be moved.
    ensures d.committed <==> f.commits && (d.deadLettered || (f.cloudEvent && f.attempts(d.attempts - 1) == Succeeded))
    // A version conflict leaves the message uncommitted, with no dead letter and no error.
    ensures f.cloudEvent && f.attempts(d.attempts - 1) == Conflict ==> !d.committed && !d.deadLettered && !d.error
    // Otherwise the message is disposed of, or the loop is told.
    ensures d.error <==> !d.committed && !(f.cloudEvent && f.attempts(d.attempts - 1) == Conflict)
  {
    if !f.cloudEvent {
      if !f.deadLetterWrites { return Disposal(0, false, false, true); }
      return Disposal(0, true, f.commits, !f.commits);
    }
    var last, n := HandleWithRetry(f);
    if last == Succeeded { return Disposal(n, false, f.commits, !f.commits); }
    if last == Conflict { return Disposal(n, false, false, false); }
    if !f.deadLetterWrites { return Disposal(n, false, false, true); }
    return Disposal(n, true, f.commits, !f.commits);
  }

  /** An attempt that succeeds or conflicts is the last one, and a failing one is repeated at most twice. */
  lemma NoAttemptAfterAnAnswer(f: Fate, i: nat)
    requires i < AttemptsFrom(f, 0) && !f.attempts(i).Failed?
    ensures i == AttemptsFrom(f, 0) - 1
  {
    var n := AttemptsFrom(f, 0);
    assert i < n - 1 ==> f.attempts(i).Failed?;
  }
}
