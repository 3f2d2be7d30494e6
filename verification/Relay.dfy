/** One pass of the outbox relay: claim the oldest unpublished rows, send them in order, mark each,
    stop at the first failure. */
module Relay {
  import opened Wrappers
  import opened NumberOrder

  datatype OutboxRow = OutboxRow(message: string, published: bool, attempts: nat, lastError: Option<string>)

  type Rows = map<nat, OutboxRow>

  /** What comes of one send: an error does not tell whether the broker took the message. */
  datatype Answer = Accepted | Refused(error: string, taken: bool)

  /** Every answer one pass can get: whether it can claim, what the sink says to each row, whether the
      statement that marks a row succeeds, and whether the transaction commits. */
  datatype Pass = Pass(batchSize: nat, claims: bool, sink: nat -> Answer, marks: nat -> bool, commits: bool)

  datatype PassError = ClaimFailed | SendFailed(id: nat, error: string) | MarkFailed(id: nat) | CommitFailed

  function PendingIds(rows: Rows): set<No> {
    set id | id in rows && !rows[id].published :: No(id)
  }

  lemma PendingInOrder(rows: Rows)
    ensures forall k :: 0 <= k < |InOrder(PendingIds(rows))| ==>
              var id := InOrder(PendingIds(rows))[k]; id >= 0 && id in rows && !rows[id].published
  {
    InOrderMembers(PendingIds(rows));
  }

  /** The oldest pending rows, in id order, up to the batch size. */
  function Claimed(rows: Rows, batchSize: nat): (batch: seq<nat>)
    ensures forall i :: 0 <= i < |batch| ==> batch[i] in rows && !rows[batch[i]].published
  {
    PendingInOrder(rows);
    var all: seq<nat> := InOrder(PendingIds(rows));
    if |all| <= batchSize then all else all[..batchSize]
  }

  function Published(r: OutboxRow): OutboxRow {
    r.(published := true, attempts := r.attempts + 1, lastError := None)
  }

  function Failed(r: OutboxRow, error: string): OutboxRow {
    r.(attempts := r.attempts + 1, lastError := Some(error))
  }

  /** The rows after marking the first `k` of the batch. */
  function Marked(rows: Rows, batch: seq<nat>, k: nat): Rows
    requires k <= |batch|
    requires forall i :: 0 <= i < |batch| ==> batch[i] in rows
    ensures forall id :: id in Marked(rows, batch, k) <==> id in rows
  {
    if k == 0 then rows
    else
      var m := Marked(rows, batch, k - 1);
      m[batch[k - 1] := Published(m[batch[k - 1]])]
  }

  /** The first position from `k` on whose send is refused or whose mark fails, or the size of the batch. */
  function Stop(p: Pass, batch: seq<nat>, k: nat): (n: nat)
    requires k <= |batch|
    ensures k <= n <= |batch|
    ensures forall i :: k <= i < n ==> p.sink(batch[i]).Accepted? && p.marks(batch[i])
    ensures n < |batch| ==> p.sink(batch[n]).Refused? || !p.marks(batch[n])
    decreases |batch| - k
  {
    if k == |batch| || p.sink(batch[k]).Refused? || !p.marks(batch[k]) then k else Stop(p, batch, k + 1)
  }

  /** What the broker has received when a batch ends at position `n`. */
  function EndSends(p: Pass, batch: seq<nat>, n: nat): seq<nat>
    requires n <= |batch|
  {
    batch[..n] + (if n < |batch| && (p.sink(batch[n]).Accepted? || p.sink(batch[n]).taken) then [batch[n]] else [])
  }

  /** The table when a batch ends there: all marks of the pass, or none if its transaction cannot commit. */
  function EndRows(rows: Rows, p: Pass, batch: seq<nat>, n: nat): Rows
    requires n <= |batch|
    requires forall i :: 0 <= i < |batch| ==> batch[i] in rows
  {
    var marked := Marked(rows, batch, n);
    if !p.commits then rows
    else if n == |batch| then marked
    else if p.sink(batch[n]).Accepted? || !p.marks(batch[n]) then rows
    else marked[batch[n] := Failed(marked[batch[n]], p.sink(batch[n]).error)]
  }

  function EndError(p: Pass, batch: seq<nat>, n: nat): Option<PassError>
    requires n <= |batch|
  {
    if n < |batch| then
      match p.sink(batch[n])
      case Refused(error, _) => Some(SendFailed(batch[n], error))
      case Accepted => Some(MarkFailed(batch[n]))
    else if p.commits then None
    else Some(CommitFailed)
  }

  function PassSends(rows: Rows, p: Pass): seq<nat> {
    var batch := Claimed(rows, p.batchSize);
    if p.claims then EndSends(p, batch, Stop(p, batch, 0)) else []
  }

  function PassRows(rows: Rows, p: Pass): Rows {
    var batch := Claimed(rows, p.batchSize);
    if p.claims then EndRows(rows, p, batch, Stop(p, batch, 0)) else rows
  }

  class Outbox {
    var rows: Rows
    var sent: seq<nat>

    method RelayOnce(p: Pass) returns (published: nat, error: Option<PassError>)
      modifies this
      ensures rows == PassRows(old(rows), p)
      ensures sent == old(sent) + PassSends(old(rows), p)
      ensures
        var batch := Claimed(old(rows), p.batchSize);
        && published == (if p.claims then Stop(p, batch, 0) else 0)
        && error == (if p.claims then EndError(p, batch, published) else Some(ClaimFailed))
    {
      if !p.claims { return 0, Some(ClaimFailed); }
      var batch := Claimed(rows, p.batchSize);
      published, error := PublishBatch(p, batch);
    }

    /** A statement that fails aborts the transaction, so nothing of the pass is kept; what was sent
        stays sent. */
    method PublishBatch(p: Pass, batch: seq<nat>) returns (published: nat, error: Option<PassError>)
      requires forall i :: 0 <= i < |batch| ==> batch[i] in rows
      modifies this
      ensures published == Stop(p, batch, 0)
      ensures rows == EndRows(old(rows), p, batch, published)
      ensures sent == old(sent) + EndSends(p, batch, published)
      ensures error == EndError(p, batch, published)
    {
      var tx := rows;
      published := 0;
      while published < |batch|
        invariant published <= |batch|
        invariant rows == old(rows) && tx == Marked(rows, batch, published)
        invariant sent == old(sent) + batch[..published]
        invariant Stop(p, batch, 0) == Stop(p, batch, published)
      {
        var id := batch[published];
        var answer := p.sink(id);
        if answer.Refused? {
          if answer.taken { sent := sent + [id]; }
          RecordSendFailure(p, tx, id, answer.error);
          return published, Some(SendFailed(id, answer.error));
        }
        sent := sent + [id];
        if !p.marks(id) { return published, Some(MarkFailed(id)); }
        tx := tx[id := tx[id].(published := true, attempts := tx[id].attempts + 1, lastError := None)];
        published := published + 1;
      }
      assert batch[..|batch|] == batch;
      if !p.commits { return published, Some(CommitFailed); }
      rows := tx;
      return published, None;
    }

    method RecordSendFailure(p: Pass, tx: Rows, id: nat, error: string)
      requires id in tx
      modifies `rows
      ensures rows == if p.marks(id) && p.commits then tx[id := Failed(tx[id], error)] else old(rows)
    {
      if !p.marks(id) { return; }
      var failed := tx[id := tx[id].(attempts := tx[id].attempts + 1, lastError := Some(error))];
      if p.commits { rows := failed; }
    }
  }

  // ---------------------------------------------------------------- what a pass claims

  /** A pass claims a prefix of the pending rows: in id order, and with every pending row that is
      older than a claimed one. */
  lemma ClaimsOldestFirst(rows: Rows, batchSize: nat, i: nat, id: int)
    requires i < |Claimed(rows, batchSize)|
    ensures forall j :: 0 <= j < i ==> Claimed(rows, batchSize)[j] < Claimed(rows, batchSize)[i]
    ensures id in rows && !rows[id].published && id < Claimed(rows, batchSize)[i] ==> id in Claimed(rows, batchSize)[..i]
  {
    var s := PendingIds(rows);
    var all := InOrder(s);
    InOrderAscends(s);
    if id in rows && !rows[id].published && id < all[i] {
      assert No(id) in s;
      var k :| 0 <= k < |all| && all[k] == id;
      assert k < i;
      assert Claimed(rows, batchSize)[..i][k] == id;
    }
  }

  /** The claim is as large as the batch size and the pending rows allow. */
  lemma ClaimIsFull(rows: Rows, batchSize: nat)
    ensures |Claimed(rows, batchSize)| == if |PendingIds(rows)| <= batchSize then |PendingIds(rows)| else batchSize
  {
    InOrderSize(PendingIds(rows));
  }

  // ---------------------------------------------------------------- what a pass leaves

  lemma {:induction false} MarkedRows(rows: Rows, batch: seq<nat>, k: nat, id: nat)
    requires k <= |batch| && id in rows
    requires forall i :: 0 <= i < |batch| ==> batch[i] in rows
    requires forall i, j :: 0 <= i < j < |batch| ==> batch[i] < batch[j]
    ensures Marked(rows, batch, k)[id] == if id in batch[..k] then Published(rows[id]) else rows[id]
  {
    if k > 0 {
      MarkedRows(rows, batch, k - 1, id);
      assert batch[..k] == batch[..k - 1] + [batch[k - 1]];
      forall i | 0 <= i < k - 1 ensures batch[i] != batch[k - 1] {
      }
    }
  }

  lemma ClaimAscends(rows: Rows, batchSize: nat)
    ensures forall i, j :: 0 <= i < j < |Claimed(rows, batchSize)| ==> Claimed(rows, batchSize)[i] < Claimed(rows, batchSize)[j]
  {
    InOrderAscends(PendingIds(rows));
  }

  /** Whatever goes wrong in a pass: no row appears or disappears or changes its message, no row ceases
      to be published, and a row becomes published only if this pass sent it. */
  lemma PassPublishesOnlySent(rows: Rows, p: Pass, id: nat)
    ensures id in PassRows(rows, p) <==> id in rows
    ensures id in rows ==> PassRows(rows, p)[id].message == rows[id].message
    ensures id in rows && rows[id].published ==> PassRows(rows, p)[id] == rows[id]
    ensures id in rows && !rows[id].published && PassRows(rows, p)[id].published ==> id in PassSends(rows, p)
  {
    var batch := Claimed(rows, p.batchSize);
    ClaimAscends(rows, p.batchSize);
    if id in rows {
      MarkedRows(rows, batch, Stop(p, batch, 0), id);
    }
  }

  /** Everything before position `n` of the batch is sent and marked, and the row there, if there is one, is
      not. */
  predicate EndsAt(p: Pass, batch: seq<nat>, n: nat) {
    && n <= |batch|
    && (forall i :: 0 <= i < n ==> p.sink(batch[i]).Accepted? && p.marks(batch[i]))
    && (n < |batch| ==> p.sink(batch[n]).Accepted? ==> !p.marks(batch[n]))
  }

  lemma {:induction false} StopIsEnd(p: Pass, batch: seq<nat>, n: nat, k: nat)
    requires EndsAt(p, batch, n) && k <= n
    ensures Stop(p, batch, k) == n
    decreases n - k
  {
    if k < n {
      StopIsEnd(p, batch, n, k + 1);
    }
  }

  /** The pass keeps what it has marked: it went to the end, or it stopped at a refused send that it could
      record, and its transaction commits. */
  predicate Keeps(p: Pass, batch: seq<nat>, n: nat) {
    p.claims && p.commits && n <= |batch| && (n < |batch| ==> p.sink(batch[n]).Refused? && p.marks(batch[n]))
  }

  /** What a pass leaves in each row: one more attempt and published, for those before the end; one more
      attempt and the error, for the one refused; every other row, or all if the pass keeps nothing, as it
      was. */
  lemma PassLeaves(rows: Rows, p: Pass, n: nat, id: nat)
    requires EndsAt(p, Claimed(rows, p.batchSize), n) && id in rows
    ensures
      var batch := Claimed(rows, p.batchSize);
      var r, q := rows[id], PassRows(rows, p);
      && id in q
      && (Keeps(p, batch, n) && id in batch[..n] ==> q[id] == OutboxRow(r.message, true, r.attempts + 1, None))
      && (Keeps(p, batch, n) && n < |batch| && id == batch[n] ==>
            q[id] == OutboxRow(r.message, false, r.attempts + 1, Some(p.sink(id).error)))
      && (!Keeps(p, batch, n) || (id !in batch[..n] && (n < |batch| ==> id != batch[n])) ==> q[id] == r)
  {
    var batch := Claimed(rows, p.batchSize);
    StopIsEnd(p, batch, n, 0);
    ClaimAscends(rows, p.batchSize);
    MarkedRows(rows, batch, n, id);
    assert n < |batch| ==> batch[n] !in batch[..n];
  }

  /** What a pass sends and reports: the rows before the end, and the one it ends at if the broker took it;
      the refused send, the failed mark or the failed commit that it ends with. */
  lemma PassTells(rows: Rows, p: Pass, n: nat)
    requires EndsAt(p, Claimed(rows, p.batchSize), n)
    ensures
      var batch := Claimed(rows, p.batchSize);
      var last := if n < |batch| && (p.sink(batch[n]).Accepted? || p.sink(batch[n]).taken) then [batch[n]] else [];
      && PassSends(rows, p) == (if p.claims then batch[..n] + last else [])
      && (EndError(p, batch, n).None? <==> n == |batch| && p.commits)
      && (EndError(p, batch, n) == Some(CommitFailed) <==> n == |batch| && !p.commits)
      && (n < |batch| && p.sink(batch[n]).Accepted? ==> EndError(p, batch, n) == Some(MarkFailed(batch[n])))
      && (n < |batch| && p.sink(batch[n]).Refused? ==>
            EndError(p, batch, n) == Some(SendFailed(batch[n], p.sink(batch[n]).error)))
  {
    StopIsEnd(p, Claimed(rows, p.batchSize), n, 0);
  }

  // ---------------------------------------------------------------- draining

  lemma {:induction false} MarkingShrinks(rows: Rows, batch: seq<nat>, k: nat)
    requires k <= |batch|
    requires forall i :: 0 <= i < |batch| ==> batch[i] in rows && !rows[batch[i]].published
    requires forall i, j :: 0 <= i < j < |batch| ==> batch[i] < batch[j]
    ensures |PendingIds(Marked(rows, batch, k))| == |PendingIds(rows)| - k
  {
    if k > 0 {
      MarkingShrinks(rows, batch, k - 1);
      MarkedRows(rows, batch, k - 1, batch[k - 1]);
      MarkingOne(Marked(rows, batch, k - 1), batch[k - 1]);
    }
  }

  lemma MarkingOne(rows: Rows, id: nat)
    requires id in rows && !rows[id].published
    ensures PendingIds(rows[id := Published(rows[id])]) == PendingIds(rows) - {No(id)}
    ensures |PendingIds(rows[id := Published(rows[id])])| == |PendingIds(rows)| - 1
  {
    var after := rows[id := Published(rows[id])];
    forall x | x in PendingIds(rows) - {No(id)} ensures x in PendingIds(after) {
      assert x.n in after && x.n != id;
    }
    forall x | x in PendingIds(after) ensures x in PendingIds(rows) - {No(id)} {
      assert x.n in after && x.n != id;
    }
    assert No(id) in PendingIds(rows);
  }

  lemma FailedStaysPending(rows: Rows, id: nat, error: string)
    requires id in rows
    ensures PendingIds(rows[id := Failed(rows[id], error)]) == PendingIds(rows)
  {
    var after := rows[id := Failed(rows[id], error)];
    forall x | x in PendingIds(rows) ensures x in PendingIds(after) {
      assert x.n in after;
    }
    forall x | x in PendingIds(after) ensures x in PendingIds(rows) {
      assert x.n in rows;
    }
  }

  /** Nothing goes wrong in the pass. */
  ghost predicate Good(p: Pass) {
    p.claims && p.commits && forall id :: p.sink(id).Accepted? && p.marks(id)
  }

  /** No pass makes more rows pending, and a good one publishes a whole batch, or all there is. */
  lemma PassShrinks(rows: Rows, p: Pass)
    ensures |PendingIds(PassRows(rows, p))| <= |PendingIds(rows)|
    ensures Good(p) ==>
              |PendingIds(PassRows(rows, p))| == if |PendingIds(rows)| <= p.batchSize then 0 else |PendingIds(rows)| - p.batchSize
  {
    var batch := Claimed(rows, p.batchSize);
    var n := Stop(p, batch, 0);
    ClaimIsFull(rows, p.batchSize);
    ClaimAscends(rows, p.batchSize);
    MarkingShrinks(rows, batch, n);
    if n < |batch| && p.sink(batch[n]).Refused? {
      FailedStaysPending(Marked(rows, batch, n), batch[n], p.sink(batch[n]).error);
    }
  }

  function AfterPasses(rows: Rows, ps: seq<Pass>): Rows {
    if ps == [] then rows else PassRows(AfterPasses(rows, ps[..|ps| - 1]), ps[|ps| - 1])
  }

  /** How many rows the good passes among these may publish. */
  ghost function Capacity(ps: seq<Pass>): nat {
    if ps == [] then 0 else Capacity(ps[..|ps| - 1]) + (if Good(ps[|ps| - 1]) then ps[|ps| - 1].batchSize else 0)
  }

  /** Passes drain the table however many of them fail and wherever: once the good ones among them
      have had room for every row that was pending, none is. */
  lemma {:induction false} PassesDrain(rows: Rows, ps: seq<Pass>)
    ensures |PendingIds(AfterPasses(rows, ps))| <= |PendingIds(rows)|
    ensures Capacity(ps) < |PendingIds(rows)| ==> |PendingIds(AfterPasses(rows, ps))| <= |PendingIds(rows)| - Capacity(ps)
    ensures Capacity(ps) >= |PendingIds(rows)| ==> PendingIds(AfterPasses(rows, ps)) == {}
  {
    if ps != [] {
      PassesDrain(rows, ps[..|ps| - 1]);
      PassShrinks(AfterPasses(rows, ps[..|ps| - 1]), ps[|ps| - 1]);
    }
  }

  lemma {:induction false} GoodCapacity(ps: seq<Pass>, batchSize: nat)
    requires forall p :: p in ps ==> Good(p) && p.batchSize == batchSize
    ensures Capacity(ps) == |ps| * batchSize
  {
    if ps != [] {
      GoodCapacity(ps[..|ps| - 1], batchSize);
    }
  }

  lemma RoomForAll(n: nat, size: nat, passes: nat)
    requires size > 0 && passes >= n / size + 1
    ensures n < passes * size
  {
    assert n < (n / size + 1) * size;
    assert (passes - (n / size + 1)) * size >= 0;
  }

  /** With nothing going wrong, this many passes leave no row pending. */
  lemma GoodPassesDrain(rows: Rows, ps: seq<Pass>, batchSize: nat)
    requires batchSize > 0 && |ps| >= |PendingIds(rows)| / batchSize + 1
    requires forall p :: p in ps ==> Good(p) && p.batchSize == batchSize
    ensures PendingIds(AfterPasses(rows, ps)) == {}
  {
    GoodCapacity(ps, batchSize);
    RoomForAll(|PendingIds(rows)|, batchSize, |ps|);
    PassesDrain(rows, ps);
  }
}
