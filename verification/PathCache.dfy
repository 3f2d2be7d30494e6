/** The replayed path cache: it is ready exactly when everything that was in the topic at the start
    has been handled, and it holds the last write of every path. */
module PathCache {
  import opened Wrappers
  import opened PathCatalogue

  datatype Payload =
    | NotAnEvent
    | Upsert(def: PathDefinition)
    | Deactivate(id: string)
    | Undecodable
    | OtherType

  datatype Message = Message(partition: nat, offset: int, payload: Payload)

  // ---------------------------------------------------------------- the cache as a value

  type Paths = map<string, PathDefinition>

  function Handled(upper: Folding, paths: Paths, m: Message): Paths {
    match m.payload
    case Upsert(def) => paths[upper(def.id) := def]
    case Deactivate(id) => paths - {upper(id)}
    case _ => paths
  }

  function Replayed(upper: Folding, ms: seq<Message>): Paths {
    if ms == [] then map[] else Handled(upper, Replayed(upper, ms[..|ms| - 1]), ms[|ms| - 1])
  }

  /** Reaches the watermark of its partition: with the exclusive end captured at the start. */
  predicate CatchesUp(target: map<nat, int>, m: Message) {
    m.partition in target && m.offset + 1 >= target[m.partition]
  }

  /** The partitions still behind after some messages. */
  function Behind(target: map<nat, int>, ms: seq<Message>): map<nat, int> {
    if ms == [] then target
    else
      var before := Behind(target, ms[..|ms| - 1]);
      var m := ms[|ms| - 1];
      if CatchesUp(before, m) then before - {m.partition} else before
  }

  class Consumer {
    const upper: Folding
    var paths: Paths
    var ready: bool
    var target: map<nat, int>
    /** How often the ready channel has been closed; a second time would panic. */
    var closes: nat

    /** Nothing to catch up with means ready from the start. */
    constructor (upper: Folding, target: map<nat, int>)
      ensures paths == map[] && this.upper == upper && this.target == target
      ensures ready <==> target == map[]
      ensures closes == if ready then 1 else 0
    {
      this.upper := upper;
      paths := map[];
      this.target := target;
      ready := false;
      closes := 0;
      new;
      if |target| == 0 { MarkReady(); }
    }

    method MarkReady()
      requires closes == if ready then 1 else 0
      modifies this`ready, this`closes
      ensures ready && closes == 1
    {
      var alreadyReady := ready;
      ready := true;
      if !alreadyReady { closes := closes + 1; }
    }

    method Handle(m: Message)
      modifies this`paths
      ensures paths == Handled(upper, old(paths), m)
    {
      match m.payload {
        case NotAnEvent =>
        case Upsert(def) => paths := paths[upper(def.id) := def];
        case Deactivate(id) => paths := paths - {upper(id)};
        case Undecodable =>
        case OtherType =>
      }
    }

    method CheckReady(m: Message)
      requires closes == if ready then 1 else 0
      requires ready <==> target == map[]
      modifies this`ready, this`closes, this`target
      ensures target == if CatchesUp(old(target), m) then old(target) - {m.partition} else old(target)
      ensures ready <==> target == map[]
      ensures closes == if ready then 1 else 0
      ensures old(ready) ==> ready
    {
      if ready || m.partition !in target { return; }
      if m.offset + 1 < target[m.partition] { return; }
      target := target - {m.partition};
      var allCaughtUp := |target| == 0;
      if allCaughtUp { MarkReady(); }
    }

    /** A message that cannot be handled is skipped, and still counts as seen. */
    method Run(ms: seq<Message>)
      requires paths == map[] && closes == (if ready then 1 else 0) && (ready <==> target == map[])
      modifies this
      ensures paths == Replayed(upper, ms)
      ensures target == Behind(old(target), ms)
      ensures ready <==> Behind(old(target), ms) == map[]
      ensures closes == if ready then 1 else 0
      ensures old(ready) ==> ready
    {
      for i := 0 to |ms|
        invariant paths == Replayed(upper, ms[..i]) && target == Behind(old(target), ms[..i])
        invariant ready <==> target == map[]
        invariant closes == if ready then 1 else 0
        invariant old(ready) ==> ready
      {
        assert ms[..i + 1][..i] == ms[..i];
        Handle(ms[i]);
        CheckReady(ms[i]);
      }
      assert ms[..|ms|] == ms;
    }
  }

  // ---------------------------------------------------------------- last write wins

  function KeyOf(upper: Folding, m: Message): Option<string> {
    match m.payload
    case Upsert(def) => Some(upper(def.id))
    case Deactivate(id) => Some(upper(id))
    case _ => None
  }

  /** The last message that touches the key is the one at `i`. */
  ghost predicate LastTouch(upper: Folding, ms: seq<Message>, key: string, i: int) {
    0 <= i < |ms| && KeyOf(upper, ms[i]) == Some(key) && forall j :: i < j < |ms| ==> KeyOf(upper, ms[j]) != Some(key)
  }

  /** The cache holds a path exactly when the last message about it declared it, and holds what that
      message said. */
  lemma {:induction false} LastWriteWins(upper: Folding, ms: seq<Message>, key: string)
    ensures key in Replayed(upper, ms) <==> exists i :: LastTouch(upper, ms, key, i) && ms[i].payload.Upsert?
    ensures forall i :: LastTouch(upper, ms, key, i) && ms[i].payload.Upsert? ==> key in Replayed(upper, ms) && Replayed(upper, ms)[key] == ms[i].payload.def
  {
    if ms != [] {
      var n := |ms| - 1;
      LastWriteWins(upper, ms[..n], key);
      if KeyOf(upper, ms[n]) == Some(key) {
        assert LastTouch(upper, ms, key, n);
        assert forall i :: LastTouch(upper, ms, key, i) ==> i == n;
      } else {
        forall i ensures LastTouch(upper, ms, key, i) <==> LastTouch(upper, ms[..n], key, i) {
          TouchStays(upper, ms, key, i);
        }
      }
    }
  }

  lemma TouchStays(upper: Folding, ms: seq<Message>, key: string, i: int)
    requires ms != [] && KeyOf(upper, ms[|ms| - 1]) != Some(key)
    ensures LastTouch(upper, ms, key, i) <==> LastTouch(upper, ms[..|ms| - 1], key, i)
  {
    var n := |ms| - 1;
    forall j | 0 <= j < n ensures ms[..n][j] == ms[j] {
    }
    if LastTouch(upper, ms[..n], key, i) {
      forall j | i < j < |ms| ensures KeyOf(upper, ms[j]) != Some(key) {
        assert j < n ==> ms[..n][j] == ms[j];
      }
    }
  }

  // ---------------------------------------------------------------- readiness

  lemma {:induction false} BehindMeans(target: map<nat, int>, ms: seq<Message>, p: nat)
    ensures p in Behind(target, ms) <==>
              p in target && forall i :: 0 <= i < |ms| && ms[i].partition == p ==> ms[i].offset + 1 < target[p]
    ensures p in Behind(target, ms) ==> Behind(target, ms)[p] == target[p]
  {
    if ms != [] {
      var n := |ms| - 1;
      BehindMeans(target, ms[..n], p);
      forall i | 0 <= i < n ensures ms[..n][i] == ms[i] {
      }
      assert ms == ms[..n] + [ms[n]];
    }
  }

  /** The offsets that a partition delivered, in order. */
  function DeliveredOf(ms: seq<Message>, p: nat): seq<int> {
    if ms == [] then []
    else
      var n := |ms| - 1;
      DeliveredOf(ms[..n], p) + (if ms[n].partition == p then [ms[n].offset] else [])
  }

  lemma {:induction false} DeliveredMeans(ms: seq<Message>, p: nat, offset: int)
    ensures offset in DeliveredOf(ms, p) <==> exists i :: 0 <= i < |ms| && ms[i].partition == p && ms[i].offset == offset
  {
    if ms != [] {
      var n := |ms| - 1;
      DeliveredMeans(ms[..n], p, offset);
      forall i | 0 <= i < n ensures ms[..n][i] == ms[i] {
      }
      if offset in DeliveredOf(ms[..n], p) {
        var i :| 0 <= i < n && ms[..n][i].partition == p && ms[..n][i].offset == offset;
        assert ms[i].partition == p && ms[i].offset == offset;
      }
    }
  }

  /** The offsets of the messages that each partition holds, ascending. */
  type Logs = nat -> seq<int>

  /** Each partition delivers a prefix of its log; how the partitions interleave is arbitrary. */
  ghost predicate DeliversInOrder(logs: Logs, ms: seq<Message>) {
    forall p :: DeliveredOf(ms, p) <= logs(p) && forall i, j :: 0 <= i < j < |logs(p)| ==> logs(p)[i] < logs(p)[j]
  }

  /** Everything below the watermark of a partition has been handled. */
  ghost predicate AllHandled(logs: Logs, target: map<nat, int>, ms: seq<Message>, p: nat)
    requires p in target
  {
    forall offset :: offset in logs(p) && offset < target[p] ==> offset in DeliveredOf(ms, p)
  }

  /** There is an offset at the last one below the watermark, or after it. */
  ghost predicate Reaches(offsets: seq<int>, watermark: int) {
    exists offset :: offset in offsets && offset + 1 >= watermark
  }

  /** The watermark is one past a message that its partition still holds. */
  ghost predicate Captured(logs: Logs, target: map<nat, int>) {
    forall p :: p in target ==> target[p] - 1 in logs(p)
  }

  lemma PartitionReached(target: map<nat, int>, ms: seq<Message>, p: nat)
    requires p in target
    ensures p !in Behind(target, ms) <==> Reaches(DeliveredOf(ms, p), target[p])
  {
    BehindMeans(target, ms, p);
    forall offset ensures offset in DeliveredOf(ms, p) <==> exists i :: 0 <= i < |ms| && ms[i].partition == p && ms[i].offset == offset {
      DeliveredMeans(ms, p, offset);
    }
    if p !in Behind(target, ms) {
      var i :| 0 <= i < |ms| && ms[i].partition == p && ms[i].offset + 1 >= target[p];
      assert ms[i].offset in DeliveredOf(ms, p);
    }
  }

  lemma ReachedIsHandled(logs: Logs, target: map<nat, int>, ms: seq<Message>, p: nat)
    requires DeliversInOrder(logs, ms) && p in target && Reaches(DeliveredOf(ms, p), target[p])
    ensures AllHandled(logs, target, ms, p)
  {
    var log, got := logs(p), DeliveredOf(ms, p);
    var at :| 0 <= at < |got| && got[at] + 1 >= target[p];
    forall offset | offset in log && offset < target[p] ensures offset in got {
      var k :| 0 <= k < |log| && log[k] == offset;
      assert log[at] == got[at];
      assert k <= at;
      assert got[k] == log[k];
    }
  }

  lemma ReadyMeans(target: map<nat, int>, ms: seq<Message>)
    ensures Behind(target, ms) == map[] <==> forall p :: p in target ==> Reaches(DeliveredOf(ms, p), target[p])
  {
    forall p | p in target ensures p !in Behind(target, ms) <==> Reaches(DeliveredOf(ms, p), target[p]) {
      PartitionReached(target, ms, p);
    }
    forall p | p in Behind(target, ms) ensures p in target {
      BehindMeans(target, ms, p);
    }
    if forall p :: p in target ==> Reaches(DeliveredOf(ms, p), target[p]) {
      assert forall p :: p !in Behind(target, ms);
    }
  }

  /** For any interleaving of partitions that each deliver in order: a ready cache has handled every
      message below the watermarks captured at the start; and it is ready as soon as it has, provided
      that the message just below each watermark is still there. */
  lemma ReadyExactlyWhenCaughtUp(logs: Logs, target: map<nat, int>, ms: seq<Message>)
    requires DeliversInOrder(logs, ms)
    ensures Behind(target, ms) == map[] ==> forall p :: p in target ==> AllHandled(logs, target, ms, p)
    ensures Captured(logs, target) ==>
              (Behind(target, ms) == map[] <==> forall p :: p in target ==> AllHandled(logs, target, ms, p))
  {
    ReadyMeans(target, ms);
    forall p | p in target && Reaches(DeliveredOf(ms, p), target[p]) ensures AllHandled(logs, target, ms, p) {
      ReachedIsHandled(logs, target, ms, p);
    }
    forall p | p in target && Captured(logs, target) && AllHandled(logs, target, ms, p)
      ensures Reaches(DeliveredOf(ms, p), target[p])
    {
      assert target[p] - 1 in DeliveredOf(ms, p);
    }
  }

  /** A cache that has handled all there is becomes ready if and only if every tracked partition still
      holds a message at or after the last offset below its watermark. */
  lemma ReadyAtTheEndIff(logs: Logs, target: map<nat, int>, ms: seq<Message>)
    requires forall p :: p in target ==> DeliveredOf(ms, p) == logs(p)
    ensures Behind(target, ms) == map[] <==> forall p :: p in target ==> Reaches(logs(p), target[p])
  {
    ReadyMeans(target, ms);
  }

  /** Two messages, of which the log keeps the first: all that is left has been handled, and the cache
      waits for a message that will not come. */
  lemma LostLastMessageKeepsItWaiting(payload: Payload)
    ensures
      var ms, target, logs := [Message(0, 0, payload)], map[0 as nat := 2], (p: nat) => if p == 0 then [0] else [];
      && DeliversInOrder(logs, ms) && AllHandled(logs, target, ms, 0)
      && (forall p :: p in target ==> DeliveredOf(ms, p) == logs(p))
      && Behind(target, ms) != map[]
  {
    var ms, target := [Message(0, 0, payload)], map[0 as nat := 2];
    var logs := (p: nat) => if p == 0 then [0] else [];
    forall p ensures DeliveredOf(ms, p) == logs(p) {
      assert ms[..0] == [];
      assert DeliveredOf(ms[..0], p) == [];
    }
    PartitionReached(target, ms, 0);
  }

  /** Readiness is never lost, whatever is delivered later. */
  lemma ReadyStays(target: map<nat, int>, ms: seq<Message>, more: seq<Message>)
    requires Behind(target, ms) == map[]
    ensures Behind(target, ms + more) == map[]
  {
    forall p ensures p !in Behind(target, ms + more) {
      BehindMeans(target, ms, p);
      BehindMeans(target, ms + more, p);
      if p in target {
        var i :| 0 <= i < |ms| && ms[i].partition == p && ms[i].offset + 1 >= target[p];
        assert (ms + more)[i] == ms[i];
      }
    }
  }
}
