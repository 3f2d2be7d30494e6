/** However often a source event is delivered, it rewrites at most one promise and is told of at most
    once. */
module RepromiseOnce {
  import opened Orders
  import opened Allocation
  import opened UseCaseTheorems
  import opened OrderSystem
  import opened Serializability
  import opened ProcessedMarks
  import opened History

  /** Everything that the committed transactions of one source event have written, in order. */
  function WrittenFor(cfg: Config, hist: seq<Rec>, m: string): seq<Effect> {
    if hist == [] then []
    else
      var n := |hist| - 1;
      WrittenFor(cfg, hist[..n], m) + (if Answers(cfg, hist[n], m) then hist[n].plan.effects else [])
  }

  ghost predicate AtMostOne(cfg: Config, hist: seq<Rec>, m: string) {
    forall j, k :: 0 <= j < k < |hist| && Answers(cfg, hist[j], m) ==> !Answers(cfg, hist[k], m)
  }

  lemma {:induction false} OneOrNone(cfg: Config, hist: seq<Rec>, m: string) returns (k: nat)
    requires AtMostOne(cfg, hist, m)
    ensures k <= |hist|
    ensures k == |hist| ==> WrittenFor(cfg, hist, m) == [] && forall j :: 0 <= j < |hist| ==> !Answers(cfg, hist[j], m)
    ensures k < |hist| ==> Answers(cfg, hist[k], m) && WrittenFor(cfg, hist, m) == hist[k].plan.effects
  {
    if hist == [] {
      k := 0;
    } else {
      var n := |hist| - 1;
      forall j | 0 <= j < n ensures hist[..n][j] == hist[j] {
      }
      var i := OneOrNone(cfg, hist[..n], m);
      if i < n {
        k := i;
        assert hist[..n][i] == hist[i];
      } else {
        k := if Answers(cfg, hist[n], m) then n else n + 1;
      }
    }
  }

  /** One rewritten order and the event that names its two departures. */
  ghost predicate OneRewrite(effects: seq<Effect>) {
    |effects| == 2 && effects[0].Store? && effects[1].Emit? && effects[1].event.OrderRepromised?
    && effects[1].event.orderId == effects[0].order.id
  }

  lemma RecordRewrites(copies: Event -> nat, keyed: bool, orders: map<OrderId, OrderState>, r: Rec, m: string)
    requires Serial(Real(copies, keyed), orders, r) && Answers(Real(copies, keyed), r, m)
    ensures r.plan.effects == [] || OneRewrite(r.plan.effects)
  {
    assert r.job.Repromise?;
    if r.base.Some? {
      OtherPlansKeepRow(r.base.value, r.job.lineNo, r.job.reason, r.job.env);
    }
  }

  /** In every run, under any redelivery and interleaving: all that the committed transactions of one
      source event have written is nothing, or one order and one event that it was promised again. */
  lemma AtMostOneRewritePerSourceEvent(copies: Event -> nat, keyed: bool, actions: seq<Action>, m: string)
    ensures
      var written := WrittenFor(Real(copies, keyed), Run(Real(copies, keyed), actions).hist, m);
      written == [] || OneRewrite(written)
  {
    var cfg := Real(copies, keyed);
    var hist := Run(cfg, actions).hist;
    OneCommitPerSourceEvent(cfg, actions, m);
    RealIsHonest(copies, keyed);
    EveryRunIsSerial(cfg, actions);
    var k := OneOrNone(cfg, hist, m);
    if k < |hist| {
      RecordRewrites(copies, keyed, Replay(hist[..k]), hist[k], m);
    }
  }
}
