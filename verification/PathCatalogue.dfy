/** Longest-prefix lookup over the active process paths, and the choice of a path for a line. Both
    read an unordered map, so what they return must not depend on the order of its entries. */
module PathCatalogue {
  import opened Wrappers
  import opened Orders

  datatype Eligibility = Eligibility(maxUnits: Option<int>, required: seq<string>, excluded: seq<string>)

  datatype PathDefinition = PathDefinition(id: string, matchPrefix: string, cycleTime: Option<Duration>, eligibility: Eligibility)

  // ---------------------------------------------------------------- lookup

  /** How the language's library maps a text to lower or to upper case. */
  type Folding = string -> string

  /** The id is the prefix, or goes on after it with a hyphen. */
  predicate MatchesPrefix(id: string, prefix: string) {
    id == prefix || prefix + "-" <= id
  }

  predicate Recognizes(fold: Folding, d: PathDefinition, lower: string) {
    fold(d.matchPrefix) != "" && MatchesPrefix(lower, fold(d.matchPrefix))
  }

  /** The position of the first definition among those with the longest matching prefix. */
  function BestMatch(fold: Folding, defs: seq<PathDefinition>, lower: string): (r: Option<nat>)
    ensures r.Some? ==> r.value < |defs| && Recognizes(fold, defs[r.value], lower)
  {
    if defs == [] then None
    else
      var n := |defs| - 1;
      var best := BestMatch(fold, defs[..n], lower);
      if Recognizes(fold, defs[n], lower) && (best.None? || |fold(defs[n].matchPrefix)| > |fold(defs[best.value].matchPrefix)|)
      then Some(n)
      else best
  }

  function Found(fold: Folding, defs: seq<PathDefinition>, id: string): Option<PathDefinition> {
    match BestMatch(fold, defs, fold(id))
    case None => None
    case Some(i) => Some(defs[i])
  }

  /** `None` is the error for an unknown or inactive path. */
  method Lookup(fold: Folding, defs: seq<PathDefinition>, id: string) returns (r: Option<PathDefinition>)
    ensures r == Found(fold, defs, id)
  {
    var lower := fold(id);
    var best: Option<PathDefinition> := None;
    var bestLen := -1;
    ghost var at: Option<nat> := None;
    for i := 0 to |defs|
      invariant at == BestMatch(fold, defs[..i], lower)
      invariant best == if at.None? then None else Some(defs[at.value])
      invariant bestLen == if at.None? then -1 else |fold(defs[at.value].matchPrefix)|
    {
      assert defs[..i + 1][..i] == defs[..i];
      var prefix := fold(defs[i].matchPrefix);
      if prefix == "" { continue; }
      if !MatchesPrefix(lower, prefix) { continue; }
      if |prefix| > bestLen {
        best := Some(defs[i]);
        bestLen := |prefix|;
        at := Some(i);
      }
    }
    assert defs[..|defs|] == defs;
    return best;
  }

  /** A definition with the longest matching prefix. */
  ghost predicate Longest(fold: Folding, defs: seq<PathDefinition>, lower: string, d: PathDefinition) {
    d in defs && Recognizes(fold, d, lower)
    && forall e :: e in defs && Recognizes(fold, e, lower) ==> |fold(e.matchPrefix)| <= |fold(d.matchPrefix)|
  }

  lemma {:induction false} BestIsLongest(fold: Folding, defs: seq<PathDefinition>, lower: string)
    ensures BestMatch(fold, defs, lower).None? <==> forall d :: d in defs ==> !Recognizes(fold, d, lower)
    ensures BestMatch(fold, defs, lower).Some? ==> Longest(fold, defs, lower, defs[BestMatch(fold, defs, lower).value])
  {
    if defs != [] {
      var n := |defs| - 1;
      BestIsLongest(fold, defs[..n], lower);
      assert defs == defs[..n] + [defs[n]];
      var best := BestMatch(fold, defs[..n], lower);
      if best.Some? {
        assert defs[best.value] == defs[..n][best.value];
      }
    }
  }

  /** Two matching prefixes of the same length are the same prefix. */
  lemma SameLengthSamePrefix(lower: string, p: string, q: string)
    requires MatchesPrefix(lower, p) && MatchesPrefix(lower, q) && |p| == |q|
    ensures p == q
  {
    assert p == lower[..|p|] && q == lower[..|q|];
  }

  lemma LongestSharePrefix(fold: Folding, defs: seq<PathDefinition>, lower: string, d: PathDefinition, e: PathDefinition)
    requires Longest(fold, defs, lower, d) && Longest(fold, defs, lower, e)
    ensures fold(d.matchPrefix) == fold(e.matchPrefix)
  {
    SameLengthSamePrefix(lower, fold(d.matchPrefix), fold(e.matchPrefix));
  }

  /** Whatever the order of the definitions: lookup fails exactly when none matches, and otherwise the
      winning prefix is the one longest match. */
  lemma WinningPrefixIgnoresOrder(fold: Folding, defs: seq<PathDefinition>, others: seq<PathDefinition>, id: string)
    requires forall d :: d in defs <==> d in others
    ensures Found(fold, defs, id).None? <==> Found(fold, others, id).None?
    ensures Found(fold, defs, id).None? <==> forall d :: d in defs ==> !Recognizes(fold, d, fold(id))
    ensures Found(fold, defs, id).Some? ==> Longest(fold, defs, fold(id), Found(fold, defs, id).value)
    ensures Found(fold, defs, id).Some? ==>
              fold(Found(fold, defs, id).value.matchPrefix) == fold(Found(fold, others, id).value.matchPrefix)
  {
    BestIsLongest(fold, defs, fold(id));
    BestIsLongest(fold, others, fold(id));
    if Found(fold, defs, id).Some? {
      LongestSharePrefix(fold, defs, fold(id), Found(fold, defs, id).value, Found(fold, others, id).value);
    }
  }

  lemma FirstLongestWins(fold: Folding, defs: seq<PathDefinition>, lower: string, d: PathDefinition, i: nat)
    requires i < |defs| && defs[i] == d && Longest(fold, defs, lower, d)
    requires forall j :: 0 <= j < i ==> !Longest(fold, defs, lower, defs[j])
    ensures BestMatch(fold, defs, lower) == Some(i)
    decreases |defs|
  {
    BestIsLongest(fold, defs, lower);
    var b := BestMatch(fold, defs, lower).value;
    BestIsFirst(fold, defs, lower);
    assert Longest(fold, defs, lower, defs[b]);
  }

  /** No earlier definition has a prefix as long as the one that wins. */
  lemma {:induction false} BestIsFirst(fold: Folding, defs: seq<PathDefinition>, lower: string)
    ensures BestMatch(fold, defs, lower).Some? ==>
              forall j :: 0 <= j < BestMatch(fold, defs, lower).value && Recognizes(fold, defs[j], lower) ==>
                |fold(defs[j].matchPrefix)| < |fold(defs[BestMatch(fold, defs, lower).value].matchPrefix)|
  {
    if defs != [] {
      var n := |defs| - 1;
      BestIsFirst(fold, defs[..n], lower);
      BestIsLongest(fold, defs[..n], lower);
      forall j | 0 <= j < n ensures defs[..n][j] == defs[j] {
      }
      if BestMatch(fold, defs, lower) == Some(n) && BestMatch(fold, defs[..n], lower).Some? {
        forall j | 0 <= j < n && Recognizes(fold, defs[j], lower)
          ensures |fold(defs[j].matchPrefix)| <= |fold(defs[BestMatch(fold, defs[..n], lower).value].matchPrefix)|
        {
          assert defs[..n][j] in defs[..n];
        }
      }
    }
  }

  function MovedToFront(defs: seq<PathDefinition>, i: nat): (r: seq<PathDefinition>)
    requires i < |defs|
    ensures |r| == |defs| && r[0] == defs[i]
  {
    [defs[i]] + defs[..i] + defs[i + 1..]
  }

  lemma MovingPermutes(defs: seq<PathDefinition>, i: nat)
    requires i < |defs|
    ensures multiset(MovedToFront(defs, i)) == multiset(defs)
    ensures forall d :: d in MovedToFront(defs, i) <==> d in defs
  {
    assert defs == defs[..i] + [defs[i]] + defs[i + 1..];
  }

  /** The definition that lookup returns is the same for every order of the entries if and only if all
      definitions with the longest matching prefix are equal. */
  lemma DefinitionIgnoresOrderIff(fold: Folding, defs: seq<PathDefinition>, id: string)
    ensures (forall others :: multiset(others) == multiset(defs) ==> Found(fold, others, id) == Found(fold, defs, id))
       <==> (forall d, e :: Longest(fold, defs, fold(id), d) && Longest(fold, defs, fold(id), e) ==> d == e)
  {
    var lower := fold(id);
    if forall d, e :: Longest(fold, defs, lower, d) && Longest(fold, defs, lower, e) ==> d == e {
      forall others | multiset(others) == multiset(defs) ensures Found(fold, others, id) == Found(fold, defs, id) {
        SameMembers(defs, others);
        WinningPrefixIgnoresOrder(fold, defs, others, id);
        WinningPrefixIgnoresOrder(fold, others, defs, id);
        if Found(fold, defs, id).Some? {
          assert Longest(fold, others, lower, Found(fold, others, id).value);
          assert Longest(fold, defs, lower, Found(fold, others, id).value);
        }
      }
    } else {
      var d, e :| Longest(fold, defs, lower, d) && Longest(fold, defs, lower, e) && d != e;
      FrontWins(fold, defs, id, d);
      FrontWins(fold, defs, id, e);
    }
  }

  /** Any longest match wins in some order. */
  lemma FrontWins(fold: Folding, defs: seq<PathDefinition>, id: string, d: PathDefinition)
    requires Longest(fold, defs, fold(id), d)
    ensures exists others :: multiset(others) == multiset(defs) && Found(fold, others, id) == Some(d)
  {
    var i :| 0 <= i < |defs| && defs[i] == d;
    var others := MovedToFront(defs, i);
    MovingPermutes(defs, i);
    assert Longest(fold, others, fold(id), d);
    FirstLongestWins(fold, others, fold(id), d, 0);
    assert Found(fold, others, id) == Some(d);
  }

  lemma SameMembers(xs: seq<PathDefinition>, ys: seq<PathDefinition>)
    requires multiset(xs) == multiset(ys)
    ensures forall d :: d in xs <==> d in ys
  {
    forall d ensures d in xs <==> d in ys {
      assert d in multiset(xs) <==> d in multiset(ys);
    }
  }

  /** Two definitions with one prefix: whichever entry comes first is returned. */
  lemma FirstOfTwoWins(fold: Folding, d: PathDefinition, e: PathDefinition, id: string)
    requires d.matchPrefix == e.matchPrefix && Recognizes(fold, d, fold(id))
    ensures Found(fold, [d, e], id) == Some(d)
  {
    assert forall x :: x in [d, e] ==> x == d || x == e;
    assert [d, e][0] == d;
    FirstLongestWins(fold, [d, e], fold(id), d, 0);
  }

  const UNLIMITED := Eligibility(None, [], [])
  const PICK_SMALL := PathDefinition("pick-small", "pick", Some(10), UNLIMITED)
  const PICK_LARGE := PathDefinition("pick-large", "pick", Some(90), UNLIMITED)

  /** Two active paths that declare the same prefix, so that the cache holds both under their own ids:
      one order of the map's entries finds the one, the other order the other, and they promise
      different cycle times. */
  lemma DefinitionCanDependOnOrder(fold: Folding)
    requires fold("pick") == "pick" && fold("pick-7") == "pick-7"
    ensures PICK_SMALL.id != PICK_LARGE.id
    ensures multiset([PICK_SMALL, PICK_LARGE]) == multiset([PICK_LARGE, PICK_SMALL])
    ensures Found(fold, [PICK_SMALL, PICK_LARGE], "pick-7") == Some(PICK_SMALL)
    ensures Found(fold, [PICK_LARGE, PICK_SMALL], "pick-7") == Some(PICK_LARGE)
    ensures PICK_SMALL.cycleTime != PICK_LARGE.cycleTime
  {
    assert PICK_SMALL.id[5] != PICK_LARGE.id[5];
    assert Recognizes(fold, PICK_SMALL, "pick-7");
    FirstOfTwoWins(fold, PICK_SMALL, PICK_LARGE, "pick-7");
    FirstOfTwoWins(fold, PICK_LARGE, PICK_SMALL, "pick-7");
  }

  // ---------------------------------------------------------------- choosing a path

  const GIFT_WRAP := "giftWrap"

  datatype Candidate = Candidate(pathId: string, cycleTime: Option<Duration>, eligibility: Eligibility)

  predicate Eligible(el: Eligibility, quantity: int, attributes: seq<string>) {
    && (el.maxUnits.Some? ==> quantity <= el.maxUnits.value)
    && (forall i :: 0 <= i < |el.required| ==> el.required[i] in attributes)
    && (forall i :: 0 <= i < |el.excluded| ==> el.excluded[i] !in attributes)
  }

  method LineEligible(el: Eligibility, quantity: int, attributes: seq<string>) returns (ok: bool)
    ensures ok == Eligible(el, quantity, attributes)
  {
    if el.maxUnits.Some? && quantity > el.maxUnits.value { return false; }
    for i := 0 to |el.required|
      invariant forall j :: 0 <= j < i ==> el.required[j] in attributes
    {
      if el.required[i] !in attributes { return false; }
    }
    for i := 0 to |el.excluded|
      invariant forall j :: 0 <= j < i ==> el.excluded[j] !in attributes
    {
      if el.excluded[i] in attributes { return false; }
    }
    return true;
  }

  predicate Less(a: string, b: string) {
    if b == "" then false
    else if a == "" then true
    else if a[0] != b[0] then a[0] < b[0]
    else Less(a[1..], b[1..])
  }

  /** Known cycle times first, shorter before longer, then the lower path id. */
  predicate Before(a: Candidate, b: Candidate) {
    if a.cycleTime.Some? != b.cycleTime.Some? then a.cycleTime.Some?
    else if a.cycleTime.Some? && a.cycleTime.value != b.cycleTime.value then a.cycleTime.value < b.cycleTime.value
    else Less(a.pathId, b.pathId)
  }

  lemma {:induction false} LessIsTotal(a: string, b: string)
    ensures Less(a, b) || Less(b, a) || a == b
    ensures !(Less(a, b) && Less(b, a))
  {
    if a != "" && b != "" && a[0] == b[0] {
      LessIsTotal(a[1..], b[1..]);
      assert a == [a[0]] + a[1..] && b == [b[0]] + b[1..];
    }
  }

  lemma {:induction false} LessIsTransitive(a: string, b: string, c: string)
    requires !Less(b, a) && !Less(c, b)
    ensures !Less(c, a)
  {
    if a != "" && b != "" && c != "" && a[0] == b[0] == c[0] {
      LessIsTransitive(a[1..], b[1..], c[1..]);
    }
  }

  lemma BeforeIsTransitive(a: Candidate, b: Candidate, c: Candidate)
    requires !Before(b, a) && !Before(c, b)
    ensures !Before(c, a)
  {
    if !Less(b.pathId, a.pathId) && !Less(c.pathId, b.pathId) {
      LessIsTransitive(a.pathId, b.pathId, c.pathId);
    }
  }

  predicate Ordered(cs: seq<Candidate>) {
    forall i, j :: 0 <= i < j < |cs| ==> !Before(cs[j], cs[i])
  }

  method InsertOrdered(cs: seq<Candidate>, c: Candidate) returns (r: seq<Candidate>)
    requires Ordered(cs)
    ensures Ordered(r) && multiset(r) == multiset(cs) + multiset{c}
  {
    var i := 0;
    while i < |cs| && !Before(c, cs[i])
      invariant i <= |cs| && forall j :: 0 <= j < i ==> !Before(c, cs[j])
    {
      i := i + 1;
    }
    r := cs[..i] + [c] + cs[i..];
    InsertedIsOrdered(cs, c, i);
    assert cs == cs[..i] + cs[i..];
  }

  lemma InsertedIsOrdered(cs: seq<Candidate>, c: Candidate, i: nat)
    requires Ordered(cs) && i <= |cs|
    requires forall j :: 0 <= j < i ==> !Before(c, cs[j])
    requires i < |cs| ==> Before(c, cs[i])
    ensures Ordered(cs[..i] + [c] + cs[i..])
  {
    var r := cs[..i] + [c] + cs[i..];
    forall j | 0 <= j < |r| ensures r[j] == if j < i then cs[j] else if j == i then c else cs[j - 1] {
    }
    forall k | i <= k < |cs| ensures !Before(cs[k], c) {
      LessIsTotal(c.pathId, cs[i].pathId);
      assert !Before(cs[i], c);
      if k > i {
        BeforeIsTransitive(c, cs[i], cs[k]);
      }
    }
  }

  method SortByPreference(cs: seq<Candidate>) returns (r: seq<Candidate>)
    ensures Ordered(r) && multiset(r) == multiset(cs)
  {
    r := [];
    for i := 0 to |cs|
      invariant Ordered(r) && multiset(r) == multiset(cs[..i])
    {
      assert cs[..i + 1] == cs[..i] + [cs[i]];
      r := InsertOrdered(r, cs[i]);
    }
    assert cs[..|cs|] == cs;
  }

  function Attributes(attributes: seq<string>, giftWrap: bool): seq<string> {
    if giftWrap then attributes + [GIFT_WRAP] else attributes
  }

  /** `p` is the path of an eligible candidate that no eligible candidate comes before. */
  ghost predicate Chosen(cs: seq<Candidate>, quantity: int, attributes: seq<string>, p: string) {
    exists c :: c in cs && Eligible(c.eligibility, quantity, attributes) && c.pathId == p
      && forall e :: e in cs && Eligible(e.eligibility, quantity, attributes) ==> !Before(e, c)
  }

  /** Fails open without a catalogue or candidates; `None` means that no active path takes the line. */
  method Select(quantity: int, giftWrap: bool, productAttributes: seq<string>, catalogue: Option<seq<Candidate>>)
    returns (r: Option<string>)
    ensures catalogue.None? || catalogue.value == [] ==> r == Some(DEFAULT_PATH_ID)
    ensures catalogue.Some? && catalogue.value != [] ==>
              (r.None? <==> forall c :: c in catalogue.value ==>
                 !Eligible(c.eligibility, quantity, Attributes(productAttributes, giftWrap)))
    ensures catalogue.Some? && catalogue.value != [] && r.Some? ==>
              Chosen(catalogue.value, quantity, Attributes(productAttributes, giftWrap), r.value)
  {
    if catalogue.None? || |catalogue.value| == 0 { return Some(DEFAULT_PATH_ID); }
    var candidates := catalogue.value;
    var attributes := if giftWrap then productAttributes + [GIFT_WRAP] else productAttributes;
    var eligible: seq<Candidate> := [];
    for i := 0 to |candidates|
      invariant forall c :: c in eligible <==> c in candidates[..i] && Eligible(c.eligibility, quantity, attributes)
    {
      assert candidates[..i + 1] == candidates[..i] + [candidates[i]];
      var ok := LineEligible(candidates[i].eligibility, quantity, attributes);
      if ok { eligible := eligible + [candidates[i]]; }
    }
    assert candidates[..|candidates|] == candidates;
    if |eligible| == 0 { return None; }
    var sorted := SortByPreference(eligible);
    FirstIsLeast(eligible, sorted);
    assert sorted[0] in candidates;
    return Some(sorted[0].pathId);
  }

  lemma FirstIsLeast(cs: seq<Candidate>, sorted: seq<Candidate>)
    requires Ordered(sorted) && multiset(sorted) == multiset(cs) && cs != []
    ensures sorted != [] && sorted[0] in cs && forall e :: e in cs ==> !Before(e, sorted[0])
  {
    assert cs[0] in multiset(cs);
    assert sorted[0] in multiset(sorted);
    forall e | e in cs ensures !Before(e, sorted[0]) {
      assert e in multiset(sorted);
      var i :| 0 <= i < |sorted| && sorted[i] == e;
      LessIsTotal(e.pathId, e.pathId);
    }
  }

  /** For every order of the candidates the choice is the same path. */
  lemma SelectIgnoresOrder(cs: seq<Candidate>, ds: seq<Candidate>, quantity: int, attributes: seq<string>, p: string, q: string)
    requires forall c :: c in cs <==> c in ds
    requires Chosen(cs, quantity, attributes, p) && Chosen(ds, quantity, attributes, q)
    ensures p == q
  {
    var c :| c in cs && Eligible(c.eligibility, quantity, attributes) && c.pathId == p
      && forall e :: e in cs && Eligible(e.eligibility, quantity, attributes) ==> !Before(e, c);
    var d :| d in ds && Eligible(d.eligibility, quantity, attributes) && d.pathId == q
      && forall e :: e in ds && Eligible(e.eligibility, quantity, attributes) ==> !Before(e, d);
    assert !Before(c, d) && !Before(d, c);
    LessIsTotal(c.pathId, d.pathId);
  }

  // ---------------------------------------------------------------- in terms of characters and numbers

  /** A path is recognized by its prefix alone, or by its prefix and then a hyphen, and never by an empty
      prefix. */
  lemma RecognizedIff(fold: Folding, d: PathDefinition, lower: string)
    ensures
      var p := fold(d.matchPrefix);
      Recognizes(fold, d, lower) <==>
        && 0 < |p| <= |lower| && (forall i :: 0 <= i < |p| ==> lower[i] == p[i])
        && (|lower| == |p| || lower[|p|] == '-')
  {
    var p := fold(d.matchPrefix);
    if 0 < |p| <= |lower| && (forall i :: 0 <= i < |p| ==> lower[i] == p[i]) {
      assert lower[..|p|] == p;
      if |lower| > |p| && lower[|p|] == '-' {
        assert lower[..|p| + 1] == p + "-";
      }
    }
    if p + "-" <= lower {
      assert lower[|p|] == (p + "-")[|p|];
      forall i | 0 <= i < |p| ensures lower[i] == p[i] {
        assert (p + "-")[i] == p[i];
      }
    }
  }

  /** Up to position `k` the two agree; there the first ends, or has the smaller character. */
  predicate SmallerAt(a: string, b: string, k: nat) {
    && k <= |a| && k < |b| && (forall i :: 0 <= i < k ==> a[i] == b[i])
    && (k == |a| || a[k] < b[k])
  }

  lemma {:induction false} LessIff(a: string, b: string)
    ensures Less(a, b) <==> exists k: nat :: SmallerAt(a, b, k)
  {
    if a == "" || b == "" {
      assert b != "" ==> SmallerAt(a, b, 0);
    } else if a[0] != b[0] {
      assert a[0] < b[0] ==> SmallerAt(a, b, 0);
    } else {
      LessIff(a[1..], b[1..]);
      if Less(a, b) {
        var k: nat :| SmallerAt(a[1..], b[1..], k);
        forall i | 0 <= i < k + 1 ensures a[i] == b[i] {
          assert i > 0 ==> a[1..][i - 1] == b[1..][i - 1];
        }
        assert SmallerAt(a, b, k + 1);
      }
      if exists k: nat :: SmallerAt(a, b, k) {
        var k: nat :| SmallerAt(a, b, k);
        assert k > 0;
        var j: nat := k - 1;
        assert SmallerAt(a[1..], b[1..], j);
      }
    }
  }

  /** What a candidate must meet to take a line: its limit, and its lists of attributes, the gift wrap being
      one more attribute. */
  ghost predicate TakesLine(c: Candidate, quantity: int, giftWrap: bool, productAttributes: seq<string>) {
    && (c.eligibility.maxUnits.Some? ==> quantity <= c.eligibility.maxUnits.value)
    && (forall a :: a in c.eligibility.required ==> a in productAttributes || (giftWrap && a == "giftWrap"))
    && (forall a :: a in c.eligibility.excluded ==> a !in productAttributes && !(giftWrap && a == "giftWrap"))
  }

  lemma TakesLineIff(c: Candidate, quantity: int, giftWrap: bool, productAttributes: seq<string>)
    ensures TakesLine(c, quantity, giftWrap, productAttributes) <==>
              Eligible(c.eligibility, quantity, Attributes(productAttributes, giftWrap))
  {
    var all := Attributes(productAttributes, giftWrap);
    forall a ensures a in all <==> a in productAttributes || (giftWrap && a == "giftWrap") {
    }
    if Eligible(c.eligibility, quantity, all) {
      forall a | a in c.eligibility.required ensures a in all {
      }
      forall a | a in c.eligibility.excluded ensures a !in all {
      }
    }
  }

  /** The path chosen: among the candidates that take the line, a known cycle time beats an unknown one, a
      shorter a longer one, and of equal ones the id that is first in the dictionary wins. */
  lemma ChosenIsBest(cs: seq<Candidate>, quantity: int, giftWrap: bool, productAttributes: seq<string>, p: string)
    returns (c: Candidate)
    requires Chosen(cs, quantity, Attributes(productAttributes, giftWrap), p)
    ensures c in cs && c.pathId == p && TakesLine(c, quantity, giftWrap, productAttributes)
    ensures
      forall e :: e in cs && TakesLine(e, quantity, giftWrap, productAttributes) ==>
        && (e.cycleTime.Some? ==> c.cycleTime.Some? && c.cycleTime.value <= e.cycleTime.value)
        && (e.cycleTime == c.cycleTime ==> e.pathId == p || exists k: nat :: SmallerAt(p, e.pathId, k))
  {
    var all := Attributes(productAttributes, giftWrap);
    c :| c in cs && Eligible(c.eligibility, quantity, all) && c.pathId == p
      && forall e :: e in cs && Eligible(e.eligibility, quantity, all) ==> !Before(e, c);
    TakesLineIff(c, quantity, giftWrap, productAttributes);
    forall e | e in cs && TakesLine(e, quantity, giftWrap, productAttributes)
      ensures e.cycleTime.Some? ==> c.cycleTime.Some? && c.cycleTime.value <= e.cycleTime.value
      ensures e.cycleTime == c.cycleTime ==> e.pathId == p || exists k: nat :: SmallerAt(p, e.pathId, k)
    {
      TakesLineIff(e, quantity, giftWrap, productAttributes);
      assert !Before(e, c);
      LessIsTotal(e.pathId, p);
      LessIff(p, e.pathId);
    }
  }
}
