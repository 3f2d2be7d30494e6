/** A finite set of row numbers in ascending order, as an ORDER BY delivers it. */
module NumberOrder {

  datatype No = No(n: int)

  predicate IsLeast(s: set<No>, m: No) {
    m in s && forall x :: x in s ==> m.n <= x.n
  }

  lemma SomeIsLeast(s: set<No>) returns (m: No)
    requires s != {}
    ensures IsLeast(s, m)
  {
    m :| m in s;
    var rest := s - {m};
    if rest == {} {
      assert s == {m};
    } else {
      var n := SomeIsLeast(rest);
      forall x | x in s ensures x == m || x in rest {
      }
      if n.n < m.n { m := n; }
    }
  }

  lemma LeastExists(s: set<No>)
    requires s != {}
    ensures exists m :: IsLeast(s, m)
  {
    var m := SomeIsLeast(s);
  }

  function Least(s: set<No>): (m: No)
    requires s != {}
    ensures IsLeast(s, m)
  {
    LeastExists(s);
    var least :| IsLeast(s, least);
    least
  }

  /** The numbers in order. */
  function InOrder(s: set<No>): seq<int> {
    if s == {} then [] else [Least(s).n] + InOrder(s - {Least(s)})
  }

  lemma {:induction false} InOrderMembers(s: set<No>)
    ensures forall k :: 0 <= k < |InOrder(s)| ==> No(InOrder(s)[k]) in s
  {
    if s != {} {
      InOrderMembers(s - {Least(s)});
    }
  }

  lemma {:induction false} InOrderAscends(s: set<No>)
    ensures forall i, j :: 0 <= i < j < |InOrder(s)| ==> InOrder(s)[i] < InOrder(s)[j]
    ensures forall x :: x in s ==> x.n in InOrder(s)
  {
    if s != {} {
      var m := Least(s);
      InOrderAscends(s - {m});
      InOrderMembers(s - {m});
      forall x | x in s ensures x.n in InOrder(s) {
        assert x == m || x in s - {m};
      }
      forall j | 0 <= j < |InOrder(s - {m})| ensures m.n < InOrder(s - {m})[j] {
        var y := No(InOrder(s - {m})[j]);
        assert y in s - {m};
      }
    }
  }

  lemma {:induction false} InOrderSize(s: set<No>)
    ensures |InOrder(s)| == |s|
  {
    if s != {} {
      InOrderSize(s - {Least(s)});
    }
  }

  function Range(low: int, high: int): (r: set<No>)
    ensures forall n :: No(n) in r <==> low <= n <= high
    decreases high - low
  {
    if low > high then {} else {No(low)} + Range(low + 1, high)
  }

  lemma {:induction false} RangeInOrder(low: int, high: int)
    requires low <= high + 1
    ensures |InOrder(Range(low, high))| == high + 1 - low
    ensures forall k :: 0 <= k < high + 1 - low ==> InOrder(Range(low, high))[k] == low + k
    decreases high - low + 1
  {
    if low > high {
      assert Range(low, high) == {};
    } else {
      assert No(low) in Range(low, high);
      assert Least(Range(low, high)) == No(low);
      assert Range(low, high) - {No(low)} == Range(low + 1, high);
      RangeInOrder(low + 1, high);
    }
  }
}
