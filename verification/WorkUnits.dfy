/** Work-unit ids and reservation keys: the two strings that name an order line to other services. */
module WorkUnits {
  import opened Wrappers

  // ---------------------------------------------------------------- decimal numbers

  function DigitChar(d: nat): char
    requires d < 10
  {
    '0' + d as char
  }

  predicate IsDigit(c: char) {
    '0' <= c <= '9'
  }

  function DigitValue(c: char): (d: nat)
    requires IsDigit(c)
    ensures d < 10
  {
    c as int - '0' as int
  }

  function Digits(n: nat): (s: string)
    ensures s != [] && forall i :: 0 <= i < |s| ==> IsDigit(s[i])
  {
    if n < 10 then [DigitChar(n)] else Digits(n / 10) + [DigitChar(n % 10)]
  }

  /** The format verb for a decimal integer. */
  function Itoa(n: int): string {
    if n < 0 then "-" + Digits(-n) else Digits(n)
  }

  predicate AllDigits(s: string) {
    s != [] && forall i :: 0 <= i < |s| ==> IsDigit(s[i])
  }

  function ValueOf(s: string): nat
    requires forall i :: 0 <= i < |s| ==> IsDigit(s[i])
  {
    if s == [] then 0 else 10 * ValueOf(s[..|s| - 1]) + DigitValue(s[|s| - 1])
  }

  const MAX_INT := 0x7fff_ffff_ffff_ffff
  const MIN_INT := -0x8000_0000_0000_0000

  /** An optional sign and digits, in the range of a 64-bit integer. */
  function Atoi(s: string): Option<int> {
    var signed := s != [] && (s[0] == '-' || s[0] == '+');
    var digits := if signed then s[1..] else s;
    if !AllDigits(digits) then None
    else
      var n := if signed && s[0] == '-' then -(ValueOf(digits) as int) else ValueOf(digits);
      if MIN_INT <= n <= MAX_INT then Some(n) else None
  }

  lemma {:induction false} DigitsValue(n: nat)
    ensures ValueOf(Digits(n)) == n
  {
    if n < 10 {
      assert [DigitChar(n)][..0] == [];
    } else {
      DigitsValue(n / 10);
      assert Digits(n)[..|Digits(n)| - 1] == Digits(n / 10);
    }
  }

  lemma AtoiOfPositive(n: int)
    requires 0 < n <= MAX_INT
    ensures Atoi(Itoa(n)) == Some(n)
  {
    DigitsValue(n);
    assert IsDigit(Digits(n)[0]);
  }

  // ---------------------------------------------------------------- work-unit ids

  const MARKER := "-line-"

  function WorkUnitID(orderId: string, lineNo: int): string {
    orderId + MARKER + Itoa(lineNo)
  }

  predicate OccursAt(s: string, sub: string, i: int) {
    0 <= i <= |s| - |sub| && s[i..i + |sub|] == sub
  }

  /** The position of the last occurrence at or before `i`, or -1. */
  function LastIndex(s: string, sub: string, i: int): (r: int)
    requires i <= |s| - |sub|
    ensures r == -1 || (OccursAt(s, sub, r) && r <= i)
    ensures forall j :: r < j <= i ==> !OccursAt(s, sub, j)
    decreases i + 1
  {
    if i < 0 then -1 else if OccursAt(s, sub, i) then i else LastIndex(s, sub, i - 1)
  }

  function ParseWorkUnitID(s: string): Option<(string, int)> {
    if |s| < |MARKER| then None
    else
      var idx := LastIndex(s, MARKER, |s| - |MARKER|);
      if idx <= 0 then None
      else
        var part := s[idx + |MARKER|..];
        if part == "" then None
        else
          match Atoi(part)
          case None => None
          case Some(n) => if n <= 0 then None else Some((s[..idx], n))
  }

  /** The marker does not occur after the one that was put in: what follows has no hyphen. */
  lemma NoLaterMarker(orderId: string, digits: string, j: int)
    requires AllDigits(digits) && |orderId| < j
    ensures !OccursAt(orderId + MARKER + digits, MARKER, j)
  {
    var s := orderId + MARKER + digits;
    if j + |MARKER| <= |s| {
      var k := |orderId|;
      if j < k + |MARKER| {
        assert s[k..k + |MARKER|] == MARKER;
        assert s[j] == MARKER[j - k];
        assert j == k + 5 ==> IsDigit(s[j + 1]) by { assert s[k + 6] == digits[0]; }
      } else {
        assert s[j] == digits[j - k - |MARKER|];
      }
      assert s[j..j + |MARKER|][0] == s[j] && s[j..j + |MARKER|][1] == s[j + 1];
    }
  }

  lemma MarkerIsFoundLast(orderId: string, digits: string)
    requires AllDigits(digits)
    ensures LastIndex(orderId + MARKER + digits, MARKER, |orderId| + |digits|) == |orderId|
  {
    var s := orderId + MARKER + digits;
    var k := |orderId|;
    assert s == orderId + (MARKER + digits);
    assert s[k..k + |MARKER|] == MARKER;
    assert OccursAt(s, MARKER, k);
    var idx := LastIndex(s, MARKER, |s| - |MARKER|);
    NoLaterMarker(orderId, digits, if idx > k then idx else k + 1);
  }

  /** Parsing undoes formatting for every non-empty order id, even one that contains the marker, and
      every positive line number. */
  lemma ParseUndoesFormat(orderId: string, lineNo: int)
    requires orderId != "" && 0 < lineNo <= MAX_INT
    ensures ParseWorkUnitID(WorkUnitID(orderId, lineNo)) == Some((orderId, lineNo))
  {
    var s := WorkUnitID(orderId, lineNo);
    MarkerIsFoundLast(orderId, Itoa(lineNo));
    assert s[..|orderId|] == orderId && s[|orderId| + |MARKER|..] == Itoa(lineNo);
    AtoiOfPositive(lineNo);
  }

  /** Whatever parses names a non-empty order id and a positive line number, split at the last marker. */
  lemma ParseIsSound(s: string)
    requires ParseWorkUnitID(s).Some?
    ensures
      var (orderId, lineNo) := ParseWorkUnitID(s).value;
      && orderId != "" && 0 < lineNo <= MAX_INT
      && exists part :: s == orderId + MARKER + part && Atoi(part) == Some(lineNo)
  {
    var idx := LastIndex(s, MARKER, |s| - |MARKER|);
    var part := s[idx + |MARKER|..];
    assert s == s[..idx] + s[idx..idx + |MARKER|] + part;
  }

  // ---------------------------------------------------------------- reservation keys

  function ReservationKey(orderId: string, lineNo: int, attempt: int): string {
    "res-" + orderId + MARKER + Itoa(lineNo) + "-att-" + Itoa(attempt)
  }

  /** A separator that ends in exactly one hyphen. */
  predicate Separator(sep: string) {
    |sep| >= 2 && sep[|sep| - 1] == '-' && sep[|sep| - 2] != '-'
  }

  predicate IsLastHyphen(s: string, i: nat) {
    i < |s| && s[i] == '-' && forall k :: i < k < |s| ==> s[k] != '-'
  }

  lemma HyphenBeforeDigits(x: string, a: string)
    requires AllDigits(a)
    ensures IsLastHyphen(x + "-" + a, |x|)
    ensures (x + "-" + a)[..|x|] == x && (x + "-" + a)[|x| + 1..] == a
  {
    var s := x + "-" + a;
    forall k | |x| < k < |s| ensures s[k] != '-' {
      assert s[k] == a[k - |x| - 1];
    }
  }

  lemma SameAfterHyphen(x: string, a: string, y: string, b: string)
    requires AllDigits(a) && AllDigits(b) && x + "-" + a == y + "-" + b
    ensures x == y && a == b
  {
    HyphenBeforeDigits(x, a);
    HyphenBeforeDigits(y, b);
  }

  function Magnitude(n: int): nat {
    if n < 0 then -n else n
  }

  /** What comes before the last hyphen of a number put after a separator. */
  function Before(x: string, sep: string, n: int): string
    requires Separator(sep)
  {
    if n < 0 then x + sep else x + sep[..|sep| - 1]
  }

  lemma SplitAtLastHyphen(x: string, sep: string, n: int)
    requires Separator(sep)
    ensures x + sep + Itoa(n) == Before(x, sep, n) + "-" + Digits(Magnitude(n))
  {
    assert sep == sep[..|sep| - 1] + "-";
  }

  lemma BeforeTells(x: string, n: int, y: string, m: int, sep: string)
    requires Separator(sep) && Before(x, sep, n) == Before(y, sep, m)
    ensures x == y && (n < 0 <==> m < 0)
  {
    var p, q := Before(x, sep, n), Before(y, sep, m);
    assert p[|p| - 1] == if n < 0 then '-' else sep[|sep| - 2];
    assert q[|q| - 1] == if m < 0 then '-' else sep[|sep| - 2];
    assert p[..|x|] == x && q[..|y|] == y;
  }

  /** A number after a separator can be told from what comes before it. */
  lemma NumberedSuffix(x: string, n: int, y: string, m: int, sep: string)
    requires Separator(sep) && x + sep + Itoa(n) == y + sep + Itoa(m)
    ensures x == y && n == m
  {
    SplitAtLastHyphen(x, sep, n);
    SplitAtLastHyphen(y, sep, m);
    SameAfterHyphen(Before(x, sep, n), Digits(Magnitude(n)), Before(y, sep, m), Digits(Magnitude(m)));
    BeforeTells(x, n, y, m, sep);
    DigitsValue(Magnitude(n));
    DigitsValue(Magnitude(m));
  }

  /** Two reservations share a key only if they are for the same order, line and attempt. */
  lemma ReservationKeyIsInjective(order1: string, line1: int, attempt1: int, order2: string, line2: int, attempt2: int)
    requires ReservationKey(order1, line1, attempt1) == ReservationKey(order2, line2, attempt2)
    ensures order1 == order2 && line1 == line2 && attempt1 == attempt2
  {
    var x := "res-" + order1 + MARKER + Itoa(line1);
    var y := "res-" + order2 + MARKER + Itoa(line2);
    NumberedSuffix(x, attempt1, y, attempt2, "-att-");
    NumberedSuffix("res-" + order1, line1, "res-" + order2, line2, MARKER);
    assert ("res-" + order1)[4..] == order1 && ("res-" + order2)[4..] == order2;
  }

  // ---------------------------------------------------------------- as other services read them

  lemma TheTwoNames()
    ensures WorkUnitID("ord-7", 12) == "ord-7-line-12"
    ensures ReservationKey("ord-7", 12, 3) == "res-ord-7-line-12-att-3"
  {
    assert Digits(12) == "12" by { assert Digits(1) == "1"; }
    assert Digits(3) == "3";
  }
}
