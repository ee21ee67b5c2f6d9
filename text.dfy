/** The string operations the integration borrows from Python: `str.casefold`
    (restricted to ASCII), `str.join`, `str(int)` and substring search. */
module Text {

  predicate IsUpper(c: char) {
    'A' <= c <= 'Z'
  }

  function Lower(c: char): char {
    if IsUpper(c) then (c as int + 32) as char else c
  }

  /** True when `s` has no upper-case letter left to fold. */
  predicate IsFolded(s: string) {
    forall i :: 0 <= i < |s| ==> !IsUpper(s[i])
  }

  /** `s.casefold()` on ASCII text: upper-case letters become lower-case,
      everything else is kept. */
  function CaseFold(s: string): (r: string)
    ensures |r| == |s| && IsFolded(r)
    ensures forall i :: 0 <= i < |s| && !IsUpper(s[i]) ==> r[i] == s[i]
    ensures forall i :: 0 <= i < |s| && IsUpper(s[i]) ==> r[i] as int == s[i] as int + 32
  {
    seq(|s|, i requires 0 <= i < |s| => Lower(s[i]))
  }

  /** Two characters that are the same letter up to ASCII case, or simply
      the same character. */
  predicate SameIgnoringCase(x: char, y: char) {
    x == y || (IsUpper(x) && y as int == x as int + 32) || (IsUpper(y) && x as int == y as int + 32)
  }

  /** Folded strings compare equal exactly when the strings have the same
      length and agree position by position up to ASCII case. */
  lemma CaseFoldEqual(a: string, b: string)
    ensures CaseFold(a) == CaseFold(b) <==>
              |a| == |b| && forall i :: 0 <= i < |a| ==> SameIgnoringCase(a[i], b[i])
    ensures CaseFold("Home") == "home"
  {
    if CaseFold(a) == CaseFold(b) {
      forall i | 0 <= i < |a|
        ensures SameIgnoringCase(a[i], b[i])
      {
        assert CaseFold(a)[i] == CaseFold(b)[i];
      }
    }
    if |a| == |b| && forall i :: 0 <= i < |a| ==> SameIgnoringCase(a[i], b[i]) {
      assert forall i :: 0 <= i < |a| ==> CaseFold(a)[i] == CaseFold(b)[i];
    }
    assert CaseFold("Home")[0] == 'h';
  }

  /** Folding is a projection: the folded strings are exactly its fixed points. */
  lemma CaseFoldFixedPoints(s: string)
    ensures CaseFold(CaseFold(s)) == CaseFold(s)
    ensures CaseFold(s) == s <==> IsFolded(s)
  {
    if CaseFold(s) == s {
      assert IsFolded(s);
    }
  }

  /** `a` occurs somewhere inside `s`. */
  ghost predicate IsInfix(a: string, s: string) {
    exists k :: OccursAt(a, s, k)
  }

  predicate OccursAt(a: string, s: string, k: int) {
    0 <= k <= |s| - |a| && s[k..k + |a|] == a
  }

  lemma InfixInContext(a: string, t: string, p: string, q: string)
    requires IsInfix(a, t)
    ensures IsInfix(a, p + t + q)
  {
    var k :| OccursAt(a, t, k);
    var s := p + t + q;
    assert s[|p| + k..|p| + k + |a|] == t[k..k + |a|];
    assert OccursAt(a, s, |p| + k);
  }

  /** `sep.join(parts)`. */
  function Join(parts: seq<string>, sep: string): string
    decreases |parts|
  {
    if |parts| == 0 then ""
    else if |parts| == 1 then parts[0]
    else parts[0] + sep + Join(parts[1..], sep)
  }

  /** Every joined part can be found in the joined text. */
  lemma {:induction false} JoinContainsEach(parts: seq<string>, sep: string, i: nat)
    requires i < |parts|
    ensures IsInfix(parts[i], Join(parts, sep))
    decreases |parts|
  {
    var j := Join(parts, sep);
    if i == 0 {
      assert j[0..|parts[0]|] == parts[0];
      assert OccursAt(parts[0], j, 0);
    } else {
      JoinContainsEach(parts[1..], sep, i - 1);
      InfixInContext(parts[i], Join(parts[1..], sep), parts[0] + sep, "");
      assert parts[0] + sep + Join(parts[1..], sep) + "" == j;
    }
  }

  /** The joined text is the parts and the separators between them, nothing else. */
  lemma {:induction false} JoinLength(parts: seq<string>, sep: string)
    requires |parts| > 0
    ensures |Join(parts, sep)| == TotalLength(parts) + (|parts| - 1) * |sep|
    decreases |parts|
  {
    if |parts| > 1 {
      JoinLength(parts[1..], sep);
    }
  }

  function TotalLength(parts: seq<string>): nat {
    if parts == [] then 0 else |parts[0]| + TotalLength(parts[1..])
  }

  predicate IsDigit(c: char) {
    '0' <= c <= '9'
  }

  predicate AllDigits(s: string) {
    forall i :: 0 <= i < |s| ==> IsDigit(s[i])
  }

  function DigitChar(d: nat): (c: char)
    requires d < 10
    ensures IsDigit(c) && c as int - '0' as int == d
  {
    ('0' as int + d) as char
  }

  /** `str(n)` for a non-negative Python int: its decimal digits, no leading zero. */
  function NatToString(n: nat): (s: string)
    ensures |s| > 0 && AllDigits(s)
    ensures s[0] == '0' ==> n == 0
    decreases n
  {
    if n < 10 then [DigitChar(n)] else NatToString(n / 10) + [DigitChar(n % 10)]
  }

  /** `str(n)` for any Python int: a minus sign before the digits of `-n`. */
  function IntToString(n: int): (s: string)
    ensures |s| > 0
  {
    if n < 0 then "-" + NatToString(-n) else NatToString(n)
  }

  /** The value of a string of decimal digits (the inverse of `NatToString`). */
  function ParseNat(s: string): nat
    requires AllDigits(s)
    decreases |s|
  {
    if s == [] then 0 else ParseNat(s[..|s| - 1]) * 10 + (s[|s| - 1] as int - '0' as int)
  }

  lemma {:induction false} NatToStringRoundTrip(n: nat)
    ensures ParseNat(NatToString(n)) == n
    decreases n
  {
    if n >= 10 {
      NatToStringRoundTrip(n / 10);
      var s := NatToString(n);
      assert s[..|s| - 1] == NatToString(n / 10);
    }
  }

  /** `int(s)` for the strings `IntToString` produces. */
  function ParseInt(s: string): int
    requires |s| > 0
    requires s[0] == '-' ==> AllDigits(s[1..])
    requires s[0] != '-' ==> AllDigits(s)
  {
    if s[0] == '-' then -(ParseNat(s[1..]) as int) else ParseNat(s)
  }

  lemma IntToStringRoundTrip(n: int)
    ensures var s := IntToString(n);
            (s[0] == '-' <==> n < 0) &&
            (s[0] == '-' ==> AllDigits(s[1..])) &&
            (s[0] != '-' ==> AllDigits(s)) &&
            ParseInt(s) == n
  {
    var s := IntToString(n);
    if n < 0 {
      assert s[1..] == NatToString(-n);
      NatToStringRoundTrip(-n);
    } else {
      NatToStringRoundTrip(n);
    }
  }

  /** Different integers print differently. */
  lemma IntToStringInjective(a: int, b: int)
    ensures a != b ==> IntToString(a) != IntToString(b)
  {
    IntToStringRoundTrip(a);
    IntToStringRoundTrip(b);
  }
}
