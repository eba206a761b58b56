/** Strings and decimal numerals, as the orchestrator's Python code uses them. */
module Text {

  datatype Option<+T> = None | Some(value: T) {
    /** The value, or a default when there is none (Python's `dict.get(key, default)`). */
    function GetOr(default: T): T {
      match this
      case Some(v) => v
      case None => default
    }
  }

  predicate StartsWith(s: string, prefix: string) {
    |prefix| <= |s| && s[..|prefix|] == prefix
  }

  predicate EndsWith(s: string, suffix: string) {
    |suffix| <= |s| && s[|s| - |suffix|..] == suffix
  }

  /** `t` occurs in `s` starting at index `k`. */
  predicate OccursAt(s: string, t: string, k: int) {
    0 <= k <= |s| - |t| && s[k..k + |t|] == t
  }

  /** `t in s` on strings. */
  predicate Contains(s: string, t: string) {
    exists k :: 0 <= k <= |s| - |t| && OccursAt(s, t, k)
  }

  /** The last piece of a concatenation occurs in it. */
  lemma ContainsLast(a: string, t: string)
    ensures Contains(a + t, t)
  {
    assert (a + t)[|a|..|a| + |t|] == t;
    assert OccursAt(a + t, t, |a|);
  }

  /** What occurs in a string still occurs in any string that starts with it. */
  lemma ContainsExtended(s: string, t: string, u: string)
    requires Contains(s, t) && StartsWith(u, s)
    ensures Contains(u, t)
  {
    var k :| 0 <= k <= |s| - |t| && OccursAt(s, t, k);
    assert u[k..k + |t|] == s[k..k + |t|];
    assert OccursAt(u, t, k);
  }

  /** What occurs in a string still occurs once text is put in front of it. */
  lemma ContainsPrefixed(p: string, s: string, t: string)
    requires Contains(s, t)
    ensures Contains(p + s, t)
  {
    var k :| 0 <= k <= |s| - |t| && OccursAt(s, t, k);
    assert (p + s)[|p| + k..|p| + k + |t|] == s[k..k + |t|];
    assert OccursAt(p + s, t, |p| + k);
  }

  predicate IsDigit(c: char) {
    '0' <= c <= '9'
  }

  function DigitValue(c: char): nat
    requires IsDigit(c)
  {
    c as int - '0' as int
  }

  function DigitChar(d: nat): (c: char)
    requires d < 10
    ensures IsDigit(c) && DigitValue(c) == d
  {
    (d + '0' as int) as char
  }

  /** A digit string that may carry '_' separators, as Python's int() reads them. */
  predicate DigitsOrSeparators(s: string) {
    forall i :: 0 <= i < |s| ==> IsDigit(s[i]) || s[i] == '_'
  }

  /** Value of a digit string; '_' separators contribute nothing. */
  function DigitsValue(s: string): nat
    requires DigitsOrSeparators(s)
  {
    if s == [] then 0
    else if s[|s| - 1] == '_' then DigitsValue(s[..|s| - 1])
    else DigitsValue(s[..|s| - 1]) * 10 + DigitValue(s[|s| - 1])
  }

  /** How many decimal digits a string holds (signs, separators and spaces are not digits). */
  function DigitCount(s: string): nat {
    if s == [] then 0 else DigitCount(s[..|s| - 1]) + (if IsDigit(s[|s| - 1]) then 1 else 0)
  }

  lemma {:induction false} DigitCountAppend(a: string, b: string)
    ensures DigitCount(a + b) == DigitCount(a) + DigitCount(b)
  {
    if b != [] {
      assert (a + b)[..|a + b| - 1] == a + b[..|b| - 1];
      DigitCountAppend(a, b[..|b| - 1]);
    } else {
      assert a + b == a;
    }
  }

  lemma DigitCountFront(s: string)
    requires s != []
    ensures DigitCount(s) == DigitCount(s[1..]) + (if IsDigit(s[0]) then 1 else 0)
  {
    assert s == [s[0]] + s[1..];
    DigitCountAppend([s[0]], s[1..]);
  }

  /** In a string of digits every character counts. */
  lemma {:induction false} DigitCountAllDigits(s: string)
    requires forall i :: 0 <= i < |s| ==> IsDigit(s[i])
    ensures DigitCount(s) == |s|
  {
    if s != [] {
      DigitCountAllDigits(s[..|s| - 1]);
    }
  }

  /** Decimal rendering of a natural number (Python's `str(n)` / `f"{n}"`). */
  function NatToString(n: nat): (s: string)
    ensures |s| >= 1
    ensures forall i :: 0 <= i < |s| ==> IsDigit(s[i])
    ensures s[0] == '0' ==> n == 0
  {
    if n < 10 then [DigitChar(n)] else NatToString(n / 10) + [DigitChar(n % 10)]
  }

  function IntToString(n: int): (s: string) {
    if n < 0 then "-" + NatToString(-n) else NatToString(n)
  }

  /** Reading back a rendered natural number gives that number. */
  lemma {:induction false} DigitsValueOfNatToString(n: nat)
    ensures DigitsOrSeparators(NatToString(n))
    ensures DigitsValue(NatToString(n)) == n
  {
    if n >= 10 {
      var s := NatToString(n);
      assert s[..|s| - 1] == NatToString(n / 10);
      DigitsValueOfNatToString(n / 10);
    }
  }

  /** Distinct numbers render to distinct numerals. */
  lemma NatToStringInjective(m: nat, n: nat)
    requires NatToString(m) == NatToString(n)
    ensures m == n
  {
    DigitsValueOfNatToString(m);
    DigitsValueOfNatToString(n);
  }

  /** `sep.join(parts)`. */
  function Join(parts: seq<string>, sep: string): string {
    if |parts| == 0 then ""
    else if |parts| == 1 then parts[0]
    else Join(parts[..|parts| - 1], sep) + sep + parts[|parts| - 1]
  }

  /** If a + m + b == a + n + b then m == n: a piece framed by fixed text can be read back. */
  lemma FramedEqual(a: string, m: string, n: string, b: string)
    requires a + m + b == a + n + b
    ensures m == n
  {
    var s, t := a + m + b, a + n + b;
    assert |m| == |n|;
    assert m == s[|a|..|a| + |m|];
    assert n == t[|a|..|a| + |n|];
  }
}
