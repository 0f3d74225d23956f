/**
 * The few string operations the request engine relies on:
 * `str.lower()` (ASCII letters only), the substring test `p in s`,
 * and `str(n)` for an integer port.
 */
module Text {

  /** One character of `str.lower()`, restricted to ASCII. */
  function LowerChar(c: char): char
  {
    if 'A' <= c <= 'Z' then (c as int + 32) as char else c
  }

  /** `s.lower()`: every ASCII capital replaced by its small letter. */
  function Lower(s: string): (r: string)
    ensures |r| == |s|
    ensures forall i :: 0 <= i < |s| ==> r[i] == LowerChar(s[i])
  {
    if s == [] then [] else [LowerChar(s[0])] + Lower(s[1..])
  }

  lemma LowerConcat(a: string, b: string)
    ensures Lower(a + b) == Lower(a) + Lower(b)
  {
  }

  /** Reference meaning of `p in s`: `p` starts at some position of `s`. */
  ghost predicate Occurs(p: string, s: string)
  {
    exists i :: 0 <= i <= |s| && p <= s[i..]
  }

  /** `p` occurs in `s` either at its start or somewhere in its tail. */
  lemma OccursUnfold(p: string, s: string)
    ensures Occurs(p, s) <==> p <= s || (s != [] && Occurs(p, s[1..]))
  {
    assert s[0..] == s;
    if Occurs(p, s) && !(p <= s) {
      var i :| 0 <= i <= |s| && p <= s[i..];
      assert i > 0;
      assert s[1..][i - 1..] == s[i..];
    }
    if s != [] && Occurs(p, s[1..]) {
      var j :| 0 <= j <= |s[1..]| && p <= s[1..][j..];
      assert s[1..][j..] == s[j + 1..];
    }
  }

  /** Python's `p in s`, scanning `s` from the left; it holds exactly when `p` occurs in `s`. */
  function Contains(p: string, s: string): (c: bool)
    ensures c <==> Occurs(p, s)
  {
    OccursUnfold(p, s);
    if p <= s then true
    else if s == [] then false
    else Contains(p, s[1..])
  }

  /** Whenever `p` sits between `pre` and `post`, `p in pre + p + post`. */
  lemma ContainsInfix(pre: string, p: string, post: string)
    ensures Contains(p, pre + p + post)
  {
    var s := pre + p + post;
    assert s[|pre|..] == p + post;
  }

  function DigitChar(d: nat): (c: char)
    requires d < 10
    ensures '0' <= c <= '9'
  {
    "0123456789"[d]
  }

  function DigitValue(c: char): int
  {
    c as int - '0' as int
  }

  predicate IsDigits(s: string)
  {
    forall i :: 0 <= i < |s| ==> '0' <= s[i] <= '9'
  }

  /** Decimal digits of a natural number, no leading zero. */
  function NatToString(n: nat): (s: string)
    ensures |s| >= 1 && IsDigits(s)
    ensures s[0] == '0' ==> n == 0
  {
    if n < 10 then [DigitChar(n)] else NatToString(n / 10) + [DigitChar(n % 10)]
  }

  /** Python's `str(n)` for an `int`: a minus sign for negatives, then decimal digits. */
  function IntToString(n: int): (r: string)
    ensures n >= 0 ==> r == NatToString(n)
    ensures n < 0 ==> |r| >= 2 && r[0] == '-' && IsDigits(r[1..]) && r[1] != '0'
  {
    if n < 0 then "-" + NatToString(-n) else NatToString(n)
  }

  /** The value of a string of decimal digits, read left to right. */
  function ParseDigits(s: string): int
  {
    if s == [] then 0 else ParseDigits(s[..|s| - 1]) * 10 + DigitValue(s[|s| - 1])
  }

  /** Python's `int(s)` on what `str` produces. */
  function ParseInt(s: string): int
  {
    if |s| > 0 && s[0] == '-' then -ParseDigits(s[1..]) else ParseDigits(s)
  }

  lemma {:induction false} NatToStringRoundTrip(n: nat)
    ensures ParseDigits(NatToString(n)) == n
  {
    if n >= 10 {
      var s := NatToString(n);
      assert s[..|s| - 1] == NatToString(n / 10) && s[|s| - 1] == DigitChar(n % 10);
      NatToStringRoundTrip(n / 10);
      assert DigitValue(DigitChar(n % 10)) == n % 10;
    }
  }

  /** `int(str(n)) == n`: the decimal text of the port loses nothing. */
  lemma IntToStringRoundTrip(n: int)
    ensures ParseInt(IntToString(n)) == n
  {
    if n < 0 {
      var digits := NatToString(-n);
      var s := "-" + digits;
      assert s[0] == '-' && s[1..] == digits;
      NatToStringRoundTrip(-n);
      assert ParseInt(s) == -ParseDigits(digits);
    } else {
      var s := NatToString(n);
      assert '0' <= s[0] <= '9';
      NatToStringRoundTrip(n);
      assert ParseInt(s) == ParseDigits(s);
    }
  }
}
