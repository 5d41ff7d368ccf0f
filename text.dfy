/** The primitives of JavaScript that the modelled code relies on:
    `trim()`, the `\s` class of regular expressions, `startsWith`,
    `toLowerCase`, the decimal rendering of a number and `Math.round` of a
    quotient. */
module Text {

  /** The characters that `String.prototype.trim` removes and that `\s`
      matches: ECMAScript's WhiteSpace and LineTerminator productions. */
  predicate IsSpace(c: char) {
    || c == ' ' || c == '\t' || c == '\n' || c == '\r'
    || c == '\U{000B}' || c == '\U{000C}' || c == '\U{00A0}' || c == '\U{1680}'
    || ('\U{2000}' <= c <= '\U{200A}')
    || c == '\U{2028}' || c == '\U{2029}' || c == '\U{202F}' || c == '\U{205F}'
    || c == '\U{3000}' || c == '\U{FEFF}'
  }

  predicate AllSpace(s: string) {
    forall i :: 0 <= i < |s| ==> IsSpace(s[i])
  }

  /** Neither end of `s` is white space. */
  predicate IsTrimmed(s: string) {
    s == [] || (!IsSpace(s[0]) && !IsSpace(s[|s| - 1]))
  }

  /** The first index at or after `i` that does not hold white space (or `|s|`):
      where a greedy `\s*` starting at `i` stops. */
  function SkipSpaces(s: string, i: nat): (j: nat)
    requires i <= |s|
    ensures i <= j <= |s|
    ensures forall k :: i <= k < j ==> IsSpace(s[k])
    ensures j < |s| ==> !IsSpace(s[j])
    decreases |s| - i
  {
    if i < |s| && IsSpace(s[i]) then SkipSpaces(s, i + 1) else i
  }

  /** The end of `s[..j]` once its trailing white space is dropped. */
  function ContentEnd(s: string, j: nat): (k: nat)
    requires j <= |s|
    ensures k <= j
    ensures forall m :: k <= m < j ==> IsSpace(s[m])
    ensures k > 0 ==> !IsSpace(s[k - 1])
    decreases j
  {
    if j > 0 && IsSpace(s[j - 1]) then ContentEnd(s, j - 1) else j
  }

  /** `String.prototype.trim`: white space removed from both ends. */
  function Trim(s: string): (t: string)
    ensures |t| <= |s|
    ensures IsTrimmed(t)
    ensures t == [] <==> AllSpace(s)
  {
    var i := SkipSpaces(s, 0);
    var j := ContentEnd(s, |s|);
    if j <= i then "" else s[i..j]
  }

  /** Every string splits into white space, its trimmed form, white space. */
  lemma TrimDecompose(s: string) returns (p: string, q: string)
    ensures s == p + Trim(s) + q
    ensures AllSpace(p) && AllSpace(q)
  {
    var i := SkipSpaces(s, 0);
    var j := ContentEnd(s, |s|);
    if j <= i {
      p, q := s, "";
      assert AllSpace(s);
    } else {
      p, q := s[..i], s[j..];
      assert s == s[..i] + s[i..j] + s[j..];
    }
  }

  /** A trimmed core between two runs of white space is what `trim` returns. */
  lemma {:induction false} TrimUnique(s: string, p: string, t: string, q: string)
    requires s == p + t + q
    requires AllSpace(p) && AllSpace(q) && IsTrimmed(t)
    ensures Trim(s) == t
  {
    var i := SkipSpaces(s, 0);
    var j := ContentEnd(s, |s|);
    if t == [] {
      assert AllSpace(s) by {
        forall k | 0 <= k < |s| ensures IsSpace(s[k]) {
          if k < |p| { assert s[k] == p[k]; } else { assert s[k] == q[k - |p|]; }
        }
      }
    } else {
      assert s[|p|] == t[0];
      assert s[|p| + |t| - 1] == t[|t| - 1];
      assert i == |p|;
      assert j == |p| + |t|;
      assert s[i..j] == t;
    }
  }

  /** `trim` ignores any white space added around its argument. */
  lemma TrimPadded(a: string, s: string, b: string)
    requires AllSpace(a) && AllSpace(b)
    ensures Trim(a + s + b) == Trim(s)
  {
    var p, q := TrimDecompose(s);
    var t := Trim(s);
    AllSpaceJoin(a, p);
    AllSpaceJoin(q, b);
    JoinAssociates(a, p, t, q, b);
    TrimUnique(a + s + b, a + p, t, q + b);
  }

  lemma JoinAssociates(a: string, p: string, t: string, q: string, b: string)
    ensures a + (p + t + q) + b == (a + p) + t + (q + b)
  {
  }

  lemma AllSpaceJoin(x: string, y: string)
    requires AllSpace(x) && AllSpace(y)
    ensures AllSpace(x + y)
  {
    forall k | 0 <= k < |x + y| ensures IsSpace((x + y)[k]) {
      if k < |x| { assert (x + y)[k] == x[k]; } else { assert (x + y)[k] == y[k - |x|]; }
    }
  }

  /** `trim` leaves an already trimmed string as it is. */
  lemma TrimOfTrimmed(s: string)
    requires IsTrimmed(s)
    ensures Trim(s) == s
  {
    assert s == "" + s + "";
    TrimUnique(s, "", s, "");
  }

  /** `s.startsWith(prefix)`. */
  predicate StartsWith(s: string, prefix: string) {
    prefix <= s
  }

  /** `toLowerCase` on one character, for the Latin and Cyrillic capitals of
      the Basic Latin and Cyrillic blocks (the alphabets the application's
      vocabulary uses). */
  function LowerChar(c: char): char {
    if 'A' <= c <= 'Z' then (c as int + 32) as char
    else if '\U{0410}' <= c <= '\U{042F}' then (c as int + 32) as char
    else if '\U{0400}' <= c <= '\U{040F}' then (c as int + 80) as char
    else c
  }

  /** `String.prototype.toLowerCase`, character by character. */
  function Lower(s: string): (t: string)
    ensures |t| == |s|
    ensures forall i :: 0 <= i < |s| ==> t[i] == LowerChar(s[i])
  {
    seq(|s|, i requires 0 <= i < |s| => LowerChar(s[i]))
  }

  function DigitChar(d: nat): char
    requires d < 10
  {
    "0123456789"[d]
  }

  /** The decimal text JavaScript writes for a non-negative integer. */
  function NatToString(n: nat): (s: string)
    ensures |s| > 0
    decreases n
  {
    if n < 10 then [DigitChar(n)] else NatToString(n / 10) + [DigitChar(n % 10)]
  }

  /** The decimal text JavaScript writes for an integer. */
  function IntToString(n: int): (s: string)
    ensures |s| > 0
  {
    if n < 0 then "-" + NatToString(-n) else NatToString(n)
  }

  /** `Math.round(n / d)` for a positive divisor: the nearest integer, a
      half rounded up. */
  function RoundDiv(n: int, d: int): (r: int)
    requires d > 0
    ensures 2 * d * r <= 2 * n + d < 2 * d * (r + 1)
  {
    (2 * n + d) / (2 * d)
  }

  /** Multiplying by a non-negative number keeps an ordering. */
  lemma MulMonotone(x: int, y: int, b: int)
    requires x <= y && b >= 0
    ensures x * b <= y * b
  {
    assert y * b - x * b == (y - x) * b;
  }

  /** A larger dividend never gives a smaller quotient. */
  lemma DivMonotone(a1: int, a2: int, b: int)
    requires a1 <= a2 && b > 0
    ensures a1 / b <= a2 / b
  {
    var q1, q2 := a1 / b, a2 / b;
    if q1 > q2 {
      MulMonotone(q2 + 1, q1, b);
      assert false;
    }
  }

  /** `a / b` is `q` when `a` lies in `q`'s band of width `b`. */
  lemma DivIs(a: int, b: int, q: int)
    requires b > 0 && q * b <= a < (q + 1) * b
    ensures a / b == q
  {
    var r := a / b;
    if r < q {
      MulMonotone(r + 1, q, b);
      assert false;
    } else if r > q {
      MulMonotone(q + 1, r, b);
      assert false;
    }
  }
}
