/** Rendering of integers the way Python's `str(int)` does, and the facts
    about that rendering the document model relies on. */
module Text {

  predicate IsDigit(c: char) {
    '0' <= c <= '9'
  }

  /** The characters of `string.ascii_letters + string.digits`. */
  predicate IsAlphanumeric(c: char) {
    ('a' <= c <= 'z') || ('A' <= c <= 'Z') || IsDigit(c)
  }

  predicate AllAlphanumeric(s: string) {
    forall i :: 0 <= i < |s| ==> IsAlphanumeric(s[i])
  }

  function DigitChar(d: nat): (c: char)
    requires d < 10
    ensures IsDigit(c)
  {
    "0123456789"[d]
  }

  /** Decimal digits of `n`, most significant first, without leading zeros. */
  function NatString(n: nat): (s: string)
    ensures |s| >= 1
    ensures forall i :: 0 <= i < |s| ==> IsDigit(s[i])
    ensures n < 10 <==> |s| == 1
  {
    if n < 10 then [DigitChar(n)] else NatString(n / 10) + [DigitChar(n % 10)]
  }

  /** `str(n)` for a Python int: a minus sign before the digits when negative. */
  function IntString(n: int): (s: string)
    ensures |s| >= 1
    ensures IsDigit(s[0]) <==> n >= 0
    ensures n < 0 ==> s[0] == '-'
  {
    if n < 0 then "-" + NatString(-n) else NatString(n)
  }

  lemma DigitCharInjective(a: nat, b: nat)
    requires a < 10 && b < 10
    ensures DigitChar(a) == DigitChar(b) ==> a == b
  {
  }

  /** Distinct naturals render differently. */
  lemma {:induction false} NatStringInjective(a: nat, b: nat)
    ensures NatString(a) == NatString(b) ==> a == b
  {
    if NatString(a) == NatString(b) {
      if a >= 10 && b >= 10 {
        var sa, sb := NatString(a), NatString(b);
        assert sa[..|sa| - 1] == NatString(a / 10);
        assert sb[..|sb| - 1] == NatString(b / 10);
        NatStringInjective(a / 10, b / 10);
        DigitCharInjective(a % 10, b % 10);
      } else if a < 10 && b < 10 {
        DigitCharInjective(a, b);
      }
    }
  }

  /** Distinct integers render differently. */
  lemma IntStringInjective(a: int, b: int)
    ensures IntString(a) == IntString(b) ==> a == b
  {
    if IntString(a) == IntString(b) {
      if a < 0 && b < 0 {
        assert IntString(a)[1..] == NatString(-a);
        assert IntString(b)[1..] == NatString(-b);
        NatStringInjective(-a, -b);
      } else if a >= 0 && b >= 0 {
        NatStringInjective(a, b);
      }
    }
  }

  /** A common suffix can be cancelled. */
  lemma CancelSuffix(a: string, b: string, t: string)
    requires a + t == b + t
    ensures a == b
  {
    assert |a| == |b|;
    assert a == (a + t)[..|a|];
    assert b == (b + t)[..|b|];
  }

  /** Position of the first `c` in `s`, or `|s|` when there is none. */
  function FindChar(s: string, c: char): (k: nat)
    ensures k <= |s|
    ensures k < |s| ==> s[k] == c
    ensures forall i :: 0 <= i < k ==> s[i] != c
  {
    if |s| == 0 then 0 else if s[0] == c then 0 else 1 + FindChar(s[1..], c)
  }

  /** In `x + [sep] + r` with a digit-only `x`, the first `sep` follows `x`. */
  lemma {:induction false} FindAfterDigits(x: string, sep: char, r: string)
    requires !IsDigit(sep)
    requires forall i :: 0 <= i < |x| ==> IsDigit(x[i])
    ensures FindChar(x + [sep] + r, sep) == |x|
  {
    if |x| > 0 {
      assert (x + [sep] + r)[1..] == x[1..] + [sep] + r;
      FindAfterDigits(x[1..], sep, r);
    }
  }

  /** The digits before a separator that is not a digit are determined by the
      whole string: `x + [sep] + r == y + [sep] + q` with digit-only `x`, `y`
      forces `x == y` and `r == q`. */
  lemma SplitAtSeparator(x: string, y: string, sep: char, r: string, q: string)
    requires !IsDigit(sep)
    requires forall i :: 0 <= i < |x| ==> IsDigit(x[i])
    requires forall i :: 0 <= i < |y| ==> IsDigit(y[i])
    requires x + [sep] + r == y + [sep] + q
    ensures x == y && r == q
  {
    var s := x + [sep] + r;
    FindAfterDigits(x, sep, r);
    FindAfterDigits(y, sep, q);
    assert x == s[..|x|];
    assert y == s[..|y|];
    assert r == s[|x| + 1..];
    assert q == s[|y| + 1..];
  }
}
