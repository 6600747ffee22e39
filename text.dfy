/**
 * The string operations of the JavaScript runtime that App.tsx uses:
 * `trim`, `split('\n')[0]`, `substring(0, n)` and the decimal rendering of a
 * non-negative integer (template literals and `toString`).
 */
module Text {

  /** The characters String.prototype.trim removes: ECMAScript WhiteSpace and LineTerminator. */
  predicate IsWhitespace(c: char) {
    || c == '\t' || c == '\n' || c == '\U{B}' || c == '\U{C}' || c == '\r' || c == ' '
    || c == '\U{A0}' || c == '\U{1680}' || ('\U{2000}' <= c <= '\U{200A}')
    || c == '\U{2028}' || c == '\U{2029}' || c == '\U{202F}' || c == '\U{205F}'
    || c == '\U{3000}' || c == '\U{FEFF}'
  }

  predicate AllWhitespace(s: string) {
    forall i :: 0 <= i < |s| ==> IsWhitespace(s[i])
  }

  /** `t` occurs in `s` as a contiguous piece. */
  predicate IsInfix(t: string, s: string) {
    exists i, j :: 0 <= i <= j <= |s| && s[i..j] == t
  }

  /** Number of whitespace characters at the front of `s`. */
  function LeadingBlank(s: string): (k: nat)
    ensures k <= |s|
    ensures forall i :: 0 <= i < k ==> IsWhitespace(s[i])
    ensures k < |s| ==> !IsWhitespace(s[k])
  {
    if s != [] && IsWhitespace(s[0]) then 1 + LeadingBlank(s[1..]) else 0
  }

  /** Length of `s` once its trailing whitespace is cut off. */
  function TrailingCut(s: string): (k: nat)
    ensures k <= |s|
    ensures forall i :: k <= i < |s| ==> IsWhitespace(s[i])
    ensures k > 0 ==> !IsWhitespace(s[k - 1])
  {
    if s != [] && IsWhitespace(s[|s| - 1]) then TrailingCut(s[..|s| - 1]) else |s|
  }

  /**
   * String.prototype.trim: the piece of `s` left after removing whitespace at
   * both ends; empty exactly when `s` is all whitespace.
   */
  function Trim(s: string): (r: string)
    ensures IsInfix(r, s)
    ensures var a := LeadingBlank(s);
      && a + |r| <= |s| && s[a..a + |r|] == r
      && AllWhitespace(s[..a]) && AllWhitespace(s[a + |r|..])
    ensures r == [] <==> AllWhitespace(s)
    ensures r != [] ==> !IsWhitespace(r[0]) && !IsWhitespace(r[|r| - 1])
  {
    var a := LeadingBlank(s);
    var b := a + TrailingCut(s[a..]);
    assert s[a..b] == s[a..][..TrailingCut(s[a..])];
    assert a < |s| ==> s[a..][0] == s[a];
    s[a..b]
  }

  /**
   * `r` is what remains of `s` once whitespace, and only whitespace, is cut
   * from its two ends: a reference description of trim, independent of how
   * Trim computes it.
   */
  predicate IsTrimOf(r: string, s: string) {
    exists a, b :: 0 <= a <= b <= |s| && s[a..b] == r && AllWhitespace(s[..a]) && AllWhitespace(s[b..])
      && (r != [] ==> !IsWhitespace(r[0]) && !IsWhitespace(r[|r| - 1]))
  }

  /** A whitespace-bounded cut of `s` with non-whitespace ends is the trim of `s`. */
  lemma TrimUnique(s: string, a: nat, b: nat)
    requires a <= b <= |s|
    requires AllWhitespace(s[..a]) && AllWhitespace(s[b..])
    requires a < b ==> !IsWhitespace(s[a]) && !IsWhitespace(s[b - 1])
    ensures Trim(s) == s[a..b]
  {
    assert forall i :: 0 <= i < a ==> IsWhitespace(s[i]) by {
      assert forall i :: 0 <= i < a ==> s[..a][i] == s[i];
    }
    assert forall i :: b <= i < |s| ==> IsWhitespace(s[i]) by {
      assert forall i :: b <= i < |s| ==> s[b..][i - b] == s[i];
    }
    if a < b {
      var k := LeadingBlank(s);
      assert k == a;
      var t := s[a..];
      var c := TrailingCut(t);
      assert t[b - a - 1] == s[b - 1];
      assert c >= b - a;
      assert c > 0 ==> t[c - 1] == s[a + c - 1];
      assert c == b - a;
    } else {
      assert AllWhitespace(s);
    }
  }

  /** Trim meets its reference description. */
  lemma TrimIsTrimOf(s: string)
    ensures IsTrimOf(Trim(s), s)
  {
    var r, a := Trim(s), LeadingBlank(s);
    var b := a + |r|;
    assert 0 <= a <= b <= |s| && s[a..b] == r && AllWhitespace(s[..a]) && AllWhitespace(s[b..]);
  }

  /** Trim meets its reference description, and is the only string that does. */
  lemma TrimSpec(s: string, r: string)
    ensures IsTrimOf(r, s) <==> r == Trim(s)
  {
    if IsTrimOf(r, s) {
      var a, b :| 0 <= a <= b <= |s| && s[a..b] == r && AllWhitespace(s[..a]) && AllWhitespace(s[b..])
        && (r != [] ==> !IsWhitespace(r[0]) && !IsWhitespace(r[|r| - 1]));
      assert a < b ==> r[0] == s[a] && r[|r| - 1] == s[b - 1];
      TrimUnique(s, a, b);
    }
    TrimIsTrimOf(s);
  }

  /** Trimming a string that has no whitespace at either end gives it back. */
  lemma TrimKeepsTrimmed(s: string)
    requires s != [] ==> !IsWhitespace(s[0]) && !IsWhitespace(s[|s| - 1])
    ensures Trim(s) == s
  {
    if s != [] {
      assert LeadingBlank(s) == 0;
      assert TrailingCut(s) == |s|;
    }
  }

  /** Trim is idempotent. */
  lemma TrimIdempotent(s: string)
    ensures Trim(Trim(s)) == Trim(s)
  {
    TrimKeepsTrimmed(Trim(s));
  }

  /** An infix of an infix of `s` is an infix of `s`. */
  lemma InfixTransitive(t: string, u: string, s: string)
    requires IsInfix(t, u) && IsInfix(u, s)
    ensures IsInfix(t, s)
  {
    var i, j :| 0 <= i <= j <= |u| && u[i..j] == t;
    var k, l :| 0 <= k <= l <= |s| && s[k..l] == u;
    forall p | 0 <= p < j - i ensures s[k + i..k + j][p] == t[p] {
      assert s[k + i..k + j][p] == s[k + i + p] == u[i + p];
    }
    assert s[k + i..k + j] == t;
  }

  /** A prefix is an infix. */
  lemma PrefixIsInfix(t: string, s: string)
    requires t <= s
    ensures IsInfix(t, s)
  {
    assert s[0..|t|] == t;
  }

  /** A piece of `s` is no longer than `s` and has no character `s` lacks. */
  lemma InfixInherits(t: string, s: string, c: char)
    requires IsInfix(t, s)
    ensures |t| <= |s|
    ensures c !in s ==> c !in t
  {
    var i, j :| 0 <= i <= j <= |s| && s[i..j] == t;
    assert forall k :: 0 <= k < |t| ==> t[k] == s[i + k];
  }

  /** `s.split(sep)[0]`: everything before the first `sep` (all of `s` if there is none). */
  function UpTo(s: string, sep: char): (r: string)
    ensures r <= s
    ensures sep !in r
    ensures |r| < |s| ==> s[|r|] == sep
  {
    if s == [] || s[0] == sep then [] else [s[0]] + UpTo(s[1..], sep)
  }

  /** The piece before a separator that it does not contain is recovered by UpTo. */
  lemma {:induction false} UpToConcat(a: string, b: string, sep: char)
    requires sep !in a
    ensures UpTo(a + [sep] + b, sep) == a
  {
    if a != [] {
      assert (a + [sep] + b)[1..] == a[1..] + [sep] + b;
      UpToConcat(a[1..], b, sep);
    }
  }

  /** `s.split('\n')[0]`: the first line of `s`. */
  function FirstLine(s: string): (r: string)
    ensures r <= s
    ensures '\n' !in r
    ensures |r| < |s| ==> s[|r|] == '\n'
  {
    UpTo(s, '\n')
  }

  /** `s.substring(0, n)`: the first `n` characters, or all of `s` when it is shorter. */
  function Take(s: string, n: nat): (r: string)
    ensures r <= s
    ensures |r| == if |s| < n then |s| else n
  {
    if |s| <= n then s else s[..n]
  }

  predicate IsDigit(c: char) {
    '0' <= c <= '9'
  }

  function Digit(d: nat): (c: char)
    requires d < 10
    ensures IsDigit(c)
  {
    (48 + d) as char
  }

  /** `n.toString()` for a non-negative integer: its decimal digits, most significant first. */
  function Decimal(n: nat): (r: string)
    ensures |r| >= 1
    ensures forall i :: 0 <= i < |r| ==> IsDigit(r[i])
    ensures n >= 10 ==> |r| >= 2
  {
    if n < 10 then [Digit(n)] else Decimal(n / 10) + [Digit(n % 10)]
  }

  /** Different numbers render as different strings. */
  lemma {:induction false} DecimalInjective(m: nat, n: nat)
    requires Decimal(m) == Decimal(n)
    ensures m == n
  {
    if m >= 10 && n >= 10 {
      var a, b := Decimal(m / 10), Decimal(n / 10);
      assert Decimal(m) == a + [Digit(m % 10)];
      assert Decimal(n) == b + [Digit(n % 10)];
      assert |a| == |b|;
      assert a == Decimal(m)[..|a|] && b == Decimal(n)[..|b|];
      assert Digit(m % 10) == Decimal(m)[|a|] == Digit(n % 10);
      DecimalInjective(m / 10, n / 10);
    } else if m < 10 && n < 10 {
      assert Digit(m) == Decimal(m)[0] == Digit(n);
    }
  }

  /**
   * Splitting at the first occurrence of a separator that the left parts do
   * not contain recovers both parts.
   */
  lemma SplitAtSeparator(a: string, b: string, c: string, d: string, sep: char)
    requires sep !in a && sep !in c
    requires a + [sep] + b == c + [sep] + d
    ensures a == c && b == d
  {
    var x, y := a + [sep] + b, c + [sep] + d;
    UpToConcat(a, b, sep);
    UpToConcat(c, d, sep);
    assert b == x[|a| + 1..] && d == y[|c| + 1..];
  }

  lemma DecimalHasNoDash(n: nat)
    ensures '-' !in Decimal(n)
  {
    var r := Decimal(n);
    assert forall i :: 0 <= i < |r| ==> r[i] != '-';
  }
}
