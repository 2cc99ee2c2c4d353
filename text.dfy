/** String primitives the recorder takes from the .NET base library:
    `String.Trim()`, `String.StartsWith`, ordinal `String.Contains`, and the
    decimal rendering of integers with an optional minimum width (as in
    `int.ToString()` and the `yyyy`, `MM`, `HH`, `hh` format specifiers). */
module Text {

  // ---------------------------------------------------------------------
  // Whitespace and Trim

  /** `char.IsWhiteSpace`: the Unicode space separators, the line and
      paragraph separators, U+0009..U+000D and U+0085. */
  predicate IsWhiteSpace(c: char) {
    || ('\U{0009}' <= c <= '\U{000D}')
    || c == ' ' || c == '\U{0085}' || c == '\U{00A0}' || c == '\U{1680}'
    || ('\U{2000}' <= c <= '\U{200A}')
    || c == '\U{2028}' || c == '\U{2029}' || c == '\U{202F}' || c == '\U{205F}' || c == '\U{3000}'
  }

  /** Index of the first non-whitespace character (or |s|). */
  function LeadingWhiteSpace(s: string): (n: nat)
    ensures n <= |s|
    ensures forall i :: 0 <= i < n ==> IsWhiteSpace(s[i])
    ensures n < |s| ==> !IsWhiteSpace(s[n])
  {
    if s == [] || !IsWhiteSpace(s[0]) then 0 else 1 + LeadingWhiteSpace(s[1..])
  }

  /** Number of whitespace characters at the end of `s`. */
  function TrailingWhiteSpace(s: string): (n: nat)
    ensures n <= |s|
    ensures forall i :: |s| - n <= i < |s| ==> IsWhiteSpace(s[i])
    ensures n < |s| ==> !IsWhiteSpace(s[|s| - 1 - n])
  {
    if s == [] || !IsWhiteSpace(s[|s| - 1]) then 0 else 1 + TrailingWhiteSpace(s[..|s| - 1])
  }

  /** `String.Trim()`: removes all leading and trailing whitespace. */
  function Trim(s: string): (r: string)
  {
    var start := LeadingWhiteSpace(s);
    var t := s[start..];
    t[..|t| - TrailingWhiteSpace(t)]
  }

  /** The trimmed string is the whitespace-free core of the input: it is a
      contiguous slice, everything cut away is whitespace, and it neither
      starts nor ends with whitespace. */
  lemma TrimIsCore(s: string)
    ensures exists i, j ::
              && 0 <= i <= j <= |s| && Trim(s) == s[i..j]
              && (forall k :: 0 <= k < i ==> IsWhiteSpace(s[k]))
              && (forall k :: j <= k < |s| ==> IsWhiteSpace(s[k]))
    ensures Trim(s) != [] ==> !IsWhiteSpace(Trim(s)[0]) && !IsWhiteSpace(Trim(s)[|Trim(s)| - 1])
  {
    var i := LeadingWhiteSpace(s);
    var t := s[i..];
    var n := TrailingWhiteSpace(t);
    var j := |s| - n;
    assert Trim(s) == s[i..j];
    forall k | j <= k < |s| ensures IsWhiteSpace(s[k]) {
      assert s[k] == t[k - i];
    }
    if Trim(s) != [] {
      assert Trim(s)[0] == s[i];
    }
  }

  /** Trimming a string that has no whitespace at either end changes nothing,
      in particular it is idempotent. */
  lemma TrimIdempotent(s: string)
    ensures Trim(Trim(s)) == Trim(s)
  {
    TrimIsCore(s);
    var t := Trim(s);
    assert LeadingWhiteSpace(t) == 0;
    assert TrailingWhiteSpace(t) == 0;
  }

  // ---------------------------------------------------------------------
  // Prefixes and substrings

  /** `s.StartsWith(p)` (ordinal comparison). */
  predicate StartsWith(s: string, p: string) {
    |p| <= |s| && s[..|p|] == p
  }

  /** `s` ends with `q`. */
  predicate EndsWith(s: string, q: string) {
    |q| <= |s| && s[|s| - |q|..] == q
  }

  /** A prefix stays a prefix when something is appended. */
  lemma StartsWithAppend(s: string, p: string, t: string)
    requires StartsWith(s, p)
    ensures StartsWith(s + t, p)
  {
    assert (s + t)[..|p|] == s[..|p|];
  }

  /** The pieces of a three-part concatenation sit at their offsets. */
  lemma ConcatParts3(x: string, y: string, z: string)
    ensures var a := x + y + z;
      && |a| == |x| + |y| + |z|
      && a[..|x|] == x && a[|x|..|x| + |y|] == y && a[|x| + |y|..] == z
  {
    var a := x + y + z;
    assert a[..|x|] == x;
    assert a[|x|..|x| + |y|] == y;
  }

  /** The pieces of a five-part concatenation sit at their offsets. */
  lemma ConcatParts5(a: string, b: string, c: string, d: string, e: string)
    ensures var r := a + b + c + d + e;
      var i, j, k, l := |a|, |a| + |b|, |a| + |b| + |c|, |a| + |b| + |c| + |d|;
      && |r| == l + |e|
      && r[..i] == a && r[i..j] == b && r[j..k] == c && r[k..l] == d && r[l..] == e
  {
    var r := a + b + c + d + e;
    var l := |a| + |b| + |c| + |d|;
    assert r[..l] == a + b + c + d;
    ConcatParts3(a, b, c);
    var u := a + b + c;
    assert r[..|u|] == u && r[..|u| + |d|] == u + d;
  }

  /** `sub` occurs in `s` starting at index `i`. */
  predicate OccursAt(s: string, i: int, sub: string) {
    0 <= i <= |s| - |sub| && s[i..i + |sub|] == sub
  }

  /** Ordinal `s.Contains(sub)`. */
  predicate Contains(s: string, sub: string) {
    exists i | 0 <= i <= |s| - |sub| :: OccursAt(s, i, sub)
  }

  // ---------------------------------------------------------------------
  // Decimal digits

  predicate IsDigit(c: char) { '0' <= c <= '9' }

  predicate AllDigits(s: string) { forall i :: 0 <= i < |s| ==> IsDigit(s[i]) }

  function DigitChar(d: nat): (c: char)
    requires d < 10
    ensures IsDigit(c)
  {
    ['0', '1', '2', '3', '4', '5', '6', '7', '8', '9'][d]
  }

  function DigitValue(c: char): (d: nat)
    requires IsDigit(c)
    ensures d < 10 && DigitChar(d) == c
  {
    (c as int - '0' as int) as nat
  }

  /** The number a string of decimal digits denotes (leading zeros allowed). */
  function DecimalValue(s: string): nat
    requires AllDigits(s)
  {
    if s == [] then 0 else 10 * DecimalValue(s[..|s| - 1]) + DigitValue(s[|s| - 1])
  }

  function Pow10(n: nat): (r: nat)
    ensures r >= 1
  {
    if n == 0 then 1 else 10 * Pow10(n - 1)
  }

  /** `n.ToString()` for a non-negative integer. */
  function NatToDecimal(n: nat): (r: string)
    ensures |r| >= 1 && AllDigits(r)
  {
    if n < 10 then [DigitChar(n)] else NatToDecimal(n / 10) + [DigitChar(n % 10)]
  }

  /** `i.ToString()` for any integer, with the invariant-culture minus sign. */
  function IntToDecimal(i: int): (r: string)
    ensures |r| >= 1
  {
    if i < 0 then "-" + NatToDecimal(-i) else NatToDecimal(i)
  }

  function Zeros(k: nat): (r: string)
    ensures |r| == k && AllDigits(r)
    ensures forall i :: 0 <= i < k ==> r[i] == '0'
  {
    if k == 0 then [] else Zeros(k - 1) + ['0']
  }

  /** A number written with at least `width` digits, zero-padded on the left,
      as the custom date and time format specifiers do. */
  function PadDigits(n: nat, width: nat): (r: string)
    ensures AllDigits(r)
  {
    var d := NatToDecimal(n);
    if |d| < width then Zeros(width - |d|) + d else d
  }

  /** Reading back a rendered number gives the number, and it never has a
      superfluous leading zero. */
  lemma {:induction false} NatToDecimalRoundTrip(n: nat)
    ensures DecimalValue(NatToDecimal(n)) == n
    ensures NatToDecimal(n)[0] == '0' ==> n == 0
    ensures n < Pow10(|NatToDecimal(n)|) && (|NatToDecimal(n)| > 1 ==> Pow10(|NatToDecimal(n)| - 1) <= n)
  {
    if n >= 10 {
      NatToDecimalRoundTrip(n / 10);
      var r := NatToDecimal(n);
      assert r[..|r| - 1] == NatToDecimal(n / 10);
    }
  }

  /** Leading zeros do not change the value of a digit string. */
  lemma {:induction false} LeadingZerosValue(k: nat, t: string)
    requires AllDigits(t)
    ensures AllDigits(Zeros(k) + t) && DecimalValue(Zeros(k) + t) == DecimalValue(t)
  {
    var u := Zeros(k) + t;
    assert AllDigits(u) by {
      forall i | 0 <= i < |u| ensures IsDigit(u[i]) {
        if i < k { assert u[i] == Zeros(k)[i]; } else { assert u[i] == t[i - k]; }
      }
    }
    if t == [] {
      assert u == Zeros(k);
      if k > 0 {
        assert Zeros(k)[..k - 1] == Zeros(k - 1);
        LeadingZerosValue(k - 1, []);
        assert Zeros(k - 1) + [] == Zeros(k - 1);
      }
    } else {
      assert u[..|u| - 1] == Zeros(k) + t[..|t| - 1];
      LeadingZerosValue(k, t[..|t| - 1]);
    }
  }

  /** A zero-padded number reads back as the number, and it has exactly
      `width` digits whenever the number fits in `width` (at least one)
      digits. */
  lemma {:induction false} PadDigitsRoundTrip(n: nat, width: nat)
    ensures DecimalValue(PadDigits(n, width)) == n
    ensures 1 <= width && n < Pow10(width) ==> |PadDigits(n, width)| == width
  {
    var d := NatToDecimal(n);
    assert DecimalValue(d) == n by {
      NatToDecimalRoundTrip(n);
    }
    if |d| < width {
      var z := Zeros(width - |d|);
      assert PadDigits(n, width) == z + d;
      LeadingZerosValue(width - |d|, d);
      assert |z + d| == width;
    } else {
      assert PadDigits(n, width) == d;
      if 1 <= width && n < Pow10(width) {
        DecimalFits(n, width);
      }
    }
  }

  /** A number below 10^width is written with at most `width` digits. */
  lemma {:induction false} DecimalFits(n: nat, width: nat)
    requires 1 <= width && n < Pow10(width)
    ensures |NatToDecimal(n)| <= width
  {
    NatToDecimalRoundTrip(n);
    var k := |NatToDecimal(n)|;
    if k > width {
      Pow10Monotone(width, k - 1);
    }
  }

  lemma {:induction false} Pow10Monotone(a: nat, b: nat)
    requires a <= b
    ensures Pow10(a) <= Pow10(b)
  {
    if a < b { Pow10Monotone(a, b - 1); }
  }

  /** Two-digit fields: the value of a two-character digit string. */
  lemma TwoDigitValue(s: string)
    requires |s| == 2 && AllDigits(s)
    ensures DecimalValue(s) == 10 * DigitValue(s[0]) + DigitValue(s[1])
  {
    var h := s[..1];
    assert h[..0] == [] && h[0] == s[0] && s[..|s| - 1] == h;
    assert DecimalValue(h) == DigitValue(s[0]);
  }
}
