/** The fragment of regular expressions the recorder uses.  Every pattern of
    the carrier table and of the plausibility filter is either the match-all
    `.*` or an anchored `^P1 P2 ... Pk C{min,max}$`: a fixed prefix of single
    character classes followed by one character class repeated a bounded (or
    unbounded) number of times.  `IsMatch` is the matcher; `Denotes` is its
    declarative meaning, and the matcher's contract connects the two.

    `\d` is the ASCII class `[0-9]` and `$` is the end of the string; .NET
    also lets `\d` match other Unicode digits and `$` match before a final
    newline, which the model does not capture. */
module Regex {

  /** A bracket expression: the union of inclusive character ranges. */
  datatype CharClass = CharClass(ranges: seq<(char, char)>)

  datatype Bound = Finite(n: nat) | Unbounded

  datatype Pattern =
    | MatchAll
    | Anchored(prefix: seq<CharClass>, body: CharClass, minCount: nat, maxCount: Bound)

  function Lit(c: char): CharClass { CharClass([(c, c)]) }

  /** `\d` */
  const Digit: CharClass := CharClass([('0', '9')])

  predicate InClass(c: char, k: CharClass) {
    exists i :: 0 <= i < |k.ranges| && k.ranges[i].0 <= c <= k.ranges[i].1
  }

  /** A class of one range holds exactly the characters of that range. */
  lemma SingleRange(c: char, lo: char, hi: char)
    ensures InClass(c, CharClass([(lo, hi)])) <==> lo <= c <= hi
  {
    if lo <= c <= hi {
      assert CharClass([(lo, hi)]).ranges[0] == (lo, hi);
    }
  }

  predicate WithinBound(n: nat, b: Bound) {
    match b
    case Finite(m) => n <= m
    case Unbounded => true
  }

  /** What it means for a whole string to match a pattern. */
  ghost predicate Denotes(p: Pattern, s: string) {
    match p
    case MatchAll => true
    case Anchored(prefix, body, lo, hi) =>
      && |prefix| <= |s|
      && (forall i :: 0 <= i < |prefix| ==> InClass(s[i], prefix[i]))
      && lo <= |s| - |prefix|
      && WithinBound(|s| - |prefix|, hi)
      && (forall i :: |prefix| <= i < |s| ==> InClass(s[i], body))
  }

  /** Matches the leading characters of `s` against the prefix, one class
      per character. */
  function MatchPrefix(prefix: seq<CharClass>, s: string): (r: bool)
    requires |prefix| <= |s|
    ensures r <==> forall i :: 0 <= i < |prefix| ==> InClass(s[i], prefix[i])
  {
    if prefix == [] then true
    else InClass(s[0], prefix[0]) && MatchPrefix(prefix[1..], s[1..])
  }

  /** Matches all of `s` against `body{lo,hi}`. */
  function MatchRepeat(body: CharClass, lo: nat, hi: Bound, s: string): (r: bool)
    ensures r <==> lo <= |s| && WithinBound(|s|, hi) && forall i :: 0 <= i < |s| ==> InClass(s[i], body)
    decreases |s|
  {
    if s == [] then lo == 0
    else
      && InClass(s[0], body)
      && (match hi case Finite(m) => m >= 1 case Unbounded => true)
      && MatchRepeat(body,
                     if lo == 0 then 0 else lo - 1,
                     match hi case Finite(m) => Finite(if m == 0 then 0 else m - 1) case Unbounded => Unbounded,
                     s[1..])
  }

  /** `Regex.IsMatch(s, p)` for the patterns above. */
  function IsMatch(p: Pattern, s: string): (r: bool)
    ensures r <==> Denotes(p, s)
  {
    match p
    case MatchAll => true
    case Anchored(prefix, body, lo, hi) =>
      |prefix| <= |s| && MatchPrefix(prefix, s) && MatchRepeat(body, lo, hi, s[|prefix|..])
  }
}
