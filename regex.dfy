/** The pieces of JavaScript regular-expression matching that the query interpreter uses
    (`\d`, `\s`, `\w`, `\b`, literal alternatives, greedy optional parts), written as
    scanners over positions.

    Every pattern the interpreter uses has the shape
      literal-alternatives, then runs of `\s`, an optional `$`, digits, an optional fraction,
    where each greedy run is followed by a character class it cannot overlap with (a space
    run is followed by `$`, a digit or a letter; a digit run by a letter, `.`, `-` or a space).
    Giving characters back from such a run never lets the rest match, so the greedy
    scan below finds exactly the match a backtracking engine finds. Alternatives are tried
    in the order they are written, and the leftmost start position wins. */
module Regex {
  import opened Wrappers
  import Text

  predicate IsDigit(c: char) { '0' <= c <= '9' }

  /** `\w` */
  predicate IsWordChar(c: char) {
    ('a' <= c <= 'z') || ('A' <= c <= 'Z') || ('0' <= c <= '9') || c == '_'
  }

  /** `\b` at position i: a word character on exactly one side. */
  predicate WordBoundaryAt(s: string, i: int) {
    0 <= i <= |s| &&
    ((i > 0 && IsWordChar(s[i - 1])) != (i < |s| && IsWordChar(s[i])))
  }

  /** End of the longest run of digits starting at i (`\d*`, greedy). */
  function DigitsEnd(s: string, i: nat): (e: nat)
    requires i <= |s|
    ensures i <= e <= |s|
    ensures forall k :: i <= k < e ==> IsDigit(s[k])
    ensures e == |s| || !IsDigit(s[e])
    decreases |s| - i
  {
    if i < |s| && IsDigit(s[i]) then DigitsEnd(s, i + 1) else i
  }

  /** End of the longest run of white space starting at i (`\s*`, greedy). */
  function SpacesEnd(s: string, i: nat): (e: nat)
    requires i <= |s|
    ensures i <= e <= |s|
    ensures forall k :: i <= k < e ==> Text.IsJsSpace(s[k])
    ensures e == |s| || !Text.IsJsSpace(s[e])
    decreases |s| - i
  {
    if i < |s| && Text.IsJsSpace(s[i]) then SpacesEnd(s, i + 1) else i
  }

  /** The value of a run of decimal digits. */
  function DigitsValue(d: string): nat
    requires forall k :: 0 <= k < |d| ==> IsDigit(d[k])
  {
    if d == [] then 0
    else
      assert IsDigit(d[|d| - 1]);
      DigitsValue(d[..|d| - 1]) * 10 + (d[|d| - 1] as int - '0' as int)
  }

  function Pow10(n: nat): (p: nat)
    ensures p >= 1
  {
    if n == 0 then 1 else 10 * Pow10(n - 1)
  }

  /** A number matched by `(\d+(?:\.\d+)?)`: its value (what `parseFloat` reads, as an
      exact rational) and the position just after it. */
  datatype Num = Num(value: real, end: nat)

  function DecimalAt(s: string, i: nat): (r: Option<Num>)
    ensures r.Some? ==> i < r.value.end <= |s| && r.value.value >= 0.0
  {
    if i > |s| then None
    else
      var e := DigitsEnd(s, i);
      if e == i then None
      else
        var whole := DigitsValue(s[i..e]) as real;
        if e + 1 < |s| && s[e] == '.' && IsDigit(s[e + 1]) then
          var f := DigitsEnd(s, e + 1);
          Some(Num(whole + (DigitsValue(s[e + 1..f]) as real) / (Pow10(f - e - 1) as real), f))
        else
          Some(Num(whole, e))
  }

  /** `\s*\$?(\d+(?:\.\d+)?)` at position i. */
  function AmountAt(s: string, i: nat): (r: Option<Num>)
    ensures r.Some? ==> i < r.value.end <= |s| && r.value.value >= 0.0
  {
    if i > |s| then None
    else
      var j := SpacesEnd(s, i);
      var k := if j < |s| && s[j] == '$' then j + 1 else j;
      DecimalAt(s, k)
  }

  /** `(?:a1|a2|...)` at position i followed by a continuation: the first alternative, in
      written order, that occurs at i and whose continuation matches. */
  function FirstAlternative<T>(s: string, i: nat, alts: seq<string>, cont: nat -> Option<T>): (r: Option<T>)
    ensures r.Some? ==> exists k :: 0 <= k < |alts| && Text.OccursAt(s, i, alts[k]) && cont(i + |alts[k]|) == r
    ensures r.None? ==> forall k :: 0 <= k < |alts| && Text.OccursAt(s, i, alts[k]) ==> cont(i + |alts[k]|).None?
  {
    if alts == [] then None
    else if Text.OccursAt(s, i, alts[0]) && cont(i + |alts[0]|).Some? then cont(i + |alts[0]|)
    else FirstAlternative(s, i, alts[1..], cont)
  }

  /** `\b(?:a1|a2|...)\b` matches at position i. */
  predicate WordAlternativeAt(s: string, i: int, alts: seq<string>) {
    WordBoundaryAt(s, i) &&
    exists k | 0 <= k < |alts| :: Text.OccursAt(s, i, alts[k]) && WordBoundaryAt(s, i + |alts[k]|)
  }

  /** `/\b(?:a1|a2|...)\b/.test(s)` */
  predicate TestWordAlternatives(s: string, alts: seq<string>) {
    exists i | 0 <= i <= |s| :: WordAlternativeAt(s, i, alts)
  }

  /** `s.match(re)` for a regular expression whose match at a given start is `at`:
      the match at the leftmost start position from i on. */
  function Leftmost<T>(s: string, i: nat, at: nat -> Option<T>): (r: Option<T>)
    ensures r.Some? ==> exists p :: i <= p <= |s| && at(p) == r && forall q :: i <= q < p ==> at(q).None?
    ensures r.None? ==> forall p :: i <= p <= |s| ==> at(p).None?
    decreases |s| + 1 - i
  {
    if i > |s| then None
    else if at(i).Some? then at(i)
    else Leftmost(s, i + 1, at)
  }
}
