/**
 * The regular expressions of the description parser, each written as a
 * scanner for that one pattern. `String.prototype.match` without the g flag
 * returns the leftmost match, and at that position the first alternative the
 * backtracking search accepts; every `...At(s, i)` function below gives the
 * capture group of a match starting at index i (None when the pattern cannot
 * match there), with the pattern's backtracking order worked out by hand, and
 * `Leftmost` tries the positions from left to right.
 */
module Patterns {
  import opened Text

  /** The leftmost position from i on where `at` matches, and its capture. */
  function Leftmost<T>(s: string, i: nat, at: (string, nat) -> Option<T>): (r: Option<T>)
    requires i <= |s|
    ensures r.None? <==> forall j :: i <= j <= |s| ==> at(s, j).None?
    ensures r.Some? ==> exists j :: i <= j <= |s| && at(s, j) == r
                                    && forall k :: i <= k < j ==> at(s, k).None?
    decreases |s| - i
  {
    if at(s, i).Some? then at(s, i)
    else if i == |s| then None
    else Leftmost(s, i + 1, at)
  }

  /** A match at j with none before it from i on is the leftmost one. */
  lemma {:induction false} LeftmostAt<T>(s: string, i: nat, j: nat, at: (string, nat) -> Option<T>)
    requires i <= j <= |s| && at(s, j).Some?
    requires forall k :: i <= k < j ==> at(s, k).None?
    ensures Leftmost(s, i, at) == at(s, j)
    decreases j - i
  {
    if i < j {
      LeftmostAt(s, i + 1, j, at);
    }
  }

  // ---------------------------------------------------------------------
  // Runs of characters

  predicate IsStop(c: char) {
    c == ',' || c == '.'
  }

  predicate IsQuote(c: char) {
    c == '"' || c == '\''
  }

  /** End of the run of \d from i. */
  function SpanDigits(s: string, i: nat): (j: nat)
    requires i <= |s|
    ensures i <= j <= |s|
    ensures forall k :: i <= k < j ==> IsDigit(s[k])
    ensures j < |s| ==> !IsDigit(s[j])
    decreases |s| - i
  {
    if i < |s| && IsDigit(s[i]) then SpanDigits(s, i + 1) else i
  }

  /** End of the run of [^,.] from i. */
  function SpanText(s: string, i: nat): (j: nat)
    requires i <= |s|
    ensures i <= j <= |s|
    ensures forall k :: i <= k < j ==> !IsStop(s[k])
    ensures j < |s| ==> IsStop(s[j])
    decreases |s| - i
  {
    if i < |s| && !IsStop(s[i]) then SpanText(s, i + 1) else i
  }

  /** End of the run of [^"'] from i. */
  function SpanNonQuote(s: string, i: nat): (j: nat)
    requires i <= |s|
    ensures i <= j <= |s|
    ensures forall k :: i <= k < j ==> !IsQuote(s[k])
    ensures j < |s| ==> IsQuote(s[j])
    decreases |s| - i
  {
    if i < |s| && !IsQuote(s[i]) then SpanNonQuote(s, i + 1) else i
  }

  /** w occurs at j when both are compared case-insensitively (the i flag). */
  predicate HasAtI(s: string, j: nat, w: string) {
    j + |w| <= |s| && Lower(s[j..j + |w|]) == w
  }

  // ---------------------------------------------------------------------
  // Numbers: (\d+(?:\.\d+)?)

  datatype Number = Number(end: nat, value: real)

  /** `\d+(?:\.\d+)?` at i, both parts greedy, read by parseFloat. */
  function NumberAt(s: string, i: nat): (r: Option<Number>)
    ensures r.Some? ==> i < r.value.end <= |s| && IsDigit(s[i])
    ensures r.Some? ==> r.value.value >= 0.0
    ensures (i < |s| && IsDigit(s[i])) ==> r.Some?
  {
    if i >= |s| || !IsDigit(s[i]) then None
    else
      var a := SpanDigits(s, i);
      assert AllDigits(s[i..a]);
      if a + 1 < |s| && s[a] == '.' && IsDigit(s[a + 1]) then
        var b := SpanDigits(s, a + 1);
        assert AllDigits(s[a + 1..b]);
        Some(Number(b, DecimalValue(s[i..a], s[a + 1..b])))
      else
        Some(Number(a, DigitsValue(s[i..a]) as real))
  }

  // ---------------------------------------------------------------------
  // Gem size: /(\d+(?:\.\d+)?)\s*(?:-|\s)?(?:carat|ct)/i on lower-cased text.
  // Shortening \d+ or dropping the fraction leaves a digit or '.' where
  // only white space, '-' or 'c' can follow, and \s* must reach the end of
  // the white space run, so after the number the pattern matches exactly
  // when the run is followed by "-carat", "-ct", "carat" or "ct".

  predicate UnitAt(s: string, j: nat) {
    HasAt(s, j, "carat") || HasAt(s, j, "ct")
  }

  function CaratAt(s: string, i: nat): Option<real> {
    match NumberAt(s, i)
    case None => None
    case Some(n) =>
      var q := SkipSpaces(s, n.end);
      if (q < |s| && s[q] == '-' && UnitAt(s, q + 1)) || UnitAt(s, q) then Some(n.value)
      else None
  }

  // ---------------------------------------------------------------------
  // Ring size: /(?:ring\s+)?size\s+(\d+(?:\.\d+)?)/i on lower-cased text.

  /** `size\s+(\d+(?:\.\d+)?)` at j. */
  function SizeAt(s: string, j: nat): Option<real> {
    if !HasAt(s, j, "size") then None
    else
      var q := SkipSpaces(s, j + 4);
      if q == j + 4 then None
      else match NumberAt(s, q)
        case None => None
        case Some(n) => Some(n.value)
  }

  /** The optional group is tried first; its \s+ must reach "size". */
  function RingSizeAt(s: string, i: nat): Option<real> {
    if HasAt(s, i, "ring") then
      var m := SkipSpaces(s, i + 4);
      if m > i + 4 && SizeAt(s, m).Some? then SizeAt(s, m) else SizeAt(s, i)
    else SizeAt(s, i)
  }

  // ---------------------------------------------------------------------
  // Gem count: /(\d+)\s+(?:gem|stone|diamond|ruby|sapphire|emerald|amethyst|topaz)/i
  // on lower-cased text. The nouns need only be prefixes of the word.

  predicate GemNounAt(s: string, q: nat) {
    HasAt(s, q, "gem") || HasAt(s, q, "stone") || HasAt(s, q, "diamond")
    || HasAt(s, q, "ruby") || HasAt(s, q, "sapphire") || HasAt(s, q, "emerald")
    || HasAt(s, q, "amethyst") || HasAt(s, q, "topaz")
  }

  /** The digits of a "<digits> <gem noun>" match at i, read by parseInt. */
  function CountAt(s: string, i: nat): Option<nat> {
    if i >= |s| || !IsDigit(s[i]) then None
    else
      var a := SpanDigits(s, i);
      var q := SkipSpaces(s, a);
      assert AllDigits(s[i..a]);
      if q > a && GemNounAt(s, q) then Some(DigitsValue(s[i..a])) else None
  }

  // ---------------------------------------------------------------------
  // Engraving, on the text as typed.

  /** /["']([^"']+)["']/: the greedy [^"']+ stops at the next quote, which
      must exist; either quote character closes either. */
  function QuotedAt(s: string, i: nat): (r: Option<string>)
    ensures r.Some? ==> r.value != [] && forall k :: 0 <= k < |r.value| ==> !IsQuote(r.value[k])
  {
    if i >= |s| || !IsQuote(s[i]) then None
    else
      var e := SpanNonQuote(s, i + 1);
      if i + 1 < e < |s| then Some(s[i + 1..e]) else None
  }

  /** `\s+([^,.]+)` at p. The greedy \s+ leaves the capture to start after the
      white space run; when a ',' or '.' or the end follows the run, \s+ gives
      back one white space character, which is then the whole capture, if the
      run had at least two. */
  function CaptureAt(s: string, p: nat): (r: Option<string>)
    requires p <= |s|
    ensures r.Some? ==> r.value != [] && forall k :: 0 <= k < |r.value| ==> !IsStop(r.value[k])
  {
    var q := SkipSpaces(s, p);
    if q == p then None
    else if q < |s| && !IsStop(s[q]) then Some(s[q..SpanText(s, q)])
    else if q - p >= 2 then Some(s[q - 1..q])
    else None
  }

  /** `(?:\s+with)?\s+([^,.]+)` at k: the optional group first (its \s+ must
      reach "with"), then without it. */
  function WithCaptureAt(s: string, k: nat): (r: Option<string>)
    requires k <= |s|
    ensures r.Some? ==> r.value != [] && forall j :: 0 <= j < |r.value| ==> !IsStop(r.value[j])
  {
    var m := SkipSpaces(s, k);
    if m > k && HasAtI(s, m, "with") && CaptureAt(s, m + 4).Some? then CaptureAt(s, m + 4)
    else CaptureAt(s, k)
  }

  /** `<stem>(?:e|ed|ing)(?:\s+with)?\s+([^,.]+)`, the alternatives in order. */
  function VerbAt(s: string, i: nat, stem: string): (r: Option<string>)
    ensures r.Some? ==> r.value != [] && forall j :: 0 <= j < |r.value| ==> !IsStop(r.value[j])
  {
    if !HasAtI(s, i, stem) then None
    else
      var k := i + |stem|;
      if HasAtI(s, k, "e") && WithCaptureAt(s, k + 1).Some? then WithCaptureAt(s, k + 1)
      else if HasAtI(s, k, "ed") && WithCaptureAt(s, k + 2).Some? then WithCaptureAt(s, k + 2)
      else if HasAtI(s, k, "ing") then WithCaptureAt(s, k + 3)
      else None
  }

  /** `text\s+(?:saying|reading)?\s+([^,.]+)`. With the optional word the
      capture follows it; without it the two \s+ share one white space run,
      which therefore needs two characters (three when the capture is the
      single white space character before a ',' or '.'). */
  function TextAt(s: string, i: nat): (r: Option<string>)
    ensures r.Some? ==> r.value != [] && forall j :: 0 <= j < |r.value| ==> !IsStop(r.value[j])
  {
    if !HasAtI(s, i, "text") then None
    else
      var k := i + 4;
      var m := SkipSpaces(s, k);
      var word :=
        if m == k then None
        else if HasAtI(s, m, "saying") then CaptureAt(s, m + 6)
        else if HasAtI(s, m, "reading") then CaptureAt(s, m + 7)
        else None;
      if m == k then None
      else if word.Some? then word
      else if m - k >= 2 && m < |s| && !IsStop(s[m]) then Some(s[m..SpanText(s, m)])
      else if m - k >= 3 then Some(s[m - 1..m])
      else None
  }

  /** The lead-in phrases of the engraving extractor, in the order they are tried. */
  datatype LeadIn = Engrave | Saying | ThatSays | Inscribe | TextWord

  const LeadIns: seq<LeadIn> := [Engrave, Saying, ThatSays, Inscribe, TextWord]

  function LeadInAt(p: LeadIn, s: string, i: nat): (r: Option<string>)
    ensures r.Some? ==> r.value != [] && forall j :: 0 <= j < |r.value| ==> !IsStop(r.value[j])
  {
    match p
    case Engrave => VerbAt(s, i, "engrav")
    case Saying => if HasAtI(s, i, "saying") then CaptureAt(s, i + 6) else None
    case ThatSays =>
      if HasAtI(s, i, "that") then
        var m := SkipSpaces(s, i + 4);
        if m > i + 4 && HasAtI(s, m, "says") then CaptureAt(s, m + 4) else None
      else None
    case Inscribe => VerbAt(s, i, "inscrib")
    case TextWord => TextAt(s, i)
  }

  /** text.match(phrase) for one lead-in phrase. */
  function LeadInMatch(p: LeadIn, s: string): (r: Option<string>)
    ensures r.Some? ==> r.value != [] && forall j :: 0 <= j < |r.value| ==> !IsStop(r.value[j])
  {
    var r := Leftmost(s, 0, (t, i) => LeadInAt(p, t, i));
    if r.Some? then
      assert exists j :: 0 <= j <= |s| && LeadInAt(p, s, j) == r;
      r
    else r
  }
}
