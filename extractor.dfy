/**
 * The "design by description" parser: free text plus the current design in,
 * a best-effort design with a confidence per field out. Every field is
 * resolved by an ordered chain of substring and pattern checks that ends in
 * the current design's value and then a fixed default.
 */
module Extractor {
  import opened Text
  import opened Designs
  import opened Patterns

  // ---------------------------------------------------------------------
  // Fields resolved by a plain if-chain over the lower-cased text

  function ExtractJewelryType(description: string, current: Selection): string {
    var text := Lower(description);
    if Contains(text, "ring") then "ring"
    else if Contains(text, "necklace") || Contains(text, "pendant") then "necklace"
    else if Contains(text, "earring") then "earrings"
    else if Contains(text, "bracelet") then "bracelet"
    else OrString(current.jewelryType, "ring")
  }

  function ExtractMetalType(description: string, current: Selection): string {
    var text := Lower(description);
    if Contains(text, "gold") && Contains(text, "rose") then "rose-gold"
    else if Contains(text, "gold") && Contains(text, "white") then "white-gold"
    else if Contains(text, "gold") then "gold"
    else if Contains(text, "silver") then "silver"
    else if Contains(text, "platinum") then "platinum"
    else if Contains(text, "titanium") then "titanium"
    else OrString(current.metalType, "gold")
  }

  /** One of the phrases that ask for no gemstone. */
  predicate NegatesGem(text: string) {
    Contains(text, "no gem") || Contains(text, "without gem")
    || Contains(text, "no stone") || Contains(text, "gemless")
  }

  /** The named gem earliest in the priority order, if any. */
  function NamedGem(text: string): Option<string> {
    if Contains(text, "diamond") then Some("diamond")
    else if Contains(text, "ruby") then Some("ruby")
    else if Contains(text, "sapphire") then Some("sapphire")
    else if Contains(text, "emerald") then Some("emerald")
    else if Contains(text, "amethyst") then Some("amethyst")
    else if Contains(text, "topaz") then Some("topaz")
    else None
  }

  function ExtractGemType(description: string, current: Selection): Option<string> {
    var text := Lower(description);
    if NamedGem(text).Some? then NamedGem(text)
    else if NegatesGem(text) then None
    else if HasGem(current.gemType) then current.gemType
    else None
  }

  function ExtractShape(description: string, current: Selection): string {
    var text := Lower(description);
    if Contains(text, "round") then "round"
    else if Contains(text, "square") then "square"
    else if Contains(text, "triangle") || Contains(text, "triangular") then "triangle"
    else if Contains(text, "heart") || Contains(text, "heart-shaped") then "heart"
    else if Contains(text, "hexagon") then "hexagon"
    else if Contains(text, "custom shape") || Contains(text, "custom design")
            || Contains(text, "unique shape") then "custom-1"
    else OrString(current.shape, "round")
  }

  // ---------------------------------------------------------------------
  // Reference definitions of the fields the source computes by reassigning
  // a local variable; the methods below are proved to agree with them.

  /** `x` pulled into [lo, hi] by the source's pair of bound checks. */
  function ClampReal(x: real, lo: real, hi: real): (r: real)
    requires lo <= hi
    ensures lo <= r <= hi
    ensures lo <= x <= hi ==> r == x
    ensures x < lo ==> r == lo
    ensures x > hi ==> r == hi
  {
    if x < lo then lo else if x > hi then hi else x
  }

  /** ClampReal on integers: the count is an integer in the source. */
  function ClampInt(x: int, lo: int, hi: int): (r: int)
    requires lo <= hi
    ensures lo <= r <= hi
    ensures lo <= x <= hi ==> r == x
    ensures x < lo ==> r == lo
    ensures x > hi ==> r == hi
  {
    if x < lo then lo else if x > hi then hi else x
  }

  /** A numeric carat size wins; otherwise the strongest size word, where a
      larger size outranks a smaller one. */
  function GemSizeFor(description: string, current: Selection): (size: real)
    ensures 0.5 <= OrReal(current.gemSize, 1.0) <= 3.0 ==> 0.5 <= size <= 3.0
    ensures Leftmost(Lower(description), 0, CaratAt).Some? ==>
              size == ClampReal(Leftmost(Lower(description), 0, CaratAt).value, 0.5, 3.0)
    ensures var text := Lower(description);
            Leftmost(text, 0, CaratAt).None? ==>
              (Contains(text, "large") || Contains(text, "big") ==> size == 2.5)
              && (!Contains(text, "large") && !Contains(text, "big") && Contains(text, "medium") ==> size == 1.5)
              && ((!Contains(text, "large") && !Contains(text, "big") && !Contains(text, "medium")
                   && (Contains(text, "small") || Contains(text, "tiny"))) ==> size == 0.5)
              && ((!Contains(text, "large") && !Contains(text, "big") && !Contains(text, "medium")
                   && !Contains(text, "small") && !Contains(text, "tiny")) ==> size == OrReal(current.gemSize, 1.0))
  {
    var text := Lower(description);
    match Leftmost(text, 0, CaratAt)
    case Some(v) => ClampReal(v, 0.5, 3.0)
    case None =>
      if Contains(text, "large") || Contains(text, "big") then 2.5
      else if Contains(text, "medium") then 1.5
      else if Contains(text, "small") || Contains(text, "tiny") then 0.5
      else OrReal(current.gemSize, 1.0)
  }

  function RingSizeFor(description: string, current: Selection): (size: real)
    ensures 4.0 <= OrReal(current.ringSize, 7.0) <= 13.0 ==> 4.0 <= size <= 13.0
    ensures Leftmost(Lower(description), 0, RingSizeAt).Some? ==>
              size == ClampReal(Leftmost(Lower(description), 0, RingSizeAt).value, 4.0, 13.0)
    ensures Leftmost(Lower(description), 0, RingSizeAt).None? ==> size == OrReal(current.ringSize, 7.0)
  {
    match Leftmost(Lower(description), 0, RingSizeAt)
    case Some(v) => ClampReal(v, 4.0, 13.0)
    case None => OrReal(current.ringSize, 7.0)
  }

  /** The number words in the order Object.entries lists them. */
  const NumberWords: seq<(string, int)> := [
    ("one", 1), ("two", 2), ("three", 3), ("four", 4), ("five", 5),
    ("six", 6), ("seven", 7), ("single", 1), ("couple", 2), ("pair", 2),
    ("few", 3), ("several", 4), ("many", 5)]

  /** The value of the first word of `words` that occurs in the text. */
  function FirstNumberWord(text: string, words: seq<(string, int)>): (r: Option<int>)
    ensures r.Some? ==> exists k :: 0 <= k < |words| && Contains(text, words[k].0) && r.value == words[k].1
    ensures r.None? <==> forall k :: 0 <= k < |words| ==> !Contains(text, words[k].0)
  {
    if words == [] then None
    else if Contains(text, words[0].0) then Some(words[0].1)
    else
      var r := FirstNumberWord(text, words[1..]);
      assert forall k :: 1 <= k < |words| ==> words[k] == words[1..][k - 1];
      r
  }

  predicate PluralGemNoun(text: string) {
    Contains(text, "diamonds") || Contains(text, "rubies") || Contains(text, "sapphires")
    || Contains(text, "emeralds") || Contains(text, "gems") || Contains(text, "stones")
  }

  predicate ManyGemsWord(text: string) {
    Contains(text, "alternating") || Contains(text, "surrounding")
    || Contains(text, "cluster") || Contains(text, "multiple")
  }

  /** The count before the plural and cluster words are considered. */
  function BaseGemCount(text: string, current: Selection): int {
    match FirstNumberWord(text, NumberWords)
    case Some(v) => v
    case None => OrInt(current.gemCount, 1)
  }

  /** An explicit "<digits> <gem noun>" wins outright; otherwise the first
      number word (or the fallback), raised to 3 by a cluster word or else to
      2 by a plural noun. */
  function GemCountFor(description: string, current: Selection): (count: int)
    ensures 1 <= OrInt(current.gemCount, 1) <= 7 ==> 1 <= count <= 7
    ensures Leftmost(Lower(description), 0, CountAt).Some? ==>
              count == ClampInt(Leftmost(Lower(description), 0, CountAt).value, 1, 7)
    ensures Leftmost(Lower(description), 0, CountAt).None? ==>
              count >= BaseGemCount(Lower(description), current)
              && (ManyGemsWord(Lower(description)) ==> count >= 3)
              && (PluralGemNoun(Lower(description)) ==> count >= 2)
  {
    var text := Lower(description);
    match Leftmost(text, 0, CountAt)
    case Some(n) => ClampInt(n, 1, 7)
    case None =>
      var base := BaseGemCount(text, current);
      if ManyGemsWord(text) then Max(3, base)
      else if PluralGemNoun(text) then Max(2, base)
      else base
  }

  /** The first lead-in phrase of `phrases` that matches, and its capture. */
  function FirstLeadIn(description: string, phrases: seq<LeadIn>): (r: Option<string>)
    ensures r.Some? ==> exists k :: 0 <= k < |phrases| && LeadInMatch(phrases[k], description) == r
    ensures r.None? <==> forall k :: 0 <= k < |phrases| ==> LeadInMatch(phrases[k], description).None?
    ensures r.Some? ==> NoStops(r.value)
  {
    if phrases == [] then None
    else if LeadInMatch(phrases[0], description).Some? then LeadInMatch(phrases[0], description)
    else
      var r := FirstLeadIn(description, phrases[1..]);
      assert forall k :: 1 <= k < |phrases| ==> phrases[k] == phrases[1..][k - 1];
      r
  }

  /** A quoted text wins; then the first lead-in phrase, trimmed; each cut to
      20 characters. */
  function EngravingFor(description: string, current: Selection): (engraving: string)
    ensures engraving == current.engravingText || |engraving| <= 20
    ensures Leftmost(description, 0, QuotedAt).Some? ==>
              engraving == Prefix(Leftmost(description, 0, QuotedAt).value, 20)
    ensures Leftmost(description, 0, QuotedAt).None? && FirstLeadIn(description, LeadIns).Some? ==>
              engraving == Prefix(Trim(FirstLeadIn(description, LeadIns).value), 20)
    ensures Leftmost(description, 0, QuotedAt).None? && FirstLeadIn(description, LeadIns).None? ==>
              engraving == OrString(current.engravingText, "")
    ensures Leftmost(description, 0, QuotedAt).None? && FirstLeadIn(description, LeadIns).Some? ==>
              NoStops(engraving)
  {
    match Leftmost(description, 0, QuotedAt)
    case Some(q) => Prefix(q, 20)
    case None =>
      match FirstLeadIn(description, LeadIns)
      case Some(m) =>
        NoStopsAfterTrim(m, description);
        Prefix(Trim(m), 20)
      case None => OrString(current.engravingText, "")
  }

  predicate NoStops(s: string) {
    forall k :: 0 <= k < |s| ==> !IsStop(s[k])
  }

  lemma NoStopsSlice(s: string, i: nat, j: nat)
    requires NoStops(s) && i <= j <= |s|
    ensures NoStops(s[i..j])
  {
    assert forall k :: 0 <= k < j - i ==> s[i..j][k] == s[i + k];
  }

  lemma NoStopsTrim(m: string)
    requires NoStops(m)
    ensures NoStops(Trim(m))
  {
    var i := SkipSpaces(m, 0);
    var e := TrailingStart(m, |m|);
    if i < e {
      NoStopsSlice(m, i, e);
    }
  }

  /** A lead-in capture has no ',' or '.', and neither has any part of it. */
  lemma NoStopsAfterTrim(m: string, description: string)
    requires FirstLeadIn(description, LeadIns) == Some(m)
    ensures NoStops(Prefix(Trim(m), 20))
  {
    NoStopsTrim(m);
    var t := Trim(m);
    if |t| > 20 {
      NoStopsSlice(t, 0, 20);
    }
  }

  // ---------------------------------------------------------------------
  // The extractors the source writes step by step

  method ExtractGemSize(description: string, current: Selection) returns (size: real)
    ensures size == GemSizeFor(description, current)
    ensures Leftmost(Lower(description), 0, CaratAt).Some? ==> 0.5 <= size <= 3.0
  {
    var text := Lower(description);
    size := OrReal(current.gemSize, 1.0);
    var caratMatches := Leftmost(text, 0, CaratAt);
    if caratMatches.Some? {
      size := caratMatches.value;
      if size < 0.5 { size := 0.5; }
      if size > 3.0 { size := 3.0; }
    } else {
      if Contains(text, "small") || Contains(text, "tiny") { size := 0.5; }
      if Contains(text, "medium") { size := 1.5; }
      if Contains(text, "large") || Contains(text, "big") { size := 2.5; }
    }
  }

  method ExtractRingSize(description: string, current: Selection) returns (size: real)
    ensures size == RingSizeFor(description, current)
    ensures Leftmost(Lower(description), 0, RingSizeAt).Some? ==> 4.0 <= size <= 13.0
  {
    var text := Lower(description);
    size := OrReal(current.ringSize, 7.0);
    var sizeMatches := Leftmost(text, 0, RingSizeAt);
    if sizeMatches.Some? {
      size := sizeMatches.value;
      if size < 4.0 { size := 4.0; }
      if size > 13.0 { size := 13.0; }
    }
  }

  method ExtractGemCount(description: string, current: Selection) returns (count: int)
    ensures count == GemCountFor(description, current)
  {
    var text := Lower(description);
    count := OrInt(current.gemCount, 1);
    var numMatches := Leftmost(text, 0, CountAt);
    if numMatches.Some? {
      count := numMatches.value;
      if count < 1 { count := 1; }
      if count > 7 { count := 7; }
      return;
    }
    var i := 0;
    while i < |NumberWords|
      invariant 0 <= i <= |NumberWords|
      invariant count == OrInt(current.gemCount, 1)
      invariant forall k :: 0 <= k < i ==> !Contains(text, NumberWords[k].0)
    {
      if Contains(text, NumberWords[i].0) {
        FirstWordAt(text, NumberWords, i);
        count := NumberWords[i].1;
        break;
      }
      i := i + 1;
    }
    assert count == BaseGemCount(text, current);
    if PluralGemNoun(text) {
      count := Max(2, count);
    }
    if ManyGemsWord(text) {
      count := Max(3, count);
    }
  }

  /** When no earlier word occurs, the first word found is the one at k. */
  lemma {:induction false} FirstWordAt(text: string, words: seq<(string, int)>, k: nat)
    requires k < |words| && Contains(text, words[k].0)
    requires forall j :: 0 <= j < k ==> !Contains(text, words[j].0)
    ensures FirstNumberWord(text, words) == Some(words[k].1)
  {
    if k > 0 {
      FirstWordAt(text, words[1..], k - 1);
    }
  }

  method ExtractEngraving(description: string, current: Selection) returns (engraving: string)
    ensures engraving == EngravingFor(description, current)
  {
    var quotesMatch := Leftmost(description, 0, QuotedAt);
    if quotesMatch.Some? {
      return Prefix(quotesMatch.value, 20);
    }
    var i := 0;
    while i < |LeadIns|
      invariant 0 <= i <= |LeadIns|
      invariant forall k :: 0 <= k < i ==> LeadInMatch(LeadIns[k], description).None?
    {
      var m := LeadInMatch(LeadIns[i], description);
      if m.Some? {
        FirstLeadInAt(description, LeadIns, i);
        assert FirstLeadIn(description, LeadIns) == m;
        return Prefix(Trim(m.value), 20);
      }
      i := i + 1;
    }
    assert FirstLeadIn(description, LeadIns).None?;
    engraving := OrString(current.engravingText, "");
  }

  lemma {:induction false} FirstLeadInAt(description: string, phrases: seq<LeadIn>, k: nat)
    requires k < |phrases| && LeadInMatch(phrases[k], description).Some?
    requires forall j :: 0 <= j < k ==> LeadInMatch(phrases[j], description).None?
    ensures FirstLeadIn(description, phrases) == LeadInMatch(phrases[k], description)
  {
    if k > 0 {
      var rest := phrases[1..];
      assert rest[k - 1] == phrases[k];
      forall j | 0 <= j < k - 1
        ensures LeadInMatch(rest[j], description).None?
      {
        assert rest[j] == phrases[j + 1];
      }
      FirstLeadInAt(description, rest, k - 1);
      assert LeadInMatch(phrases[0], description).None?;
    }
  }

  // ---------------------------------------------------------------------
  // Confidence and the badge

  /** The values calculateConfidence is given: null, a string or a number. */
  datatype Value = Null | Str(s: string) | Num(x: real)

  /** null, undefined or a string that trims to nothing. */
  predicate Absent(v: Value) {
    v.Null? || (v.Str? && Trim(v.s) == [])
  }

  /** The confidence of one field: 0 for an absent value, else the base
      moved by a jitter `random * 0.3 - 0.15` (random drawn from [0, 1)) and
      clamped to [0, 1]. */
  function CalculateConfidence(value: Value, base: real, random: real): (c: real)
    requires 0.0 <= random < 1.0
    ensures 0.0 <= c <= 1.0
    ensures c == 0.0 <== Absent(value)
    ensures !Absent(value) && 0.0 < c < 1.0 ==> base - 0.15 <= c < base + 0.15
    ensures !Absent(value) && 0.15 < base ==> c > 0.0
    ensures !Absent(value) && base >= 0.4 ==> c >= 0.25
  {
    if Absent(value) then 0.0
    else
      var confidence := base + (random * 0.3 - 0.15);
      if confidence < 0.0 then 0.0 else if confidence > 1.0 then 1.0 else confidence
  }

  /** The three colours of the confidence badge. */
  datatype Band = High | Medium | Low

  function BadgeBand(confidence: real): (b: Band)
    ensures b == High <==> confidence >= 0.7
    ensures b == Low <==> confidence < 0.4
  {
    if confidence >= 0.7 then High else if confidence >= 0.4 then Medium else Low
  }

  /** Math.round(confidence * 100): halves round up. */
  function BadgePercent(confidence: real): (p: int)
    ensures p as real - 0.5 <= confidence * 100.0 < p as real + 0.5
    ensures 0.0 <= confidence <= 1.0 ==> 0 <= p <= 100
  {
    (confidence * 100.0 + 0.5).Floor
  }

  // ---------------------------------------------------------------------
  // The whole parse

  datatype Confidences = Confidences(
    jewelryType: real, metalType: real, gemType: real, gemSize: real,
    gemCount: real, shape: real, ringSize: real, engraving: real)

  /** The parameters object the parser builds. */
  datatype Parsed = Parsed(
    jewelryType: string, metalType: string, gemType: Option<string>,
    gemSize: real, gemCount: int, shape: string, ringSize: real,
    engraving: string, confidence: Confidences)

  /** One value in [0, 1) for each field position, in the order the fields
      are listed. Math.random() is drawn only for present fields, so a field
      may receive an earlier draw; any such assignment is one of these. */
  predicate ValidRandoms(random: seq<real>) {
    |random| == 8 && forall k :: 0 <= k < 8 ==> 0.0 <= random[k] < 1.0
  }

  function GemValue(gem: Option<string>): Value {
    if gem.Some? then Str(gem.value) else Null
  }

  /** The confidences of the parsed fields, in the order they are scored. */
  function Score(jewelryType: string, metalType: string, gemType: Option<string>, gemSize: real,
                 gemCount: int, shape: string, ringSize: real, engraving: string,
                 random: seq<real>): (c: Confidences)
    requires ValidRandoms(random)
    ensures c.gemType == 0.0 <==> gemType.None? || Trim(gemType.value) == []
    ensures c.engraving == 0.0 <==> Trim(engraving) == []
    ensures c.jewelryType >= 0.25 <==> Trim(jewelryType) != []
    ensures c.metalType >= 0.25 <==> Trim(metalType) != []
    ensures c.shape >= 0.25 <==> Trim(shape) != []
    ensures c.gemSize >= 0.25 && c.gemCount >= 0.25 && c.ringSize >= 0.25
  {
    Confidences(
      CalculateConfidence(Str(jewelryType), 0.8, random[0]),
      CalculateConfidence(Str(metalType), 0.7, random[1]),
      CalculateConfidence(GemValue(gemType), 0.6, random[2]),
      CalculateConfidence(Num(gemSize), 0.5, random[3]),
      CalculateConfidence(Num(gemCount as real), 0.5, random[4]),
      CalculateConfidence(Str(shape), 0.5, random[5]),
      CalculateConfidence(Num(ringSize), 0.4, random[6]),
      CalculateConfidence(Str(engraving), 0.9, random[7]))
  }

  /** parseDescription: every field extracted from the same text and the
      same current design, then scored. */
  function Extract(description: string, current: Selection, random: seq<real>): (p: Parsed)
    requires ValidRandoms(random)
  {
    var jewelryType := ExtractJewelryType(description, current);
    var metalType := ExtractMetalType(description, current);
    var gemType := ExtractGemType(description, current);
    var gemSize := GemSizeFor(description, current);
    var gemCount := GemCountFor(description, current);
    var shape := ExtractShape(description, current);
    var ringSize := RingSizeFor(description, current);
    var engraving := EngravingFor(description, current);
    Parsed(jewelryType, metalType, gemType, gemSize, gemCount, shape, ringSize, engraving,
      Score(jewelryType, metalType, gemType, gemSize, gemCount, shape, ringSize, engraving, random))
  }

  /** The design applyDesign hands to the designer (shape becomes the
      selected shape, engraving the engraving text). */
  function ToSelection(p: Parsed): (sel: Selection)
    ensures sel.shape == p.shape && sel.engravingText == p.engraving
    ensures sel.gemType == p.gemType && sel.gemSize == p.gemSize && sel.gemCount == p.gemCount
    ensures sel.jewelryType == p.jewelryType && sel.metalType == p.metalType && sel.ringSize == p.ringSize
  {
    Selection(p.jewelryType, p.metalType, p.gemType, p.gemSize, p.gemCount,
              p.ringSize, p.shape, p.engraving)
  }

  /** The body of the timer callback: each field by its extractor, then the
      confidences. */
  method ParseDescription(description: string, current: Selection, random: seq<real>)
      returns (parsed: Parsed)
    requires ValidRandoms(random)
    ensures parsed == Extract(description, current, random)
  {
    var jewelryType := ExtractJewelryType(description, current);
    var metalType := ExtractMetalType(description, current);
    var gemType := ExtractGemType(description, current);
    var gemSize := ExtractGemSize(description, current);
    var gemCount := ExtractGemCount(description, current);
    var shape := ExtractShape(description, current);
    var ringSize := ExtractRingSize(description, current);
    var engraving := ExtractEngraving(description, current);
    var confidence := Score(jewelryType, metalType, gemType, gemSize, gemCount,
                            shape, ringSize, engraving, random);
    parsed := Parsed(jewelryType, metalType, gemType, gemSize, gemCount,
                     shape, ringSize, engraving, confidence);
  }

  // ---------------------------------------------------------------------
  // The dialog's state

  /** What a parse started from: the text and the current design at the
      time of the click, which the delayed callback reads. */
  datatype Request = Request(description: string, current: Selection)

  class DescriptionDialog {
    var description: string
    var isProcessing: bool
    var parsedParameters: Option<Parsed>
    /** The parse waiting for its timer, if any. */
    var pending: Option<Request>

    constructor ()
      ensures description == [] && !isProcessing && parsedParameters.None? && pending.None?
    {
      description := [];
      isProcessing := false;
      parsedParameters := None;
      pending := None;
    }

    /** The parse button is enabled. */
    predicate CanParse()
      reads this
    {
      !isProcessing && Trim(description) != []
    }

    /** Typing in the text area, or picking one of the example prompts. */
    method SetDescription(text: string)
      modifies this
      ensures description == text
      ensures isProcessing == old(isProcessing) && parsedParameters == old(parsedParameters)
      ensures pending == old(pending)
    {
      description := text;
    }

    /** parseDescription up to the timer: the dialog shows it is busy. The
        button that starts it is disabled unless `CanParse()`. */
    method BeginParse(current: Selection)
      requires CanParse()
      modifies this
      ensures isProcessing && pending == Some(Request(description, current))
      ensures description == old(description) && parsedParameters == old(parsedParameters)
    {
      isProcessing := true;
      pending := Some(Request(description, current));
    }

    /** The timer callback: the fields of the pending request are extracted
      and scored, and the dialog is no longer busy. */
    method CompleteParse(random: seq<real>)
      requires pending.Some? && ValidRandoms(random)
      modifies this
      ensures var request := old(pending).value;
              parsedParameters == Some(Extract(request.description, request.current, random))
      ensures !isProcessing && pending.None?
      ensures description == old(description)
    {
      var request := pending.value;
      var parsed := ParseDescription(request.description, request.current, random);
      StoreParse(parsed);
    }

    /** The callback's two state updates: the parse is shown, the dialog is
        no longer busy. */
    method StoreParse(parsed: Parsed)
      modifies this
      ensures parsedParameters == Some(parsed) && !isProcessing && pending.None?
      ensures description == old(description)
    {
      parsedParameters := Some(parsed);
      isProcessing := false;
      pending := None;
    }

    /** applyDesign: nothing before a parse, else the parsed design. */
    method ApplyDesign() returns (design: Option<Selection>)
      ensures design.None? <==> parsedParameters.None?
      ensures design.Some? ==> design.value == ToSelection(parsedParameters.value)
    {
      if parsedParameters.None? {
        return None;
      }
      design := Some(ToSelection(parsedParameters.value));
    }
  }

  // ---------------------------------------------------------------------
  // Consequences of the order of the checks

  /** "earring" contains "ring", so the earrings branch never fires: the
      type is "earrings" only when it is carried over from the current design. */
  lemma EarringsOnlyFromFallback(description: string, current: Selection)
    ensures Contains(Lower(description), "earring") ==> ExtractJewelryType(description, current) == "ring"
    ensures ExtractJewelryType(description, current) == "earrings" <==>
              !Contains(Lower(description), "ring") && !Contains(Lower(description), "necklace")
              && !Contains(Lower(description), "pendant") && !Contains(Lower(description), "bracelet")
              && current.jewelryType == "earrings"
  {
    var text := Lower(description);
    if Contains(text, "earring") {
      assert HasAt("earring", 3, "ring");
      ContainsInner(text, "earring", "ring", 3);
    }
  }

  /** Any metal word gives a known metal, and "gold" anywhere gives a gold
      variant whatever other metal is named; rose outranks white. */
  lemma MetalPrecedence(description: string, current: Selection)
    ensures var text := Lower(description);
            var m := ExtractMetalType(description, current);
            ((Contains(text, "gold") || Contains(text, "silver") || Contains(text, "platinum")
              || Contains(text, "titanium")) ==> IsMetal(m))
            && (Contains(text, "gold") ==> m == "gold" || m == "white-gold" || m == "rose-gold")
            && (Contains(text, "gold") && Contains(text, "rose") ==> m == "rose-gold")
            && (Contains(text, "gold") && Contains(text, "white") && !Contains(text, "rose") ==> m == "white-gold")
            && (Contains(text, "gold") && !Contains(text, "white") && !Contains(text, "rose") ==> m == "gold")
            && ((!Contains(text, "gold") && !Contains(text, "silver") && !Contains(text, "platinum")
                 && !Contains(text, "titanium")) ==> m == OrString(current.metalType, "gold"))
            && (IsMetal(current.metalType) ==> IsMetal(m))
  {
  }

  /** A named gem beats a negation, even inside it ("no diamonds"); a
      negation alone clears the gem whatever the current design holds. */
  lemma GemPrecedence(description: string, current: Selection)
    ensures var text := Lower(description);
            var g := ExtractGemType(description, current);
            (NamedGem(text).Some? ==> g == NamedGem(text))
            && (NamedGem(text).None? && NegatesGem(text) ==> g.None?)
            && (g.Some? ==> HasGem(g) && (g == NamedGem(text) || g == current.gemType))
            && (NamedGem(text).None? && !NegatesGem(text) ==>
                  g == (if HasGem(current.gemType) then current.gemType else None))
            && (Contains(text, "no diamond") ==> g == Some("diamond"))
  {
    var text := Lower(description);
    if Contains(text, "no diamond") {
      assert HasAt("no diamond", 3, "diamond");
      ContainsInner(text, "no diamond", "diamond", 3);
    }
  }

  /** Any shape word names a built-in shape, "round" outranking all others;
      a custom-shape phrase names the drawing "custom-1"; with neither the
      current shape is kept, or "round" when it is empty. */
  lemma ShapePrecedence(description: string, current: Selection)
    ensures var text := Lower(description);
            var shape := ExtractShape(description, current);
            var named := Contains(text, "round") || Contains(text, "square") || Contains(text, "triangle")
                         || Contains(text, "triangular") || Contains(text, "heart") || Contains(text, "hexagon");
            var custom := Contains(text, "custom shape") || Contains(text, "custom design")
                          || Contains(text, "unique shape");
            (Contains(text, "round") ==> shape == "round")
            && (named ==> IsBuiltInShape(shape))
            && (!named && custom ==> shape == "custom-1")
            && (!named && !custom ==> shape == OrString(current.shape, "round"))
            && (IsBuiltInShape(shape) || IsCustomShape(shape) || shape == current.shape)
  {
    var text := Lower(description);
    if Contains(text, "heart-shaped") {
      assert HasAt("heart-shaped", 0, "heart");
      ContainsInner(text, "heart-shaped", "heart", 0);
    }
  }

  /** "surrounding" contains "round" and is a cluster word: the shape is
      round and the gem count at least 3 unless a numeric count is given. */
  lemma SurroundingIsRoundCluster(description: string, current: Selection)
    requires Contains(Lower(description), "surrounding")
    ensures ExtractShape(description, current) == "round"
    ensures Leftmost(Lower(description), 0, CountAt).None? ==> GemCountFor(description, current) >= 3
  {
    assert HasAt("surrounding", 3, "round");
    ContainsInner(Lower(description), "surrounding", "round", 3);
  }

  /** "stone" (and so "stones", "gemstone") contains "one", the first number
      word: any other number word is ignored, and without a numeric count or
      a cluster word the count is 1, or 2 with a plural noun. */
  lemma StoneCountsAsOne(description: string, current: Selection)
    requires Contains(Lower(description), "stone")
    ensures BaseGemCount(Lower(description), current) == 1
    ensures Leftmost(Lower(description), 0, CountAt).None? && !ManyGemsWord(Lower(description)) ==>
              GemCountFor(description, current) == (if PluralGemNoun(Lower(description)) then 2 else 1)
  {
    var text := Lower(description);
    assert HasAt("stone", 2, "one");
    ContainsInner(text, "stone", "one", 2);
    FirstWordAt(text, NumberWords, 0);
  }

  /** Between a "ring" and the white space after it no "size" can start. */
  lemma NoSizeInsideRingPrefix(s: string, i: nat)
    requires HasAt(s, i, "ring")
    ensures forall j :: i <= j < SkipSpaces(s, i + 4) ==> SizeAt(s, j).None?
  {
    var m := SkipSpaces(s, i + 4);
    forall j | i <= j < m
      ensures SizeAt(s, j).None?
    {
      if j < i + 4 {
        assert s[j] == s[i..i + 4][j - i];
      }
      if j + 4 <= |s| {
        assert s[j..j + 4][0] == s[j];
      }
    }
  }

  /** The optional "ring " in the ring-size pattern never changes the size
      found: the leftmost match of the pattern reads the same number as the
      leftmost "size <n>". */
  lemma {:induction false} RingPrefixOptional(s: string, i: nat)
    requires i <= |s|
    ensures Leftmost(s, i, RingSizeAt) == Leftmost(s, i, SizeAt)
    decreases |s| - i
  {
    if HasAt(s, i, "ring") {
      NoSizeInsideRingPrefix(s, i);
      var m := SkipSpaces(s, i + 4);
      if m > i + 4 && SizeAt(s, m).Some? {
        LeftmostAt(s, i, m, SizeAt);
        return;
      }
    }
    if i < |s| {
      RingPrefixOptional(s, i + 1);
    }
  }

  /** Without "saying" or "reading", "text" followed by a single white space
      character does not match: the pattern's two \s+ need one each. */
  lemma TextNeedsTwoSpaces(s: string, i: nat)
    requires HasAtI(s, i, "text") && i + 5 < |s|
    requires IsSpace(s[i + 4]) && !IsSpace(s[i + 5])
    requires !HasAtI(s, i + 5, "saying") && !HasAtI(s, i + 5, "reading")
    ensures LeadInAt(TextWord, s, i).None?
  {
    assert SkipSpaces(s, i + 4) == i + 5;
  }

  /** The badge colours the bases allow: an engraving is always green, the
      sizes and the count never are, and the type and metal are never red. */
  lemma BadgeBands(description: string, current: Selection, random: seq<real>)
    requires ValidRandoms(random)
    ensures var p := Extract(description, current, random);
            (Trim(p.engraving) != [] ==> BadgeBand(p.confidence.engraving) == High)
            && BadgeBand(p.confidence.gemSize) != High
            && BadgeBand(p.confidence.gemCount) != High
            && BadgeBand(p.confidence.ringSize) != High
            && (Trim(p.jewelryType) != [] ==> BadgeBand(p.confidence.jewelryType) != Low)
            && (Trim(p.metalType) != [] ==> BadgeBand(p.confidence.metalType) != Low)
  {
    var p := Extract(description, current, random);
    ScoreBands(p.jewelryType, p.metalType, p.gemType, p.gemSize, p.gemCount, p.shape,
               p.ringSize, p.engraving, random);
  }

  lemma ScoreBands(jewelryType: string, metalType: string, gemType: Option<string>, gemSize: real,
                   gemCount: int, shape: string, ringSize: real, engraving: string,
                   random: seq<real>)
    requires ValidRandoms(random)
    ensures var c := Score(jewelryType, metalType, gemType, gemSize, gemCount, shape, ringSize,
                           engraving, random);
            (Trim(engraving) != [] ==> BadgeBand(c.engraving) == High)
            && BadgeBand(c.gemSize) != High && BadgeBand(c.gemCount) != High
            && BadgeBand(c.ringSize) != High
            && (Trim(jewelryType) != [] ==> BadgeBand(c.jewelryType) != Low)
            && (Trim(metalType) != [] ==> BadgeBand(c.metalType) != Low)
  {
  }

  /** Applying a parse and parsing the same text again changes nothing: every
      fallback returns the value it was given. */
  lemma ReparseIsStable(description: string, current: Selection, random: seq<real>)
    requires ValidRandoms(random)
    ensures var p := Extract(description, current, random);
            Extract(description, ToSelection(p), random) == p
  {
    var next := ToSelection(Extract(description, current, random));
    FieldsStable(description, current, next);
  }

  lemma FieldsStable(description: string, current: Selection, next: Selection)
    requires next.jewelryType == ExtractJewelryType(description, current)
    requires next.metalType == ExtractMetalType(description, current)
    requires next.gemType == ExtractGemType(description, current)
    requires next.gemSize == GemSizeFor(description, current)
    requires next.gemCount == GemCountFor(description, current)
    requires next.shape == ExtractShape(description, current)
    requires next.ringSize == RingSizeFor(description, current)
    requires next.engravingText == EngravingFor(description, current)
    ensures ExtractJewelryType(description, next) == next.jewelryType
    ensures ExtractMetalType(description, next) == next.metalType
    ensures ExtractGemType(description, next) == next.gemType
    ensures GemSizeFor(description, next) == next.gemSize
    ensures GemCountFor(description, next) == next.gemCount
    ensures ExtractShape(description, next) == next.shape
    ensures RingSizeFor(description, next) == next.ringSize
    ensures EngravingFor(description, next) == next.engravingText
  {
    JewelryTypeStable(description, current, next);
    MetalTypeStable(description, current, next);
    GemTypeStable(description, current, next);
    SizesStable(description, current, next);
    GemCountStable(description, current, next);
    ShapeStable(description, current, next);
    EngravingStable(description, current, next);
  }

  lemma JewelryTypeStable(description: string, current: Selection, next: Selection)
    requires next.jewelryType == ExtractJewelryType(description, current)
    ensures ExtractJewelryType(description, next) == next.jewelryType
  {
  }

  lemma MetalTypeStable(description: string, current: Selection, next: Selection)
    requires next.metalType == ExtractMetalType(description, current)
    ensures ExtractMetalType(description, next) == next.metalType
  {
  }

  lemma GemTypeStable(description: string, current: Selection, next: Selection)
    requires next.gemType == ExtractGemType(description, current)
    ensures ExtractGemType(description, next) == next.gemType
  {
  }

  lemma ShapeStable(description: string, current: Selection, next: Selection)
    requires next.shape == ExtractShape(description, current)
    ensures ExtractShape(description, next) == next.shape
  {
  }

  lemma SizesStable(description: string, current: Selection, next: Selection)
    requires next.gemSize == GemSizeFor(description, current)
    requires next.ringSize == RingSizeFor(description, current)
    ensures GemSizeFor(description, next) == next.gemSize
    ensures RingSizeFor(description, next) == next.ringSize
  {
  }

  lemma EngravingStable(description: string, current: Selection, next: Selection)
    requires next.engravingText == EngravingFor(description, current)
    ensures EngravingFor(description, next) == next.engravingText
  {
  }

  lemma GemCountStable(description: string, current: Selection, next: Selection)
    requires next.gemCount == GemCountFor(description, current)
    ensures GemCountFor(description, next) == next.gemCount
  {
    var text := Lower(description);
    if Leftmost(text, 0, CountAt).None? && FirstNumberWord(text, NumberWords).None? {
      assert BaseGemCount(text, current) == OrInt(current.gemCount, 1);
      assert next.gemCount != 0;
      assert BaseGemCount(text, next) == next.gemCount;
    }
  }
}
