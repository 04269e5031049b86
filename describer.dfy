/**
 * The written description of a design: a pure string builder over fixed
 * lookup tables. It opens with the piece and its metal, names the gems or
 * the shape, adds a paragraph written for the kind of piece, an optional
 * engraving paragraph and the price.
 */
module Describer {
  import opened Text
  import opened Designs

  predicate IsLowerLetter(c: char) {
    'a' <= c <= 'z'
  }

  /** A phrase that ends in a lower-case letter. */
  predicate EndsInLetter(s: string) {
    s != [] && IsLowerLetter(s[|s| - 1])
  }

  // ---------------------------------------------------------------------
  // Lookup tables

  function MetalDescription(metal: string): (d: string)
    ensures EndsInLetter(d)
    ensures d == "high-quality metal" <==> !IsMetal(metal)
  {
    match metal
    case "gold" => "lustrous 18k gold"
    case "silver" => "polished sterling silver"
    case "platinum" => "premium platinum"
    case "rose-gold" => "romantic rose gold"
    case "white-gold" => "elegant white gold"
    case "titanium" => "durable titanium"
    case _ => "high-quality metal"
  }

  /** Any drawn shape is "custom-designed", before the table is consulted. */
  function ShapeDescription(shape: string): (d: string)
    ensures d != [] && IsLowerLetter(d[0]) && EndsInLetter(d)
    ensures IsCustomShape(shape) ==> d == "custom-designed"
    ensures d == "beautifully shaped" <==> !IsCustomShape(shape) && !IsBuiltInShape(shape)
  {
    if StartsWith(shape, "custom-") then "custom-designed"
    else match shape
      case "round" => "perfectly round"
      case "square" => "contemporary square"
      case "heart" => "romantic heart-shaped"
      case "triangle" => "geometric triangular"
      case "hexagon" => "distinctive hexagonal"
      case _ => "beautifully shaped"
  }

  function GemColour(gem: string): (d: string)
    ensures d == "beautiful" <==> !IsGem(gem)
  {
    match gem
    case "diamond" => "brilliant and clear"
    case "ruby" => "rich red"
    case "sapphire" => "deep blue"
    case "emerald" => "vivid green"
    case "amethyst" => "purple"
    case "topaz" => "golden"
    case _ => "beautiful"
  }

  function GemQuality(gem: string): (d: string)
    ensures EndsInLetter(d)
    ensures d == "exceptional quality" <==> !IsGem(gem)
  {
    match gem
    case "diamond" => "exceptional clarity"
    case "ruby" => "profound depth of color"
    case "sapphire" => "remarkable intensity"
    case "emerald" => "lush saturation"
    case "amethyst" => "royal hue"
    case "topaz" => "warm brilliance"
    case _ => "exceptional quality"
  }

  /** "<colour> <gem> of <quality>", or nothing without a gem. */
  function GemDescription(gem: Option<string>): (d: string)
    ensures d == [] <==> !HasGem(gem)
    ensures HasGem(gem) ==> EndsInLetter(d) && EndsWith(d, " of " + GemQuality(gem.value))
  {
    if !HasGem(gem) then []
    else
      var quality := GemQuality(gem.value);
      var d := GemColour(gem.value) + " " + gem.value + " of " + quality;
      assert d == (GemColour(gem.value) + " " + gem.value) + (" of " + quality);
      EndsWithConcat(GemColour(gem.value) + " " + gem.value, " of " + quality);
      d
  }

  // ---------------------------------------------------------------------
  // The paragraphs

  /** "their" or "its", then the gem phrase: the end of the ring, necklace
      and bracelet gem sentences. */
  function Possessive(sel: Selection): string {
    (if sel.gemCount > 1 then "their" else "its") + " " + GemDescription(sel.gemType) + "."
  }

  function RingSizeNote(ringSize: real): string {
    " and is available in size " + NumberToString(ringSize) + ". "
  }

  /** How the type paragraph names the piece, before " crafted from". */
  function Subject(jewelryType: string): string {
    match jewelryType
    case "ring" => "This ring features a band"
    case "necklace" => "This necklace features a delicate chain"
    case "earrings" => "These earrings are meticulously"
    case "bracelet" => "This bracelet is expertly"
    case _ => "This piece is expertly"
  }

  /** The first sentence of the type paragraph: the piece and its metal,
      and for a ring its size. */
  function Lead(sel: Selection): string {
    Subject(sel.jewelryType) + Crafted(sel)
  }

  function Crafted(sel: Selection): string {
    " crafted from " + MetalDescription(sel.metalType)
    + (if sel.jewelryType == "ring" then RingSizeNote(sel.ringSize)
       else if IsKnownType(sel.jewelryType) then ". "
       else ".")
  }

  /** The gem sentence of the ring, necklace and bracelet up to the possessive. */
  function GemSubject(sel: Selection): string {
    var shape := ShapeDescription(sel.shape);
    var many := sel.gemCount > 1;
    var gem := if sel.gemType.Some? then sel.gemType.value else [];
    match sel.jewelryType
    case "ring" => "The " + shape + " " + gem + (if many then "s are" else " is") + " meticulously set to showcase "
    case "necklace" =>
      "The " + shape + " " + gem + " pendant " + (if many then "and accents are" else "is")
      + " carefully positioned to highlight "
    case _ => "The " + shape + " " + gem + (if many then "s are" else " is") + " artfully arranged to showcase "
  }

  /** The earrings' gem sentence. */
  function EarringSentence(sel: Selection): string {
    "Each earring showcases " + EarringGems(sel) + EarringRest(sel)
  }

  function EarringRest(sel: Selection): string {
    " that " + (if sel.gemCount > 1 then "capture" else "captures") + " the "
    + GemDescription(sel.gemType) + "."
  }

  /** The sentence about the shape when there is no gem. */
  function ShapeSentence(sel: Selection): string {
    var shape := ShapeDescription(sel.shape);
    match sel.jewelryType
    case "ring" => "The " + shape + " design offers a timeless appeal."
    case "necklace" => "The " + shape + " pendant creates an elegant focal point."
    case "earrings" => "Their " + shape + " design offers a sophisticated finish."
    case _ => "The " + shape + " elements create a striking pattern along its length."
  }

  /** The second sentence: the gems, or the shape when there are none. The
      unknown kind has none. */
  function Sentence(sel: Selection): string {
    if !IsKnownType(sel.jewelryType) then []
    else if !HasGem(sel.gemType) then ShapeSentence(sel)
    else if sel.jewelryType == "earrings" then EarringSentence(sel)
    else GemSubject(sel) + Possessive(sel)
  }

  function EarringGems(sel: Selection): string {
    var shape := ShapeDescription(sel.shape);
    var gem := if sel.gemType.Some? then sel.gemType.value else [];
    if sel.gemCount > 1 then "multiple " + (shape + " " + gem + "s") else "a " + (shape + " " + gem)
  }

  /** getJewelrySpecificDescription. */
  function TypeParagraph(sel: Selection): string {
    Lead(sel) + Sentence(sel)
  }

  /** The gem count in front of the gems, when there is more than one. */
  function CountPrefix(sel: Selection): string {
    if sel.gemCount > 1 then IntToString(sel.gemCount) + " " else ""
  }

  /** The carat size in brackets, "each" when there is more than one gem. */
  function SizeNote(sel: Selection): string {
    " (" + Fixed(sel.gemSize, 1) + " ct" + (if sel.gemCount > 1 then " each" else "") + ")"
  }

  /** What follows the metal in the first sentence: the gems with their
      count and size, or the shape alone. */
  function GemClause(sel: Selection): string {
    var shape := ShapeDescription(sel.shape);
    if HasGem(sel.gemType) then
      " featuring " + CountPrefix(sel) + (shape + " " + sel.gemType.value + (if sel.gemCount > 1 then "s" else ""))
      + SizeNote(sel)
    else " with a " + shape + " design"
  }

  function Opening(sel: Selection): string {
    "Exquisite " + sel.jewelryType + " crafted from " + MetalDescription(sel.metalType)
  }

  function EngravingParagraph(engraving: string): string {
    if engraving != [] then "\n\nPersonalized with the engraving: \"" + engraving + "\"." else []
  }

  function Closing(price: string): string {
    "\n\nEstimated value: $" + price + "."
  }

  /** The description up to and including the type paragraph. */
  function Main(sel: Selection): string {
    Opening(sel) + GemClause(sel) + ".\n\n" + TypeParagraph(sel)
  }

  /** generateFullDescription; `price` is the designer's price text. */
  function FullDescription(sel: Selection, price: string): string {
    Main(sel) + EngravingParagraph(sel.engravingText) + Closing(price)
  }

  // ---------------------------------------------------------------------
  // Properties of the text

  /** Every description opens with the piece and its metal and ends with
      the price. */
  lemma DescriptionFrame(sel: Selection, price: string)
    ensures StartsWith(FullDescription(sel, price),
                       "Exquisite " + sel.jewelryType + " crafted from " + MetalDescription(sel.metalType))
    ensures EndsWith(FullDescription(sel, price), "\n\nEstimated value: $" + price + ".")
  {
    var o := Opening(sel);
    var m := Main(sel);
    var e := EngravingParagraph(sel.engravingText);
    assert StartsWith(o, o);
    StartsWithConcat(o, GemClause(sel), o);
    StartsWithConcat(o + GemClause(sel), ".\n\n", o);
    StartsWithConcat(o + GemClause(sel) + ".\n\n", TypeParagraph(sel), o);
    StartsWithConcat(m, e, o);
    StartsWithConcat(m + e, Closing(sel.engravingText), o);
    StartsWithConcat(m + e, Closing(price), o);
    EndsWithConcat(m + e, Closing(price));
  }

  /** With a gem the first sentence goes on " featuring ", the count, the
      shape and the gem, and closes with the carat size in brackets; without
      one it names only the shape. */
  lemma GemClauseForm(sel: Selection)
    ensures HasGem(sel.gemType) ==>
              StartsWith(GemClause(sel), " featuring " + CountPrefix(sel) + ShapeDescription(sel.shape) + " " + sel.gemType.value)
              && EndsWith(GemClause(sel), SizeNote(sel))
    ensures HasGem(sel.gemType) ==> StartsWith(GemClause(sel), " featuring ") && EndsWith(GemClause(sel), ")")
    ensures !HasGem(sel.gemType) ==> GemClause(sel) == " with a " + ShapeDescription(sel.shape) + " design"
  {
    if HasGem(sel.gemType) {
      var c := GemClause(sel);
      var named := ShapeDescription(sel.shape) + " " + sel.gemType.value;
      var plural := if sel.gemCount > 1 then "s" else "";
      var head := " featuring " + CountPrefix(sel);
      var front := head + named;
      assert c == front + plural + SizeNote(sel);
      assert StartsWith(front, front);
      StartsWithConcat(front, plural, front);
      StartsWithConcat(front + plural, SizeNote(sel), front);
      assert front == " featuring " + CountPrefix(sel) + ShapeDescription(sel.shape) + " " + sel.gemType.value;
      assert StartsWith(front, " featuring ");
      StartsWithTrans(c, front, " featuring ");
      EndsWithConcat(front + plural, SizeNote(sel));
    }
  }

  /** The gem noun takes a plural "s" exactly when there is more than one gem. */
  lemma GemClausePlural(sel: Selection)
    requires HasGem(sel.gemType)
    ensures EndsWith(GemClause(sel), " " + sel.gemType.value + "s" + SizeNote(sel)) <==> sel.gemCount > 1
  {
    var c := GemClause(sel);
    var shape := ShapeDescription(sel.shape);
    var gem := sel.gemType.value;
    var note := SizeNote(sel);
    var head := " featuring " + CountPrefix(sel);
    var w := " " + gem + "s" + note;
    if sel.gemCount > 1 {
      assert c == (head + shape) + w;
      EndsWithConcat(head + shape, w);
    } else {
      var a := shape + " " + gem + note;
      assert c == head + a;
      EndsWithConcat(head, a);
      var k := |note| + |gem| + 1;
      assert a[|a| - 1 - k] == shape[|shape| - 1];
      assert w[|w| - 1 - k] == ' ';
      SuffixDiffers(c, a, w, k);
    }
  }

  /** " each" closes the gem clause exactly when there is more than one gem. */
  lemma GemClauseEach(sel: Selection)
    ensures EndsWith(GemClause(sel), " each)") <==> HasGem(sel.gemType) && sel.gemCount > 1
  {
    var c := GemClause(sel);
    if HasGem(sel.gemType) {
      var note := SizeNote(sel);
      var front := " featuring " + CountPrefix(sel)
                   + (ShapeDescription(sel.shape) + " " + sel.gemType.value + (if sel.gemCount > 1 then "s" else ""));
      assert c == front + note;
      var x := " (" + Fixed(sel.gemSize, 1) + " ct";
      if sel.gemCount > 1 {
        EndsWithConcat(x, " each");
        EndsWithAppend(x + " each", " each", ")");
        assert " each" + ")" == " each)";
        EndsWithConcat(front, note);
        EndsWithTrans(c, note, " each)");
      } else {
        assert note == x + ")";
        assert c[|c| - 2] == note[|note| - 2] == 't';
      }
    } else {
      assert c[|c| - 2] == 'g';
    }
  }

  /** The count is written in front of the gems exactly when there is more
      than one. */
  lemma GemClauseCount(sel: Selection)
    requires HasGem(sel.gemType)
    ensures StartsWith(GemClause(sel), " featuring " + IntToString(sel.gemCount) + " ") <==> sel.gemCount > 1
  {
    var c := GemClause(sel);
    var shape := ShapeDescription(sel.shape);
    var noun := shape + " " + sel.gemType.value + (if sel.gemCount > 1 then "s" else "");
    var head := " featuring " + CountPrefix(sel);
    var w := " featuring " + IntToString(sel.gemCount) + " ";
    if sel.gemCount > 1 {
      assert head == w;
      StartsWithConcat(head, noun, head);
      StartsWithConcat(head + noun, SizeNote(sel), head);
    } else {
      var n := IntToString(sel.gemCount);
      if sel.gemCount >= 0 {
        NatToStringFirstDigit(sel.gemCount);
      }
      assert c == " featuring " + (noun + SizeNote(sel));
      assert c[11] == shape[0];
      assert w[11] == n[0];
      assert c[11] != w[11];
    }
  }

  lemma NatToStringFirstDigit(n: nat)
    ensures IsDigit(NatToString(n)[0])
  {
  }

  /** A text that ends in a lower-case letter and a full stop. */
  predicate LetterDot(s: string) {
    |s| >= 2 && s[|s| - 1] == '.' && IsLowerLetter(s[|s| - 2])
  }

  lemma LetterDotConcat(a: string, b: string)
    requires LetterDot(b)
    ensures LetterDot(a + b)
  {
    assert (a + b)[|a + b| - 1] == b[|b| - 1] && (a + b)[|a + b| - 2] == b[|b| - 2];
  }

  lemma GemSentenceEnding(sel: Selection, x: string)
    requires HasGem(sel.gemType)
    ensures LetterDot(x + GemDescription(sel.gemType) + ".")
  {
    var gd := GemDescription(sel.gemType);
    assert (x + gd + ".")[|x + gd + "."| - 2] == gd[|gd| - 1];
  }

  lemma ShapeSentenceEnding(sel: Selection)
    ensures LetterDot(ShapeSentence(sel))
  {
    var shape := ShapeDescription(sel.shape);
    match sel.jewelryType
    case "ring" => LetterDotConcat("The " + shape, " design offers a timeless appeal.");
    case "necklace" => LetterDotConcat("The " + shape, " pendant creates an elegant focal point.");
    case "earrings" => LetterDotConcat("Their " + shape, " design offers a sophisticated finish.");
    case _ => LetterDotConcat("The " + shape, " elements create a striking pattern along its length.");
  }

  lemma SentenceEnding(sel: Selection)
    requires IsKnownType(sel.jewelryType)
    ensures LetterDot(Sentence(sel))
  {
    if !HasGem(sel.gemType) {
      ShapeSentenceEnding(sel);
    } else if sel.jewelryType == "earrings" {
      GemSentenceEnding(sel, " that " + (if sel.gemCount > 1 then "capture" else "captures") + " the ");
      LetterDotConcat("Each earring showcases " + EarringGems(sel), EarringRest(sel));
    } else {
      GemSentenceEnding(sel, (if sel.gemCount > 1 then "their" else "its") + " ");
      LetterDotConcat(GemSubject(sel), Possessive(sel));
    }
  }

  /** Every type paragraph ends in a lower-case letter and a full stop. */
  lemma TypeParagraphEnding(sel: Selection)
    ensures LetterDot(TypeParagraph(sel))
  {
    if IsKnownType(sel.jewelryType) {
      SentenceEnding(sel);
      LetterDotConcat(Lead(sel), Sentence(sel));
    } else {
      var metal := MetalDescription(sel.metalType);
      var x := " crafted from " + metal;
      assert Crafted(sel) == x + ".";
      assert LetterDot(x + ".") by {
        assert (x + ".")[|x + "."| - 2] == metal[|metal| - 1];
      }
      LetterDotConcat(Subject(sel.jewelryType), Crafted(sel));
      assert Sentence(sel) == [];
      assert TypeParagraph(sel) == Lead(sel) + [];
    }
  }

  /** The suffix test behind the engraving paragraph, for any text before it. */
  lemma EngravingSuffix(front: string, engraving: string, closing: string)
    requires LetterDot(front)
    ensures EndsWith(front + EngravingParagraph(engraving) + closing, "\"." + closing) <==> engraving != []
  {
    var e := EngravingParagraph(engraving);
    var r := front + e + closing;
    var w := "\"." + closing;
    if engraving != [] {
      EndsWithConcat("\n\nPersonalized with the engraving: \"" + engraving, "\".");
      EndsWithConcat(front, e);
      EndsWithTrans(front + e, e, "\".");
      EndsWithAppend(front + e, "\".", closing);
    } else {
      assert r == front + closing;
      assert !EndsWith(r, w) by {
        if |w| <= |r| {
          assert r[|r| - |w|..][0] == r[|r| - |w|] == front[|front| - 2];
        }
      }
    }
  }

  /** The engraving paragraph, and so a closing quote before the price,
      appears exactly when there is an engraving. */
  lemma EngravingParagraphIff(sel: Selection, price: string)
    ensures EndsWith(FullDescription(sel, price), "\"." + Closing(price)) <==> sel.engravingText != []
  {
    TypeParagraphEnding(sel);
    LetterDotConcat(Opening(sel) + GemClause(sel) + ".\n\n", TypeParagraph(sel));
    EngravingSuffix(Main(sel), sel.engravingText, Closing(price));
  }

  /** A non-empty engraving is quoted in its own paragraph right before the
      price. */
  lemma EngravingParagraphText(sel: Selection, price: string)
    requires sel.engravingText != []
    ensures EndsWith(FullDescription(sel, price),
                     "\n\nPersonalized with the engraving: \"" + sel.engravingText + "\"." + Closing(price))
  {
    var para := "\n\nPersonalized with the engraving: \"" + sel.engravingText + "\".";
    assert EngravingParagraph(sel.engravingText) == para;
    var tail := para + Closing(price);
    assert FullDescription(sel, price) == Main(sel) + tail;
    EndsWithConcat(Main(sel), tail);
  }

  /** Two texts that differ at index k do not share a prefix through k. */
  lemma PrefixDiffers(p: string, a: string, w: string, k: nat)
    requires StartsWith(p, a) && k < |a| && k < |w| && a[k] != w[k]
    ensures !StartsWith(p, w)
  {
    assert p[k] == p[..|a|][k];
    if |w| <= |p| {
      assert p[..|w|][k] == p[k];
    }
  }

  lemma TypeParagraphStart(sel: Selection)
    ensures StartsWith(TypeParagraph(sel), Subject(sel.jewelryType))
  {
    var subject := Subject(sel.jewelryType);
    assert StartsWith(subject, subject);
    StartsWithConcat(subject, Crafted(sel), subject);
    StartsWithConcat(Lead(sel), Sentence(sel), subject);
  }

  /** Only the ring paragraph starts with the band. */
  lemma RingParagraph(sel: Selection)
    ensures StartsWith(TypeParagraph(sel), "This ring features a band") <==> sel.jewelryType == "ring"
  {
    TypeParagraphStart(sel);
    SubjectSixthChar(sel.jewelryType);
    if sel.jewelryType != "ring" {
      PrefixDiffers(TypeParagraph(sel), Subject(sel.jewelryType), "This ring features a band", 5);
    }
  }

  lemma SubjectSixthChar(jewelryType: string)
    ensures jewelryType == "ring" ==> Subject(jewelryType) == "This ring features a band"
    ensures jewelryType != "ring" ==> |Subject(jewelryType)| > 5 && Subject(jewelryType)[5] != 'r'
  {
  }

  /** The ring paragraph gives the ring size. */
  lemma RingSizeMentioned(sel: Selection)
    requires sel.jewelryType == "ring"
    ensures Contains(TypeParagraph(sel), RingSizeNote(sel.ringSize))
  {
    var lead := Lead(sel);
    var crafted := Crafted(sel);
    var note := RingSizeNote(sel.ringSize);
    EndsWithConcat(" crafted from " + MetalDescription(sel.metalType), note);
    EndsWithConcat(Subject(sel.jewelryType), crafted);
    EndsWithTrans(lead, crafted, note);
    EndsWithContains(lead, note);
    ContainsLeft(lead, Sentence(sel), note);
  }

  /** The first sentence of the type paragraph closes with the ring size
      exactly for a ring. */
  lemma RingSizeOnlyForRings(sel: Selection)
    ensures EndsWith(Lead(sel), RingSizeNote(sel.ringSize)) <==> sel.jewelryType == "ring"
  {
    var note := RingSizeNote(sel.ringSize);
    if sel.jewelryType == "ring" {
      EndsWithConcat(Subject(sel.jewelryType), Crafted(sel));
      EndsWithConcat(" crafted from " + MetalDescription(sel.metalType), note);
      EndsWithTrans(Lead(sel), Crafted(sel), note);
    } else {
      var n := NumberToString(sel.ringSize);
      assert note[|note| - 1] == ' ' && note[|note| - 3] == n[|n| - 1];
      OtherLeadEnding(sel);
    }
  }

  /** Any other first sentence ends in "." or in a letter and ". ". */
  lemma OtherLeadEnding(sel: Selection)
    requires sel.jewelryType != "ring"
    ensures var lead := Lead(sel);
            |lead| >= 3
            && (lead[|lead| - 1] == '.' || (lead[|lead| - 1] == ' ' && IsLowerLetter(lead[|lead| - 3])))
  {
    var crafted := Crafted(sel);
    var x := " crafted from " + MetalDescription(sel.metalType);
    assert crafted == x + ". " || crafted == x + ".";
    var lead := Subject(sel.jewelryType) + crafted;
    assert lead[|lead| - 1] == crafted[|crafted| - 1];
    assert lead[|lead| - 3] == crafted[|crafted| - 3];
  }

  /** Two texts that differ k characters from their ends do not share a
      suffix that long. */
  lemma SuffixDiffers(p: string, a: string, w: string, k: nat)
    requires EndsWith(p, a) && k < |a| && k < |w| && a[|a| - 1 - k] != w[|w| - 1 - k]
    ensures !EndsWith(p, w)
  {
    assert p[|p| - 1 - k] == p[|p| - |a|..][|a| - 1 - k];
    if |w| <= |p| {
      assert p[|p| - |w|..][|w| - 1 - k] == p[|p| - 1 - k];
    }
  }

  /** "its ..." never ends like "their ...". */
  lemma TheirIsNotIts(p: string, gd: string)
    requires EndsWith(p, "its" + " " + gd + ".")
    ensures !EndsWith(p, "their " + gd + ".")
  {
    var a := "its" + " " + gd + ".";
    var w := "their " + gd + ".";
    assert a[|a| - 1 - (|gd| + 2)] == a[2] == 's';
    assert w[|w| - 1 - (|gd| + 2)] == w[4] == 'r';
    SuffixDiffers(p, a, w, |gd| + 2);
  }

  /** Pronoun agreement for the ring, necklace and bracelet paragraphs: the
      gem phrase is preceded by "their" exactly when gemCount > 1. */
  lemma PronounAgreement(sel: Selection)
    requires HasGem(sel.gemType)
    requires sel.jewelryType == "ring" || sel.jewelryType == "necklace" || sel.jewelryType == "bracelet"
    ensures EndsWith(TypeParagraph(sel), "their " + GemDescription(sel.gemType) + ".") <==> sel.gemCount > 1
  {
    var p := TypeParagraph(sel);
    var tail := Possessive(sel);
    var s := Sentence(sel);
    EndsWithConcat(GemSubject(sel), tail);
    EndsWithConcat(Lead(sel), s);
    EndsWithTrans(p, s, tail);
    if sel.gemCount > 1 {
      assert "their" + " " == "their ";
    } else {
      TheirIsNotIts(p, GemDescription(sel.gemType));
    }
  }

  /** Earrings with gems speak of "multiple" gems exactly when gemCount > 1. */
  lemma EarringsAgreement(sel: Selection)
    requires HasGem(sel.gemType) && sel.jewelryType == "earrings"
    ensures StartsWith(TypeParagraph(sel), Lead(sel) + "Each earring showcases multiple ") <==> sel.gemCount > 1
  {
    var lead := Lead(sel);
    var opening := "Each earring showcases ";
    var gems := EarringGems(sel);
    var s := Sentence(sel);
    assert s == opening + gems + EarringRest(sel);
    assert StartsWith(opening + gems, opening + gems);
    StartsWithConcat(opening + gems, EarringRest(sel), opening + gems);
    StartsWithPrepend(lead, s, opening + gems);
    EarringsAgreementAt(TypeParagraph(sel), lead, gems, sel.gemCount > 1);
  }

  lemma EarringsAgreementAt(p: string, lead: string, gems: string, many: bool)
    requires StartsWith(p, lead + ("Each earring showcases " + gems))
    requires many ==> StartsWith(gems, "multiple ")
    requires !many ==> gems != [] && gems[0] == 'a'
    ensures StartsWith(p, lead + "Each earring showcases multiple ") <==> many
  {
    var opening := "Each earring showcases ";
    var w := lead + "Each earring showcases multiple ";
    if many {
      StartsWithTrans(gems, gems, "multiple ");
      StartsWithPrepend(opening, gems, "multiple ");
      assert opening + "multiple " == "Each earring showcases multiple ";
      StartsWithPrepend(lead, opening + gems, opening + "multiple ");
      StartsWithTrans(p, lead + (opening + gems), w);
    } else {
      var a := lead + (opening + gems);
      assert a[|lead| + |opening|] == 'a';
      assert w[|lead| + |opening|] == 'm';
      PrefixDiffers(p, a, w, |lead| + |opening|);
    }
  }

  /** Of two continuations of the same text, the plural one is taken exactly
      when `many`. */
  lemma PluralStart(p: string, lead: string, s: string, h: string, plural: string, singular: string,
                    rest: string, many: bool, d: nat)
    requires p == lead + s
    requires s == h + (if many then plural else singular) + rest
    requires d < |plural| && d < |singular| && plural[d] != singular[d]
    ensures StartsWith(p, lead + h + plural) <==> many
  {
    var x := h + (if many then plural else singular);
    assert s[..|x|] == x;
    StartsWithPrepend(lead, s, x);
    assert lead + x == lead + h + (if many then plural else singular);
    if !many {
      var a := lead + h + singular;
      var w := lead + h + plural;
      assert a[|lead + h| + d] == singular[d] && w[|lead + h| + d] == plural[d];
      PrefixDiffers(p, a, w, |lead + h| + d);
    }
  }

  /** A verb with and without a final "s" before the same ending. */
  lemma PluralEnd(p: string, front: string, plural: string, singular: string,
                  t1: string, t2: string, t3: string, many: bool)
    requires EndsWith(p, front + (if many then plural else singular) + t1 + t2 + t3)
    requires singular == plural + "s" && plural != [] && plural[|plural| - 1] != 's'
    ensures EndsWith(p, front + plural + t1 + t2 + t3) <==> many
  {
    var tail := t1 + t2 + t3;
    assert front + (if many then plural else singular) + t1 + t2 + t3
           == front + (if many then plural else singular) + tail;
    assert front + plural + t1 + t2 + t3 == front + plural + tail;
    if !many {
      var a := front + singular + tail;
      var w := front + plural + tail;
      var k := |tail|;
      assert a[|a| - 1 - k] == 's';
      assert w[|w| - 1 - k] == plural[|plural| - 1];
      SuffixDiffers(p, a, w, k);
    }
  }

  /** The ring and bracelet gem sentence: the noun, its verb, the rest. */
  lemma GemSentenceParts(sel: Selection)
    requires HasGem(sel.gemType) && (sel.jewelryType == "ring" || sel.jewelryType == "bracelet")
    ensures Sentence(sel) == ("The " + ShapeDescription(sel.shape) + " " + sel.gemType.value)
                             + (if sel.gemCount > 1 then "s are" else " is")
                             + ((if sel.jewelryType == "ring" then " meticulously set to showcase "
                                 else " artfully arranged to showcase ") + Possessive(sel))
  {
  }

  /** Ring and bracelet gem sentences say "<gem>s are" for more than one gem
      and "<gem> is" otherwise. */
  lemma GemVerbAgreement(sel: Selection)
    requires HasGem(sel.gemType) && (sel.jewelryType == "ring" || sel.jewelryType == "bracelet")
    ensures StartsWith(TypeParagraph(sel),
                       Lead(sel) + ("The " + ShapeDescription(sel.shape) + " " + sel.gemType.value) + "s are")
            <==> sel.gemCount > 1
  {
    GemSentenceParts(sel);
    PluralStart(TypeParagraph(sel), Lead(sel), Sentence(sel),
                "The " + ShapeDescription(sel.shape) + " " + sel.gemType.value, "s are", " is",
                (if sel.jewelryType == "ring" then " meticulously set to showcase "
                 else " artfully arranged to showcase ") + Possessive(sel),
                sel.gemCount > 1, 0);
  }

  lemma NecklaceSentenceParts(sel: Selection)
    requires HasGem(sel.gemType) && sel.jewelryType == "necklace"
    ensures Sentence(sel) == ("The " + ShapeDescription(sel.shape) + " " + sel.gemType.value + " pendant ")
                             + (if sel.gemCount > 1 then "and accents are" else "is")
                             + (" carefully positioned to highlight " + Possessive(sel))
  {
  }

  /** The necklace's gem sentence speaks of the pendant "and accents" for
      more than one gem. */
  lemma NecklaceVerbAgreement(sel: Selection)
    requires HasGem(sel.gemType) && sel.jewelryType == "necklace"
    ensures StartsWith(TypeParagraph(sel),
                       Lead(sel) + ("The " + ShapeDescription(sel.shape) + " " + sel.gemType.value + " pendant ")
                       + "and accents are")
            <==> sel.gemCount > 1
  {
    NecklaceSentenceParts(sel);
    PluralStart(TypeParagraph(sel), Lead(sel), Sentence(sel),
                "The " + ShapeDescription(sel.shape) + " " + sel.gemType.value + " pendant ",
                "and accents are", "is", " carefully positioned to highlight " + Possessive(sel),
                sel.gemCount > 1, 0);
  }

  lemma EarringsSentenceEnd(sel: Selection)
    requires HasGem(sel.gemType) && sel.jewelryType == "earrings"
    ensures EndsWith(TypeParagraph(sel), " that " + (if sel.gemCount > 1 then "capture" else "captures")
                                         + " the " + GemDescription(sel.gemType) + ".")
  {
    var rest := EarringRest(sel);
    assert Sentence(sel) == ("Each earring showcases " + EarringGems(sel)) + rest;
    EndsWithConcat("Each earring showcases " + EarringGems(sel), rest);
    EndsWithConcat(Lead(sel), Sentence(sel));
    EndsWithTrans(TypeParagraph(sel), Sentence(sel), rest);
  }

  /** The earrings "capture" their gem phrase for more than one gem and a
      single one "captures" it. */
  lemma EarringsVerbAgreement(sel: Selection)
    requires HasGem(sel.gemType) && sel.jewelryType == "earrings"
    ensures EndsWith(TypeParagraph(sel), " that " + "capture" + " the " + GemDescription(sel.gemType) + ".")
            <==> sel.gemCount > 1
  {
    EarringsSentenceEnd(sel);
    PluralEnd(TypeParagraph(sel), " that ", "capture", "captures", " the ", GemDescription(sel.gemType), ".",
              sel.gemCount > 1);
  }
}
