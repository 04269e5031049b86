/**
 * The designer's own state and operations: the price of the current
 * selection, the list of saved designs (save, load, delete), reset, the
 * map of drawn shapes, the +/- steppers and the turning preview angle.
 */
module Designer {
  import opened Text
  import opened Designs

  // ---------------------------------------------------------------------
  // Price

  /** The base price of the kind of piece; anything else is priced as a ring. */
  function BasePrice(jewelryType: string): (b: real)
    ensures b == 200.0 || b == 250.0 || b == 300.0 || b == 350.0
    ensures !IsKnownType(jewelryType) ==> b == 200.0
  {
    match jewelryType
    case "ring" => 200.0
    case "necklace" => 300.0
    case "earrings" => 250.0
    case "bracelet" => 350.0
    case _ => 200.0
  }

  /** The metal table; None where the table has no entry (undefined). */
  function MetalMultiplier(metal: string): (m: Option<real>)
    ensures m.Some? <==> IsMetal(metal)
    ensures m.Some? ==> 1.0 <= m.value <= 2.0
  {
    match metal
    case "gold" => Some(1.5)
    case "silver" => Some(1.0)
    case "platinum" => Some(2.0)
    case "rose-gold" => Some(1.7)
    case "white-gold" => Some(1.6)
    case "titanium" => Some(1.3)
    case _ => None
  }

  /** The gem table; None where the table has no entry (undefined). */
  function GemMultiplier(gem: string): (m: Option<real>)
    ensures m.Some? <==> IsGem(gem)
    ensures m.Some? ==> 1.3 <= m.value <= 3.0
  {
    match gem
    case "diamond" => Some(3.0)
    case "ruby" => Some(2.5)
    case "sapphire" => Some(2.2)
    case "emerald" => Some(2.7)
    case "amethyst" => Some(1.5)
    case "topaz" => Some(1.3)
    case _ => None
  }

  /** The gem factor applied when there is a gem. */
  function GemFactor(multiplier: real, gemSize: real, gemCount: int): real {
    (1.0 + multiplier * gemSize * 0.5) * (1.0 + gemCount as real * 0.2)
  }

  /** calculatePrice before formatting, in exact arithmetic. None stands for
      NaN: a metal or gem without a table entry. */
  function Price(sel: Selection): (p: Option<real>)
    ensures p.Some? <==> IsMetal(sel.metalType) && (HasGem(sel.gemType) ==> IsGem(sel.gemType.value))
    ensures p.Some? && !HasGem(sel.gemType) ==>
              p.value == BasePrice(sel.jewelryType) * MetalMultiplier(sel.metalType).value
  {
    match MetalMultiplier(sel.metalType)
    case None => None
    case Some(m) =>
      var price := BasePrice(sel.jewelryType) * m;
      if !HasGem(sel.gemType) then Some(price)
      else match GemMultiplier(sel.gemType.value)
        case None => None
        case Some(g) => Some(price * GemFactor(g, sel.gemSize, sel.gemCount))
  }

  /** The price as the page shows it: toFixed(2), "NaN" for NaN. */
  function PriceText(sel: Selection): string {
    match Price(sel)
    case None => "NaN"
    case Some(p) => Fixed(p, 2)
  }

  /** The price text is a whole number of cents: the price rounded to the
      nearest cent, written with two decimals. */
  lemma PriceTextCents(sel: Selection)
    requires Price(sel).Some? && sel.gemSize >= 0.0 && sel.gemCount >= 0
    ensures var n := (Price(sel).value * 100.0 + 0.5).Floor;
            n >= 0
            && PriceText(sel) == NatToString(n / 100) + "." + [DigitChar(n / 10 % 10), DigitChar(n % 10)]
            && n as real / 100.0 - 0.005 <= Price(sel).value < n as real / 100.0 + 0.005
  {
    PriceAtLeastMetal(sel);
    FixedTwoDecimals(Price(sel).value);
  }

  /** "NaN" is shown exactly when a lookup table has no entry. */
  lemma PriceTextIsNaN(sel: Selection)
    ensures PriceText(sel) == "NaN" <==> Price(sel).None?
  {
    if Price(sel).Some? {
      FixedFirstChar(Price(sel).value, 2);
    }
  }

  lemma GemFactorAtLeastOne(multiplier: real, gemSize: real, gemCount: int)
    requires multiplier >= 0.0 && gemSize >= 0.0 && gemCount >= 0
    ensures GemFactor(multiplier, gemSize, gemCount) >= 1.0
  {
    var a := 1.0 + multiplier * gemSize * 0.5;
    var b := 1.0 + gemCount as real * 0.2;
    assert multiplier * gemSize >= 0.0;
    assert a >= 1.0 && b >= 1.0;
    assert a * b >= a * 1.0;
  }

  /** With a non-negative size and count the gems never lower the price
      below base price times metal multiplier. */
  lemma PriceAtLeastMetal(sel: Selection)
    requires Price(sel).Some? && sel.gemSize >= 0.0 && sel.gemCount >= 0
    ensures Price(sel).value >= BasePrice(sel.jewelryType) * MetalMultiplier(sel.metalType).value
  {
    if HasGem(sel.gemType) {
      var price := BasePrice(sel.jewelryType) * MetalMultiplier(sel.metalType).value;
      var g := GemMultiplier(sel.gemType.value).value;
      GemFactorAtLeastOne(g, sel.gemSize, sel.gemCount);
      assert price > 0.0;
      assert price * GemFactor(g, sel.gemSize, sel.gemCount) >= price * 1.0;
    }
  }

  lemma GemFactorMonotone(multiplier: real, s1: real, s2: real, c1: int, c2: int)
    requires multiplier >= 0.0 && 0.0 <= s1 <= s2 && 0 <= c1 <= c2
    ensures GemFactor(multiplier, s1, c1) <= GemFactor(multiplier, s2, c2)
  {
    var a1 := 1.0 + multiplier * s1 * 0.5;
    var a2 := 1.0 + multiplier * s2 * 0.5;
    var b1 := 1.0 + c1 as real * 0.2;
    var b2 := 1.0 + c2 as real * 0.2;
    assert multiplier * s1 <= multiplier * s2;
    assert 1.0 <= a1 <= a2 && 1.0 <= b1 <= b2;
    assert a1 * b1 <= a2 * b1;
    assert a2 * b1 <= a2 * b2;
  }

  /** More or larger gems never make a piece cheaper. */
  lemma PriceMonotoneInGems(sel: Selection, gemSize: real, gemCount: int)
    requires Price(sel).Some? && 0.0 <= sel.gemSize <= gemSize && 0 <= sel.gemCount <= gemCount
    ensures Price(sel.(gemSize := gemSize, gemCount := gemCount)).Some?
    ensures Price(sel).value <= Price(sel.(gemSize := gemSize, gemCount := gemCount)).value
  {
    var more := sel.(gemSize := gemSize, gemCount := gemCount);
    if HasGem(sel.gemType) {
      var price := BasePrice(sel.jewelryType) * MetalMultiplier(sel.metalType).value;
      var g := GemMultiplier(sel.gemType.value).value;
      GemFactorMonotone(g, sel.gemSize, gemSize, sel.gemCount, gemCount);
      assert price > 0.0;
      assert price * GemFactor(g, sel.gemSize, sel.gemCount) <= price * GemFactor(g, gemSize, gemCount);
    }
  }

  /** With everything else fixed, a dearer metal gives a dearer piece. */
  lemma PriceFollowsMetal(sel: Selection, m1: string, m2: string)
    requires IsMetal(m1) && IsMetal(m2)
    requires MetalMultiplier(m1).value < MetalMultiplier(m2).value
    requires Price(sel.(metalType := m1)).Some? && sel.gemSize >= 0.0 && sel.gemCount >= 0
    ensures Price(sel.(metalType := m2)).Some?
    ensures Price(sel.(metalType := m1)).value < Price(sel.(metalType := m2)).value
  {
    var s1 := sel.(metalType := m1);
    var s2 := sel.(metalType := m2);
    var base := BasePrice(sel.jewelryType);
    var x1 := MetalMultiplier(m1).value;
    var x2 := MetalMultiplier(m2).value;
    assert base * x1 < base * x2;
    if HasGem(sel.gemType) {
      var g := GemMultiplier(sel.gemType.value).value;
      var f := GemFactor(g, sel.gemSize, sel.gemCount);
      GemFactorAtLeastOne(g, sel.gemSize, sel.gemCount);
      assert (base * x1) * f < (base * x2) * f;
    }
  }

  /** The metals from dearest to cheapest. */
  lemma MetalOrdering(sel: Selection)
    requires sel.gemSize >= 0.0 && sel.gemCount >= 0
    requires HasGem(sel.gemType) ==> IsGem(sel.gemType.value)
    ensures var p := (m: string) => Price(sel.(metalType := m));
            p("platinum").Some? && p("rose-gold").Some? && p("white-gold").Some?
            && p("gold").Some? && p("titanium").Some? && p("silver").Some?
            && p("platinum").value > p("rose-gold").value > p("white-gold").value
            > p("gold").value > p("titanium").value > p("silver").value
  {
    PriceFollowsMetal(sel, "rose-gold", "platinum");
    PriceFollowsMetal(sel, "white-gold", "rose-gold");
    PriceFollowsMetal(sel, "gold", "white-gold");
    PriceFollowsMetal(sel, "titanium", "gold");
    PriceFollowsMetal(sel, "silver", "titanium");
  }

  // ---------------------------------------------------------------------
  // Saved designs

  /** One entry of the saved-designs list. `customShapeData` is None when the
      entry has none or the map held nothing under the shape id. */
  datatype SavedDesign = SavedDesign(
    id: string, name: string, jewelryType: string, metal: string, gem: Option<string>,
    gemSize: real, gemCount: int, ringSize: real, engraving: string, shape: string,
    price: string, date: string, customShapeData: Option<string>)

  /** The drawing stored under a shape id, if it is there and not empty. */
  function ShapeData(shapes: map<string, string>, id: string): (r: Option<string>)
    ensures r.Some? <==> id in shapes && shapes[id] != []
    ensures r.Some? ==> r.value == shapes[id]
  {
    if id in shapes && shapes[id] != [] then Some(shapes[id]) else None
  }

  /** The entry saveDesign builds from the current state. */
  function NewDesign(sel: Selection, name: string, shapes: map<string, string>,
                     id: string, date: string): (d: SavedDesign)
    ensures d.gemSize == (if HasGem(sel.gemType) then sel.gemSize else 0.0)
    ensures d.gemCount == (if HasGem(sel.gemType) then sel.gemCount else 0)
    ensures d.customShapeData.Some? <==> IsCustomShape(sel.shape) && sel.shape in shapes
    ensures d.customShapeData.Some? ==> d.customShapeData.value == shapes[sel.shape]
    ensures d.price == PriceText(sel) && d.id == id && d.name == name
  {
    SavedDesign(id, name, sel.jewelryType, sel.metalType, sel.gemType,
                if HasGem(sel.gemType) then sel.gemSize else 0.0,
                if HasGem(sel.gemType) then sel.gemCount else 0,
                sel.ringSize, sel.engravingText, sel.shape, PriceText(sel), date,
                if IsCustomShape(sel.shape) && sel.shape in shapes then Some(shapes[sel.shape]) else None)
  }

  /** The selection loadDesign restores from an entry. */
  function Loaded(d: SavedDesign): (sel: Selection)
    ensures sel.shape == (if d.shape == [] then "round" else d.shape)
  {
    Selection(d.jewelryType, d.metal, d.gem, d.gemSize, d.gemCount, d.ringSize,
              OrString(d.shape, "round"), d.engraving)
  }

  /** Saving and loading gives the design back, except that a design
      without a gem comes back with gem size and count 0. */
  lemma SaveLoadRoundTrip(sel: Selection, name: string, shapes: map<string, string>, id: string, date: string)
    requires sel.shape != []
    ensures var back := Loaded(NewDesign(sel, name, shapes, id, date));
            (HasGem(sel.gemType) ==> back == sel)
            && (!HasGem(sel.gemType) ==> back == sel.(gemSize := 0.0, gemCount := 0))
  {
  }

  /** The list without the entries with the given id, in their order. */
  function Without(designs: seq<SavedDesign>, id: string): (r: seq<SavedDesign>)
    ensures |r| <= |designs|
    ensures forall d :: d in r <==> d in designs && d.id != id
  {
    if designs == [] then []
    else if designs[|designs| - 1].id != id then
      Without(designs[..|designs| - 1], id) + [designs[|designs| - 1]]
    else Without(designs[..|designs| - 1], id)
  }

  /** Filtering distributes over concatenation, so the kept entries stay in
      their order. */
  lemma {:induction false} WithoutAppend(a: seq<SavedDesign>, b: seq<SavedDesign>, id: string)
    ensures Without(a + b, id) == Without(a, id) + Without(b, id)
    decreases |b|
  {
    if b == [] {
      assert a + b == a;
    } else {
      var last := b[|b| - 1];
      assert (a + b)[..|a + b| - 1] == a + b[..|b| - 1];
      WithoutAppend(a, b[..|b| - 1], id);
    }
  }

  /** Deleting twice is deleting once. */
  lemma {:induction false} WithoutIdempotent(designs: seq<SavedDesign>, id: string)
    ensures Without(Without(designs, id), id) == Without(designs, id)
  {
    if designs != [] {
      var init := designs[..|designs| - 1];
      WithoutIdempotent(init, id);
      if designs[|designs| - 1].id != id {
        WithoutAppend(Without(init, id), [designs[|designs| - 1]], id);
        assert Without([designs[|designs| - 1]], id) == [designs[|designs| - 1]] by {
          assert [designs[|designs| - 1]][..0] == [];
        }
      }
    }
  }

  /** A list with no entry of that id is left as it is. */
  lemma {:induction false} WithoutAbsent(designs: seq<SavedDesign>, id: string)
    requires forall k :: 0 <= k < |designs| ==> designs[k].id != id
    ensures Without(designs, id) == designs
  {
    if designs != [] {
      var init := designs[..|designs| - 1];
      assert forall k :: 0 <= k < |init| ==> init[k] == designs[k];
      WithoutAbsent(init, id);
      assert init + [designs[|designs| - 1]] == designs;
    }
  }

  // ---------------------------------------------------------------------
  // Steppers and the preview angle

  /** Math.max(lo, x - step): the minus button. */
  function StepDown(x: real, step: real, lo: real): (r: real)
    requires step > 0.0
    ensures r >= lo
    ensures x - step >= lo ==> r == x - step
    ensures x > lo ==> r < x
  {
    if x - step >= lo then x - step else lo
  }

  /** Math.min(hi, x + step): the plus button. */
  function StepUp(x: real, step: real, hi: real): (r: real)
    requires step > 0.0
    ensures r <= hi
    ensures x + step <= hi ==> r == x + step
    ensures x < hi ==> r > x
  {
    if x + step <= hi then x + step else hi
  }

  function StepDownInt(x: int, lo: int): (r: int)
    ensures r >= lo
    ensures x - 1 >= lo ==> r == x - 1
  {
    if x - 1 >= lo then x - 1 else lo
  }

  function StepUpInt(x: int, hi: int): (r: int)
    ensures r <= hi
    ensures x + 1 <= hi ==> r == x + 1
  {
    if x + 1 <= hi then x + 1 else hi
  }

  /** A value inside the range stays inside it, whichever button is pressed. */
  lemma SteppersKeepRange(x: real, step: real, lo: real, hi: real)
    requires step > 0.0 && lo <= x <= hi
    ensures lo <= StepDown(x, step, lo) <= hi
    ensures lo <= StepUp(x, step, hi) <= hi
  {
  }

  /** One tick of the preview rotation. */
  function NextAngle(angle: int): (r: int)
    ensures 0 <= r < 360
    ensures 0 <= angle < 359 ==> r == angle + 1
  {
    (angle + 1) % 360
  }

  /** The angle after n ticks. */
  function AngleAfter(angle: int, n: nat): int {
    if n == 0 then angle else NextAngle(AngleAfter(angle, n - 1))
  }

  /** n ticks turn the preview by n degrees modulo 360; after 360 ticks it
      is back where it started. */
  lemma {:induction false} AngleAfterTicks(angle: int, n: nat)
    requires 0 <= angle < 360
    ensures AngleAfter(angle, n) == (angle + n) % 360
  {
    if n > 0 {
      AngleAfterTicks(angle, n - 1);
    }
  }

  lemma FullTurn(angle: int)
    requires 0 <= angle < 360
    ensures AngleAfter(angle, 360) == angle
  {
    AngleAfterTicks(angle, 360);
  }

  // ---------------------------------------------------------------------
  // The designer's state

  class Designer {
    var jewelryType: string
    var metalType: string
    var gemType: Option<string>
    var gemSize: real
    var gemCount: int
    var ringSize: real
    var engravingText: string
    var viewAngle: int
    var savedDesigns: seq<SavedDesign>
    var currentDesignName: string
    var selectedShape: string
    var customShapes: map<string, string>

    /** The preview angle is a whole degree below 360. */
    predicate Valid()
      reads this
    {
      0 <= viewAngle < 360
    }

    /** The selection the describer and the price are computed from. */
    function Current(): Selection
      reads this
    {
      Selection(jewelryType, metalType, gemType, gemSize, gemCount, ringSize,
                selectedShape, engravingText)
    }

    constructor ()
      ensures Valid()
      ensures Current() == Default
      ensures viewAngle == 0 && savedDesigns == [] && currentDesignName == [] && customShapes == map[]
    {
      jewelryType := "ring";
      metalType := "gold";
      gemType := None;
      gemSize := 1.0;
      gemCount := 1;
      ringSize := 7.0;
      engravingText := "";
      viewAngle := 0;
      savedDesigns := [];
      currentDesignName := "";
      selectedShape := "round";
      customShapes := map[];
    }

    /** One tick of the rotation timer. */
    method Tick()
      requires Valid()
      modifies this
      ensures Valid()
      ensures viewAngle == NextAngle(old(viewAngle))
      ensures Current() == old(Current()) && savedDesigns == old(savedDesigns)
      ensures currentDesignName == old(currentDesignName) && customShapes == old(customShapes)
    {
      viewAngle := (viewAngle + 1) % 360;
    }

    method SetDesignName(name: string)
      modifies this
      ensures currentDesignName == name
      ensures Current() == old(Current()) && savedDesigns == old(savedDesigns)
      ensures viewAngle == old(viewAngle) && customShapes == old(customShapes)
    {
      currentDesignName := name;
    }

    /** saveDesign: nothing without a name; otherwise one entry is appended
        and the name field is cleared. */
    method SaveDesign(id: string, date: string)
      modifies this
      ensures Trim(old(currentDesignName)) == [] ==>
                savedDesigns == old(savedDesigns) && currentDesignName == old(currentDesignName)
      ensures Trim(old(currentDesignName)) != [] ==>
                savedDesigns == old(savedDesigns)
                                + [NewDesign(old(Current()), old(currentDesignName), old(customShapes), id, date)]
                && currentDesignName == []
      ensures Current() == old(Current()) && customShapes == old(customShapes) && viewAngle == old(viewAngle)
    {
      if Trim(currentDesignName) == [] {
        return;
      }
      var design := SavedDesign(
        id, currentDesignName, jewelryType, metalType, gemType,
        if HasGem(gemType) then gemSize else 0.0,
        if HasGem(gemType) then gemCount else 0,
        ringSize, engravingText, selectedShape, PriceText(Current()), date, None);
      if StartsWith(selectedShape, "custom-") {
        design := design.(customShapeData :=
          if selectedShape in customShapes then Some(customShapes[selectedShape]) else None);
      }
      savedDesigns := savedDesigns + [design];
      currentDesignName := "";
    }

    /** loadDesign: every field back from the entry (the shape defaults to
        round), and its drawing back into the map when it has one. */
    method LoadDesign(design: SavedDesign)
      modifies this
      ensures Current() == Loaded(design)
      ensures customShapes ==
                if design.customShapeData.Some? && design.customShapeData.value != [] && IsCustomShape(design.shape)
                then old(customShapes)[design.shape := design.customShapeData.value]
                else old(customShapes)
      ensures savedDesigns == old(savedDesigns) && currentDesignName == old(currentDesignName)
      ensures viewAngle == old(viewAngle)
    {
      jewelryType := design.jewelryType;
      metalType := design.metal;
      gemType := design.gem;
      gemSize := design.gemSize;
      gemCount := design.gemCount;
      ringSize := design.ringSize;
      engravingText := design.engraving;
      selectedShape := if design.shape != [] then design.shape else "round";
      if design.customShapeData.Some? && design.customShapeData.value != [] && StartsWith(design.shape, "custom-") {
        customShapes := customShapes[design.shape := design.customShapeData.value];
      }
    }

    /** deleteDesign: every entry with the id goes, the rest stay in order. */
    method DeleteDesign(id: string)
      modifies this
      ensures savedDesigns == Without(old(savedDesigns), id)
      ensures Current() == old(Current()) && customShapes == old(customShapes)
      ensures currentDesignName == old(currentDesignName) && viewAngle == old(viewAngle)
    {
      savedDesigns := Without(savedDesigns, id);
    }

    /** resetDesign: the selection goes back to the initial one; the saved
        designs and the drawings stay. */
    method ResetDesign()
      modifies this
      ensures Current() == Default
      ensures savedDesigns == old(savedDesigns) && customShapes == old(customShapes)
      ensures currentDesignName == old(currentDesignName) && viewAngle == old(viewAngle)
    {
      jewelryType := "ring";
      metalType := "gold";
      gemType := None;
      gemSize := 1.0;
      gemCount := 1;
      ringSize := 7.0;
      engravingText := "";
      selectedShape := "round";
    }

    /** handleShapeSelect: the shape is selected; a drawing is stored only
        for a custom id that has none yet, and only when there is a canvas
        (`canvas` is its picture). */
    method HandleShapeSelect(shapeId: string, canvas: Option<string>)
      requires Valid()
      modifies this
      ensures Valid()
      ensures selectedShape == shapeId
      ensures customShapes ==
                if IsCustomShape(shapeId) && ShapeData(old(customShapes), shapeId).None? && canvas.Some?
                then old(customShapes)[shapeId := canvas.value]
                else old(customShapes)
      ensures ShapeData(old(customShapes), shapeId).Some? ==> customShapes == old(customShapes)
      ensures forall k :: k != shapeId ==> (k in customShapes <==> k in old(customShapes))
      ensures jewelryType == old(jewelryType) && metalType == old(metalType) && gemType == old(gemType)
      ensures gemSize == old(gemSize) && gemCount == old(gemCount) && ringSize == old(ringSize)
      ensures engravingText == old(engravingText) && savedDesigns == old(savedDesigns)
      ensures currentDesignName == old(currentDesignName) && viewAngle == old(viewAngle)
    {
      selectedShape := shapeId;
      if StartsWith(shapeId, "custom-") && !(shapeId in customShapes && customShapes[shapeId] != []) {
        if canvas.Some? {
          customShapes := customShapes[shapeId := canvas.value];
        }
      }
    }

    // Each stepper button is disabled at its bound, so its handler runs
    // only strictly inside the range it moves towards.

    method DecreaseGemSize()
      requires gemSize > 0.5
      modifies this
      ensures gemSize == StepDown(old(gemSize), 0.1, 0.5)
      ensures 0.5 <= old(gemSize) <= 3.0 ==> 0.5 <= gemSize <= 3.0
      ensures Current() == old(Current()).(gemSize := gemSize)
      ensures savedDesigns == old(savedDesigns) && customShapes == old(customShapes)
      ensures currentDesignName == old(currentDesignName) && viewAngle == old(viewAngle)
    {
      gemSize := if gemSize - 0.1 >= 0.5 then gemSize - 0.1 else 0.5;
    }

    method IncreaseGemSize()
      requires gemSize < 3.0
      modifies this
      ensures gemSize == StepUp(old(gemSize), 0.1, 3.0)
      ensures 0.5 <= old(gemSize) <= 3.0 ==> 0.5 <= gemSize <= 3.0
      ensures Current() == old(Current()).(gemSize := gemSize)
      ensures savedDesigns == old(savedDesigns) && customShapes == old(customShapes)
      ensures currentDesignName == old(currentDesignName) && viewAngle == old(viewAngle)
    {
      gemSize := if gemSize + 0.1 <= 3.0 then gemSize + 0.1 else 3.0;
    }

    method DecreaseGemCount()
      requires gemCount > 1
      modifies this
      ensures gemCount == StepDownInt(old(gemCount), 1)
      ensures 1 <= old(gemCount) <= 7 ==> 1 <= gemCount <= 7
      ensures Current() == old(Current()).(gemCount := gemCount)
      ensures savedDesigns == old(savedDesigns) && customShapes == old(customShapes)
      ensures currentDesignName == old(currentDesignName) && viewAngle == old(viewAngle)
    {
      gemCount := if gemCount - 1 >= 1 then gemCount - 1 else 1;
    }

    method IncreaseGemCount()
      requires gemCount < 7
      modifies this
      ensures gemCount == StepUpInt(old(gemCount), 7)
      ensures 1 <= old(gemCount) <= 7 ==> 1 <= gemCount <= 7
      ensures Current() == old(Current()).(gemCount := gemCount)
      ensures savedDesigns == old(savedDesigns) && customShapes == old(customShapes)
      ensures currentDesignName == old(currentDesignName) && viewAngle == old(viewAngle)
    {
      gemCount := if gemCount + 1 <= 7 then gemCount + 1 else 7;
    }

    method DecreaseRingSize()
      requires ringSize > 4.0
      modifies this
      ensures ringSize == StepDown(old(ringSize), 0.5, 4.0)
      ensures 4.0 <= old(ringSize) <= 13.0 ==> 4.0 <= ringSize <= 13.0
      ensures Current() == old(Current()).(ringSize := ringSize)
      ensures savedDesigns == old(savedDesigns) && customShapes == old(customShapes)
      ensures currentDesignName == old(currentDesignName) && viewAngle == old(viewAngle)
    {
      ringSize := if ringSize - 0.5 >= 4.0 then ringSize - 0.5 else 4.0;
    }

    method IncreaseRingSize()
      requires ringSize < 13.0
      modifies this
      ensures ringSize == StepUp(old(ringSize), 0.5, 13.0)
      ensures 4.0 <= old(ringSize) <= 13.0 ==> 4.0 <= ringSize <= 13.0
      ensures Current() == old(Current()).(ringSize := ringSize)
      ensures savedDesigns == old(savedDesigns) && customShapes == old(customShapes)
      ensures currentDesignName == old(currentDesignName) && viewAngle == old(viewAngle)
    {
      ringSize := if ringSize + 0.5 <= 13.0 then ringSize + 0.5 else 13.0;
    }
  }
}
