/**
 * The jewellery selection shared by the designer, the describer and the
 * description parser: the fields a design is made of, as the components
 * pass them to each other.
 */
module Designs {
  import opened Text

  /** One jewellery design. `gemType` None is JavaScript's null ("no
      gemstone"); the other fields are the source's strings and numbers. */
  datatype Selection = Selection(
    jewelryType: string,
    metalType: string,
    gemType: Option<string>,
    gemSize: real,
    gemCount: int,
    ringSize: real,
    shape: string,
    engravingText: string)

  /** JavaScript truthiness of the gem slot: null and '' both mean no gem. */
  predicate HasGem(gem: Option<string>) {
    gem.Some? && gem.value != []
  }

  /** The initial state of the designer, restored by its reset button. */
  const Default: Selection :=
    Selection("ring", "gold", None, 1.0, 1, 7.0, "round", "")

  /** The four kinds of piece the designer offers. */
  predicate IsKnownType(jewelryType: string) {
    jewelryType == "ring" || jewelryType == "necklace" || jewelryType == "earrings" || jewelryType == "bracelet"
  }

  /** The six metal ids the designer offers. */
  predicate IsMetal(m: string) {
    m == "gold" || m == "white-gold" || m == "rose-gold"
    || m == "silver" || m == "platinum" || m == "titanium"
  }

  /** The six gem ids the designer offers. */
  predicate IsGem(g: string) {
    g == "diamond" || g == "ruby" || g == "sapphire"
    || g == "emerald" || g == "amethyst" || g == "topaz"
  }

  /** The five built-in shape ids. */
  predicate IsBuiltInShape(s: string) {
    s == "round" || s == "square" || s == "heart" || s == "triangle" || s == "hexagon"
  }

  /** Shape ids of shapes drawn by the user, e.g. "custom-0". */
  predicate IsCustomShape(shape: string) {
    StartsWith(shape, "custom-")
  }

  /** `value || fallback` for a string. */
  function OrString(value: string, fallback: string): string {
    if value != [] then value else fallback
  }

  /** `value || fallback` for a number (0 is falsy). */
  function OrReal(value: real, fallback: real): real {
    if value != 0.0 then value else fallback
  }

  /** `value || fallback` for an integer. */
  function OrInt(value: int, fallback: int): int {
    if value != 0 then value else fallback
  }

  /** Math.max on integers. */
  function Max(a: int, b: int): int {
    if a >= b then a else b
  }
}
