/**
  The colour names an overlay request may carry, and the packed ARGB values
  they resolve to when a line is painted.
 */
module Palette {

  /** A packed 32-bit ARGB colour: alpha in the top byte, then red, green, blue. */
  type Argb = x: int | 0 <= x < 0x1_0000_0000

  const GREEN: Argb := 0xFF00FF00
  const MAGENTA: Argb := 0xFFFF00FF
  const TRANSPARENT: Argb := 0

  /** The alpha byte of a packed colour: 0xFF is opaque, 0 is invisible. */
  function Alpha(c: Argb): (a: int)
    ensures 0 <= a < 0x100
  {
    c / 0x100_0000
  }

  /** The colour names the overlay recognises. */
  predicate IsKnownColorName(name: string) {
    name == "green" || name == "purple"
  }

  /**
    Resolves a colour name: "green" is green, "purple" is painted magenta, and
    any other name is fully transparent rather than an error.
   */
  function ParseColor(name: string): (c: Argb)
    ensures name == "green" ==> c == GREEN
    ensures name == "purple" ==> c == MAGENTA
    ensures !IsKnownColorName(name) <==> c == TRANSPARENT
    ensures IsKnownColorName(name) <==> Alpha(c) == 0xFF
    ensures Alpha(c) == 0xFF || Alpha(c) == 0
  {
    if name == "green" then GREEN
    else if name == "purple" then MAGENTA
    else TRANSPARENT
  }
}
