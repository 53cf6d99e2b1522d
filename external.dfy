/**
 * The functions the core calls but does not define: the transcendental
 * functions of JavaScript's Math object and the page's helper functions
 * hsvToRgb, logBase and interpolateColour. They are handed to the model as
 * function-valued fields, so nothing is assumed about them beyond what a
 * lemma states as its own hypothesis.
 */
module External {
  import opened Palette

  datatype Host = Host(
    sqrt: real -> real,
    log: real -> real,
    logBase: (real, real) -> real,
    cos: real -> real,
    cosh: real -> real,
    sin: real -> real,
    sinh: real -> real,
    hsvToRgb: (real, real, real) -> Rgb,
    interpolateColour: (Colour, Colour, real) -> Colour)

  /** Math.PI, as the decimal literal JavaScript prints for it. */
  const Pi: real := 3.141592653589793

  /** sqrt behaves as a square root at v. */
  predicate IsSquareRootAt(sqrt: real -> real, v: real) {
    sqrt(v) >= 0.0 && sqrt(v) * sqrt(v) == v
  }
}
