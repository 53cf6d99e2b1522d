/**
 * Complex numbers as pairs of reals, the orbit of a point under an
 * iteration step, and the escape-time question asked of every orbit:
 * the least index whose point lies outside a circle of given squared radius.
 * Both generations of escape-time code are specified by these definitions.
 */
module Complex {

  datatype Complex = Complex(rl: real, im: real)

  function Add(a: Complex, b: Complex): Complex {
    Complex(a.rl + b.rl, a.im + b.im)
  }

  /** (ar + ai i)(br + bi i), on the four parts. */
  function Product(ar: real, ai: real, br: real, bi: real): Complex {
    Complex(ar * br - ai * bi, ar * bi + ai * br)
  }

  function Mul(a: Complex, b: Complex): Complex {
    Product(a.rl, a.im, b.rl, b.im)
  }

  function Conj(z: Complex): Complex {
    Complex(z.rl, -z.im)
  }

  /** z^d by repeated multiplication: the reference the hand-expanded steps are checked against. */
  function Pow(z: Complex, d: nat): Complex {
    if d == 0 then Complex(1.0, 0.0) else Mul(Pow(z, d - 1), z)
  }

  lemma PowSucc(z: Complex, d: nat)
    ensures Pow(z, d + 1) == Mul(Pow(z, d), z)
  {
  }

  // The expansions of (a+bi)^d for d = 2 .. 5 that the steps' doc-comments
  // write out, e.g. (a+bi)^4 = a^4 + b^4 - 6a^2b^2 + (4a^3b - 4ab^3)i.

  function Sq(a: real, b: real): Complex {
    Complex(a * a - b * b, 2.0 * a * b)
  }

  function Cube(a: real, b: real): Complex {
    Complex(a * a * a - 3.0 * a * b * b, 3.0 * a * a * b - b * b * b)
  }

  function Fourth(a: real, b: real): Complex {
    Complex(a * a * a * a + b * b * b * b - 6.0 * a * a * b * b, 4.0 * a * a * a * b - 4.0 * a * b * b * b)
  }

  function Fifth(a: real, b: real): Complex {
    Complex(a * a * a * a * a - 10.0 * a * a * a * b * b + 5.0 * a * b * b * b * b,
            5.0 * a * a * a * a * b - 10.0 * a * a * b * b * b + b * b * b * b * b)
  }

  // Each expansion times (a+bi) is the next one. The polynomial identities
  // are stated on the written-out parts; the lemmas after them lift them to
  // the named expansions.

  lemma SqPoly(a: real, b: real)
    ensures Product(a, b, a, b) == Complex(a * a - b * b, 2.0 * a * b)
  {
  }

  lemma CubePoly(a: real, b: real)
    ensures Product(a * a - b * b, 2.0 * a * b, a, b)
         == Complex(a * a * a - 3.0 * a * b * b, 3.0 * a * a * b - b * b * b)
  {
  }

  lemma FourthPoly(a: real, b: real)
    ensures Product(a * a * a - 3.0 * a * b * b, 3.0 * a * a * b - b * b * b, a, b)
         == Complex(a * a * a * a + b * b * b * b - 6.0 * a * a * b * b, 4.0 * a * a * a * b - 4.0 * a * b * b * b)
  {
  }

  lemma FifthPoly(a: real, b: real)
    ensures Product(a * a * a * a + b * b * b * b - 6.0 * a * a * b * b, 4.0 * a * a * a * b - 4.0 * a * b * b * b, a, b)
         == Complex(a * a * a * a * a - 10.0 * a * a * a * b * b + 5.0 * a * b * b * b * b,
                    5.0 * a * a * a * a * b - 10.0 * a * a * b * b * b + b * b * b * b * b)
  {
  }

  lemma NextPowers(a: real, b: real)
    ensures Product(a, b, a, b) == Sq(a, b)
    ensures Product(Sq(a, b).rl, Sq(a, b).im, a, b) == Cube(a, b)
    ensures Product(Cube(a, b).rl, Cube(a, b).im, a, b) == Fourth(a, b)
    ensures Product(Fourth(a, b).rl, Fourth(a, b).im, a, b) == Fifth(a, b)
  {
    SqPoly(a, b);
    CubePoly(a, b);
    FourthPoly(a, b);
    FifthPoly(a, b);
  }

  /** Repeated multiplication agrees with the expansions written in the doc-comments. */
  lemma Powers(z: Complex)
    ensures var a, b := z.rl, z.im;
      && Pow(z, 1) == z
      && Pow(z, 2) == Sq(a, b) && Pow(z, 3) == Cube(a, b)
      && Pow(z, 4) == Fourth(a, b) && Pow(z, 5) == Fifth(a, b)
  {
    PowSucc(z, 0);
    PowSucc(z, 1);
    PowSucc(z, 2);
    PowSucc(z, 3);
    PowSucc(z, 4);
    NextPowers(z.rl, z.im);
  }

  /** Squared modulus rl^2 + im^2, which every loop compares against radius^2. */
  function SqMod(z: Complex): real {
    z.rl * z.rl + z.im * z.im
  }

  predicate Escaped(z: Complex, sqr: real) {
    SqMod(z) > sqr
  }

  /** z_k where z_0 = z0 and z_{k+1} = step(z_k). */
  function Orbit(step: Complex -> Complex, z0: Complex, k: nat): Complex {
    if k == 0 then z0 else step(Orbit(step, z0, k - 1))
  }

  /** The least index in [from, bound) whose orbit point has escaped, or bound if there is none. */
  function EscapeFrom(step: Complex -> Complex, z0: Complex, sqr: real, from: nat, bound: nat): (k: nat)
    requires from <= bound
    ensures from <= k <= bound
    ensures k < bound ==> Escaped(Orbit(step, z0, k), sqr)
    ensures forall j :: from <= j < k ==> !Escaped(Orbit(step, z0, j), sqr)
    decreases bound - from
  {
    if from == bound then bound
    else if Escaped(Orbit(step, z0, from), sqr) then from
    else EscapeFrom(step, z0, sqr, from + 1, bound)
  }

  /** The least index below bound whose orbit point has escaped, or bound if there is none. */
  function EscapeIndex(step: Complex -> Complex, z0: Complex, sqr: real, bound: nat): (k: nat)
    ensures k <= bound
    ensures k < bound ==> Escaped(Orbit(step, z0, k), sqr)
    ensures forall j :: 0 <= j < k ==> !Escaped(Orbit(step, z0, j), sqr)
  {
    EscapeFrom(step, z0, sqr, 0, bound)
  }

  /** The characterisation of EscapeIndex determines it: any index with the same two properties is it. */
  lemma EscapeIndexUnique(step: Complex -> Complex, z0: Complex, sqr: real, bound: nat, k: nat)
    requires k <= bound
    requires k < bound ==> Escaped(Orbit(step, z0, k), sqr)
    requires forall j :: 0 <= j < k ==> !Escaped(Orbit(step, z0, j), sqr)
    ensures k == EscapeIndex(step, z0, sqr, bound)
  {
  }

  /** A start point that is already outside the circle escapes at index 0. */
  lemma EscapeIndexAtStart(step: Complex -> Complex, z0: Complex, sqr: real, bound: nat)
    requires bound >= 1 && Escaped(z0, sqr)
    ensures EscapeIndex(step, z0, sqr, bound) == 0
  {
    assert Orbit(step, z0, 0) == z0;
  }
}
