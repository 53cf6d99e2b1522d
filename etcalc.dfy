/**
 * Escape-time calculators of the newer, split version (etcalc.js).
 *
 * Each calculator iterates z_{k+1} = step(z_k) from z_0 = (x, y), where the
 * polynomial steps add the constant (crl, cim) and the Collatz steps add
 * nothing, and returns the first index whose squared modulus exceeds
 * radius^2, or maxIter once maxIter steps have been taken. All ten share
 * one loop, EscapeLoop, instantiated with the step of each formula; the
 * quadratic additionally short-circuits points of the main cardioid and the
 * period-2 bulb in Mandelbrot mode.
 */
module EtCalc {
  import opened Complex
  import opened External

  datatype Formula =
    | Quadratic | Cubic | Quartic | Quintic
    | ConjQuadratic | ConjCubic | ConjQuartic | ConjQuintic
    | Collatz1 | Collatz2
  {
    predicate IsCollatz() {
      Collatz1? || Collatz2?
    }
  }

  /** The [count, lastVal, power] array every iterate function returns. */
  datatype EtResult = EtResult(count: int, lastVal: real, power: int)

  // One step of each recurrence on the loop's locals rl and im, with the
  // source's own intermediate terms sqrl = rl^2 and sqim = im^2; the
  // polynomial steps add the constant (crl, cim).

  function QuadraticStep(rl: real, im: real, crl: real, cim: real): Complex {
    var sqrl, sqim := rl * rl, im * im;
    Complex(sqrl - sqim + crl, (2.0 * rl * im) + cim)
  }

  function CubicStep(rl: real, im: real, crl: real, cim: real): Complex {
    var sqrl, sqim := rl * rl, im * im;
    Complex(rl * (sqrl - 3.0 * sqim) + crl, im * (3.0 * sqrl - sqim) + cim)
  }

  function QuarticStep(rl: real, im: real, crl: real, cim: real): Complex {
    var sqrl, sqim := rl * rl, im * im;
    Complex(sqrl * sqrl + sqim * sqim - 6.0 * sqrl * sqim + crl,
            4.0 * sqrl * rl * im - 4.0 * rl * sqim * im + cim)
  }

  function QuinticStep(rl: real, im: real, crl: real, cim: real): Complex {
    var sqrl, sqim := rl * rl, im * im;
    Complex((rl * ((sqrl * (sqrl - sqim)) - (9.0 * sqrl * sqim) + (5.0 * sqim * sqim))) + crl,
            (im * ((sqim * (sqim - (10.0 * sqrl))) + (5.0 * sqrl * sqrl))) + cim)
  }

  function ConjQuadraticStep(rl: real, im: real, crl: real, cim: real): Complex {
    var sqrl, sqim := rl * rl, im * im;
    Complex(sqrl - sqim + crl, (-2.0 * rl * im) + cim)
  }

  function ConjCubicStep(rl: real, im: real, crl: real, cim: real): Complex {
    var sqrl, sqim := rl * rl, im * im;
    Complex(rl * (sqrl - (3.0 * sqim)) + crl, im * (sqim - (3.0 * sqrl)) + cim)
  }

  /** rlim and diffsq are implicit globals in the source; here they are locals. */
  function ConjQuarticStep(rl: real, im: real, crl: real, cim: real): Complex {
    var sqrl, sqim := rl * rl, im * im;
    var rlim := rl * im;
    var diffsq := sqrl - sqim;
    Complex((diffsq * diffsq) - (4.0 * rlim * rlim) + crl, cim - (4.0 * rlim * diffsq))
  }

  function ConjQuinticStep(rl: real, im: real, crl: real, cim: real): Complex {
    var sqrl, sqim := rl * rl, im * im;
    Complex((rl * ((sqrl * (sqrl - sqim)) + (sqim * ((5.0 * sqim) - (9.0 * sqrl))))) + crl,
            (im * ((sqim * (sqrl - sqim)) + (sqrl * ((9.0 * sqim) - (5.0 * sqrl))))) + cim)
  }

  /**
   * cos(pi z) for z = rl + im i, as the Collatz steps assemble it from real
   * functions: c - s i, with c = cos(pi rl) cosh(pi im) and
   * s = sin(pi rl) sinh(pi im).
   */
  function CosPi(host: Host, z: Complex): Complex {
    Complex(host.cos(Pi * z.rl) * host.cosh(Pi * z.im), -(host.sin(Pi * z.rl) * host.sinh(Pi * z.im)))
  }

  /**
   * Collatz variant 1 as written: (1 + 4z)/4 - (1 + 2z) cos(pi z). The
   * quarter divides 1 + 4z only, not the cosine term; IntendedCollatz1 is
   * the map its equation displays.
   */
  function Collatz1Step(host: Host, rl: real, im: real): (w: Complex)
    ensures w == Add(Complex(0.25 + rl, im), Mul(Complex(-1.0 - 2.0 * rl, -2.0 * im), CosPi(host, Complex(rl, im))))
  {
    var c := host.cos(Pi * rl) * host.cosh(Pi * im);
    var s := host.sin(Pi * rl) * host.sinh(Pi * im);
    Complex(0.25 + rl - (2.0 * rl + 1.0) * c - 2.0 * im * s, (1.0 - 2.0 * c) * im + (2.0 * rl + 1.0) * s)
  }

  /** Collatz variant 2 as written: (2 + 7z)/4 - (2 + 5z) cos(pi z), again with the quarter on 2 + 7z only. */
  function Collatz2Step(host: Host, rl: real, im: real): (w: Complex)
    ensures w == Add(Complex(0.5 + 7.0 * rl / 4.0, 7.0 * im / 4.0), Mul(Complex(-2.0 - 5.0 * rl, -5.0 * im), CosPi(host, Complex(rl, im))))
  {
    var c := host.cos(Pi * rl) * host.cosh(Pi * im);
    var s := host.sin(Pi * rl) * host.sinh(Pi * im);
    Complex(0.5 + 7.0 * rl / 4.0 - 2.0 * c - 5.0 * (c * rl + s * im),
            7.0 * im / 4.0 + 2.0 * s + 5.0 * (s * rl - c * im))
  }

  /** The map the first Collatz equation displays: 1/4 (1 + 4z - (1 + 2z) cos(pi z)). */
  function IntendedCollatz1(host: Host, z: Complex): Complex {
    Mul(Complex(0.25, 0.0), Add(Complex(1.0 + 4.0 * z.rl, 4.0 * z.im), Mul(Complex(-1.0 - 2.0 * z.rl, -2.0 * z.im), CosPi(host, z))))
  }

  /** The map the second Collatz equation displays: 1/4 (2 + 7z - (2 + 5z) cos(pi z)). */
  function IntendedCollatz2(host: Host, z: Complex): Complex {
    Mul(Complex(0.25, 0.0), Add(Complex(2.0 + 7.0 * z.rl, 7.0 * z.im), Mul(Complex(-2.0 - 5.0 * z.rl, -5.0 * z.im), CosPi(host, z))))
  }

  /** The host's trigonometry is exact at the integer n: cos(pi n) = (-1)^n, cosh 0 = 1 and sinh 0 = 0. */
  predicate TrigExactAt(host: Host, n: int) {
    && host.cos(Pi * n as real) == (if n % 2 == 0 then 1.0 else -1.0)
    && host.cosh(0.0) == 1.0
    && host.sinh(0.0) == 0.0
  }

  /**
   * The displayed maps extend the Collatz function to the plane: on an
   * integer n they give n/2 for even n, and (3n + 1)/2 (variant 1) or
   * 3n + 1 (variant 2) for odd n.
   */
  lemma IntendedCollatzOnIntegers(host: Host, n: int)
    requires TrigExactAt(host, n)
    ensures IntendedCollatz1(host, Complex(n as real, 0.0))
         == Complex(if n % 2 == 0 then n as real / 2.0 else (3.0 * n as real + 1.0) / 2.0, 0.0)
    ensures IntendedCollatz2(host, Complex(n as real, 0.0))
         == Complex(if n % 2 == 0 then n as real / 2.0 else 3.0 * n as real + 1.0, 0.0)
  {
    assert CosPi(host, Complex(n as real, 0.0)) == Complex(if n % 2 == 0 then 1.0 else -1.0, 0.0);
  }

  /**
   * The steps as written are not the Collatz function on the integers: at
   * every integer n they differ from the displayed maps (at 0, for
   * instance, they give -0.75 and -1.5 where the Collatz function gives 0).
   */
  lemma CollatzAsWrittenOnIntegers(host: Host, n: int)
    requires TrigExactAt(host, n)
    ensures Collatz1Step(host, n as real, 0.0)
         == Complex(if n % 2 == 0 then -(n as real) - 0.75 else 3.0 * n as real + 1.25, 0.0)
         != IntendedCollatz1(host, Complex(n as real, 0.0))
    ensures Collatz2Step(host, n as real, 0.0)
         == Complex(if n % 2 == 0 then -1.5 - 13.0 * n as real / 4.0 else 2.5 + 27.0 * n as real / 4.0, 0.0)
         != IntendedCollatz2(host, Complex(n as real, 0.0))
  {
    assert CosPi(host, Complex(n as real, 0.0)) == Complex(if n % 2 == 0 then 1.0 else -1.0, 0.0);
    IntendedCollatzOnIntegers(host, n);
  }

  /** The step calculator f iterates; the Collatz maps take no constant. */
  function StepFn(f: Formula, host: Host, c: Complex): Complex -> Complex {
    match f
    case Quadratic => (z: Complex) => QuadraticStep(z.rl, z.im, c.rl, c.im)
    case Cubic => (z: Complex) => CubicStep(z.rl, z.im, c.rl, c.im)
    case Quartic => (z: Complex) => QuarticStep(z.rl, z.im, c.rl, c.im)
    case Quintic => (z: Complex) => QuinticStep(z.rl, z.im, c.rl, c.im)
    case ConjQuadratic => (z: Complex) => ConjQuadraticStep(z.rl, z.im, c.rl, c.im)
    case ConjCubic => (z: Complex) => ConjCubicStep(z.rl, z.im, c.rl, c.im)
    case ConjQuartic => (z: Complex) => ConjQuarticStep(z.rl, z.im, c.rl, c.im)
    case ConjQuintic => (z: Complex) => ConjQuinticStep(z.rl, z.im, c.rl, c.im)
    case Collatz1 => (z: Complex) => Collatz1Step(host, z.rl, z.im)
    case Collatz2 => (z: Complex) => Collatz2Step(host, z.rl, z.im)
  }

  /** The third component of each calculator's result. */
  function Degree(f: Formula): int {
    match f
    case Quadratic => 2
    case ConjQuadratic => 2
    case Cubic => 3
    case ConjCubic => 3
    case Quartic => 4
    case ConjQuartic => 4
    case Quintic => 5
    case ConjQuintic => 5
    case Collatz1 => 5
    case Collatz2 => 5
  }

  /** The number of orbit points examined: the loop always examines z_0, even when maxIter < 1. */
  function Bound(maxIter: int): nat {
    if maxIter < 1 then 1 else maxIter
  }

  /** The quadratic's test for the main cardioid, on the start point. */
  predicate InCardioid(x: real, y: real) {
    var sqim := y * y;
    var q := (x - 0.25) * (x - 0.25) + sqim;
    q * (q + x - 0.25) < sqim / 4.0
  }

  /** The quadratic's test for the period-2 bulb left of the cardioid. */
  predicate InBulb(x: real, y: real) {
    (x + 1.0) * (x + 1.0) + y * y < 0.0625
  }

  predicate InCardioidOrBulb(x: real, y: real) {
    InCardioid(x, y) || InBulb(x, y)
  }

  predicate ShortCircuits(f: Formula, isJulia: bool, x: real, y: real) {
    f == Quadratic && !isJulia && InCardioidOrBulb(x, y)
  }

  /** The result of iterating step from z0: the escape index with the escaping point's modulus, or maxIter. */
  function EscapeResult(step: Complex -> Complex, z0: Complex, maxIter: int, sqr: real,
                        normalised: bool, sqrt: real -> real, power: int): EtResult
  {
    var k := EscapeIndex(step, z0, sqr, Bound(maxIter));
    if k == Bound(maxIter) then EtResult(maxIter, 0.0, power)
    else EtResult(k, if normalised then sqrt(SqMod(Orbit(step, z0, k))) else 0.0, power)
  }

  /** What calculator f returns for these arguments. */
  function Expected(f: Formula, host: Host, isJulia: bool, x: real, y: real, crl: real, cim: real,
                    maxIter: int, radius: real, normalised: bool): EtResult
  {
    if ShortCircuits(f, isJulia, x, y) then EtResult(maxIter, 0.0, 2)
    else EscapeResult(StepFn(f, host, Complex(crl, cim)), Complex(x, y), maxIter, radius * radius,
                      normalised, host.sqrt, Degree(f))
  }

  /**
   * The `for(;;)` loop shared by every calculator: test the current point,
   * stop if it has escaped, otherwise step and give up once maxIter steps
   * have been taken.
   */
  method EscapeLoop(step: Complex -> Complex, z0: Complex, maxIter: int, sqr: real)
    returns (i: int, escaped: bool, sqMod: real)
    ensures escaped <==> EscapeIndex(step, z0, sqr, Bound(maxIter)) < Bound(maxIter)
    ensures escaped ==> i == EscapeIndex(step, z0, sqr, Bound(maxIter)) && sqMod == SqMod(Orbit(step, z0, i))
    ensures !escaped ==> i == maxIter
  {
    var rl, im := z0.rl, z0.im;
    i := 0;
    while true
      invariant 0 <= i < Bound(maxIter)
      invariant Complex(rl, im) == Orbit(step, z0, i)
      invariant forall j :: 0 <= j < i ==> !Escaped(Orbit(step, z0, j), sqr)
      decreases Bound(maxIter) - i
    {
      var sqrl, sqim := rl * rl, im * im;
      if sqrl + sqim > sqr {
        EscapeIndexUnique(step, z0, sqr, Bound(maxIter), i);
        return i, true, sqrl + sqim;
      }
      var next := step(Complex(rl, im));
      rl, im := next.rl, next.im;
      i := i + 1;
      if i >= maxIter {
        EscapeIndexUnique(step, z0, sqr, Bound(maxIter), i);
        return maxIter, false, 0.0;
      }
    }
  }

  /** The iterate function of calculator f. */
  method Iterate(f: Formula, host: Host, isJulia: bool, x: real, y: real, crl: real, cim: real,
                 maxIter: int, radius: real, normalised: bool) returns (r: EtResult)
    ensures r == Expected(f, host, isJulia, x, y, crl, cim, maxIter, radius, normalised)
  {
    if f == Quadratic && !isJulia {
      if InCardioid(x, y) {
        return EtResult(maxIter, 0.0, 2);
      }
      if InBulb(x, y) {
        return EtResult(maxIter, 0.0, 2);
      }
    }
    var power := Degree(f);
    var i, escaped, sqMod := EscapeLoop(StepFn(f, host, Complex(crl, cim)), Complex(x, y), maxIter, radius * radius);
    if !escaped {
      return EtResult(maxIter, 0.0, power);
    }
    if normalised {
      return EtResult(i, host.sqrt(sqMod), power);
    }
    return EtResult(i, 0.0, power);
  }

  // ---------------------------------------------------------------------------
  // Properties of every calculator's result.

  /** What an escape result says, whatever the step. */
  lemma EscapeResultMeaning(step: Complex -> Complex, z0: Complex, maxIter: int, sqr: real,
                            normalised: bool, sqrt: real -> real, power: int)
    requires maxIter >= 1
    ensures var r := EscapeResult(step, z0, maxIter, sqr, normalised, sqrt, power);
      && 0 <= r.count <= maxIter
      && r.power == power
      && (r.count < maxIter ==> Escaped(Orbit(step, z0, r.count), sqr))
      && (forall j :: 0 <= j < r.count ==> !Escaped(Orbit(step, z0, j), sqr))
      && (!normalised || r.count == maxIter ==> r.lastVal == 0.0)
      && (normalised && r.count < maxIter ==> r.lastVal == sqrt(SqMod(Orbit(step, z0, r.count))))
  {
  }

  /** With maxIter >= 0 the count lies in [0, maxIter]. */
  lemma CountInRange(f: Formula, host: Host, isJulia: bool, x: real, y: real, crl: real, cim: real,
                     maxIter: int, radius: real, normalised: bool)
    requires maxIter >= 0
    ensures var r := Expected(f, host, isJulia, x, y, crl, cim, maxIter, radius, normalised);
      0 <= r.count <= maxIter
  {
  }

  /**
   * Unless the cardioid test answered, and with maxIter >= 1, the count is
   * the least k < maxIter with |z_k|^2 > radius^2, and maxIter exactly when
   * no orbit point below maxIter escapes.
   */
  lemma CountIsLeastEscape(f: Formula, host: Host, isJulia: bool, x: real, y: real, crl: real, cim: real,
                           maxIter: int, radius: real, normalised: bool)
    requires maxIter >= 1 && !ShortCircuits(f, isJulia, x, y)
    ensures var r := Expected(f, host, isJulia, x, y, crl, cim, maxIter, radius, normalised);
      var step := StepFn(f, host, Complex(crl, cim));
      && 0 <= r.count <= maxIter
      && (r.count < maxIter ==> Escaped(Orbit(step, Complex(x, y), r.count), radius * radius))
      && (forall j :: 0 <= j < r.count ==> !Escaped(Orbit(step, Complex(x, y), j), radius * radius))
  {
    EscapeResultMeaning(StepFn(f, host, Complex(crl, cim)), Complex(x, y), maxIter, radius * radius,
                        normalised, host.sqrt, Degree(f));
  }

  /** A start point outside the circle gives count 0, for every calculator unless the cardioid test answered first. */
  lemma EscapingStartGivesZero(f: Formula, host: Host, isJulia: bool, x: real, y: real, crl: real, cim: real,
                               maxIter: int, radius: real, normalised: bool)
    requires x * x + y * y > radius * radius && !ShortCircuits(f, isJulia, x, y)
    ensures Expected(f, host, isJulia, x, y, crl, cim, maxIter, radius, normalised).count == 0
  {
    EscapeIndexAtStart(StepFn(f, host, Complex(crl, cim)), Complex(x, y), radius * radius, Bound(maxIter));
  }

  /**
   * The quadratic in Mandelbrot mode answers [maxIter, 0, 2] for cardioid
   * and bulb points without iterating; in Julia mode it never does, and
   * iterates like the other calculators.
   */
  lemma CardioidShortCircuit(host: Host, isJulia: bool, x: real, y: real, crl: real, cim: real,
                             maxIter: int, radius: real, normalised: bool)
    ensures !isJulia && InCardioidOrBulb(x, y) ==>
      Expected(Quadratic, host, isJulia, x, y, crl, cim, maxIter, radius, normalised) == EtResult(maxIter, 0.0, 2)
    ensures isJulia ==>
      Expected(Quadratic, host, isJulia, x, y, crl, cim, maxIter, radius, normalised)
        == EscapeResult(StepFn(Quadratic, host, Complex(crl, cim)), Complex(x, y), maxIter, radius * radius, normalised, host.sqrt, 2)
  {
  }

  /**
   * The second component of the loop's result, for any calculator's step,
   * is 0 unless the result is normalised and the point escaped below
   * maxIter; then it is sqrt of the escaping point's squared
   * modulus, so wherever sqrt is a square root its square is rl^2 + im^2 of
   * that point.
   */
  lemma LastValue(step: Complex -> Complex, z0: Complex, maxIter: int, sqr: real,
                  normalised: bool, sqrt: real -> real, power: int)
    requires maxIter >= 1
    ensures var r := EscapeResult(step, z0, maxIter, sqr, normalised, sqrt, power);
      && 0 <= r.count <= maxIter
      && (!normalised || r.count == maxIter ==> r.lastVal == 0.0)
      && (normalised && r.count < maxIter ==>
            var v := SqMod(Orbit(step, z0, r.count));
            && r.lastVal == sqrt(v)
            && (IsSquareRootAt(sqrt, v) ==> r.lastVal * r.lastVal == v))
  {
    EscapeResultMeaning(step, z0, maxIter, sqr, normalised, sqrt, power);
  }

  /** The third component is the calculator's constant: 2, 3, 4, 5 for the powers and their conjugates, 5 for both Collatz maps. */
  lemma PowerIsConstant(f: Formula, host: Host, isJulia: bool, x: real, y: real, crl: real, cim: real,
                        maxIter: int, radius: real, normalised: bool)
    ensures var p := Expected(f, host, isJulia, x, y, crl, cim, maxIter, radius, normalised).power;
      && (f == Quadratic || f == ConjQuadratic ==> p == 2)
      && (f == Cubic || f == ConjCubic ==> p == 3)
      && (f == Quartic || f == ConjQuartic ==> p == 4)
      && (f == Quintic || f == ConjQuintic || f.IsCollatz() ==> p == 5)
  {
  }

  /** The Collatz maps never read the constant (crl, cim): their results do not depend on it. */
  lemma CollatzIgnoresConstant(f: Formula, host: Host, isJulia: bool, x: real, y: real,
                               crl: real, cim: real, crl': real, cim': real,
                               maxIter: int, radius: real, normalised: bool)
    requires f.IsCollatz()
    ensures Expected(f, host, isJulia, x, y, crl, cim, maxIter, radius, normalised)
         == Expected(f, host, isJulia, x, y, crl', cim', maxIter, radius, normalised)
  {
    assert StepFn(f, host, Complex(crl, cim)) == StepFn(f, host, Complex(crl', cim'));
  }

  // ---------------------------------------------------------------------------
  // The hand-expanded steps against complex powers.

  /**
   * Each power step is the expansion of (rl + im i)^d written in its
   * doc-comment, plus (crl, cim).
   */
  lemma PowerStepsAreExpansions(rl: real, im: real, crl: real, cim: real)
    ensures QuadraticStep(rl, im, crl, cim) == Add(Sq(rl, im), Complex(crl, cim))
    ensures CubicStep(rl, im, crl, cim) == Add(Cube(rl, im), Complex(crl, cim))
    ensures QuarticStep(rl, im, crl, cim) == Add(Fourth(rl, im), Complex(crl, cim))
    ensures QuinticStep(rl, im, crl, cim) == Add(Fifth(rl, im), Complex(crl, cim))
  {
  }

  /**
   * Each conjugate step is its power's step with the imaginary part negated
   * first: the expansion of conj(z)^d, plus (crl, cim).
   */
  lemma ConjugateStepsNegateImaginary(rl: real, im: real, crl: real, cim: real)
    ensures ConjQuadraticStep(rl, im, crl, cim) == QuadraticStep(rl, -im, crl, cim)
    ensures ConjCubicStep(rl, im, crl, cim) == CubicStep(rl, -im, crl, cim)
    ensures ConjQuarticStep(rl, im, crl, cim) == QuarticStep(rl, -im, crl, cim)
    ensures ConjQuinticStep(rl, im, crl, cim) == QuinticStep(rl, -im, crl, cim)
  {
  }

  /** The power steps as functions of z: z^d + c. */
  lemma PowerStepsArePowers(host: Host, z: Complex, c: Complex)
    ensures StepFn(Quadratic, host, c)(z) == Add(Pow(z, 2), c)
    ensures StepFn(Cubic, host, c)(z) == Add(Pow(z, 3), c)
    ensures StepFn(Quartic, host, c)(z) == Add(Pow(z, 4), c)
    ensures StepFn(Quintic, host, c)(z) == Add(Pow(z, 5), c)
  {
    Powers(z);
    PowerStepsAreExpansions(z.rl, z.im, c.rl, c.im);
    assert c == Complex(c.rl, c.im);
  }

  /** The conjugate steps as functions of z: conj(z)^d + c. */
  lemma ConjugateStepsArePowersOfConjugate(host: Host, z: Complex, c: Complex)
    ensures StepFn(ConjQuadratic, host, c)(z) == StepFn(Quadratic, host, c)(Conj(z)) == Add(Pow(Conj(z), 2), c)
    ensures StepFn(ConjCubic, host, c)(z) == StepFn(Cubic, host, c)(Conj(z)) == Add(Pow(Conj(z), 3), c)
    ensures StepFn(ConjQuartic, host, c)(z) == StepFn(Quartic, host, c)(Conj(z)) == Add(Pow(Conj(z), 4), c)
    ensures StepFn(ConjQuintic, host, c)(z) == StepFn(Quintic, host, c)(Conj(z)) == Add(Pow(Conj(z), 5), c)
  {
    PowerStepsArePowers(host, Conj(z), c);
    ConjugateStepsNegateImaginary(z.rl, z.im, c.rl, c.im);
  }

  // ---------------------------------------------------------------------------
  // The calculator objects and the equation each one displays.

  /**
   * An escape-time calculator: its name, its equation as HTML, the iterate
   * function it carries (here, the formula Iterate runs) and whether the
   * displayed equation gets the final "+ C" or "+ z_0" term.
   */
  datatype Calculator = Calculator(name: string, equation: string, formula: Formula, autoAddFinalTerm: bool)

  const EquationLhs: string := "z<sub>n+1</sub> = "

  /** The final term: the constant C of a Julia set, or the start point z_0 of the Mandelbrot set. */
  function FinalTerm(isJulia: bool): string {
    " + " + (if isJulia then "C" else "z<sub>0</sub>")
  }

  function GetEquation(et: Calculator, isJulia: bool): (s: string)
    ensures |EquationLhs + et.equation| <= |s|
    ensures s[..|EquationLhs + et.equation|] == EquationLhs + et.equation
    ensures !et.autoAddFinalTerm ==> s == EquationLhs + et.equation
    ensures et.autoAddFinalTerm ==> s[|EquationLhs + et.equation|..] == FinalTerm(isJulia)
  {
    var ret := EquationLhs + et.equation;
    if et.autoAddFinalTerm then ret + FinalTerm(isJulia) else ret
  }

  /** The equation depends on the mode exactly when the final term is added. */
  lemma EquationDependsOnMode(et: Calculator)
    ensures GetEquation(et, true) != GetEquation(et, false) <==> et.autoAddFinalTerm
  {
    if et.autoAddFinalTerm {
      assert |GetEquation(et, true)| != |GetEquation(et, false)|;
    }
  }

  /** The calculator built for formula f in the escapeTimeCalculators array. */
  function CalculatorFor(f: Formula): (et: Calculator)
    ensures et.formula == f
    ensures et.autoAddFinalTerm <==> !f.IsCollatz()
  {
    Calculator(CalculatorName(f), CalculatorEquation(f), f, AutoAddFinalTerm(f))
  }

  /** The autoAddFinalTerm flag each calculator is constructed with. */
  function AutoAddFinalTerm(f: Formula): bool {
    match f
    case Quadratic => true
    case Cubic => true
    case Quartic => true
    case Quintic => true
    case ConjQuadratic => true
    case ConjCubic => true
    case ConjQuartic => true
    case ConjQuintic => true
    case Collatz1 => false
    case Collatz2 => false
  }

  function CalculatorName(f: Formula): string {
    match f
    case Quadratic => "mandelbrot"
    case Cubic => "mandelbrot cubic"
    case Quartic => "mandelbrot quartic"
    case Quintic => "mandelbrot quintic"
    case ConjQuadratic => "mandelbrot conjugate"
    case ConjCubic => "mandelbrot conjugate cubic"
    case ConjQuartic => "mandelbrot conjugate quartic"
    case ConjQuintic => "mandelbrot conjugate quintic"
    case Collatz1 => "Collatz map (variant 1)"
    case Collatz2 => "Collatz map (variant 2)"
  }

  function CalculatorEquation(f: Formula): string {
    match f
    case Quadratic => "z<sub>n</sub><sup>2</sup>"
    case Cubic => "z<sub>n</sub><sup>3</sup>"
    case Quartic => "z<sub>n</sub><sup>4</sup>"
    case Quintic => "z<sub>n</sub><sup>5</sup>"
    case ConjQuadratic => "z&#x0305;<sub>n</sub><sup>2</sup>"
    case ConjCubic => "z&#x0305;<sub>n</sub><sup>3</sup>"
    case ConjQuartic => "z&#x0305;<sub>n</sub><sup>4</sup>"
    case ConjQuintic => "z&#x0305;<sub>n</sub><sup>5</sup>"
    case Collatz1 => "&frac14;(1 + 4z<sub>n</sub> - (1 + 2z<sub>n</sub>) cos(&pi;z<sub>n</sub>))"
    case Collatz2 => "&frac14;(2 + 7z<sub>n</sub> - (2 + 5z<sub>n</sub>) cos(&pi;z<sub>n</sub>))"
  }

  /** The formulas of the escapeTimeCalculators array, in its order. */
  const Formulas: seq<Formula> :=
    [ Quadratic, Cubic, Quartic, Quintic,
      ConjQuadratic, ConjCubic, ConjQuartic, ConjQuintic,
      Collatz1, Collatz2 ]

  /** The ten calculators, in the order of the escapeTimeCalculators array. */
  const Calculators: seq<Calculator> := seq(|Formulas|, i requires 0 <= i < |Formulas| => CalculatorFor(Formulas[i]))

  /** The position of formula f in the escapeTimeCalculators array. */
  function FormulaIndex(f: Formula): (i: nat)
    ensures i < |Formulas| && Formulas[i] == f
  {
    match f
    case Quadratic => 0
    case Cubic => 1
    case Quartic => 2
    case Quintic => 3
    case ConjQuadratic => 4
    case ConjCubic => 5
    case ConjQuartic => 6
    case ConjQuintic => 7
    case Collatz1 => 8
    case Collatz2 => 9
  }

  /** Every position of the list holds the formula whose index it is, so no formula appears twice. */
  lemma FormulasIndexed(i: nat)
    requires i < |Formulas|
    ensures FormulaIndex(Formulas[i]) == i
  {
    if i < 5 {
      assert i == 0 || i == 1 || i == 2 || i == 3 || i == 4;
    } else {
      assert i == 5 || i == 6 || i == 7 || i == 8 || i == 9;
    }
  }

  /** The list holds every formula's calculator, each exactly once. */
  lemma CalculatorsListEachFormulaOnce()
    ensures |Calculators| == 10
    ensures forall f: Formula :: CalculatorFor(f) in Calculators
    ensures forall i, j :: 0 <= i < j < |Calculators| ==> Calculators[i].formula != Calculators[j].formula
  {
    forall f: Formula ensures CalculatorFor(f) in Calculators {
      assert Calculators[FormulaIndex(f)] == CalculatorFor(f);
    }
    forall i, j | 0 <= i < j < |Calculators| ensures Calculators[i].formula != Calculators[j].formula {
      FormulasIndexed(i);
      FormulasIndexed(j);
    }
  }

  /**
   * A calculator's equation shows the final term exactly when its iterate
   * function reads the constant: the Collatz equations are the same in both
   * modes, as their results ignore (crl, cim).
   */
  lemma FinalTermShownExactlyWhenConstantRead(f: Formula)
    ensures CalculatorFor(f).autoAddFinalTerm <==> !f.IsCollatz()
    ensures GetEquation(CalculatorFor(f), true) == GetEquation(CalculatorFor(f), false) <==> f.IsCollatz()
  {
    EquationDependsOnMode(CalculatorFor(f));
  }
}
