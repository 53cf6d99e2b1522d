/**
 * The escape-time calculators of the older, single-file version
 * (mandelbrot.js). Each iterates z_{k+1} = z_k^d + (x, y) from z_0 = (x, y)
 * for d = 2, 3 or 4 and returns the number of points it examined before one
 * left the circle of radius 2, giving up at maxIter. Their step expressions
 * are those of the newer calculators, with the start point as the constant.
 */
module MandelbrotEscapeTime {
  import opened Wrappers
  import opened Complex
  import opened External
  import EtCalc

  /** The three entries of the escapeTimeCalculators object. */
  datatype Calc = Quadratic | Cubic | Quartic

  /** The key each calculator is stored under. */
  function Key(et: Calc): string {
    match et
    case Quadratic => "mandelbrot"
    case Cubic => "mandelbrot cubic"
    case Quartic => "mandelbrot quartic"
  }

  /** escapeTimeCalculators[key], when key is one of the object's own keys. */
  function CalcNamed(key: string): (r: Option<Calc>) {
    if key == "mandelbrot" then Some(Quadratic)
    else if key == "mandelbrot cubic" then Some(Cubic)
    else if key == "mandelbrot quartic" then Some(Quartic)
    else None
  }

  /** A key names exactly one calculator, and every calculator is found under its own key. */
  lemma CalcNamedKey(key: string, et: Calc)
    ensures CalcNamed(Key(et)) == Some(et)
    ensures CalcNamed(key) == Some(et) <==> key == Key(et)
  {
  }

  /** The loop body of calculator et, adding the start point (x, y). */
  function Step(et: Calc, x: real, y: real): Complex -> Complex {
    match et
    case Quadratic => (z: Complex) => EtCalc.QuadraticStep(z.rl, z.im, x, y)
    case Cubic => (z: Complex) => EtCalc.CubicStep(z.rl, z.im, x, y)
    case Quartic => (z: Complex) => EtCalc.QuarticStep(z.rl, z.im, x, y)
  }

  function Degree(et: Calc): nat {
    match et
    case Quadratic => 2
    case Cubic => 3
    case Quartic => 4
  }

  /** The loop compares rl^2 + im^2 with sqr = 2 * 2. */
  const Sqr: real := 4.0

  /**
   * What escapeTime returns: the least i < maxIter at which the orbit has
   * left the circle of radius 2, or maxIter if it never does; 0 when
   * maxIter <= 0, as the loop does not run.
   */
  function EscapeTimeOf(et: Calc, x: real, y: real, maxIter: int): nat {
    if maxIter <= 0 then 0 else EscapeIndex(Step(et, x, y), Complex(x, y), Sqr, maxIter)
  }

  /**
   * The `for` loop the three escapeTime functions share: from z0, test the
   * current point against the circle and stop if it has left, otherwise
   * step, for at most maxIter rounds.
   */
  method CountSteps(step: Complex -> Complex, z0: Complex, maxIter: int) returns (i: int)
    ensures maxIter <= 0 ==> i == 0
    ensures maxIter > 0 ==> i == EscapeIndex(step, z0, Sqr, maxIter)
  {
    var rl, im := z0.rl, z0.im;
    i := 0;
    while i < maxIter
      invariant 0 <= i && (i == 0 || i <= maxIter)
      invariant Complex(rl, im) == Orbit(step, z0, i)
      invariant forall j :: 0 <= j < i ==> !Escaped(Orbit(step, z0, j), Sqr)
      decreases maxIter - i
    {
      var sqrl, sqim := rl * rl, im * im;
      if sqrl + sqim > Sqr {
        break;
      }
      var next := step(Complex(rl, im));
      rl, im := next.rl, next.im;
      i := i + 1;
    }
    if maxIter > 0 {
      EscapeIndexUnique(step, z0, Sqr, maxIter, i);
    }
  }

  /** The escapeTime function of calculator et. */
  method EscapeTime(et: Calc, x: real, y: real, maxIter: int) returns (i: int)
    ensures i == EscapeTimeOf(et, x, y, maxIter)
  {
    i := CountSteps(Step(et, x, y), Complex(x, y), maxIter);
  }

  /** With maxIter >= 0 the result lies in [0, maxIter]; with maxIter <= 0 it is 0. */
  lemma EscapeTimeInRange(et: Calc, x: real, y: real, maxIter: int)
    ensures maxIter >= 0 ==> 0 <= EscapeTimeOf(et, x, y, maxIter) <= maxIter
    ensures maxIter <= 0 ==> EscapeTimeOf(et, x, y, maxIter) == 0
  {
  }

  /**
   * A result below maxIter is an index whose orbit point has left the
   * circle, and no earlier point has; the result is maxIter exactly when no
   * point below maxIter has left it.
   */
  lemma EscapeTimeIsLeastEscape(et: Calc, x: real, y: real, maxIter: int)
    requires maxIter >= 1
    ensures var n := EscapeTimeOf(et, x, y, maxIter);
      && (n < maxIter ==> Escaped(Orbit(Step(et, x, y), Complex(x, y), n), Sqr))
      && (forall j :: 0 <= j < n ==> !Escaped(Orbit(Step(et, x, y), Complex(x, y), j), Sqr))
      && (n == maxIter ==> forall j :: 0 <= j < maxIter ==> !Escaped(Orbit(Step(et, x, y), Complex(x, y), j), Sqr))
      && ((forall j :: 0 <= j < maxIter ==> !Escaped(Orbit(Step(et, x, y), Complex(x, y), j), Sqr)) ==> n == maxIter)
  {
    var n := EscapeTimeOf(et, x, y, maxIter);
    if n < maxIter {
      assert Escaped(Orbit(Step(et, x, y), Complex(x, y), n), Sqr);
    }
  }

  /** A start point outside the circle of radius 2 gives 0 whenever the loop runs. */
  lemma EscapingStartGivesZero(et: Calc, x: real, y: real, maxIter: int)
    requires x * x + y * y > 4.0
    ensures EscapeTimeOf(et, x, y, maxIter) == 0
  {
    if maxIter > 0 {
      EscapeIndexAtStart(Step(et, x, y), Complex(x, y), Sqr, maxIter);
    }
  }

  /** Each loop body is z^d + (x, y). */
  lemma StepIsPower(et: Calc, x: real, y: real, z: Complex)
    ensures Step(et, x, y)(z) == Add(Pow(z, Degree(et)), Complex(x, y))
  {
    EtCalc.PowerStepsAreExpansions(z.rl, z.im, x, y);
    Powers(z);
  }

  /**
   * The older calculators count as the newer ones do in Julia mode with the
   * start point as the constant and radius 2, unnormalised, whenever
   * maxIter >= 1; in Mandelbrot mode too, away from the cardioid and bulb.
   */
  lemma AgreesWithEtCalc(et: Calc, host: Host, isJulia: bool, x: real, y: real, maxIter: int)
    requires maxIter >= 1
    ensures var f := match et case Quadratic => EtCalc.Quadratic case Cubic => EtCalc.Cubic case Quartic => EtCalc.Quartic;
      !EtCalc.ShortCircuits(f, isJulia, x, y) ==>
        EtCalc.Expected(f, host, isJulia, x, y, x, y, maxIter, 2.0, false).count == EscapeTimeOf(et, x, y, maxIter)
  {
    var f := match et case Quadratic => EtCalc.Quadratic case Cubic => EtCalc.Cubic case Quartic => EtCalc.Quartic;
    assert EtCalc.StepFn(f, host, Complex(x, y)) == Step(et, x, y);
  }
}
