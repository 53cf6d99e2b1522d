/**
 * Colour tables as the two generations of colour-map code build them.
 *
 * A palette is a JavaScript array filled by index assignment: writing past
 * the end lengthens it and leaves holes in between, so a palette is a
 * sequence of optional colours. The two generation strategies (a hue ramp
 * and a three-segment linear ramp) are described here by what the array
 * holds after the first i iterations of their loops; the loops themselves
 * are methods of the colour-map classes.
 */
module Palette {
  import opened Wrappers

  /** An [r, g, b, a] array. Channels are reals: the ramps compute fractional values. */
  datatype Colour = Colour(r: real, g: real, b: real, a: real)

  /** The [r, g, b] array returned by hsvToRgb. */
  datatype Rgb = Rgb(r: real, g: real, b: real)

  /** The colour of points assumed to be in the set. */
  const Black: Colour := Colour(0.0, 0.0, 0.0, 255.0)

  /** A JavaScript array of colours; None marks a hole. */
  type Slots = seq<Option<Colour>>

  function Max(a: nat, b: nat): nat {
    if a < b then b else a
  }

  /** `a[k] = v` on a JavaScript array. */
  function Store(a: Slots, k: nat, v: Colour): (r: Slots)
    ensures |r| == Max(|a|, k + 1)
    ensures r[k] == Some(v)
    ensures forall j :: 0 <= j < |a| && j != k ==> r[j] == a[j]
    ensures forall j :: |a| <= j < |r| && j != k ==> r[j] == None
  {
    if k < |a| then a[k := Some(v)] else a + seq(k - |a|, _ => None) + [Some(v)]
  }

  /** Every slot holds a colour: the array has no holes. */
  predicate NoHoles(a: Slots) {
    forall k :: 0 <= k < |a| ==> a[k].Some?
  }

  // ---------------------------------------------------------------------------
  // Hue ramp: entry i is hsvToRgb(h + i/N, s, v) with alpha 255.

  function HueEntry(hsvToRgb: (real, real, real) -> Rgb, n: nat, s: real, v: real, i: nat): Colour
    requires n > 0
  {
    var rgb := hsvToRgb(0.0 + (i as real / n as real), s, v);
    Colour(rgb.r, rgb.g, rgb.b, 255.0)
  }

  /** The array after writing entries 0 .. i-1 of the hue ramp over a. */
  function HueFill(a: Slots, hsvToRgb: (real, real, real) -> Rgb, n: nat, s: real, v: real, i: nat): Slots
    requires n > 0
  {
    seq(Max(|a|, i), k requires 0 <= k < Max(|a|, i) => if k < i then Some(HueEntry(hsvToRgb, n, s, v, k)) else if k < |a| then a[k] else None)
  }

  /** One more loop iteration of the hue ramp. */
  lemma HueFillStep(a: Slots, hsvToRgb: (real, real, real) -> Rgb, n: nat, s: real, v: real, i: nat)
    requires n > 0
    ensures Store(HueFill(a, hsvToRgb, n, s, v, i), i, HueEntry(hsvToRgb, n, s, v, i))
         == HueFill(a, hsvToRgb, n, s, v, i + 1)
  {
    var before := HueFill(a, hsvToRgb, n, s, v, i);
    var after := Store(before, i, HueEntry(hsvToRgb, n, s, v, i));
    var want := HueFill(a, hsvToRgb, n, s, v, i + 1);
    assert |after| == |want|;
    forall k | 0 <= k < |want| ensures after[k] == want[k] {
    }
  }

  /**
   * From an empty array the hue ramp leaves exactly n entries, all colours
   * with alpha 255; over any array it rewrites the first n slots the same way,
   * so running it twice changes nothing.
   */
  lemma HueFillContents(a: Slots, hsvToRgb: (real, real, real) -> Rgb, n: nat, s: real, v: real)
    requires n > 0
    ensures var p := HueFill([], hsvToRgb, n, s, v, n);
      && |p| == n && NoHoles(p)
      && forall k :: 0 <= k < n ==> p[k].value.a == 255.0
    ensures |a| <= n ==> HueFill(a, hsvToRgb, n, s, v, n) == HueFill([], hsvToRgb, n, s, v, n)
  {
  }

  // ---------------------------------------------------------------------------
  // Three-segment linear ramp: iteration i writes three entries, at i, i+N and
  // i+2N, each with the amount n = max*i/N into its transition.

  /** How far into its transition entry i of a segment is: max * i / N. */
  function Amount(max: real, i: nat, n: nat): real
    requires n > 0
  {
    max * (i as real) / (n as real)
  }

  /**
   * Segment 0 fades red into green, segment 1 green into blue, segment 2
   * blue into red; the constant channel is 0 and alpha is 255.
   */
  function Segment(seg: nat, max: real, t: real): Colour {
    if seg == 0 then Colour(max - t, t, 0.0, 255.0)
    else if seg == 1 then Colour(0.0, max - t, t, 255.0)
    else Colour(t, 0.0, max - t, 255.0)
  }

  /** The length of the array after the first i iterations of the ramp loop over a. */
  function RampLength(a: Slots, n: nat, i: nat): nat {
    if i == 0 then |a| else Max(|a|, i + 2 * n)
  }

  /**
   * Slot k after the first i iterations of the ramp loop over a: the write
   * of the latest iteration that touched k wins, so segment 0 (written at
   * iteration k) beats segment 1 (iteration k-N), which beats segment 2
   * (iteration k-2N).
   */
  function RampAt(a: Slots, n: nat, max: real, i: nat, k: nat): Option<Colour>
    requires n > 0
  {
    if k < i then Some(Segment(0, max, Amount(max, k, n)))
    else if n <= k < n + i then Some(Segment(1, max, Amount(max, k - n, n)))
    else if 2 * n <= k < 2 * n + i then Some(Segment(2, max, Amount(max, k - 2 * n, n)))
    else if k < |a| then a[k]
    else None
  }

  function RampFill(a: Slots, n: nat, max: real, i: nat): Slots
    requires n > 0
  {
    seq(RampLength(a, n, i), k requires 0 <= k < RampLength(a, n, i) => RampAt(a, n, max, i, k))
  }

  /**
   * One more loop iteration of the ramp: with t = Amount(max, i, n), the writes
   * of iteration i at i, i + n and i + 2n.
   */
  lemma RampFillStep(a: Slots, n: nat, max: real, i: nat)
    requires n > 0
    ensures
      var t := Amount(max, i, n);
      var p0 := Store(RampFill(a, n, max, i), i, Colour(max - t, t, 0.0, 255.0));
      var p1 := Store(p0, i + n, Colour(0.0, max - t, t, 255.0));
      Store(p1, i + n + n, Colour(t, 0.0, max - t, 255.0)) == RampFill(a, n, max, i + 1)
  {
    var t := Amount(max, i, n);
    var before := RampFill(a, n, max, i);
    var p0 := Store(before, i, Segment(0, max, t));
    var p1 := Store(p0, i + n, Segment(1, max, t));
    var p2 := Store(p1, i + 2 * n, Segment(2, max, t));
    var want := RampFill(a, n, max, i + 1);
    assert |p2| == |want|;
    forall k | 0 <= k < |want| ensures p2[k] == want[k] {
      if k == i + 2 * n {
      } else if k == i + n {
      } else if k == i {
      } else if k < |before| {
        assert p2[k] == before[k];
      } else {
        assert p2[k] == None;
      }
    }
  }

  /** The final entry of the ramp as written: slot k of the array after all 3N iterations. */
  function RampEntry(n: nat, max: real, k: nat): Colour
    requires n > 0
  {
    if k < 3 * n then Segment(0, max, Amount(max, k, n))
    else if k < 4 * n then Segment(1, max, Amount(max, k - n, n))
    else Segment(2, max, Amount(max, k - 2 * n, n))
  }

  /**
   * The ramp loop as written (bound 3N, writes at i, i+N, i+2N) over an array
   * of at most 5N slots leaves exactly 5N entries, none a hole, all with alpha
   * 255, whatever the array held before; entry k < 3N is
   * [max - max*k/N, max*k/N, 0, 255].
   */
  lemma RampFillContents(a: Slots, n: nat, max: real)
    requires n > 0 && |a| <= 5 * n
    ensures var p := RampFill(a, n, max, 3 * n);
      && |p| == 5 * n && NoHoles(p)
      && (forall k :: 0 <= k < 5 * n ==> p[k] == Some(RampEntry(n, max, k)) && p[k].value.a == 255.0)
      && (forall k :: 0 <= k < 3 * n ==>
            p[k].value == Colour(max - max * (k as real) / (n as real), max * (k as real) / (n as real), 0.0, 255.0))
  {
  }

  /** Running the ramp loop a second time over its own result changes neither length nor contents. */
  lemma RampFillIdempotent(a: Slots, n: nat, max: real)
    requires n > 0 && |a| <= 5 * n
    ensures RampFill(RampFill(a, n, max, 3 * n), n, max, 3 * n) == RampFill(a, n, max, 3 * n)
  {
    RampFillContents(a, n, max);
    RampFillContents(RampFill(a, n, max, 3 * n), n, max);
  }

  // ---------------------------------------------------------------------------
  // The ramp its comments describe, against the ramp the loop writes.

  /** Every channel of c lies in [0, max], except alpha, which is 255. */
  predicate InRange(c: Colour, max: real) {
    0.0 <= c.r <= max && 0.0 <= c.g <= max && 0.0 <= c.b <= max && c.a == 255.0
  }

  lemma AmountBounds(max: real, i: nat, n: nat)
    requires n > 0 && i < n && max >= 0.0
    ensures 0.0 <= Amount(max, i, n) <= max
  {
    var q := (i as real) / (n as real);
    assert q * (n as real) == i as real;
    assert (1.0 - q) * (n as real) == (n - i) as real;
    FactorSign(q, n as real);
    FactorSign(1.0 - q, n as real);
    assert Amount(max, i, n) == max * q;
    assert max - max * q == max * (1.0 - q);
    ProductSign(max, q);
    ProductSign(max, 1.0 - q);
  }

  /** A product with a positive factor has the other factor's sign. */
  lemma FactorSign(a: real, b: real)
    requires b > 0.0 && a * b >= 0.0
    ensures a >= 0.0
  {
  }

  lemma ProductSign(a: real, b: real)
    requires a >= 0.0 && b >= 0.0
    ensures a * b >= 0.0
  {
  }

  /**
   * The loop as written puts segment 0's formula into slot 2N: red is -max
   * and green 2*max, outside [0, max]; and the array has 5N slots, not 3N.
   */
  lemma RampAsWrittenOutOfRange(n: nat, max: real)
    requires n > 0 && max > 0.0
    ensures var p := RampFill([], n, max, 3 * n);
      && |p| == 5 * n
      && p[2 * n] == Some(Colour(-max, 2.0 * max, 0.0, 255.0))
      && !InRange(p[2 * n].value, max)
  {
    var p := RampFill([], n, max, 3 * n);
    assert p[2 * n] == Some(Segment(0, max, Amount(max, 2 * n, n)));
    assert Amount(max, 2 * n, n) == 2.0 * max;
  }

  /**
   * The ramp of three transitions of N entries each, red to green, green to
   * blue, blue back to red: what the same loop body leaves when the loop
   * runs N times rather than 3N. Every channel stays within [0, max].
   */
  function IntendedRamp(n: nat, max: real): (p: Slots)
    requires n > 0
    ensures |p| == 3 * n && NoHoles(p)
    ensures forall k :: 0 <= k < 3 * n ==> p[k].value.a == 255.0
    ensures forall k :: 0 <= k < n ==> p[k] == Some(Segment(0, max, Amount(max, k, n)))
    ensures forall k :: n <= k < 2 * n ==> p[k] == Some(Segment(1, max, Amount(max, k - n, n)))
    ensures forall k :: 2 * n <= k < 3 * n ==> p[k] == Some(Segment(2, max, Amount(max, k - 2 * n, n)))
    ensures max >= 0.0 ==> forall k :: 0 <= k < 3 * n ==> InRange(p[k].value, max)
  {
    var p := RampFill([], n, max, n);
    assert |p| == 3 * n;
    forall k | 0 <= k < 3 * n && max >= 0.0 ensures InRange(p[k].value, max) {
      if k < n {
        AmountBounds(max, k, n);
      } else if k < 2 * n {
        AmountBounds(max, k - n, n);
      } else {
        AmountBounds(max, k - 2 * n, n);
      }
    }
    p
  }
  // ---------------------------------------------------------------------------
  // Indexes taken modulo a palette's length.

  /** Stepping one past a natural index taken modulo len is the successor taken modulo len. */
  lemma {:induction false} ModSucc(f: nat, len: nat)
    requires len > 0
    ensures (f + 1) % len == (f % len + 1) % len
    decreases f
  {
    if f >= len {
      ModShift(f - len, len);
      ModShift(f + 1 - len, len);
      ModSucc(f - len, len);
    } else {
      assert f % len == f;
    }
  }

  /** Adding the modulus does not change the remainder. */
  lemma ModShift(x: nat, len: nat)
    requires len > 0
    ensures (x + len) % len == x % len
  {
    var q, r := x / len, x % len;
    assert len * (q + 1) == len * q + len;
    ModUnique(x + len, len, q + 1, r);
  }

  /** A remainder is determined by any quotient-remainder decomposition. */
  lemma ModUnique(a: int, len: int, q: int, r: int)
    requires len > 0 && a == len * q + r && 0 <= r < len
    ensures a % len == r
  {
    var q0, r0 := a / len, a % len;
    assert len * q - len * q0 == len * (q - q0);
    if q > q0 {
      MulAtLeast(len, q - q0);
    } else if q < q0 {
      MulAtLeast(len, q0 - q);
    }
  }

  lemma MulAtLeast(len: int, d: int)
    requires len > 0 && d >= 1
    ensures len * d >= len
  {
    assert len * d == len * (d - 1) + len;
  }
}
