/**
 * The colour maps of the newer, split version (colourmaps.js). A ColourMap
 * owns its own palette array, filled in its constructor when its class
 * defines genColourMap; makeColour answers black for points in the set,
 * generates the palette lazily if it is still empty, rescales the count
 * logarithmically (after normalising it with the escaping point's modulus,
 * when asked to) and picks or interpolates palette entries.
 */
module ColourMaps {
  import opened Wrappers
  import opened Palette
  import opened External

  /**
   * Plain is a bare ColourMap: the instances built as the subclasses'
   * prototypes, before genColourMap is attached to them.
   */
  datatype Kind = Plain | Rainbow | RGB

  /** numGradations: entries of the rainbow, entries per transition of the RGB ramp. */
  function Gradations(kind: Kind): nat {
    match kind
    case Plain => 0
    case Rainbow => 10
    case RGB => 5
  }

  /** The name the subclass constructor passes up; the prototype instances get none. */
  function NameOf(kind: Kind): Option<string> {
    match kind
    case Plain => None
    case Rainbow => Some("rainbow")
    case RGB => Some("RGB")
  }

  /** The RGB ramp's channel maximum. */
  const RgbMax: real := 128.0

  /** The palette genColourMap leaves over the array a: hue ramp with s = 0.6, v = 0.8, or the three-segment ramp. */
  function Generated(kind: Kind, hsvToRgb: (real, real, real) -> Rgb, a: Slots): Slots
    requires kind != Plain
  {
    match kind
    case Rainbow => HueFill(a, hsvToRgb, 10, 0.6, 0.8, 10)
    case RGB => RampFill(a, 5, RgbMax, 3 * 5)
  }

  /** The number of entries genColourMap leaves in an empty palette: 10 for the rainbow, 5 * 5 for the RGB ramp. */
  function PaletteSize(kind: Kind): nat {
    match kind
    case Plain => 0
    case Rainbow => 10
    case RGB => 5 * 5
  }

  /**
   * Generating from an empty palette leaves PaletteSize(kind) entries, no
   * hole and alpha 255 throughout; the RGB ramp's entry k < 15 is
   * [128 - 128k/5, 128k/5, 0, 255].
   */
  lemma GeneratedContents(kind: Kind, hsvToRgb: (real, real, real) -> Rgb)
    requires kind != Plain
    ensures var p := Generated(kind, hsvToRgb, []);
      && |p| == PaletteSize(kind) > 0 && NoHoles(p)
      && (forall k :: 0 <= k < |p| ==> p[k].value.a == 255.0)
    ensures kind == RGB ==> var p := Generated(kind, hsvToRgb, []);
      forall k :: 0 <= k < 3 * 5 ==>
        p[k] == Some(Colour(128.0 - 128.0 * (k as real) / 5.0, 128.0 * (k as real) / 5.0, 0.0, 255.0))
  {
    match kind {
      case Rainbow => HueFillContents([], hsvToRgb, 10, 0.6, 0.8);
      case RGB => RampFillContents([], 5, RgbMax);
    }
  }

  /** Generating again over a generated palette changes nothing. */
  lemma GenerateIdempotent(kind: Kind, hsvToRgb: (real, real, real) -> Rgb, a: Slots)
    requires kind != Plain && |a| <= PaletteSize(kind)
    ensures Generated(kind, hsvToRgb, Generated(kind, hsvToRgb, a)) == Generated(kind, hsvToRgb, a)
  {
    match kind {
      case Rainbow =>
        HueFillContents(a, hsvToRgb, 10, 0.6, 0.8);
        HueFillContents(Generated(kind, hsvToRgb, a), hsvToRgb, 10, 0.6, 0.8);
      case RGB =>
        RampFillIdempotent(a, 5, RgbMax);
    }
  }

  // ---------------------------------------------------------------------------
  // The lookup makeColour performs once the palette exists.

  /** Math.max(0, v). */
  function Max0(v: real): real {
    if v < 0.0 then 0.0 else v
  }

  /** The fractional count of normalised mode: n + 1 - ln(ln lastVal) / ln power, clamped at 0. */
  function NormalisedCount(host: Host, n: int, lastVal: real, power: int): (t: real)
    requires host.log(power as real) != 0.0
    ensures var v := n as real + 1.0 - host.log(host.log(lastVal)) / host.log(power as real);
      t >= 0.0 && t >= v && (t == 0.0 || t == v)
  {
    Max0(n as real + 1.0 - host.log(host.log(lastVal)) / host.log(power as real))
  }

  /** The count after the base-1.3 logarithmic rescale, clamped at 0. */
  function Rescaled(host: Host, n: int, lastVal: real, power: int, normalised: bool): (t: real)
    requires normalised ==> host.log(power as real) != 0.0
    ensures var count := if normalised then NormalisedCount(host, n, lastVal, power) else n as real;
      var v := host.logBase(1.3, count);
      t >= 0.0 && t >= v && (t == 0.0 || t == v)
  {
    var count := if normalised then NormalisedCount(host, n, lastVal, power) else n as real;
    Max0(host.logBase(1.3, count))
  }

  /**
   * The colour for count n over a generated palette: black in the set;
   * otherwise the entry at floor(t) modulo the length, or in normalised mode
   * the interpolation from that entry to the next by t - floor(t), where t
   * is the rescaled count.
   */
  function Lookup(palette: Slots, host: Host, n: int, lastVal: real, power: int, maxIter: int, normalised: bool): (colour: Colour)
    requires |palette| > 0 && NoHoles(palette)
    requires normalised ==> host.log(power as real) != 0.0
    ensures n == maxIter ==> colour == Black
    ensures n != maxIter && !normalised ==> Some(colour) in palette
  {
    if n == maxIter then Black
    else
      var t := Rescaled(host, n, lastVal, power, normalised);
      var f := t.Floor;
      if normalised then
        host.interpolateColour(palette[f % |palette|].value, palette[(f + 1) % |palette|].value, t - f as real)
      else
        palette[f % |palette|].value
  }

  /**
   * The rescaled count t is at least 0, so floor(t) is a natural number,
   * floor(t) modulo a positive length indexes the palette, and the
   * interpolation fraction t - floor(t) lies in [0, 1).
   */
  lemma RescaledIndexInRange(host: Host, n: int, lastVal: real, power: int, normalised: bool, len: nat)
    requires normalised ==> host.log(power as real) != 0.0
    requires len > 0
    ensures var t := Rescaled(host, n, lastVal, power, normalised);
      && t >= 0.0 && t.Floor >= 0
      && 0 <= t.Floor % len < len
      && 0.0 <= t - t.Floor as real < 1.0
  {
  }

  /**
   * Without normalisation the colour outside the set is the palette entry at
   * the rescaled index itself, and lastVal and power play no part.
   */
  lemma LookupPlainPicksEntry(palette: Slots, host: Host, n: int, lastVal: real, power: int, maxIter: int)
    requires |palette| > 0 && NoHoles(palette)
    requires n != maxIter
    ensures Some(Lookup(palette, host, n, lastVal, power, maxIter, false)) in palette
    ensures forall lastVal', power' :: Lookup(palette, host, n, lastVal', power', maxIter, false)
                                     == Lookup(palette, host, n, lastVal, power, maxIter, false)
  {
    var i := Rescaled(host, n, lastVal, power, false).Floor % |palette|;
    assert Some(Lookup(palette, host, n, lastVal, power, maxIter, false)) == palette[i];
  }

  /**
   * With normalisation the colour outside the set interpolates from the
   * entry at the rescaled index to the one after it, cyclically, by the
   * fraction of the rescaled count.
   */
  lemma LookupNormalisedInterpolates(palette: Slots, host: Host, n: int, lastVal: real, power: int, maxIter: int)
    requires |palette| > 0 && NoHoles(palette)
    requires host.log(power as real) != 0.0
    requires n != maxIter
    ensures var t := Rescaled(host, n, lastVal, power, true);
      var i := t.Floor % |palette|;
      Lookup(palette, host, n, lastVal, power, maxIter, true)
        == host.interpolateColour(palette[i].value, palette[(i + 1) % |palette|].value, t - t.Floor as real)
  {
    ModSucc(Rescaled(host, n, lastVal, power, true).Floor, |palette|);
  }

  /** In the set the colour is black, whatever the palette. */
  lemma LookupInSetIsBlack(palette: Slots, host: Host, n: int, lastVal: real, power: int, normalised: bool)
    requires |palette| > 0 && NoHoles(palette)
    requires normalised ==> host.log(power as real) != 0.0
    ensures Lookup(palette, host, n, lastVal, power, n, normalised) == Colour(0.0, 0.0, 0.0, 255.0)
  {
  }

  // ---------------------------------------------------------------------------
  // The objects.

  class ColourMap {
    const kind: Kind
    const name: Option<string>
    const numGradations: nat
    /** The page's global helper functions, as this map calls them. */
    const host: Host
    var colourMap: Slots

    /** The palette is empty or fully generated; a bare map's is always empty. */
    predicate Valid()
      reads this
    {
      && numGradations == Gradations(kind)
      && (kind == Plain ==> colourMap == [])
      && (kind != Plain && colourMap != [] ==> colourMap == Generated(kind, host.hsvToRgb, []))
    }

    /**
     * The ColourMap constructor: a fresh empty palette for this instance,
     * filled at once when the class defines genColourMap.
     */
    constructor (kind: Kind, host: Host)
      ensures this.kind == kind && name == NameOf(kind) && this.host == host
      ensures Valid()
      ensures colourMap == if kind == Plain then [] else Generated(kind, host.hsvToRgb, [])
    {
      this.kind := kind;
      name := NameOf(kind);
      numGradations := Gradations(kind);
      this.host := host;
      colourMap := [];
      new;
      if kind != Plain {
        GenColourMap();
      }
    }

    /** Fill the palette in place with the map's ramp. */
    method GenColourMap()
      requires kind != Plain && numGradations == Gradations(kind)
      modifies this
      ensures colourMap == Generated(kind, host.hsvToRgb, old(colourMap))
    {
      match kind {
        case Rainbow => GenRainbow();
        case RGB => GenRGB();
      }
    }

    /** RainbowColourMap.genColourMap: entry i is hsvToRgb(h + i/N, s, v) with alpha 255. */
    method GenRainbow()
      requires numGradations == 10
      modifies this
      ensures colourMap == HueFill(old(colourMap), host.hsvToRgb, 10, 0.6, 0.8, 10)
    {
      var h, s, v := 0.0, 0.6, 0.8;
      var i := 0;
      while i < numGradations
        invariant 0 <= i <= numGradations
        invariant colourMap == HueFill(old(colourMap), host.hsvToRgb, 10, 0.6, 0.8, i)
      {
        var rgb := host.hsvToRgb(h + (i as real / numGradations as real), s, v);
        HueFillStep(old(colourMap), host.hsvToRgb, 10, 0.6, 0.8, i);
        colourMap := Store(colourMap, i, Colour(rgb.r, rgb.g, rgb.b, 255.0));
        i := i + 1;
      }
    }

    /** RGBColourMap.genColourMap: three writes per round, at i, i + N and i + 2N. */
    method GenRGB()
      requires numGradations == 5
      modifies this
      ensures colourMap == RampFill(old(colourMap), 5, RgbMax, 3 * 5)
    {
      var i := 0;
      while i < numGradations * 3
        invariant 0 <= i <= numGradations * 3
        invariant colourMap == RampFill(old(colourMap), numGradations, RgbMax, i)
      {
        RampRound(old(colourMap), i);
        i := i + 1;
      }
    }

    /** One round of the RGB ramp loop: with n = max * i / N, the writes at i, i + N and i + 2N. */
    method RampRound(ghost a: Slots, i: nat)
      requires numGradations == 5
      requires colourMap == RampFill(a, numGradations, RgbMax, i)
      modifies this
      ensures colourMap == RampFill(a, numGradations, RgbMax, i + 1)
    {
      var max := RgbMax;
      var n := Amount(max, i, numGradations);
      RampFillStep(a, numGradations, max, i);
      colourMap := Store(colourMap, i, Colour(max - n, n, 0.0, 255.0));
      colourMap := Store(colourMap, i + numGradations, Colour(0.0, max - n, n, 255.0));
      colourMap := Store(colourMap, i + numGradations + numGradations, Colour(n, 0.0, max - n, 255.0));
    }

    /**
     * makeColour: black for n === maxIter, before the palette is looked at;
     * otherwise generate the palette if it is empty and look the colour up.
     * A bare map has no genColourMap to call, so it can only answer black.
     */
    method MakeColour(n: int, lastVal: real, power: int, maxIter: int, normalised: bool) returns (colour: Colour)
      requires Valid()
      requires kind == Plain ==> n == maxIter
      requires normalised ==> host.log(power as real) != 0.0
      modifies this
      ensures Valid()
      ensures n == maxIter ==> colour == Black && colourMap == old(colourMap)
      ensures n != maxIter ==>
        && colourMap == Generated(kind, host.hsvToRgb, [])
        && |colourMap| > 0 && NoHoles(colourMap)
        && colour == Lookup(colourMap, host, n, lastVal, power, maxIter, normalised)
    {
      if n == maxIter {
        return Black;
      }
      if |colourMap| == 0 {
        GenColourMap();
      }
      GeneratedContents(kind, host.hsvToRgb);
      var len := |colourMap|;
      var t := n as real;
      if normalised {
        t := Max0(t + 1.0 - host.log(host.log(lastVal)) / host.log(power as real));
      }
      t := Max0(host.logBase(1.3, t));
      if normalised {
        return host.interpolateColour(
          colourMap[t.Floor % len].value,
          colourMap[(t.Floor + 1) % len].value,
          t - t.Floor as real);
      }
      return colourMap[t.Floor % len].value;
    }
  }

  /**
   * The colourMaps array: a rainbow map and an RGB map, each with its own,
   * already generated palette.
   */
  method NewColourMaps(host: Host) returns (maps: seq<ColourMap>)
    ensures |maps| == 2 && maps[0] != maps[1]
    ensures fresh(maps[0]) && fresh(maps[1])
    ensures maps[0].kind == Rainbow && maps[0].name == Some("rainbow")
    ensures maps[1].kind == RGB && maps[1].name == Some("RGB")
    ensures forall m :: m in maps ==> m.Valid() && m.host == host && m.colourMap == Generated(m.kind, host.hsvToRgb, [])
  {
    var rainbow := new ColourMap(Rainbow, host);
    var rgb := new ColourMap(RGB, host);
    maps := [rainbow, rgb];
  }
}
