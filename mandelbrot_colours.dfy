/**
 * The colourMaps object of the older, single-file version (mandelbrot.js):
 * a rainbow hue ramp of 70 entries and a 'smooth' red-green-blue ramp of 40
 * gradations per transition. Each map owns a palette array that its
 * genColourMap loop fills in place, and makeColour picks black for points in
 * the set and otherwise the entry at the escape time modulo the palette's
 * length.
 */
module MandelbrotColourMaps {
  import opened Wrappers
  import opened Palette

  datatype Kind = Rainbow | Smooth

  /** numGradations: entries of the rainbow, or entries per transition of the smooth ramp. */
  function Gradations(kind: Kind): nat {
    match kind
    case Rainbow => 70
    case Smooth => 40
  }

  /** The smooth ramp's channel maximum. */
  const SmoothMax: real := 255.0

  /** The palette genColourMap leaves over the array a: hue ramp with s = v = 1, or the three-segment ramp. */
  function Generated(kind: Kind, hsvToRgb: (real, real, real) -> Rgb, a: Slots): Slots {
    match kind
    case Rainbow => HueFill(a, hsvToRgb, 70, 1.0, 1.0, 70)
    case Smooth => RampFill(a, 40, SmoothMax, 3 * 40)
  }

  class ColourMap {
    const kind: Kind
    const numGradations: nat
    var colourMap: Slots

    /** A map as the object literal declares it: its gradation count and an empty palette. */
    constructor (kind: Kind)
      ensures this.kind == kind && numGradations == Gradations(kind) && colourMap == []
    {
      this.kind := kind;
      numGradations := Gradations(kind);
      colourMap := [];
    }

    /** Fill the palette in place with the map's ramp. */
    method GenColourMap(hsvToRgb: (real, real, real) -> Rgb)
      requires numGradations == Gradations(kind)
      modifies this
      ensures colourMap == Generated(kind, hsvToRgb, old(colourMap))
    {
      match kind {
        case Rainbow => GenRainbow(hsvToRgb);
        case Smooth => GenSmooth();
      }
    }

    /** The rainbow's genColourMap: entry i is hsvToRgb(h + i/N, s, v) with alpha 255. */
    method GenRainbow(hsvToRgb: (real, real, real) -> Rgb)
      requires numGradations == 70
      modifies this
      ensures colourMap == HueFill(old(colourMap), hsvToRgb, 70, 1.0, 1.0, 70)
    {
      var h, s, v := 0.0, 1.0, 1.0;
      var i := 0;
      while i < numGradations
        invariant 0 <= i <= numGradations
        invariant colourMap == HueFill(old(colourMap), hsvToRgb, 70, 1.0, 1.0, i)
      {
        var rgb := hsvToRgb(h + (i as real / numGradations as real), s, v);
        HueFillStep(old(colourMap), hsvToRgb, 70, 1.0, 1.0, i);
        colourMap := Store(colourMap, i, Colour(rgb.r, rgb.g, rgb.b, 255.0));
        i := i + 1;
      }
    }

    /** The smooth ramp's genColourMap: three writes per round, at i, i + N and i + 2N. */
    method GenSmooth()
      requires numGradations == 40
      modifies this
      ensures colourMap == RampFill(old(colourMap), 40, SmoothMax, 3 * 40)
    {
      var i := 0;
      while i < numGradations * 3
        invariant 0 <= i <= numGradations * 3
        invariant colourMap == RampFill(old(colourMap), numGradations, SmoothMax, i)
      {
        RampRound(old(colourMap), i);
        i := i + 1;
      }
    }

    /** One round of the smooth ramp loop: with n = max * i / N, the writes at i, i + N and i + 2N. */
    method RampRound(ghost a: Slots, i: nat)
      requires numGradations == 40
      requires colourMap == RampFill(a, numGradations, SmoothMax, i)
      modifies this
      ensures colourMap == RampFill(a, numGradations, SmoothMax, i + 1)
    {
      var max := SmoothMax;
      var n := Amount(max, i, numGradations);
      RampFillStep(a, numGradations, max, i);
      colourMap := Store(colourMap, i, Colour(max - n, n, 0.0, 255.0));
      colourMap := Store(colourMap, i + numGradations, Colour(0.0, max - n, n, 255.0));
      colourMap := Store(colourMap, i + numGradations + numGradations, Colour(n, 0.0, max - n, 255.0));
    }

    /**
     * The colour for escape time n: black when n is maxIter, otherwise the
     * palette entry at n modulo the palette's length, which is undefined
     * (None) for an empty palette or a hole.
     */
    function MakeColour(n: nat, maxIter: int): (r: Option<Colour>)
      reads this
      ensures n == maxIter ==> r == Some(Black)
      ensures n != maxIter && |colourMap| > 0 ==> r == colourMap[n % |colourMap|]
      ensures n != maxIter && |colourMap| == 0 ==> r == None
    {
      if n == maxIter then Some(Black)
      else if |colourMap| == 0 then None
      else colourMap[n % |colourMap|]
    }
  }

  /** The number of entries genColourMap leaves in an empty palette: 70 for the rainbow, 5 * 40 for the smooth ramp. */
  function PaletteSize(kind: Kind): nat {
    match kind
    case Rainbow => 70
    case Smooth => 5 * 40
  }

  /**
   * Generating from an empty palette leaves PaletteSize(kind) entries, no
   * hole and alpha 255 throughout; the smooth ramp's entry k < 120 is
   * [255 - 255k/40, 255k/40, 0, 255].
   */
  lemma GeneratedContents(kind: Kind, hsvToRgb: (real, real, real) -> Rgb)
    ensures var p := Generated(kind, hsvToRgb, []);
      && |p| == PaletteSize(kind) > 0 && NoHoles(p)
      && (forall k :: 0 <= k < |p| ==> p[k].value.a == 255.0)
    ensures kind == Smooth ==> var p := Generated(kind, hsvToRgb, []);
      forall k :: 0 <= k < 3 * 40 ==>
        p[k] == Some(Colour(255.0 - 255.0 * (k as real) / 40.0, 255.0 * (k as real) / 40.0, 0.0, 255.0))
  {
    match kind {
      case Rainbow => HueFillContents([], hsvToRgb, 70, 1.0, 1.0);
      case Smooth => RampFillContents([], 40, SmoothMax);
    }
  }

  /** Generating again over a generated palette changes nothing. */
  lemma GenerateIdempotent(kind: Kind, hsvToRgb: (real, real, real) -> Rgb, a: Slots)
    requires |a| <= PaletteSize(kind)
    ensures Generated(kind, hsvToRgb, Generated(kind, hsvToRgb, a)) == Generated(kind, hsvToRgb, a)
  {
    match kind {
      case Rainbow =>
        HueFillContents(a, hsvToRgb, 70, 1.0, 1.0);
        HueFillContents(Generated(kind, hsvToRgb, a), hsvToRgb, 70, 1.0, 1.0);
      case Smooth =>
        RampFillIdempotent(a, 40, SmoothMax);
    }
  }

  /**
   * Over any palette that is neither empty nor holed and whose entries are
   * opaque (a generated one, or the three-transition ramp of
   * Palette.IntendedRamp), every escape time other than maxIter gets an
   * opaque colour that is one of the palette's entries.
   */
  lemma MakeColourOnPalette(m: ColourMap, n: nat, maxIter: int)
    requires |m.colourMap| > 0 && NoHoles(m.colourMap)
    requires forall k :: 0 <= k < |m.colourMap| ==> m.colourMap[k].value.a == 255.0
    requires n != maxIter
    ensures m.MakeColour(n, maxIter).Some? && m.MakeColour(n, maxIter) in m.colourMap
    ensures m.MakeColour(n, maxIter).value.a == 255.0
  {
    var i := n % |m.colourMap|;
    assert m.MakeColour(n, maxIter) == m.colourMap[i];
  }

  /** Over any non-empty palette, colours repeat with the palette's length as period. */
  lemma MakeColourPeriodic(m: ColourMap, n: nat, maxIter: int)
    requires |m.colourMap| > 0
    requires n != maxIter && n + |m.colourMap| != maxIter
    ensures m.MakeColour(n + |m.colourMap|, maxIter) == m.MakeColour(n, maxIter)
  {
    ModShift(n, |m.colourMap|);
  }

  /** The colourMaps object: its two maps, keyed 'rainbow' and 'smooth'. */
  class Registry {
    const rainbow: ColourMap
    const smooth: ColourMap

    predicate Valid()
      reads this, rainbow, smooth
    {
      && rainbow != smooth
      && rainbow.kind == Rainbow && rainbow.numGradations == Gradations(Rainbow)
      && smooth.kind == Smooth && smooth.numGradations == Gradations(Smooth)
    }

    constructor ()
      ensures Valid() && fresh(rainbow) && fresh(smooth)
      ensures rainbow.colourMap == [] && smooth.colourMap == []
    {
      rainbow := new ColourMap(Rainbow);
      smooth := new ColourMap(Smooth);
    }

    /** colourMaps[key], when key is one of the object's own keys. */
    function Find(key: string): (r: Option<ColourMap>)
      reads this
      ensures r.Some? <==> key == "rainbow" || key == "smooth"
      ensures key == "rainbow" ==> r == Some(rainbow)
      ensures key == "smooth" ==> r == Some(smooth)
    {
      if key == "rainbow" then Some(rainbow)
      else if key == "smooth" then Some(smooth)
      else None
    }

    /** The page's start-up loop: generate every map's palette. */
    method GenerateAll(hsvToRgb: (real, real, real) -> Rgb)
      requires Valid()
      modifies rainbow, smooth
      ensures Valid()
      ensures rainbow.colourMap == Generated(Rainbow, hsvToRgb, old(rainbow.colourMap))
      ensures smooth.colourMap == Generated(Smooth, hsvToRgb, old(smooth.colourMap))
    {
      rainbow.GenColourMap(hsvToRgb);
      smooth.GenColourMap(hsvToRgb);
    }
  }
}
