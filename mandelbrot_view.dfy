/**
 * The Mandelbrot panel of the older, single-file version (mandelbrot.js):
 * the view's centre, scale and iteration limit, the transforms from pixel
 * column and row to the complex plane, the setters that validate a
 * calculator or colour-map name against its registry, and the render pass,
 * which paints every pixel row by row unless its timer token has gone stale.
 */
module MandelbrotView {
  import opened Wrappers
  import opened Palette
  import opened Pixels
  import opened Names
  import ET = MandelbrotEscapeTime
  import CM = MandelbrotColourMaps

  /** All the fields of a panel, so that a setter can say which one it changed and that no other did. */
  datatype ViewState = ViewState(
    etCalcName: string, calculator: Option<ET.Calc>,
    cmapName: string, cmap: Option<CM.ColourMap>,
    imageData: ImageData,
    centreRl: real, centreIm: real, scale: real, maxIter: int,
    updateTimeout: Option<nat>)

  /** A relative zoom: the scale multiplied by the factor. */
  function Zoomed(scale: real, factor: real): real {
    scale * factor
  }

  /** Zooming in by f (a zoom by 1/f) and then out by f, in either order, restores the scale. */
  lemma ZoomInThenOutRestores(scale: real, f: real)
    requires f != 0.0
    ensures Zoomed(Zoomed(scale, 1.0 / f), f) == scale
    ensures Zoomed(Zoomed(scale, f), 1.0 / f) == scale
  {
    assert (1.0 / f) * f == 1.0;
    assert Zoomed(Zoomed(scale, 1.0 / f), f) == scale * ((1.0 / f) * f);
    assert Zoomed(Zoomed(scale, f), 1.0 / f) == scale * ((1.0 / f) * f);
  }

  /** Channel j of an [r, g, b, a] colour. */
  function Channel(colour: Colour, j: nat): real
    requires j < 4
  {
    if j == 0 then colour.r else if j == 1 then colour.g else if j == 2 then colour.b else colour.a
  }

  /** A palette makeColour can index: generated, so neither empty nor holed. */
  predicate Ready(palette: Slots) {
    |palette| > 0 && NoHoles(palette)
  }

  class Mandelbrot {
    /** The colourMaps object the names are looked up in. */
    const colourMaps: CM.Registry
    var etCalcName: string
    var calculator: Option<ET.Calc>
    var cmapName: string
    var cmap: Option<CM.ColourMap>
    var imageData: ImageData
    var centreRl: real
    var centreIm: real
    var scale: real
    var maxIter: int
    var updateTimeout: Option<nat>

    function State(): ViewState
      reads this
    {
      ViewState(etCalcName, calculator, cmapName, cmap, imageData, centreRl, centreIm, scale, maxIter, updateTimeout)
    }

    /**
     * The constructor got past both name checks. Otherwise it returned
     * early, before defining any of the panel's methods, and the fields it
     * had not reached are left undefined (here: placeholders).
     */
    predicate Constructed()
      reads this
    {
      calculator.Some? && cmap.Some?
    }

    /**
     * Look the calculator up by the lower-case form of its name, then the
     * colour map; stop at the first unknown name. A panel that passes both
     * starts centred on 0 with 5 units across its smaller side and an
     * iteration limit of 100.
     */
    constructor (colourMaps: CM.Registry, imageData: ImageData, cmapName: string, etCalcName: string)
      requires imageData.width > 0 && imageData.height > 0
      ensures this.colourMaps == colourMaps && this.etCalcName == etCalcName
      ensures calculator == ET.CalcNamed(ToLowerCase(etCalcName))
      ensures calculator.None? ==> cmap.None?
      ensures calculator.Some? ==> this.cmapName == cmapName && cmap == colourMaps.Find(ToLowerCase(cmapName))
      ensures Constructed() ==>
        && this.imageData == imageData
        && centreRl == 0.0 && centreIm == 0.0
        && scale == 5.0 / (if imageData.width < imageData.height then imageData.width else imageData.height) as real
        && maxIter == 100
        && updateTimeout.None?
    {
      this.colourMaps := colourMaps;
      this.etCalcName := etCalcName;
      // The early returns of the source: the colour map is looked up only
      // once the calculator is known, and the view fields are meaningful
      // only once both are.
      var et := ET.CalcNamed(ToLowerCase(etCalcName));
      calculator := et;
      this.cmapName := cmapName;
      cmap := if et.Some? then colourMaps.Find(ToLowerCase(cmapName)) else None;
      this.imageData := imageData;
      updateTimeout := None;
      centreRl := 0.0;
      centreIm := 0.0;
      var side := if imageData.width < imageData.height then imageData.width else imageData.height;
      scale := 5.0 / side as real;
      maxIter := 100;
    }

    /**
     * The real part at pixel column c: the middle column is the centre, and
     * with a non-zero scale the column can be recovered from the real part.
     */
    function ColToX(c: real): (x: real)
      reads this
      ensures c == imageData.width as real / 2.0 ==> x == centreRl
      ensures scale != 0.0 ==> (x - centreRl) / scale + imageData.width as real / 2.0 == c
    {
      (c - imageData.width as real / 2.0) * scale + centreRl
    }

    /**
     * The imaginary part at pixel row r; rows grow downwards, so the axis is
     * inverted. The middle row is the centre, and with a non-zero scale the
     * row can be recovered from the imaginary part.
     */
    function RowToY(r: real): (y: real)
      reads this
      ensures r == imageData.height as real / 2.0 ==> y == centreIm
      ensures scale != 0.0 ==> (centreIm - y) / scale + imageData.height as real / 2.0 == r
    {
      -(r - imageData.height as real / 2.0) * scale + centreIm
    }

    function GetCentre(): (real, real)
      reads this
    {
      (centreRl, centreIm)
    }

    function GetScale(): real
      reads this
    {
      scale
    }

    function GetMaxIter(): int
      reads this
    {
      maxIter
    }

    function GetColourMapName(): string
      reads this
    {
      cmapName
    }

    function GetFractalType(): string
      reads this
    {
      etCalcName
    }

    method SetCentre(rl: real, im: real)
      requires Constructed()
      modifies this
      ensures GetCentre() == (rl, im)
      ensures State() == old(State()).(centreRl := rl, centreIm := im)
    {
      centreRl := rl;
      centreIm := im;
    }

    method SetScale(newScale: real) returns (r: real)
      requires Constructed()
      modifies this
      ensures r == newScale == GetScale()
      ensures State() == old(State()).(scale := newScale)
    {
      scale := newScale;
      return scale;
    }

    method ZoomBy(factor: real) returns (r: real)
      requires Constructed()
      modifies this
      ensures r == scale == Zoomed(old(scale), factor)
      ensures State() == old(State()).(scale := Zoomed(old(scale), factor))
    {
      scale := scale * factor;
      return scale;
    }

    method ZoomInBy(factor: real) returns (r: real)
      requires Constructed() && factor != 0.0
      modifies this
      ensures r == scale == Zoomed(old(scale), 1.0 / factor)
      ensures State() == old(State()).(scale := Zoomed(old(scale), 1.0 / factor))
    {
      r := ZoomBy(1.0 / factor);
    }

    /** zoomOutBy is zoomBy itself. */
    method ZoomOutBy(factor: real) returns (r: real)
      requires Constructed()
      modifies this
      ensures r == scale == Zoomed(old(scale), factor)
      ensures State() == old(State()).(scale := Zoomed(old(scale), factor))
    {
      r := ZoomBy(factor);
    }

    method SetMaxIter(newMaxIter: int)
      requires Constructed()
      modifies this
      ensures GetMaxIter() == newMaxIter
      ensures State() == old(State()).(maxIter := newMaxIter)
    {
      maxIter := newMaxIter;
    }

    /**
     * A name whose lower-case form is not a key of colourMaps changes
     * nothing; otherwise the name is kept as given and the map is the one
     * under its lower-case form.
     */
    method SetColourMapName(newCmapName: string)
      requires Constructed()
      modifies this
      ensures colourMaps.Find(ToLowerCase(newCmapName)).None? ==> State() == old(State())
      ensures colourMaps.Find(ToLowerCase(newCmapName)).Some? ==>
        State() == old(State()).(cmapName := newCmapName, cmap := colourMaps.Find(ToLowerCase(newCmapName)))
    {
      var found := colourMaps.Find(ToLowerCase(newCmapName));
      if found.None? {
        return;
      }
      cmapName := newCmapName;
      cmap := found;
    }

    /** As SetColourMapName, against the escapeTimeCalculators keys. */
    method SetFractalType(newCalcName: string)
      requires Constructed()
      modifies this
      ensures ET.CalcNamed(ToLowerCase(newCalcName)).None? ==> State() == old(State())
      ensures ET.CalcNamed(ToLowerCase(newCalcName)).Some? ==>
        State() == old(State()).(etCalcName := newCalcName, calculator := ET.CalcNamed(ToLowerCase(newCalcName)))
    {
      var found := ET.CalcNamed(ToLowerCase(newCalcName));
      if found.None? {
        return;
      }
      etCalcName := newCalcName;
      calculator := found;
    }

    /** stop: cancel the pending pass and forget its token. */
    method Stop()
      requires Constructed()
      modifies this
      ensures updateTimeout.None?
      ensures State() == old(State()).(updateTimeout := None)
    {
      updateTimeout := None;
    }

    /** update: stop, then schedule a pass under the new timer id timerId. */
    method Update(timerId: nat)
      requires Constructed()
      modifies this
      ensures updateTimeout == Some(timerId)
      ensures State() == old(State()).(updateTimeout := Some(timerId))
    {
      Stop();
      updateTimeout := Some(timerId);
    }

    /** The colour the pass paints at column c, row r. */
    function PixelColour(c: nat, r: nat): Colour
      requires Constructed() && Ready(cmap.value.colourMap)
      reads this, cmap.value
    {
      var n := ET.EscapeTimeOf(calculator.value, ColToX(c as real), RowToY(r as real), maxIter);
      var colour := cmap.value.MakeColour(n, maxIter);
      assert colour.Some? by {
        if n != maxIter {
          assert cmap.value.colourMap[n % |cmap.value.colourMap|].Some?;
        }
      }
      colour.value
    }

    /** The four bytes of pixel (x, y) in bytes hold its colour's channels, clamped. */
    predicate PixelPainted(bytes: seq<int>, x: nat, y: nat)
      requires Constructed() && Ready(cmap.value.colourMap)
      reads this, cmap.value
    {
      var i := PixelIndex(imageData.width, x, y);
      var colour := PixelColour(x, y);
      && 0 <= i && i + 3 < |bytes|
      && bytes[i] == ToUint8Clamp(colour.r)
      && bytes[i + 1] == ToUint8Clamp(colour.g)
      && bytes[i + 2] == ToUint8Clamp(colour.b)
      && bytes[i + 3] == ToUint8Clamp(colour.a)
    }

    /** Every pixel of the image is painted in bytes. */
    predicate AllPainted(bytes: seq<int>)
      requires Constructed() && Ready(cmap.value.colourMap)
      reads this, cmap.value
    {
      forall y, x :: 0 <= y < imageData.height && 0 <= x < imageData.width ==> PixelPainted(bytes, x, y)
    }

    /**
     * One render pass over the canvas's current pixels, snapshot: for each
     * row and each column, compute the escape time and colour, and abort
     * before the write if the panel's token is no longer myUpdateTimeout.
     * A pass whose token is current paints every pixel with its clamped
     * colour and completes; a stale one aborts at its first pixel and writes
     * nothing.
     */
    method UpdatePass(myUpdateTimeout: Option<nat>, snapshot: ImageData) returns (completed: bool)
      requires Constructed() && Ready(cmap.value.colourMap) && snapshot.Valid()
      modifies this, snapshot.data
      ensures State() == old(State()).(imageData := snapshot)
      ensures completed <==> updateTimeout == myUpdateTimeout || snapshot.width == 0 || snapshot.height == 0
      ensures !completed ==> snapshot.data[..] == old(snapshot.data[..])
      ensures completed ==> AllPainted(snapshot.data[..])
    {
      imageData := snapshot;
      var data := snapshot.data;
      var w, h := snapshot.width, snapshot.height;
      var r := 0;
      while r < h
        invariant 0 <= r <= h
        invariant State() == old(State()).(imageData := snapshot)
        invariant updateTimeout != myUpdateTimeout ==> (r == 0 || w == 0) && data[..] == old(data[..])
        invariant forall y, x :: 0 <= y < h && 0 <= x < w && Before(x, y, 0, r) ==> PixelPainted(data[..], x, y)
        modifies data
      {
        var aborted := PaintRow(r, myUpdateTimeout);
        if aborted {
          return false;
        }
        r := r + 1;
      }
      completed := true;
    }

    /** The inner loop of the pass: row r, column by column, checking the token before each write. */
    method PaintRow(r: nat, myUpdateTimeout: Option<nat>) returns (aborted: bool)
      requires Constructed() && Ready(cmap.value.colourMap) && imageData.Valid() && r < imageData.height
      requires forall y, x :: 0 <= y < imageData.height && 0 <= x < imageData.width && Before(x, y, 0, r) ==>
        PixelPainted(imageData.data[..], x, y)
      modifies imageData.data
      ensures aborted <==> updateTimeout != myUpdateTimeout && imageData.width > 0
      ensures aborted ==> imageData.data[..] == old(imageData.data[..])
      ensures forall y, x :: 0 <= y < imageData.height && 0 <= x < imageData.width && !aborted && Before(x, y, 0, r + 1) ==>
        PixelPainted(imageData.data[..], x, y)
      ensures SameFrom(imageData.data[..], old(imageData.data[..]), PixelIndex(imageData.width, 0, r + 1))
    {
      var w, h := imageData.width, imageData.height;
      var data := imageData.data;
      var c := 0;
      while c < w
        invariant 0 <= c <= w
        invariant updateTimeout != myUpdateTimeout ==> c == 0 && data[..] == old(data[..])
        invariant forall y, x :: 0 <= y < h && 0 <= x < w && Before(x, y, c, r) ==> PixelPainted(data[..], x, y)
        invariant SameFrom(data[..], old(data[..]), PixelIndex(w, c, r))
        modifies data
      {
        var x := ColToX(c as real);
        var y := RowToY(r as real);
        var et := ET.EscapeTime(calculator.value, x, y, maxIter);
        var colour := cmap.value.MakeColour(et, maxIter);
        if updateTimeout != myUpdateTimeout {
          return true;
        }
        ghost var before := data[..];
        PaintPixel(r, c, colour.value);
        FrameStep(old(data[..]), before, data[..], PixelIndex(w, c, r));
        c := c + 1;
      }
      RowEnd(w, r);
      return false;
    }

    /** The write of one pixel: it paints pixel (c, r) and keeps every pixel painted before it. */
    method PaintPixel(r: nat, c: nat, colour: Colour)
      requires Constructed() && Ready(cmap.value.colourMap) && imageData.Valid()
      requires r < imageData.height && c < imageData.width
      requires colour == PixelColour(c, r)
      requires forall y, x :: 0 <= y < imageData.height && 0 <= x < imageData.width && Before(x, y, c, r) ==>
        PixelPainted(imageData.data[..], x, y)
      modifies imageData.data
      ensures forall y, x :: 0 <= y < imageData.height && 0 <= x < imageData.width && Before(x, y, c + 1, r) ==>
        PixelPainted(imageData.data[..], x, y)
      ensures forall j :: 0 <= j < imageData.data.Length && !(PixelIndex(imageData.width, c, r) <= j < PixelIndex(imageData.width, c, r) + 4) ==>
        imageData.data[j] == old(imageData.data[j])
    {
      var w := imageData.width;
      ghost var before := imageData.data[..];
      PixelIndexInBounds(w, imageData.height, c, r);
      SetPixel(imageData, c, r, colour.r, colour.g, colour.b, colour.a);
      assert PixelPainted(imageData.data[..], c, r);
      forall y, x | 0 <= y < imageData.height && 0 <= x < imageData.width && Before(x, y, c, r)
        ensures PixelPainted(imageData.data[..], x, y)
      {
        assert PixelPainted(before, x, y);
        PixelIndexOrder(w, x, y, c, r);
      }
    }

    /**
     * The scheduled callback: it hands the pass the panel's token as it
     * stands when the callback runs, so the pass never aborts.
     */
    method RunScheduledPass(snapshot: ImageData) returns (completed: bool)
      requires Constructed() && Ready(cmap.value.colourMap) && snapshot.Valid()
      modifies this, snapshot.data
      ensures completed
      ensures State() == old(State()).(imageData := snapshot)
      ensures AllPainted(snapshot.data[..])
    {
      completed := UpdatePass(updateTimeout, snapshot);
    }
  }

  /** From byte k on, a and b agree (and have the same length). */
  predicate SameFrom(a: seq<int>, b: seq<int>, k: int) {
    |a| == |b| && forall j :: k <= j < |a| && 0 <= j ==> a[j] == b[j]
  }

  /** Writing the four bytes at k of an array that agreed with b from k on leaves it agreeing with b from k + 4 on. */
  lemma FrameStep(b: seq<int>, before: seq<int>, after: seq<int>, k: int)
    requires SameFrom(before, b, k) && |after| == |before|
    requires forall j :: 0 <= j < |after| && !(k <= j < k + 4) ==> after[j] == before[j]
    ensures SameFrom(after, b, k + 4)
  {
  }

  /** The byte after the last pixel of row r is the first byte of row r + 1. */
  lemma RowEnd(w: nat, r: nat)
    ensures PixelIndex(w, w, r) == PixelIndex(w, 0, r + 1)
  {
    assert (r + 1) * w * 4 == r * w * 4 + w * 4;
  }

  /** Pixel (x, y) comes before pixel (c, r) in row-major order. */
  predicate Before(x: nat, y: nat, c: nat, r: nat) {
    y < r || (y == r && x < c)
  }

  /** A pixel before (c, r) has all four of its bytes before (c, r)'s first byte. */
  lemma PixelIndexOrder(w: nat, x: nat, y: nat, c: nat, r: nat)
    requires x < w && Before(x, y, c, r)
    ensures PixelIndex(w, x, y) + 4 <= PixelIndex(w, c, r)
  {
    if y < r {
      MulLeq(y + 1, r, w);
      assert (y + 1) * w == y * w + w;
    }
  }

  /**
   * Every byte of a w x h image belongs to exactly the pixel its index
   * names: byte k is channel k % 4 of pixel p = k / 4, at column p % w and
   * row p / w.
   */
  lemma EveryByteBelongsToAPixel(w: nat, h: nat, k: nat)
    requires k < 4 * w * h
    ensures w > 0
    ensures var p := k / 4;
      && p % w < w && p / w < h
      && k == PixelIndex(w, p % w, p / w) + k % 4
  {
    var p := k / 4;
    assert k == 4 * p + k % 4;
    var q, m := p / w, p % w;
    assert p == q * w + m;
    assert q < h;
    assert PixelIndex(w, m, q) == 4 * (q * w + m);
  }

  /**
   * Once every pixel is painted, every byte is: byte k holds channel k % 4
   * of the colour of the pixel k / 4, clamped.
   */
  lemma EveryBytePainted(m: Mandelbrot, bytes: seq<int>, k: nat)
    requires m.Constructed() && Ready(m.cmap.value.colourMap)
    requires |bytes| == 4 * m.imageData.width * m.imageData.height && k < |bytes|
    requires m.AllPainted(bytes)
    ensures m.imageData.width > 0
    ensures var p := k / 4;
      bytes[k] == ToUint8Clamp(Channel(m.PixelColour(p % m.imageData.width, p / m.imageData.width), k % 4))
  {
    var w := m.imageData.width;
    EveryByteBelongsToAPixel(w, m.imageData.height, k);
    var p := k / 4;
    assert m.PixelPainted(bytes, p % w, p / w);
  }

  /** The pixel at the image's centre shows the view's centre. */
  lemma CentreOfImage(m: Mandelbrot)
    ensures m.ColToX(m.imageData.width as real / 2.0) == m.centreRl
    ensures m.RowToY(m.imageData.height as real / 2.0) == m.centreIm
  {
  }

  /** With a positive scale, x grows with the column and y falls as the row grows. */
  lemma TransformsAreMonotonic(m: Mandelbrot, a: real, b: real)
    requires m.scale > 0.0 && a < b
    ensures m.ColToX(a) < m.ColToX(b)
    ensures m.RowToY(a) > m.RowToY(b)
  {
    var cw, ch := m.imageData.width as real / 2.0, m.imageData.height as real / 2.0;
    ScaleMonotonic(a - cw, b - cw, m.scale);
    ScaleMonotonic(a - ch, b - ch, m.scale);
  }

  lemma ScaleMonotonic(u: real, v: real, s: real)
    requires u < v && s > 0.0
    ensures u * s < v * s
  {
  }
}
