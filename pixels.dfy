/**
 * The canvas ImageData object and setPixel, which writes one pixel's four
 * channels into its flat, row-major RGBA byte array.
 */
module Pixels {

  /**
   * A canvas ImageData: width and height in pixels and the data array of
   * 4 * width * height bytes, four per pixel, row after row.
   */
  class ImageData {
    const width: nat
    const height: nat
    const data: array<int>

    predicate Valid()
      reads this
    {
      data.Length == 4 * width * height
    }

    constructor (width: nat, height: nat, data: array<int>)
      requires data.Length == 4 * width * height
      ensures this.width == width && this.height == height && this.data == data
      ensures Valid()
    {
      this.width := width;
      this.height := height;
      this.data := data;
    }
  }

  /**
   * The byte a Uint8ClampedArray stores for the number v: v clamped to
   * [0, 255] and rounded to the nearest integer, ties to even.
   */
  function ToUint8Clamp(v: real): (b: int)
    ensures 0 <= b <= 255
    ensures v <= 0.0 ==> b == 0
    ensures v >= 255.0 ==> b == 255
    ensures 0.0 <= v <= 255.0 ==> v - 0.5 <= b as real <= v + 0.5
  {
    if v <= 0.0 then 0
    else if v >= 255.0 then 255
    else
      var f := v.Floor;
      if v - f as real < 0.5 then f
      else if v - f as real > 0.5 then f + 1
      else if f % 2 == 0 then f
      else f + 1
  }

  /** A byte value is stored unchanged. */
  lemma ToUint8ClampKeepsBytes(n: int)
    requires 0 <= n <= 255
    ensures ToUint8Clamp(n as real) == n
  {
  }

  /** The index of the red byte of pixel (x, y): (y * width + x) * 4. */
  function PixelIndex(width: int, x: int, y: int): int {
    (y * width * 4) + (x * 4)
  }

  /** Inside the image, a pixel's four bytes lie inside the data array. */
  lemma PixelIndexInBounds(width: nat, height: nat, x: int, y: int)
    requires 0 <= x < width && 0 <= y < height
    ensures 0 <= PixelIndex(width, x, y)
    ensures PixelIndex(width, x, y) + 3 < 4 * width * height
    ensures PixelIndex(width, x, y) == 4 * (y * width + x)
  {
    assert y * width + x < width * height by {
      assert y * width + x < y * width + width == (y + 1) * width;
      assert (y + 1) * width <= height * width by {
        MulLeq(y + 1, height, width);
      }
    }
  }

  lemma MulLeq(a: int, b: int, c: nat)
    requires a <= b
    ensures a * c <= b * c
  {
  }

  /**
   * Byte j of pixel (x, y)'s block is channel j - i of [r, g, b, a]; every
   * other byte is unchanged. A write whose index falls outside the array is
   * ignored, as typed arrays ignore it.
   */
  method SetPixel(imageData: ImageData, x: int, y: int, r: real, g: real, b: real, a: real)
    modifies imageData.data
    ensures var i := PixelIndex(imageData.width, x, y);
      forall j :: 0 <= j < imageData.data.Length ==>
        imageData.data[j] == (if j == i then ToUint8Clamp(r)
                              else if j == i + 1 then ToUint8Clamp(g)
                              else if j == i + 2 then ToUint8Clamp(b)
                              else if j == i + 3 then ToUint8Clamp(a)
                              else old(imageData.data[j]))
  {
    var i := (y * imageData.width * 4) + (x * 4);
    var data := imageData.data;
    if 0 <= i + 0 < data.Length {
      data[i + 0] := ToUint8Clamp(r);
    }
    if 0 <= i + 1 < data.Length {
      data[i + 1] := ToUint8Clamp(g);
    }
    if 0 <= i + 2 < data.Length {
      data[i + 2] := ToUint8Clamp(b);
    }
    if 0 <= i + 3 < data.Length {
      data[i + 3] := ToUint8Clamp(a);
    }
  }
}
