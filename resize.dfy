/** The resize policy applied to every image before it is sent to the
    segmentation service (`autoresize`). Only the dimensions are modelled;
    the pixels and the interpolation are the codec library's business. */
module Resize {

  /** The shape of a decoded image: rows and columns. */
  datatype Dims = Dims(height: nat, width: nat)

  /** Images up to this many rows are left alone. */
  const HalveAbove: nat := 1000
  /** Images above this many rows are scaled to a quarter. */
  const QuarterAbove: nat := 2000

  /** The scale factor the source chooses, as the real number it multiplies by. */
  function Factor(height: nat): (f: real)
    ensures f == 1.0 || f == 0.5 || f == 0.25
    ensures f == 1.0 <==> height <= HalveAbove
  {
    if height > HalveAbove then (if height > QuarterAbove then 0.25 else 0.5) else 1.0
  }

  /** The Python `int(n * f)` cast on a non-negative product: truncation. */
  function Truncate(x: real): (n: int)
    requires x >= 0.0
    ensures n >= 0 && n as real <= x < n as real + 1.0
  {
    x.Floor
  }

  /** The factor as an integer divisor: factor == 1 / Divisor. */
  function Divisor(height: nat): (d: nat)
    ensures d == 1 || d == 2 || d == 4
    ensures d as real * Factor(height) == 1.0
  {
    if height > QuarterAbove then 4 else if height > HalveAbove then 2 else 1
  }

  /** `autoresize`: the dimensions of the image that is encoded and sent.
      A tall image is scaled down, a short one is returned as it is. */
  function AutoResize(image: Dims): (r: Dims)
    ensures r.height <= image.height && r.width <= image.width
    ensures r == image <==> image.height <= HalveAbove
    ensures image.height > HalveAbove ==> 500 <= r.height <= image.height / 2
  {
    if image.height > HalveAbove then
      var d := Divisor(image.height);
      Dims(image.height / d, image.width / d)
    else
      image
  }

  /** The resize asks the codec library for a size with no columns: a tall
      image narrower than the divisor. The library rejects an empty target
      size by raising, so `autoresize` raises for such an image. */
  predicate ResizeRaises(image: Dims) {
    image.height > HalveAbove && image.width / Divisor(image.height) == 0
  }

  /** For a non-empty image, the resized image always keeps some rows, and it
      keeps some columns exactly when the resize does not raise. */
  lemma ResizedSidesPositive(image: Dims)
    requires image.height > 0 && image.width > 0
    ensures AutoResize(image).height > 0
    ensures AutoResize(image).width > 0 <==> !ResizeRaises(image)
    ensures ResizeRaises(image) <==> image.height > HalveAbove && image.width < Divisor(image.height)
  {
  }

  /** A one-column image of 1500 rows, and a three-column one of 2500 rows,
      cannot be resized; four columns at 2500 rows can. */
  lemma NarrowTallExamples()
    ensures ResizeRaises(Dims(1500, 1)) && AutoResize(Dims(1500, 1)) == Dims(750, 0)
    ensures ResizeRaises(Dims(2500, 3)) && !ResizeRaises(Dims(2500, 4))
    ensures !ResizeRaises(Dims(1000, 1))
  {
  }

  /** Multiplying by 0.5 or 0.25 and truncating is integer division by 2 or 4. */
  lemma ScaleByFactor(n: nat, height: nat)
    ensures Truncate(n as real * Factor(height)) == n / Divisor(height)
  {
  }

  /** The three cases of the policy, stated with the source's real-valued factor:
      the new size is `(int(width * factor), int(height * factor))`. */
  lemma AutoResizeMatchesFactor(image: Dims)
    ensures image.height <= HalveAbove ==> AutoResize(image) == image
    ensures image.height > HalveAbove ==>
      var f := Factor(image.height);
      AutoResize(image) == Dims(Truncate(image.height as real * f), Truncate(image.width as real * f))
  {
  }

  /** A taller image is never scaled by a larger factor. */
  lemma FactorNonIncreasing(h1: nat, h2: nat)
    requires h1 <= h2
    ensures Factor(h2) <= Factor(h1)
    ensures Divisor(h1) <= Divisor(h2)
  {
  }

  /** The result is within the 1000-row bound exactly when the input has at
      most 4003 rows: a quarter of anything taller is still above the bound. */
  lemma ResultWithinBound(image: Dims)
    ensures AutoResize(image).height <= HalveAbove <==> image.height <= 4003
  {
  }

  /** Resizing the resized image again changes nothing exactly when the first
      result already fits the bound. */
  lemma AutoResizeIdempotentIff(image: Dims)
    ensures AutoResize(AutoResize(image)) == AutoResize(image) <==> image.height <= 4003
  {
  }
}
