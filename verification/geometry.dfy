/** Image sizes, points and the target region derived from them. */
module Geometry {
  import opened Numeric

  /** Pixel dimensions of the image being captioned. */
  datatype ImageSize = ImageSize(width: int, height: int)

  /** A point in image space; y grows downward. */
  datatype Point = Point(x: real, y: real)

  /** The target of the font search: the wrapping width every measurement
      uses, and the band `[minHeight, maxHeight]` the measured height must reach. */
  datatype Band = Band(wrap: real, maxHeight: real, minHeight: real)

  predicate InBand(h: real, b: Band)
  {
    b.minHeight <= h <= b.maxHeight
  }

  /** The targets ApplyToImage derives from the image and the padding:
      wrap width `W - 2p`, tallest height `H - 2p`, smallest height `H - 3p`.
      The band is exactly one padding wide. */
  function TargetsFor(img: ImageSize, padding: real): (b: Band)
    ensures img.width as real - b.wrap == 2.0 * padding
    ensures img.height as real - b.maxHeight == 2.0 * padding
    ensures b.maxHeight - b.minHeight == padding
  {
    Band(img.width as real - padding * 2.0,
         img.height as real - padding * 2.0,
         img.height as real - padding * 3.0)
  }

  /** The band is non-empty exactly when the padding is not negative, and has
      room between its ends exactly when the padding is positive. */
  lemma BandOrder(img: ImageSize, padding: real)
    ensures TargetsFor(img, padding).minHeight <= TargetsFor(img, padding).maxHeight <==> padding >= 0.0
    ensures TargetsFor(img, padding).minHeight < TargetsFor(img, padding).maxHeight <==> padding > 0.0
  {
  }

  /** The largest image dimension an `int` holds. */
  const Int32Max: int := 0x7FFF_FFFF

  /** A band the `float.MaxValue` sentinel lies strictly above. */
  predicate SentinelAbove(b: Band)
  {
    b.minHeight <= b.maxHeight < FloatMax
  }

  /** Every real image with non-negative padding gives a band below the sentinel. */
  lemma ImageBandBelowSentinel(img: ImageSize, padding: real)
    requires img.height <= Int32Max
    requires padding >= 0.0
    ensures SentinelAbove(TargetsFor(img, padding))
  {
  }
}
