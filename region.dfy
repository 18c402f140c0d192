/** The region of interest attached to every submitted image. */
module Region {
  import opened Framework

  /** `BuildFullImageNormRect`: the rectangle covering the entire image. */
  function BuildFullImageNormRect(): (r: NormalizedRect)
    ensures r.xCenter == 0.5 && r.yCenter == 0.5 && r.width == 1.0 && r.height == 1.0
  {
    NormalizedRect(0.5, 0.5, 1.0, 1.0)
  }

  /** The four edges of a rectangle, in normalized coordinates. */
  function Left(r: NormalizedRect): real { r.xCenter - r.width / 2.0 }
  function Right(r: NormalizedRect): real { r.xCenter + r.width / 2.0 }
  function Top(r: NormalizedRect): real { r.yCenter - r.height / 2.0 }
  function Bottom(r: NormalizedRect): real { r.yCenter + r.height / 2.0 }

  /** The full-image rectangle spans the normalized frame [0,1] x [0,1] exactly. */
  lemma FullImageNormRectCoversFrame()
    ensures var r := BuildFullImageNormRect();
      Left(r) == 0.0 && Right(r) == 1.0 && Top(r) == 0.0 && Bottom(r) == 1.0
  {
  }

  /** `roi.has_value() ? roi.value() : BuildFullImageNormRect()`. */
  function RegionOfInterest(roi: Option<NormalizedRect>): (r: NormalizedRect)
    ensures roi.Some? ==> r == roi.value
    ensures roi.None? ==> Left(r) == 0.0 && Right(r) == 1.0 && Top(r) == 0.0 && Bottom(r) == 1.0
  {
    if roi.Some? then roi.value else BuildFullImageNormRect()
  }
}
