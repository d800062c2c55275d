/**
 * The props of the banner component, the scale factors every generator
 * derives from the canvas size relative to the 1584 x 396 reference
 * banner, and the density factor (`scale` in `renderGraphic`) that shrinks
 * ornamentation as the caption grows.
 */
module Params {
  import opened JsNumber

  datatype BannerProps = BannerProps(
    primaryText: JsString,
    secondaryText: JsString,
    quantityColor: JsString,
    qualityColor: JsString,
    fontSize: real,
    lineHeight: real,
    textAlign: string,
    graphicStyle: string,
    width: real,
    height: real)

  /** Every canvas the component is given has a positive size. */
  predicate ValidCanvas(p: BannerProps) {
    p.width > 0.0 && p.height > 0.0
  }

  const ReferenceWidth: real := 1584.0
  const ReferenceHeight: real := 396.0

  function ScaleX(p: BannerProps): real {
    p.width / ReferenceWidth
  }

  function ScaleY(p: BannerProps): real {
    p.height / ReferenceHeight
  }

  /** `Math.min(scaleX, scaleY)`. */
  function Uniform(p: BannerProps): (u: real)
    requires ValidCanvas(p)
    ensures u > 0.0
    ensures u <= ScaleX(p) && u <= ScaleY(p)
    ensures u == ScaleX(p) || u == ScaleY(p)
  {
    MinReal(ScaleX(p), ScaleY(p))
  }

  /** `Math.max(0.5, 1 - textLength / 200)`. */
  function DensityOf(textLength: nat): (d: real)
    ensures 0.5 <= d <= 1.0
    ensures d == 1.0 <==> textLength == 0
    ensures d == 0.5 <==> textLength >= 100
  {
    MaxReal(0.5, 1.0 - textLength as real / 200.0)
  }

  /** The density factor of a banner: from the length of the concatenated texts, in UTF-16 code units. */
  function Density(p: BannerProps): (d: real)
    ensures 0.5 <= d <= 1.0
    ensures d == 1.0 <==> p.primaryText == [] && p.secondaryText == []
  {
    DensityOf(|p.primaryText + p.secondaryText|)
  }

  /** More text never raises the density. */
  lemma DensityMonotone(n1: nat, n2: nat)
    requires n1 <= n2
    ensures DensityOf(n2) <= DensityOf(n1)
  {
  }
}
