/**
 * The caption layout: the anchor and x position each alignment gives, and
 * the two text lines placed symmetrically about the canvas's horizontal
 * midline, one line height apart. The secondary line is set at 0.7 of the
 * primary font size, lighter and at 0.95 opacity.
 */
module TextLayout {
  import opened JsNumber
  import opened Params

  /** SVG `text-anchor`. */
  datatype Anchor = Start | Middle | End

  /** `getTextAnchor()`: left starts at x, right ends at x, anything else is centred on x. */
  function TextAnchor(align: string): (a: Anchor)
    ensures a == Start <==> align == "left"
    ensures a == End <==> align == "right"
    ensures a == Middle <==> align != "left" && align != "right"
  {
    if align == "left" then Start
    else if align == "right" then End
    else Middle
  }

  /** `width * 0.076`, the margin kept by left- and right-aligned text. */
  function Padding(width: real): real {
    width * 0.076
  }

  /** `getTextX()`. */
  function TextX(align: string, width: real): (x: real)
    ensures TextAnchor(align) == Start ==> x == Padding(width)
    ensures TextAnchor(align) == End ==> x == width - Padding(width)
    ensures TextAnchor(align) == Middle ==> x == width / 2.0
  {
    if align == "left" then Padding(width)
    else if align == "right" then width - Padding(width)
    else width / 2.0
  }

  /**
   * The three positions are mirror images about the centre: left and right
   * are equally far from their edges, and on a canvas of positive width they
   * lie strictly inside it in the order left, centre, right. The anchor
   * points the text away from the nearer edge.
   */
  lemma TextXSymmetry(width: real)
    ensures TextX("left", width) + TextX("right", width) == 2.0 * TextX("center", width)
    ensures TextX("left", width) == width - TextX("right", width)
    ensures width > 0.0 ==> 0.0 < TextX("left", width) < TextX("center", width) < TextX("right", width) < width
    ensures TextAnchor("left") == Start && TextAnchor("right") == End && TextAnchor("center") == Middle
  {
  }

  /** An alignment the component does not name is laid out exactly like `center`. */
  lemma UnknownAlignmentIsCentred(align: string, width: real)
    requires align != "left" && align != "right"
    ensures TextAnchor(align) == TextAnchor("center") && TextX(align, width) == TextX("center", width)
  {
  }

  /** The baselines of the two lines. */
  datatype VerticalPositions = VerticalPositions(primary: real, secondary: real)

  /** `getVerticalPositions()`: half a line height above and below the midline. */
  function GetVerticalPositions(height: real, lineHeight: real): (v: VerticalPositions)
    ensures (v.primary + v.secondary) / 2.0 == height / 2.0
    ensures v.secondary - v.primary == lineHeight
  {
    VerticalPositions(height / 2.0 - lineHeight / 2.0, height / 2.0 + lineHeight / 2.0)
  }

  /** The two baselines are determined by their midpoint and gap: any placement with the same ones is this one. */
  lemma VerticalPositionsUnique(height: real, lineHeight: real, v: VerticalPositions)
    requires (v.primary + v.secondary) / 2.0 == height / 2.0
    requires v.secondary - v.primary == lineHeight
    ensures v == GetVerticalPositions(height, lineHeight)
  {
  }

  /** One `<text>` element of the caption. */
  datatype TextLayer = TextLayer(
    text: JsString, x: real, y: real, fontSize: real, fontWeight: nat, opacity: real, anchor: Anchor)

  /** The primary line: bold, full opacity, above the midline. */
  function PrimaryLayer(p: BannerProps): TextLayer {
    TextLayer(p.primaryText, TextX(p.textAlign, p.width),
              GetVerticalPositions(p.height, p.lineHeight).primary,
              p.fontSize, 700, 1.0, TextAnchor(p.textAlign))
  }

  /** The secondary line: 0.7 of the font size, medium weight, 0.95 opacity, below the midline. */
  function SecondaryLayer(p: BannerProps): TextLayer {
    TextLayer(p.secondaryText, TextX(p.textAlign, p.width),
              GetVerticalPositions(p.height, p.lineHeight).secondary,
              p.fontSize * 0.7, 500, 0.95, TextAnchor(p.textAlign))
  }

  /**
   * The two lines share their x position and anchor; they are one line
   * height apart and centred as a group on the canvas; the secondary is
   * smaller (for a positive font size), lighter and slightly transparent.
   */
  lemma CaptionLayout(p: BannerProps)
    ensures var a, b := PrimaryLayer(p), SecondaryLayer(p);
      && a.x == b.x && a.anchor == b.anchor
      && b.y - a.y == p.lineHeight && (a.y + b.y) / 2.0 == p.height / 2.0
      && b.fontSize == 0.7 * a.fontSize
      && (p.fontSize > 0.0 ==> b.fontSize < a.fontSize)
      && b.fontWeight < a.fontWeight && b.opacity < a.opacity
  {
  }

  /** On the reference 1584 x 396 banner, centred text sits at x = 792 and its lines straddle y = 198. */
  lemma ReferenceBannerLayout(p: BannerProps)
    requires p.width == 1584.0 && p.height == 396.0 && p.textAlign == "center"
    ensures PrimaryLayer(p).x == 792.0
    ensures PrimaryLayer(p).y == 198.0 - p.lineHeight / 2.0 && SecondaryLayer(p).y == 198.0 + p.lineHeight / 2.0
  {
  }
}
