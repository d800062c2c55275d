/**
 * The banner the component renders, layer by layer from the back: a
 * full-canvas rectangle filled with the quantity-to-quality gradient, the
 * selected pattern (if the style is known), then the two caption lines.
 */
module Banner {
  import opened Random
  import opened Shapes
  import opened Params
  import opened Graphic
  import opened TextLayout

  datatype Scene = Scene(
    width: real, height: real,
    background: Primitive,
    graphic: Option<Pattern>,
    primary: TextLayer,
    secondary: TextLayer)

  /** The background `<rect>`: the whole canvas in `url(#gradient)`. */
  function Background(p: BannerProps): Primitive {
    Rect(0.0, 0.0, p.width, p.height, 0.0, Gradient, 1.0)
  }

  /** The component's output for the given props. */
  method RenderBanner(m: MathLib, p: BannerProps) returns (s: Scene)
    requires ValidCanvas(p)
    ensures s.width == p.width && s.height == p.height
    ensures s.background == Background(p)
    ensures s.graphic.None? <==> ParseStyle(p.graphicStyle).None?
    ensures s.graphic.Some? ==> Drawn(m, p, ParseStyle(p.graphicStyle).value, s.graphic.value)
    ensures s.primary == PrimaryLayer(p) && s.secondary == SecondaryLayer(p)
  {
    var graphic := RenderGraphic(m, p);
    var v := GetVerticalPositions(p.height, p.lineHeight);
    var x := TextX(p.textAlign, p.width);
    var anchor := TextAnchor(p.textAlign);
    s := Scene(p.width, p.height, Background(p), graphic,
               TextLayer(p.primaryText, x, v.primary, p.fontSize, 700, 1.0, anchor),
               TextLayer(p.secondaryText, x, v.secondary, p.fontSize * 0.7, 500, 0.95, anchor));
  }

  /** Every style renders a banner whose pattern, when present, has valid opacities; an unknown style leaves only the background and the caption. */
  lemma SceneOpacities(m: MathLib, p: BannerProps, s: Scene)
    requires ValidCanvas(p)
    requires s.graphic.None? <==> ParseStyle(p.graphicStyle).None?
    requires s.graphic.Some? ==> Drawn(m, p, ParseStyle(p.graphicStyle).value, s.graphic.value)
    ensures s.graphic.Some? ==> OpacitiesValid(s.graphic.value.elements) && 0.5 <= s.graphic.value.scale <= 1.5
    ensures (forall st :: StyleName(st) != p.graphicStyle) ==> s.graphic.None?
  {
    if s.graphic.Some? {
      StyleScaleFacts(ParseStyle(p.graphicStyle).value, |p.primaryText + p.secondaryText|, |p.primaryText + p.secondaryText|);
    }
  }
}
