/**
 * `renderGraphic`: the density factor is computed from the caption length
 * and the pattern named by the `graphicStyle` prop is drawn; a name that is
 * none of the 21 styles draws nothing (`null`).
 */
module Graphic {
  import opened JsNumber
  import opened Random
  import opened Shapes
  import opened Params
  import opened Dots
  import opened FixedShapes
  import opened Curves
  import opened Radial
  import opened Scatter
  import opened Tilings
  import opened Tessellations
  import opened GridLines

  datatype Option<T> = None | Some(value: T)

  /** The `GraphicStyle` union. */
  datatype GraphicStyle =
    | Dots | Funnel | Network | Waves | Geometric | Particles | Rays
    | Spiral | Hexagons | Flow | Prism | Constellation | Ripple | Mosaic
    | Aurora | Bricks | Lines | Blocks | BrutalistGrid | Striped | Industrial

  /** The name each style has in the union. */
  function StyleName(s: GraphicStyle): string {
    match s
    case Dots => "dots"
    case Funnel => "funnel"
    case Network => "network"
    case Waves => "waves"
    case Geometric => "geometric"
    case Particles => "particles"
    case Rays => "rays"
    case Spiral => "spiral"
    case Hexagons => "hexagons"
    case Flow => "flow"
    case Prism => "prism"
    case Constellation => "constellation"
    case Ripple => "ripple"
    case Mosaic => "mosaic"
    case Aurora => "aurora"
    case Bricks => "bricks"
    case Lines => "lines"
    case Blocks => "blocks"
    case BrutalistGrid => "brutalist-grid"
    case Striped => "striped"
    case Industrial => "industrial"
  }

  /** The `switch (graphicStyle)` of `renderGraphic`: which case a name selects, if any. */
  function ParseStyle(name: string): (r: Option<GraphicStyle>)
    ensures r.Some? ==> StyleName(r.value) == name
    ensures r.None? <==> forall s :: StyleName(s) != name
  {
    if name == "dots" then Some(Dots)
    else if name == "funnel" then Some(Funnel)
    else if name == "network" then Some(Network)
    else if name == "waves" then Some(Waves)
    else if name == "geometric" then Some(Geometric)
    else if name == "particles" then Some(Particles)
    else if name == "rays" then Some(Rays)
    else if name == "spiral" then Some(Spiral)
    else if name == "hexagons" then Some(Hexagons)
    else if name == "flow" then Some(Flow)
    else if name == "prism" then Some(Prism)
    else if name == "constellation" then Some(Constellation)
    else if name == "ripple" then Some(Ripple)
    else if name == "mosaic" then Some(Mosaic)
    else if name == "aurora" then Some(Aurora)
    else if name == "bricks" then Some(Bricks)
    else if name == "lines" then Some(Lines)
    else if name == "blocks" then Some(Blocks)
    else if name == "brutalist-grid" then Some(BrutalistGrid)
    else if name == "striped" then Some(Striped)
    else if name == "industrial" then Some(Industrial)
    else None
  }

  /** Every style's own name selects that style, so the 21 names are distinct. */
  lemma ParseStyleName(s: GraphicStyle)
    ensures ParseStyle(StyleName(s)) == Some(s)
  {
    var r := ParseStyle(StyleName(s));
    assert r.Some?;
    StyleNameInjective(r.value, s);
  }

  /** No two styles share a name. */
  lemma StyleNameInjective(s: GraphicStyle, t: GraphicStyle)
    requires StyleName(s) == StyleName(t)
    ensures s == t
  {
    var a, b := StyleName(s), StyleName(t);
    assert |a| == |b| && a[0] == b[0];
    if |a| > 1 {
      assert a[1] == b[1];
    }
    if |a| > 2 {
      assert a[2] == b[2];
    }
  }

  /** The ten styles whose generator is handed the density factor. */
  predicate TakesDensity(s: GraphicStyle) {
    s in {Dots, Funnel, Network, Geometric, Rays, Spiral, Hexagons, Flow, Prism, Mosaic}
  }

  /**
   * The scale of the `<g>` a style draws for density d: the generators that
   * take the density add their own enlargement to it; the others (and dots,
   * which spends the density on its spacing) draw at 1.
   */
  function StyleScale(s: GraphicStyle, d: real): real {
    match s
    case Funnel => d + 0.3
    case Network => d + 0.5
    case Geometric => d + 0.3
    case Rays => d + 0.4
    case Spiral => d + 0.2
    case Hexagons => d + 0.4
    case Flow => d + 0.3
    case Prism => d + 0.4
    case Mosaic => d + 0.3
    case _ => 1.0
  }

  /**
   * Only styles that take the density are scaled by it; every pattern is
   * drawn between half and one and a half times its size, and more text
   * never enlarges a pattern.
   */
  lemma StyleScaleFacts(s: GraphicStyle, n1: nat, n2: nat)
    requires n1 <= n2
    ensures !TakesDensity(s) ==> StyleScale(s, DensityOf(n1)) == 1.0
    ensures 0.5 <= StyleScale(s, DensityOf(n1)) <= 1.5
    ensures StyleScale(s, DensityOf(n2)) <= StyleScale(s, DensityOf(n1))
    ensures TakesDensity(s) && s != Dots && n1 < n2 < 100 ==> StyleScale(s, DensityOf(n2)) < StyleScale(s, DensityOf(n1))
  {
    DensityMonotone(n1, n2);
  }

  /**
   * `renderGraphic()`: the pattern of the named style, with the density of
   * the banner's texts, or nothing for an unknown name.
   */
  method RenderGraphic(m: MathLib, p: BannerProps) returns (g: Option<Pattern>)
    requires ValidCanvas(p)
    ensures g.None? <==> ParseStyle(p.graphicStyle).None?
    ensures g.Some? ==> Drawn(m, p, ParseStyle(p.graphicStyle).value, g.value)
  {
    var textLength := |p.primaryText + p.secondaryText|;
    var scale := MaxReal(0.5, 1.0 - textLength as real / 200.0);
    match ParseStyle(p.graphicStyle) {
      case None =>
        g := None;
      case Some(style) =>
        var pattern := DrawStyle(m, p, style, scale);
        g := Some(pattern);
    }
  }

  /**
   * What drawing a style promises: valid opacities, the scale StyleScale
   * gives for the banner's density, and, for the generators specified in
   * full, exactly their specification.
   */
  ghost predicate Drawn(m: MathLib, p: BannerProps, style: GraphicStyle, g: Pattern)
    requires ValidCanvas(p)
  {
    && g.scale == StyleScale(style, Density(p))
    && OpacitiesValid(g.elements)
    && SpecifiedDrawing(m, p, style, g)
  }

  /** The exact pattern of each generator specified in full; the others are constrained by Drawn alone. */
  ghost predicate SpecifiedDrawing(m: MathLib, p: BannerProps, style: GraphicStyle, g: Pattern)
    requires ValidCanvas(p)
  {
    MosaicDimensions(p);
    match style
    case Funnel => g == RenderFunnel(p, Density(p))
    case Hexagons => g == Pattern(Density(p) + 0.4, HexGrid(m, p, HexRows))
    case Mosaic => g == Pattern(Density(p) + 0.3, MosaicGrid(m, p, MosaicSeed(p), MosaicColumns(p), MosaicRows(p)))
    case Bricks => g == Pattern(1.0, BrickWall(m, p, BricksSeed(p), BrickRows(p)))
    case Blocks => g == Pattern(1.0, BlockGrid(m, p, BlocksSeed(p), BlockRows(p)))
    case Industrial => g == Pattern(1.0, PlateGrid(p, PlateRows(p)))
    case Lines =>
      g == Pattern(1.0, VerticalRules(p, CountBelow(VerticalBound(p))) + HorizontalRules(p, CountBelow(HorizontalBound(p))))
    case BrutalistGrid => g == Pattern(1.0, GridColumnRules(p, GridColumns(p)) + GridRowRules(p, GridRows(p)))
    case Striped => g == Pattern(1.0, Stripes(p, StripeCount(p)) + Hatches(m, p, HatchCount))
    case _ => true
  }

  /** The `case` bodies of the switch: one generator call per style. */
  method DrawStyle(m: MathLib, p: BannerProps, style: GraphicStyle, scale: real) returns (g: Pattern)
    requires ValidCanvas(p) && scale == Density(p)
    ensures Drawn(m, p, style, g)
  {
    if TakesDensity(style) {
      g := DrawScaled(m, p, style, scale);
    } else {
      g := DrawUnscaled(m, p, style);
    }
  }

  /** The cases whose generator is handed the density. */
  method DrawScaled(m: MathLib, p: BannerProps, style: GraphicStyle, scale: real) returns (g: Pattern)
    requires ValidCanvas(p) && scale == Density(p) && TakesDensity(style)
    ensures Drawn(m, p, style, g)
  {
    match style {
      case Dots => g := RenderDots(m, p, scale);
      case Funnel => g := RenderFunnel(p, scale);
      case Network => g := RenderNetwork(p, scale);
      case Geometric => g := RenderGeometric(p, scale);
      case Rays => g := RenderRays(m, p, scale);
      case Spiral => g := RenderSpiral(m, p, scale);
      case Hexagons => g := RenderHexagons(m, p, scale);
      case Flow => g := RenderFlow(m, p, scale);
      case Prism => g := RenderPrism(m, p, scale);
      case Mosaic => g := RenderMosaic(m, p, scale);
    }
  }

  /** The cases whose generator draws at its own fixed scale. */
  method DrawUnscaled(m: MathLib, p: BannerProps, style: GraphicStyle) returns (g: Pattern)
    requires ValidCanvas(p) && !TakesDensity(style)
    ensures Drawn(m, p, style, g)
  {
    match style {
      case Waves => g := RenderWaves(m, p);
      case Particles => g := RenderParticles(m, p);
      case Constellation => g := RenderConstellation(m, p);
      case Ripple => g := RenderRipple(p);
      case Aurora => g := RenderAurora(m, p);
      case Bricks => g := RenderBricks(m, p);
      case Lines => g := RenderLines(p);
      case Blocks => g := RenderBlocks(m, p);
      case BrutalistGrid => g := RenderBrutalistGrid(p);
      case Striped => g := RenderStriped(m, p);
      case Industrial => g := RenderIndustrial(p);
    }
  }
}
