/**
 * The three generators made of straight rules: `renderLines` (evenly
 * spaced vertical and horizontal rules whose weight grows across the
 * canvas), `renderBrutalistGrid` (a heavy two-colour grid) and
 * `renderStriped` (vertical bands crossed by 45-degree hatching).
 */
module GridLines {
  import opened JsNumber
  import opened Random
  import opened Shapes
  import opened Params

  // ----------------------------------------------------------------- lines

  /** `25 * scaleX`. */
  function LineSpacing(p: BannerProps): (s: real)
    requires ValidCanvas(p)
    ensures s > 0.0
  {
    25.0 * ScaleX(p)
  }

  /** The bound of the vertical loop, `width / spacing`. */
  function VerticalBound(p: BannerProps): real
    requires ValidCanvas(p)
  {
    p.width / LineSpacing(p)
  }

  /** The step of the horizontal rules, `spacing * 1.5`. */
  function HorizontalStep(p: BannerProps): (s: real)
    requires ValidCanvas(p)
    ensures s > 0.0
  {
    LineSpacing(p) * 1.5
  }

  /** The bound of the horizontal loop, `height / (spacing * 1.5)`. */
  function HorizontalBound(p: BannerProps): real
    requires ValidCanvas(p)
  {
    p.height / HorizontalStep(p)
  }

  /** `i / bound`: how far across its loop rule i lies. */
  function LineProgress(bound: real, i: nat): real
    requires bound > 0.0
  {
    i as real / bound
  }

  /** Vertical rule i: full height at `i * spacing`, weight `2 + 4 progress`, opacity 0.6. */
  function VerticalRule(p: BannerProps, i: nat): Primitive
    requires ValidCanvas(p)
  {
    Line(i as real * LineSpacing(p), 0.0, i as real * LineSpacing(p), p.height,
         2.0 + LineProgress(VerticalBound(p), i) * 4.0,
         ProgressPaint(LineProgress(VerticalBound(p), i)), 0.6)
  }

  /** Horizontal rule i: full width at `i * spacing * 1.5`, weight `1 + 2 progress`, opacity 0.4. */
  function HorizontalRule(p: BannerProps, i: nat): Primitive
    requires ValidCanvas(p)
  {
    Line(0.0, i as real * LineSpacing(p) * 1.5, p.width, i as real * LineSpacing(p) * 1.5,
         1.0 + LineProgress(HorizontalBound(p), i) * 2.0,
         ProgressPaint(LineProgress(HorizontalBound(p), i)), 0.4)
  }

  /** The first n vertical rules. */
  function VerticalRules(p: BannerProps, n: nat): (r: seq<Primitive>)
    requires ValidCanvas(p)
    ensures |r| == n
  {
    if n == 0 then [] else VerticalRules(p, n - 1) + [VerticalRule(p, n - 1)]
  }

  /** The first n horizontal rules. */
  function HorizontalRules(p: BannerProps, n: nat): (r: seq<Primitive>)
    requires ValidCanvas(p)
    ensures |r| == n
  {
    if n == 0 then [] else HorizontalRules(p, n - 1) + [HorizontalRule(p, n - 1)]
  }

  /** `renderLines()`: the vertical rules, then the horizontal ones. */
  method RenderLines(p: BannerProps) returns (g: Pattern)
    requires ValidCanvas(p)
    ensures g == Pattern(1.0, VerticalRules(p, CountBelow(VerticalBound(p))) + HorizontalRules(p, CountBelow(HorizontalBound(p))))
    ensures OpacitiesValid(g.elements)
  {
    var spacing := 25.0 * (p.width / 1584.0);
    var elements: seq<Primitive> := [];
    var i: nat := 0;
    while i as real < p.width / spacing
      invariant i <= CountBelow(VerticalBound(p))
      invariant elements == VerticalRules(p, i)
      decreases CountBelow(VerticalBound(p)) - i
    {
      CountBelowBound(VerticalBound(p), i);
      elements := elements + [VerticalRule(p, i)];
      i := i + 1;
    }
    CountBelowBound(VerticalBound(p), i);
    var horizontal: seq<Primitive> := [];
    i := 0;
    while i as real < p.height / (spacing * 1.5)
      invariant i <= CountBelow(HorizontalBound(p))
      invariant horizontal == HorizontalRules(p, i)
      decreases CountBelow(HorizontalBound(p)) - i
    {
      CountBelowBound(HorizontalBound(p), i);
      horizontal := horizontal + [HorizontalRule(p, i)];
      i := i + 1;
    }
    CountBelowBound(HorizontalBound(p), i);
    g := Pattern(1.0, elements + horizontal);
    LinesOpacities(p, CountBelow(VerticalBound(p)), CountBelow(HorizontalBound(p)));
  }

  /** `width / spacing` is 1584 / 25 whatever the canvas: there are always 64 vertical rules. */
  lemma VerticalRuleCount(p: BannerProps)
    requires ValidCanvas(p)
    ensures VerticalBound(p) == 63.36
    ensures CountBelow(VerticalBound(p)) == 64
  {
    var w := p.width;
    assert LineSpacing(p) == w * (25.0 / 1584.0);
    assert w / (w * (25.0 / 1584.0)) == 1584.0 / 25.0;
  }

  lemma {:induction false} VerticalRulesAt(p: BannerProps, n: nat, i: nat)
    requires ValidCanvas(p) && i < n
    ensures VerticalRules(p, n)[i] == VerticalRule(p, i)
  {
    if i < n - 1 {
      VerticalRulesAt(p, n - 1, i);
    }
  }

  lemma {:induction false} HorizontalRulesAt(p: BannerProps, n: nat, i: nat)
    requires ValidCanvas(p) && i < n
    ensures HorizontalRules(p, n)[i] == HorizontalRule(p, i)
  {
    if i < n - 1 {
      HorizontalRulesAt(p, n - 1, i);
    }
  }

  /** An index below the bound has progress in [0, 1). */
  lemma ProgressRange(bound: real, i: nat)
    requires bound > 0.0 && (i as real) < bound
    ensures 0.0 <= LineProgress(bound, i) < 1.0
  {
  }

  /**
   * Vertical rule i of the 64 spans the full height at `i * spacing`; its
   * weight lies in [2, 6) and grows with i; the first 32 take the quantity
   * colour and the rest the quality colour.
   */
  lemma VerticalRuleLook(p: BannerProps, i: nat)
    requires ValidCanvas(p) && i < 64
    ensures var r := VerticalRule(p, i);
      && r.x1 == r.x2 == i as real * LineSpacing(p) && r.y1 == 0.0 && r.y2 == p.height
      && 2.0 <= r.strokeWidth < 6.0
      && (r.paint == Quantity <==> i < 32)
  {
    VerticalRuleCount(p);
    ProgressRange(63.36, i);
  }

  /** Vertical rules get heavier from left to right. */
  lemma VerticalRulesThicken(p: BannerProps, i: nat, j: nat)
    requires ValidCanvas(p) && i < j
    ensures VerticalRule(p, i).strokeWidth < VerticalRule(p, j).strokeWidth
  {
    VerticalRuleCount(p);
  }

  /**
   * Horizontal rule i of the pattern spans the full width; its weight lies
   * in [1, 3); it takes the quantity colour exactly in the upper half of the
   * rules, i < bound / 2.
   */
  lemma HorizontalRuleLook(p: BannerProps, i: nat)
    requires ValidCanvas(p) && i < CountBelow(HorizontalBound(p))
    ensures var r := HorizontalRule(p, i);
      && r.x1 == 0.0 && r.x2 == p.width && r.y1 == r.y2
      && 1.0 <= r.strokeWidth < 3.0
      && (r.paint == Quantity <==> (i as real) < HorizontalBound(p) / 2.0)
  {
    CountBelowBound(HorizontalBound(p), i);
    var b := HorizontalBound(p);
    ProgressRange(b, i);
    assert b > 0.0;
    DivLess(i as real, b, 0.5);
  }

  /** Every rule of the lines pattern has a valid opacity (0.6 vertical, 0.4 horizontal). */
  lemma LinesOpacities(p: BannerProps, nv: nat, nh: nat)
    requires ValidCanvas(p)
    ensures OpacitiesValid(VerticalRules(p, nv) + HorizontalRules(p, nh))
  {
    forall i | 0 <= i < nv
      ensures 0.0 <= VerticalRules(p, nv)[i].opacity <= 1.0
    {
      VerticalRulesAt(p, nv, i);
    }
    forall i | 0 <= i < nh
      ensures 0.0 <= HorizontalRules(p, nh)[i].opacity <= 1.0
    {
      HorizontalRulesAt(p, nh, i);
    }
    OpacitiesValidAppend(VerticalRules(p, nv), HorizontalRules(p, nh));
  }

  // ------------------------------------------------------------- brutalist

  /** `50 * scaleX`; the rules are 3 units wide. */
  function CellSize(p: BannerProps): (c: real)
    requires ValidCanvas(p)
    ensures c > 0.0
  {
    50.0 * ScaleX(p)
  }

  const GridLineWidth: real := 3.0

  function GridRowStep(p: BannerProps): (s: real)
    requires ValidCanvas(p)
    ensures s > 0.0
  {
    CellSize(p) * 0.75
  }

  function GridColumns(p: BannerProps): nat
    requires ValidCanvas(p)
  {
    StepCount(p.width, CellSize(p))
  }

  function GridRows(p: BannerProps): nat
    requires ValidCanvas(p)
  {
    StepCount(p.height, GridRowStep(p))
  }

  /** A vertical grid rule at x, in the quantity colour. */
  function GridColumnRule(p: BannerProps, x: real): Primitive {
    Line(x, 0.0, x, p.height, GridLineWidth, Quantity, 0.8)
  }

  /** A horizontal grid rule at y, in the quality colour. */
  function GridRowRule(p: BannerProps, y: real): Primitive {
    Line(0.0, y, p.width, y, GridLineWidth, Quality, 0.8)
  }

  /** The first n vertical rules, at `x += cellSize`. */
  function GridColumnRules(p: BannerProps, n: nat): (r: seq<Primitive>)
    requires ValidCanvas(p)
    ensures |r| == n
  {
    if n == 0 then [] else GridColumnRules(p, n - 1) + [GridColumnRule(p, LoopValue(n - 1, CellSize(p)))]
  }

  /** The first n horizontal rules, at `y += cellSize * 0.75`. */
  function GridRowRules(p: BannerProps, n: nat): (r: seq<Primitive>)
    requires ValidCanvas(p)
    ensures |r| == n
  {
    if n == 0 then [] else GridRowRules(p, n - 1) + [GridRowRule(p, LoopValue(n - 1, GridRowStep(p)))]
  }

  /** `renderBrutalistGrid()`. */
  method RenderBrutalistGrid(p: BannerProps) returns (g: Pattern)
    requires ValidCanvas(p)
    ensures g == Pattern(1.0, GridColumnRules(p, GridColumns(p)) + GridRowRules(p, GridRows(p)))
    ensures OpacitiesValid(g.elements)
  {
    var cellSize := 50.0 * (p.width / 1584.0);
    var columns: seq<Primitive> := [];
    var x := 0.0;
    ghost var j: nat := 0;
    while x < p.width
      invariant x == LoopValue(j, CellSize(p))
      invariant j <= GridColumns(p)
      invariant columns == GridColumnRules(p, j)
      decreases GridColumns(p) - j
    {
      StepCountLoop(p.width, CellSize(p), j);
      columns := columns + [GridColumnRule(p, x)];
      x := x + cellSize;
      j := j + 1;
    }
    StepCountLoop(p.width, CellSize(p), j);
    var rows: seq<Primitive> := [];
    var y := 0.0;
    ghost var k: nat := 0;
    while y < p.height
      invariant y == LoopValue(k, GridRowStep(p))
      invariant k <= GridRows(p)
      invariant rows == GridRowRules(p, k)
      decreases GridRows(p) - k
    {
      StepCountLoop(p.height, GridRowStep(p), k);
      rows := rows + [GridRowRule(p, y)];
      y := y + cellSize * 0.75;
      k := k + 1;
    }
    StepCountLoop(p.height, GridRowStep(p), k);
    g := Pattern(1.0, columns + rows);
    BrutalistOpacities(p);
  }

  /** `width / cellSize` is 1584 / 50 whatever the canvas: there are always 32 vertical rules. */
  lemma GridColumnCount(p: BannerProps)
    requires ValidCanvas(p)
    ensures GridColumns(p) == 32
  {
    var w := p.width;
    assert CellSize(p) == w * (50.0 / 1584.0);
    assert w / (w * (50.0 / 1584.0)) == 1584.0 / 50.0;
  }

  /** Every vertical rule is quantity-coloured and on the canvas, the j-th at j cells. */
  lemma {:induction false} GridColumnRulesLook(p: BannerProps, n: nat, j: nat)
    requires ValidCanvas(p) && j < n <= GridColumns(p)
    ensures var r := GridColumnRules(p, n)[j];
      && r == GridColumnRule(p, LoopValue(j, CellSize(p)))
      && r.paint == Quantity && r.strokeWidth == 3.0 && 0.0 <= r.x1 < p.width
  {
    if j < n - 1 {
      GridColumnRulesLook(p, n - 1, j);
    } else {
      StepCountLoop(p.width, CellSize(p), j);
    }
  }

  /** Every horizontal rule is quality-coloured and on the canvas, the k-th at 0.75 k cells. */
  lemma {:induction false} GridRowRulesLook(p: BannerProps, n: nat, k: nat)
    requires ValidCanvas(p) && k < n <= GridRows(p)
    ensures var r := GridRowRules(p, n)[k];
      && r == GridRowRule(p, LoopValue(k, GridRowStep(p)))
      && r.paint == Quality && r.strokeWidth == 3.0 && 0.0 <= r.y1 < p.height
  {
    if k < n - 1 {
      GridRowRulesLook(p, n - 1, k);
    } else {
      StepCountLoop(p.height, GridRowStep(p), k);
    }
  }

  /** Every rule of the grid has opacity 0.8. */
  lemma BrutalistOpacities(p: BannerProps)
    requires ValidCanvas(p)
    ensures OpacitiesValid(GridColumnRules(p, GridColumns(p)) + GridRowRules(p, GridRows(p)))
  {
    forall j | 0 <= j < GridColumns(p)
      ensures 0.0 <= GridColumnRules(p, GridColumns(p))[j].opacity <= 1.0
    {
      GridColumnRulesLook(p, GridColumns(p), j);
    }
    forall k | 0 <= k < GridRows(p)
      ensures 0.0 <= GridRowRules(p, GridRows(p))[k].opacity <= 1.0
    {
      GridRowRulesLook(p, GridRows(p), k);
    }
    OpacitiesValidAppend(GridColumnRules(p, GridColumns(p)), GridRowRules(p, GridRows(p)));
  }

  // --------------------------------------------------------------- striped

  /** `30 * scaleX`; the bands repeat every two band widths. */
  function StripeWidth(p: BannerProps): (s: real)
    requires ValidCanvas(p)
    ensures s > 0.0
  {
    30.0 * ScaleX(p)
  }

  function StripePeriod(p: BannerProps): (s: real)
    requires ValidCanvas(p)
    ensures s > 0.0
  {
    StripeWidth(p) * 2.0
  }

  function StripeCount(p: BannerProps): nat
    requires ValidCanvas(p)
  {
    StepCount(p.width, StripePeriod(p))
  }

  /** A full-height quantity band with its left edge at x. */
  function Stripe(p: BannerProps, x: real): Primitive
    requires ValidCanvas(p)
  {
    Rect(x, 0.0, StripeWidth(p), p.height, 0.0, Quantity, 0.5)
  }

  /** The first n bands. */
  function Stripes(p: BannerProps, n: nat): (r: seq<Primitive>)
    requires ValidCanvas(p)
    ensures |r| == n
  {
    if n == 0 then [] else Stripes(p, n - 1) + [Stripe(p, LoopValue(n - 1, StripePeriod(p)))]
  }

  const HatchAngle: real := 45.0
  const HatchCount: nat := 30

  /** `Math.tan((angle * Math.PI) / 180)`. */
  function HatchSlope(m: MathLib): real {
    m.tan((HatchAngle * m.pi) / 180.0)
  }

  /** Hatch i starts on the top edge `height * tan` to the left of `i * stripeWidth`. */
  function HatchStart(m: MathLib, p: BannerProps, i: nat): real
    requires ValidCanvas(p)
  {
    i as real * StripeWidth(p) - p.height * HatchSlope(m)
  }

  /** Hatch i: from its start on the top edge to `start + height * tan` on the bottom edge. */
  function Hatch(m: MathLib, p: BannerProps, i: nat): Primitive
    requires ValidCanvas(p)
  {
    Line(HatchStart(m, p, i), 0.0, HatchStart(m, p, i) + p.height * HatchSlope(m), p.height, 2.0, Quality, 0.6)
  }

  /** The first n hatches. */
  function Hatches(m: MathLib, p: BannerProps, n: nat): (r: seq<Primitive>)
    requires ValidCanvas(p)
    ensures |r| == n
  {
    if n == 0 then [] else Hatches(m, p, n - 1) + [Hatch(m, p, n - 1)]
  }

  /** The stripe loop: a band every two stripe widths while x < width. */
  method LayStripes(p: BannerProps) returns (stripes: seq<Primitive>)
    requires ValidCanvas(p)
    ensures stripes == Stripes(p, StripeCount(p))
  {
    var stripeWidth := 30.0 * (p.width / 1584.0);
    stripes := [];
    var x := 0.0;
    ghost var j: nat := 0;
    while x < p.width
      invariant x == LoopValue(j, StripePeriod(p))
      invariant j <= StripeCount(p)
      invariant stripes == Stripes(p, j)
      decreases StripeCount(p) - j
    {
      StepCountLoop(p.width, StripePeriod(p), j);
      stripes := stripes + [Stripe(p, x)];
      x := x + stripeWidth * 2.0;
      j := j + 1;
    }
    StepCountLoop(p.width, StripePeriod(p), j);
  }

  /** The hatch loop: thirty 45-degree lines, one stripe width apart. */
  method DrawHatches(m: MathLib, p: BannerProps) returns (hatches: seq<Primitive>)
    requires ValidCanvas(p)
    ensures hatches == Hatches(m, p, HatchCount)
  {
    var stripeWidth := 30.0 * (p.width / 1584.0);
    hatches := [];
    for i := 0 to HatchCount
      invariant hatches == Hatches(m, p, i)
    {
      var start := i as real * stripeWidth - p.height * m.tan((HatchAngle * m.pi) / 180.0);
      var hatch := Line(start, 0.0, start + p.height * m.tan((HatchAngle * m.pi) / 180.0), p.height, 2.0, Quality, 0.6);
      assert start == HatchStart(m, p, i) by {
        assert stripeWidth == StripeWidth(p);
      }
      assert hatch == Hatch(m, p, i);
      hatches := hatches + [hatch];
    }
  }

  /** `renderStriped()`: the bands, then the 30 hatches over them. */
  method RenderStriped(m: MathLib, p: BannerProps) returns (g: Pattern)
    requires ValidCanvas(p)
    ensures g == Pattern(1.0, Stripes(p, StripeCount(p)) + Hatches(m, p, HatchCount))
    ensures OpacitiesValid(g.elements)
  {
    var stripes := LayStripes(p);
    var hatches := DrawHatches(m, p);
    g := Pattern(1.0, stripes + hatches);
    StripedOpacities(m, p, StripeCount(p), HatchCount);
  }

  /** `width / (2 stripeWidth)` is 26.4 whatever the canvas: there are always 27 bands. */
  lemma StripeCountIs(p: BannerProps)
    requires ValidCanvas(p)
    ensures StripeCount(p) == 27
  {
    var w := p.width;
    assert StripePeriod(p) == w * (60.0 / 1584.0);
    assert w / (w * (60.0 / 1584.0)) == 1584.0 / 60.0;
  }

  /** The bands are separated by gaps as wide as themselves: band j covers [2 j w, 2 j w + w). */
  lemma StripesApart(p: BannerProps, j: nat)
    requires ValidCanvas(p)
    ensures Stripe(p, LoopValue(j, StripePeriod(p))).x + StripeWidth(p) + StripeWidth(p) == LoopValue(j + 1, StripePeriod(p))
  {
  }

  lemma {:induction false} StripesAt(p: BannerProps, n: nat, j: nat)
    requires ValidCanvas(p) && j < n
    ensures Stripes(p, n)[j] == Stripe(p, LoopValue(j, StripePeriod(p)))
  {
    if j < n - 1 {
      StripesAt(p, n - 1, j);
    }
  }

  lemma {:induction false} HatchesAt(m: MathLib, p: BannerProps, n: nat, i: nat)
    requires ValidCanvas(p) && i < n
    ensures Hatches(m, p, n)[i] == Hatch(m, p, i)
  {
    if i < n - 1 {
      HatchesAt(m, p, n - 1, i);
    }
  }

  /**
   * Every hatch runs from the top edge to the bottom edge and ends at
   * `i * stripeWidth`; when the tangent of 45 degrees is 1 it rises at
   * exactly 45 degrees (horizontal run equals the height), and then hatches
   * are parallel and a band width apart.
   */
  lemma HatchGeometry(m: MathLib, p: BannerProps, i: nat)
    requires ValidCanvas(p)
    ensures var h := Hatch(m, p, i);
      && h.y1 == 0.0 && h.y2 == p.height && h.x2 == i as real * StripeWidth(p)
      && (HatchSlope(m) == 1.0 ==> h.x2 - h.x1 == h.y2 - h.y1)
      && Hatch(m, p, i + 1).x1 - h.x1 == StripeWidth(p)
  {
  }

  /** Bands (0.5) and hatches (0.6) have valid opacities. */
  lemma StripedOpacities(m: MathLib, p: BannerProps, ns: nat, nh: nat)
    requires ValidCanvas(p)
    ensures OpacitiesValid(Stripes(p, ns) + Hatches(m, p, nh))
  {
    forall j | 0 <= j < ns
      ensures 0.0 <= Stripes(p, ns)[j].opacity <= 1.0
    {
      StripesAt(p, ns, j);
    }
    forall i | 0 <= i < nh
      ensures 0.0 <= Hatches(m, p, nh)[i].opacity <= 1.0
    {
      HatchesAt(m, p, nh, i);
    }
    OpacitiesValidAppend(Stripes(p, ns), Hatches(m, p, nh));
  }
}
