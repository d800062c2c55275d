/**
 * The generators that sample a curve across the canvas, `for (let x = 0;
 * x <= width; x += step)`: `renderWaves`, `renderFlow` and `renderAurora`.
 * Their heights come from the sine function, which is a parameter of the
 * model; what is proved is the structure: how many samples, where, and
 * the colour and opacity of each layer.
 */
module Curves {
  import opened JsNumber
  import opened Random
  import opened Shapes
  import opened Params

  /** The number of iterations of `for (let x = 0; x <= limit; x += step)`. */
  function SampleCount(limit: real, step: real): (n: nat)
    requires step > 0.0
    ensures limit >= 0.0 ==> n >= 1
  {
    if limit < 0.0 then 0 else Floor(limit / step) + 1
  }

  /** Sample k of that loop is taken exactly when k is below the count. */
  lemma SampleCountBound(limit: real, step: real, k: nat)
    requires step > 0.0
    ensures k < SampleCount(limit, step) <==> k as real * step <= limit
  {
    if limit >= 0.0 {
      assert k as real * step <= limit <==> k as real <= limit / step;
    }
  }

  /** The samples of `f` the loop collects: the points (k * step, f(k * step)). */
  function Samples(limit: real, step: real, f: real -> real): (pts: seq<Point>)
    requires step > 0.0
    ensures |pts| == SampleCount(limit, step)
  {
    seq(SampleCount(limit, step), k => Point(k as real * step, f(k as real * step)))
  }

  /** The sampling loop, with its accumulated abscissa. */
  method Sample(limit: real, step: real, f: real -> real) returns (pts: seq<Point>)
    requires step > 0.0
    ensures pts == Samples(limit, step, f)
  {
    pts := [];
    var x := 0.0;
    ghost var k: nat := 0;
    while x <= limit
      invariant x == k as real * step
      invariant k <= SampleCount(limit, step)
      invariant |pts| == k
      invariant forall j :: 0 <= j < k ==> pts[j] == Point(j as real * step, f(j as real * step))
      decreases SampleCount(limit, step) - k
    {
      SampleCountBound(limit, step, k);
      pts := pts + [Point(x, f(x))];
      assert pts[k] == Point(k as real * step, f(k as real * step));
      assert forall j :: 0 <= j < k ==> pts[j] == Point(j as real * step, f(j as real * step));
      assert (k + 1) as real * step == k as real * step + step;
      x := x + step;
      k := k + 1;
    }
    SampleCountBound(limit, step, k);
    assert k == SampleCount(limit, step);
    ghost var spec := Samples(limit, step, f);
    forall j | 0 <= j < k
      ensures pts[j] == spec[j]
    {
      assert spec[j] == Point(j as real * step, f(j as real * step));
    }
  }

  /** Every sample lies on the canvas's horizontal extent, at the loop's spacing. */
  lemma SamplesSpan(limit: real, step: real, f: real -> real, k: nat)
    requires step > 0.0 && k < SampleCount(limit, step)
    ensures 0.0 <= Samples(limit, step, f)[k].x <= limit
    ensures Samples(limit, step, f)[k].y == f(Samples(limit, step, f)[k].x)
    ensures k > 0 ==> Samples(limit, step, f)[k].x - Samples(limit, step, f)[k - 1].x == step
  {
    SampleCountBound(limit, step, k);
  }

  /** The bottom-right and bottom-left corners that close a filled curtain. */
  function BottomCorners(p: BannerProps): seq<Point> {
    [Point(p.width, p.height), Point(0.0, p.height)]
  }

  // ----------------------------------------------------------------- waves

  /** Wave i's baseline (`yOffset`), amplitude and frequency. */
  function WaveOffset(p: BannerProps, i: nat): real {
    p.height / 2.0 - 4.0 * 15.0 * ScaleY(p) + i as real * 30.0 * ScaleY(p)
  }

  function WaveAmplitude(p: BannerProps, i: nat): (a: real)
    requires ValidCanvas(p)
    ensures a > 0.0
  {
    (20.0 + i as real * 10.0) * Uniform(p)
  }

  function WaveFrequency(i: nat): real {
    0.01 + i as real * 0.002
  }

  /** The height of wave i at abscissa x. */
  function WaveHeight(m: MathLib, p: BannerProps, i: nat, x: real): real
    requires ValidCanvas(p)
  {
    WaveOffset(p, i) + m.sin(x * WaveFrequency(i)) * WaveAmplitude(p, i)
  }

  /** Wave i: its samples every 10 units, closed along the bottom edge. */
  function Wave(m: MathLib, p: BannerProps, i: nat): Primitive
    requires ValidCanvas(p)
  {
    Path(Samples(p.width, 10.0, x => WaveHeight(m, p, i, x)) + BottomCorners(p), true, Filled,
         if i < 2 then Quantity else Quality, 0.15 + i as real * 0.1)
  }

  /** `renderWaves()`: four filled waves, back to front. */
  method RenderWaves(m: MathLib, p: BannerProps) returns (g: Pattern)
    requires ValidCanvas(p)
    ensures g.scale == 1.0
    ensures |g.elements| == 4
    ensures forall i :: 0 <= i < 4 ==> g.elements[i] == Wave(m, p, i)
    ensures OpacitiesValid(g.elements)
  {
    var elements: seq<Primitive> := [];
    var i := 0;
    while i < 4
      invariant 0 <= i <= 4
      invariant |elements| == i
      invariant forall k :: 0 <= k < i ==> elements[k] == Wave(m, p, k)
      invariant OpacitiesValid(elements)
    {
      var points := Sample(p.width, 10.0, x => WaveHeight(m, p, i, x));
      elements := elements + [Path(points + BottomCorners(p), true, Filled, if i < 2 then Quantity else Quality, 0.15 + i as real * 0.1)];
      i := i + 1;
    }
    g := Pattern(1.0, elements);
  }

  /**
   * Each wave has one sample per 10 units of width plus the two bottom
   * corners; the first two waves are quantity-coloured, the last two
   * quality-coloured, and each wave in front is more opaque than the one
   * behind it.
   */
  lemma WaveStructure(m: MathLib, p: BannerProps, i: nat)
    requires ValidCanvas(p) && i < 4
    ensures |Wave(m, p, i).points| == Floor(p.width / 10.0) + 3
    ensures Wave(m, p, i).points[|Wave(m, p, i).points| - 2..] == BottomCorners(p)
    ensures Wave(m, p, i).paint == (if i < 2 then Quantity else Quality)
    ensures 0.15 <= Wave(m, p, i).opacity <= 0.45
    ensures i > 0 ==> Wave(m, p, i).opacity > Wave(m, p, i - 1).opacity
  {
    var s := Samples(p.width, 10.0, x => WaveHeight(m, p, i, x));
    assert Wave(m, p, i).points == s + BottomCorners(p);
    assert (s + BottomCorners(p))[|s|..] == BottomCorners(p);
  }

  /** With a sine bounded by 1, wave i stays within its amplitude of its baseline. */
  lemma WaveWithinAmplitude(m: MathLib, p: BannerProps, i: nat, x: real)
    requires ValidCanvas(p)
    requires -1.0 <= m.sin(x * WaveFrequency(i)) <= 1.0
    ensures WaveOffset(p, i) - WaveAmplitude(p, i) <= WaveHeight(m, p, i, x) <= WaveOffset(p, i) + WaveAmplitude(p, i)
  {
    BoundedSwing(WaveOffset(p, i), m.sin(x * WaveFrequency(i)), WaveAmplitude(p, i), WaveHeight(m, p, i, x));
  }

  lemma BoundedSwing(base: real, sn: real, amplitude: real, h: real)
    requires -1.0 <= sn <= 1.0 && amplitude >= 0.0 && h == base + sn * amplitude
    ensures base - amplitude <= h <= base + amplitude
  {
    var below, above := (1.0 + sn) * amplitude, (1.0 - sn) * amplitude;
    assert below >= 0.0 && above >= 0.0;
    assert h - (base - amplitude) == below;
    assert (base + amplitude) - h == above;
  }

  // ------------------------------------------------------------------ flow

  /** The height of flow line i at abscissa x: two superposed sines around its base. */
  function FlowHeight(m: MathLib, p: BannerProps, i: nat, x: real): real
    requires ValidCanvas(p)
  {
    var yBase := p.height * (0.2 + i as real * 0.15);
    var wave1 := m.sin((x / p.width) * m.pi * 2.0 + i as real) * 20.0 * ScaleY(p);
    var wave2 := m.sin((x / p.width) * m.pi * 3.0 + i as real * 0.5) * 15.0 * ScaleY(p);
    yBase + wave1 + wave2
  }

  /** Flow line i: an open stroked path sampled every 20 units. */
  function Flow(m: MathLib, p: BannerProps, i: nat): Primitive
    requires ValidCanvas(p)
  {
    var progress := i as real / 5.0;
    Path(Samples(p.width, 20.0, x => FlowHeight(m, p, i, x)), false, Unfilled(3.0 * Uniform(p)), ProgressPaint(progress), 0.4 + progress * 0.3)
  }

  /** `renderFlow(scale)`: five flowing lines. */
  method RenderFlow(m: MathLib, p: BannerProps, scale: real) returns (g: Pattern)
    requires ValidCanvas(p)
    ensures g.scale == scale + 0.3
    ensures |g.elements| == 5
    ensures forall i :: 0 <= i < 5 ==> g.elements[i] == Flow(m, p, i)
    ensures OpacitiesValid(g.elements)
  {
    var elements: seq<Primitive> := [];
    var i := 0;
    while i < 5
      invariant 0 <= i <= 5
      invariant |elements| == i
      invariant forall k :: 0 <= k < i ==> elements[k] == Flow(m, p, k)
      invariant OpacitiesValid(elements)
    {
      var points := Sample(p.width, 20.0, x => FlowHeight(m, p, i, x));
      var progress := i as real / 5.0;
      elements := elements + [Path(points, false, Unfilled(3.0 * Uniform(p)), ProgressPaint(progress), 0.4 + progress * 0.3)];
      i := i + 1;
    }
    g := Pattern(scale + 0.3, elements);
  }

  /** Flow lines 0 to 2 are quantity-coloured and 3 and 4 quality-coloured; opacity rises from 0.4 to 0.64. */
  lemma FlowStructure(m: MathLib, p: BannerProps, i: nat)
    requires ValidCanvas(p) && i < 5
    ensures |Flow(m, p, i).points| == Floor(p.width / 20.0) + 1
    ensures Flow(m, p, i).paint == (if i < 3 then Quantity else Quality)
    ensures 0.4 <= Flow(m, p, i).opacity <= 0.64
    ensures !Flow(m, p, i).closed
    ensures Flow(m, p, i).fill == Unfilled(3.0 * Uniform(p)) && Flow(m, p, i).fill.strokeWidth > 0.0
  {
  }

  // ---------------------------------------------------------------- aurora

  /** The height of aurora layer i at abscissa x. */
  function AuroraHeight(m: MathLib, p: BannerProps, i: nat, x: real): real {
    var yBase := p.height * (0.3 + i as real * 0.1);
    var amplitude := 80.0 * (p.height / 396.0);
    var frequency := 0.008 + i as real * 0.002;
    var y1 := yBase + m.sin(x * frequency) * amplitude;
    var y2 := m.sin(x * frequency * 1.5 + i as real) * amplitude * 0.5;
    y1 + y2
  }

  function AuroraSamples(m: MathLib, p: BannerProps, i: nat): (pts: seq<Point>)
    requires ValidCanvas(p)
    ensures |pts| >= 1
  {
    Samples(p.width, 10.0, x => AuroraHeight(m, p, i, x))
  }

  /** The curtain of layer i: its first sample (the `M`), all samples again, then closed along the bottom. */
  function Curtain(m: MathLib, p: BannerProps, i: nat): Primitive
    requires ValidCanvas(p)
  {
    var pts := AuroraSamples(m, p, i);
    var progress := i as real / 5.0;
    Path([pts[0]] + pts + BottomCorners(p), true, Filled, ProgressPaint(progress), 0.15 + progress * 0.1)
  }

  /** The shimmer line along the top of layer i. */
  function Shimmer(m: MathLib, p: BannerProps, i: nat): Primitive
    requires ValidCanvas(p)
  {
    Polyline(AuroraSamples(m, p, i), 2.0 * ScaleX(p), ProgressPaint(i as real / 5.0), 0.5)
  }

  /** `renderAurora()`: five layers, each a curtain followed by its shimmer line. */
  method RenderAurora(m: MathLib, p: BannerProps) returns (g: Pattern)
    requires ValidCanvas(p)
    ensures g.scale == 1.0
    ensures |g.elements| == 10
    ensures forall i :: 0 <= i < 5 ==> g.elements[2 * i] == Curtain(m, p, i) && g.elements[2 * i + 1] == Shimmer(m, p, i)
    ensures OpacitiesValid(g.elements)
  {
    var elements: seq<Primitive> := [];
    var i := 0;
    while i < 5
      invariant 0 <= i <= 5
      invariant |elements| == 2 * i
      invariant forall k :: 0 <= k < i ==> elements[2 * k] == Curtain(m, p, k) && elements[2 * k + 1] == Shimmer(m, p, k)
      invariant OpacitiesValid(elements)
    {
      var points := Sample(p.width, 10.0, x => AuroraHeight(m, p, i, x));
      var progress := i as real / 5.0;
      var color := ProgressPaint(progress);
      elements := elements + [Path([points[0]] + points + BottomCorners(p), true, Filled, color, 0.15 + progress * 0.1)];
      elements := elements + [Polyline(points, 2.0 * (p.width / 1584.0), color, 0.5)];
      i := i + 1;
    }
    g := Pattern(1.0, elements);
  }

  /**
   * The shimmer line of each layer traces exactly the top edge of its
   * curtain, in the same colour; layers 0 to 2 are quantity-coloured and
   * curtain opacity rises from 0.15 to 0.23.
   */
  lemma AuroraStructure(m: MathLib, p: BannerProps, i: nat)
    requires ValidCanvas(p) && i < 5
    ensures var c, s := Curtain(m, p, i), Shimmer(m, p, i);
      && c.points[1..1 + |s.points|] == s.points
      && c.points[0] == s.points[0]
      && c.paint == s.paint == (if i < 3 then Quantity else Quality)
      && 0.15 <= c.opacity <= 0.23
  {
    var pts := AuroraSamples(m, p, i);
    assert ([pts[0]] + pts + BottomCorners(p))[1..1 + |pts|] == pts;
  }
}
