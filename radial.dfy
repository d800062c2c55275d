/**
 * The generators laid out around a centre point: `renderRays`,
 * `renderSpiral`, `renderPrism` and `renderRipple`. Angles go through the
 * cosine and sine parameters; the distance laws below assume only the
 * identity sin^2 + cos^2 = 1 at the angles involved.
 */
module Radial {
  import opened Random
  import opened Shapes
  import opened Params

  /** The point at `radius` from (cx, cy) in direction `angle`. */
  function Polar(m: MathLib, cx: real, cy: real, angle: real, radius: real): Point {
    Point(cx + m.cos(angle) * radius, cy + m.sin(angle) * radius)
  }

  /** Under the trigonometric identity, Polar(...) is exactly `radius` away from the centre. */
  lemma PolarDistance(m: MathLib, cx: real, cy: real, angle: real, radius: real)
    requires Pythagorean(m, angle)
    ensures var q := Polar(m, cx, cy, angle, radius);
      (q.x - cx) * (q.x - cx) + (q.y - cy) * (q.y - cy) == radius * radius
  {
    var c, s := m.cos(angle), m.sin(angle);
    calc {
      (c * radius) * (c * radius) + (s * radius) * (s * radius);
      (c * c + s * s) * (radius * radius);
      radius * radius;
    }
  }

  // ------------------------------------------------------------------ rays

  function RayCentre(p: BannerProps): Point {
    Point(p.width * 0.3, p.height / 2.0)
  }

  function RayAngle(m: MathLib, i: nat): real {
    (i as real / 12.0) * m.pi * 2.0
  }

  function RayLength(p: BannerProps, i: nat): real
    requires ValidCanvas(p)
  {
    (100.0 + i as real * 30.0) * Uniform(p)
  }

  /** Ray i of twelve. */
  function Ray(m: MathLib, p: BannerProps, i: nat): Primitive
    requires ValidCanvas(p)
  {
    var c := RayCentre(p);
    var tip := Polar(m, c.x, c.y, RayAngle(m, i), RayLength(p, i));
    Line(c.x, c.y, tip.x, tip.y, 3.0 * Uniform(p), if i < 6 then Quantity else Quality, 0.2 + (i as real / 12.0) * 0.4)
  }

  function RayHub(p: BannerProps): Primitive
    requires ValidCanvas(p)
  {
    Circle(RayCentre(p).x, RayCentre(p).y, 15.0 * Uniform(p), Filled, Gradient, 0.8)
  }

  /** `renderRays(scale)`: twelve rays from one centre, then the gradient hub on top. */
  method RenderRays(m: MathLib, p: BannerProps, scale: real) returns (g: Pattern)
    requires ValidCanvas(p)
    ensures g.scale == scale + 0.4
    ensures |g.elements| == 13
    ensures forall i :: 0 <= i < 12 ==> g.elements[i] == Ray(m, p, i)
    ensures g.elements[12] == RayHub(p)
    ensures OpacitiesValid(g.elements)
  {
    var elements: seq<Primitive> := [];
    var i := 0;
    while i < 12
      invariant 0 <= i <= 12
      invariant |elements| == i
      invariant forall k :: 0 <= k < i ==> elements[k] == Ray(m, p, k)
      invariant OpacitiesValid(elements)
    {
      elements := elements + [Ray(m, p, i)];
      i := i + 1;
    }
    elements := elements + [RayHub(p)];
    g := Pattern(scale + 0.4, elements);
  }

  /**
   * Every ray starts at the hub's centre and, under the trigonometric
   * identity, has length (100 + 30 i) * uniform scale, so each ray is
   * longer than the one before; the first six are quantity-coloured and
   * opacity grows from 0.2 towards 0.6.
   */
  lemma RayStructure(m: MathLib, p: BannerProps, i: nat)
    requires ValidCanvas(p) && i < 12
    requires Pythagorean(m, RayAngle(m, i))
    ensures var r := Ray(m, p, i);
      && r.x1 == RayHub(p).cx && r.y1 == RayHub(p).cy
      && (r.x2 - r.x1) * (r.x2 - r.x1) + (r.y2 - r.y1) * (r.y2 - r.y1) == RayLength(p, i) * RayLength(p, i)
      && (i > 0 ==> RayLength(p, i) > RayLength(p, i - 1))
      && (r.paint == Quantity <==> i < 6)
      && 0.2 <= r.opacity < 0.6
  {
    var c := RayCentre(p);
    PolarDistance(m, c.x, c.y, RayAngle(m, i), RayLength(p, i));
    if i > 0 {
      assert RayLength(p, i) - RayLength(p, i - 1) == 30.0 * Uniform(p);
    }
  }

  // ---------------------------------------------------------------- spiral

  function SpiralCentre(p: BannerProps): Point {
    Point(p.width / 2.0, p.height / 2.0)
  }

  /** Sample i (0..100) of arm s: angle t * 4 pi + s pi and radius t * 300 * uniform scale, for t = i / 100. */
  function SpiralRadius(p: BannerProps, i: int): real
    requires ValidCanvas(p)
  {
    (i as real / 100.0) * 300.0 * Uniform(p)
  }

  function SpiralAngle(m: MathLib, s: nat, i: int): real {
    (i as real / 100.0) * m.pi * 4.0 + s as real * m.pi
  }

  function SpiralPoint(m: MathLib, p: BannerProps, s: nat, i: int): Point
    requires ValidCanvas(p)
  {
    Polar(m, SpiralCentre(p).x, SpiralCentre(p).y, SpiralAngle(m, s, i), SpiralRadius(p, i))
  }

  function ArmPaint(s: nat): Paint {
    if s == 0 then Quantity else Quality
  }

  /** The polyline of arm s through its 101 samples. */
  function Arm(m: MathLib, p: BannerProps, s: nat): Primitive
    requires ValidCanvas(p)
  {
    Polyline(seq(101, i => SpiralPoint(m, p, s, i)), 4.0 * Uniform(p), ArmPaint(s), 0.5)
  }

  /** The k-th of the six dots of arm s, on sample 20 k. */
  function ArmDot(m: MathLib, p: BannerProps, s: nat, k: nat): Primitive
    requires ValidCanvas(p)
  {
    var q := SpiralPoint(m, p, s, 20 * k);
    Circle(q.x, q.y, (3.0 + ((20 * k) as real / 100.0) * 6.0) * Uniform(p), Filled, ArmPaint(s), 0.7)
  }

  /** The samples of one arm, with the source's loop over i = 0..100. */
  method ArmPoints(m: MathLib, p: BannerProps, s: nat) returns (points: seq<Point>)
    requires ValidCanvas(p)
    ensures points == seq(101, i => SpiralPoint(m, p, s, i))
  {
    points := [];
    var i := 0;
    while i <= 100
      invariant 0 <= i <= 101
      invariant |points| == i
      invariant forall j :: 0 <= j < i ==> points[j] == SpiralPoint(m, p, s, j)
    {
      points := points + [SpiralPoint(m, p, s, i)];
      i := i + 1;
    }
  }

  /** `renderSpiral(scale)`: for each of two arms, its polyline and then six dots along it. */
  method RenderSpiral(m: MathLib, p: BannerProps, scale: real) returns (g: Pattern)
    requires ValidCanvas(p)
    ensures g.scale == scale + 0.2
    ensures |g.elements| == 14
    ensures forall s :: 0 <= s < 2 ==> g.elements[7 * s] == Arm(m, p, s)
    ensures forall s, k :: 0 <= s < 2 && 0 <= k < 6 ==> g.elements[7 * s + 1 + k] == ArmDot(m, p, s, k)
    ensures OpacitiesValid(g.elements)
  {
    var elements: seq<Primitive> := [];
    var s := 0;
    while s < 2
      invariant 0 <= s <= 2
      invariant |elements| == 7 * s
      invariant forall a :: 0 <= a < s ==> elements[7 * a] == Arm(m, p, a)
      invariant forall a, k :: 0 <= a < s && 0 <= k < 6 ==> elements[7 * a + 1 + k] == ArmDot(m, p, a, k)
      invariant OpacitiesValid(elements)
    {
      var points := ArmPoints(m, p, s);
      var arm := Polyline(points, 4.0 * Uniform(p), ArmPaint(s), 0.5);
      var dots := PlaceArmDots(m, p, s);
      SpiralStep(m, p, s, elements, arm, dots);
      elements := elements + [arm] + dots;
      s := s + 1;
    }
    g := Pattern(scale + 0.2, elements);
  }

  /** Appending arm s and its six dots extends the first s arms' elements to s + 1 arms. */
  lemma SpiralStep(m: MathLib, p: BannerProps, s: nat, elements: seq<Primitive>, arm: Primitive, dots: seq<Primitive>)
    requires ValidCanvas(p) && s < 2
    requires |elements| == 7 * s && OpacitiesValid(elements)
    requires forall a :: 0 <= a < s ==> elements[7 * a] == Arm(m, p, a)
    requires forall a, k :: 0 <= a < s && 0 <= k < 6 ==> elements[7 * a + 1 + k] == ArmDot(m, p, a, k)
    requires arm == Arm(m, p, s) && 0.0 <= arm.opacity <= 1.0
    requires |dots| == 6 && OpacitiesValid(dots)
    requires forall k :: 0 <= k < 6 ==> dots[k] == ArmDot(m, p, s, k)
    ensures var e := elements + [arm] + dots;
      && |e| == 7 * (s + 1) && OpacitiesValid(e)
      && (forall a :: 0 <= a < s + 1 ==> e[7 * a] == Arm(m, p, a))
      && (forall a, k :: 0 <= a < s + 1 && 0 <= k < 6 ==> e[7 * a + 1 + k] == ArmDot(m, p, a, k))
  {
    var e := elements + [arm] + dots;
    OpacitiesValidAppend(elements, [arm]);
    OpacitiesValidAppend(elements + [arm], dots);
    forall a, k | 0 <= a < s + 1 && 0 <= k < 6
      ensures e[7 * a + 1 + k] == ArmDot(m, p, a, k)
    {
      if a == s {
        assert e[7 * a + 1 + k] == dots[k];
      } else {
        assert 7 * a + 1 + k < 7 * s;
        assert e[7 * a + 1 + k] == elements[7 * a + 1 + k];
      }
    }
    forall a | 0 <= a < s + 1
      ensures e[7 * a] == Arm(m, p, a)
    {
      if a < s {
        assert e[7 * a] == elements[7 * a];
      }
    }
  }

  /** The dot loop of arm s: `i` over 0, 20, ..., 100 gives dots 0 to 5. */
  method PlaceArmDots(m: MathLib, p: BannerProps, s: nat) returns (dots: seq<Primitive>)
    requires ValidCanvas(p)
    ensures |dots| == 6
    ensures forall k :: 0 <= k < 6 ==> dots[k] == ArmDot(m, p, s, k)
    ensures OpacitiesValid(dots)
  {
    dots := [];
    var i := 0;
    while i <= 100
      invariant 0 <= i <= 120 && i % 20 == 0
      invariant |dots| == i / 20
      invariant forall k :: 0 <= k < i / 20 ==> dots[k] == ArmDot(m, p, s, k)
      invariant OpacitiesValid(dots)
    {
      dots := dots + [ArmDot(m, p, s, i / 20)];
      i := i + 20;
    }
  }

  /**
   * Each dot sits on a vertex of its arm's polyline, in the arm's colour;
   * under the trigonometric identity that vertex is t * 300 * uniform scale
   * from the centre, and the two arms start half a turn apart.
   */
  lemma SpiralStructure(m: MathLib, p: BannerProps, s: nat, k: nat)
    requires ValidCanvas(p) && s < 2 && k < 6
    requires Pythagorean(m, SpiralAngle(m, s, 20 * k))
    ensures ArmDot(m, p, s, k).cx == Arm(m, p, s).points[20 * k].x
    ensures ArmDot(m, p, s, k).cy == Arm(m, p, s).points[20 * k].y
    ensures ArmDot(m, p, s, k).paint == Arm(m, p, s).paint
    ensures var q, c := Arm(m, p, s).points[20 * k], SpiralCentre(p);
      (q.x - c.x) * (q.x - c.x) + (q.y - c.y) * (q.y - c.y) == SpiralRadius(p, 20 * k) * SpiralRadius(p, 20 * k)
    ensures SpiralAngle(m, 1, 20 * k) == SpiralAngle(m, 0, 20 * k) + m.pi
  {
    PolarDistance(m, SpiralCentre(p).x, SpiralCentre(p).y, SpiralAngle(m, s, 20 * k), SpiralRadius(p, 20 * k));
  }

  // ----------------------------------------------------------------- prism

  function PrismCentre(p: BannerProps): Point {
    Point(p.width * 0.35, p.height / 2.0)
  }

  /** Beam i of eight: a triangle from the centre spanning 0.3 radians either side of its direction. */
  function Beam(m: MathLib, p: BannerProps, i: nat): Primitive
    requires ValidCanvas(p)
  {
    var c := PrismCentre(p);
    var angle := (i as real / 8.0) * m.pi - m.pi / 2.0;
    var length := 250.0 * Uniform(p);
    var progress := i as real / 8.0;
    Path([c, Polar(m, c.x, c.y, angle - 0.3, length), Polar(m, c.x, c.y, angle + 0.3, length)], true, Filled,
         ProgressPaint(progress), 0.2 + progress * 0.3)
  }

  /** The central gradient triangle. */
  function PrismCore(p: BannerProps): Primitive
    requires ValidCanvas(p)
  {
    var c := PrismCentre(p);
    var size := 30.0 * Uniform(p);
    Path([Point(c.x, c.y - size), Point(c.x + size * 0.866, c.y + size * 0.5), Point(c.x - size * 0.866, c.y + size * 0.5)],
         true, Filled, Gradient, 0.9)
  }

  /** `renderPrism(scale)`: eight light beams, then the central prism on top. */
  method RenderPrism(m: MathLib, p: BannerProps, scale: real) returns (g: Pattern)
    requires ValidCanvas(p)
    ensures g.scale == scale + 0.4
    ensures |g.elements| == 9
    ensures forall i :: 0 <= i < 8 ==> g.elements[i] == Beam(m, p, i)
    ensures g.elements[8] == PrismCore(p)
    ensures OpacitiesValid(g.elements)
  {
    var elements: seq<Primitive> := [];
    var i := 0;
    while i < 8
      invariant 0 <= i <= 8
      invariant |elements| == i
      invariant forall k :: 0 <= k < i ==> elements[k] == Beam(m, p, k)
      invariant OpacitiesValid(elements)
    {
      elements := elements + [Beam(m, p, i)];
      i := i + 1;
    }
    elements := elements + [PrismCore(p)];
    g := Pattern(scale + 0.4, elements);
  }

  /** Every beam fans out from the centre of the prism, which is the core triangle's centroid; beams 0 to 3 are quantity-coloured. */
  lemma PrismStructure(m: MathLib, p: BannerProps, i: nat)
    requires ValidCanvas(p) && i < 8
    ensures Beam(m, p, i).points[0] == PrismCentre(p)
    ensures var t := PrismCore(p).points;
      (t[0].x + t[1].x + t[2].x) / 3.0 == PrismCentre(p).x && (t[0].y + t[1].y + t[2].y) / 3.0 == PrismCentre(p).y
    ensures Beam(m, p, i).paint == Quantity <==> i < 4
    ensures 0.2 <= Beam(m, p, i).opacity < 0.5
  {
  }

  // ---------------------------------------------------------------- ripple

  /** Ring i of eight around (0.3 w, h / 2). */
  function Ring(p: BannerProps, i: nat): Primitive {
    var progress := i as real / 8.0;
    Circle(p.width * 0.3, p.height / 2.0, (50.0 + i as real * 40.0) * ScaleX(p), Unfilled(2.0 * (p.width / 1584.0)), ProgressPaint(progress), 0.6 - progress * 0.4)
  }

  function RippleCore(p: BannerProps): Primitive {
    Circle(p.width * 0.3, p.height / 2.0, 10.0 * ScaleX(p), Filled, Gradient, 0.9)
  }

  /** `renderRipple()`: eight rings, then the gradient centre point. */
  method RenderRipple(p: BannerProps) returns (g: Pattern)
    requires ValidCanvas(p)
    ensures g.scale == 1.0
    ensures |g.elements| == 9
    ensures forall i :: 0 <= i < 8 ==> g.elements[i] == Ring(p, i)
    ensures g.elements[8] == RippleCore(p)
    ensures OpacitiesValid(g.elements)
  {
    var elements: seq<Primitive> := [];
    var i := 0;
    while i < 8
      invariant 0 <= i <= 8
      invariant |elements| == i
      invariant forall k :: 0 <= k < i ==> elements[k] == Ring(p, k)
      invariant OpacitiesValid(elements)
    {
      elements := elements + [Ring(p, i)];
      i := i + 1;
    }
    elements := elements + [RippleCore(p)];
    g := Pattern(1.0, elements);
  }

  /**
   * The rings are concentric with the centre point, each 40 * scaleX wider
   * in radius than the one inside it and fainter; rings 0 to 3 are
   * quantity-coloured and opacity falls from 0.6 to 0.25.
   */
  lemma RippleStructure(p: BannerProps, i: nat)
    requires ValidCanvas(p) && i < 8
    ensures Ring(p, i).cx == RippleCore(p).cx && Ring(p, i).cy == RippleCore(p).cy
    ensures i > 0 ==> Ring(p, i).r - Ring(p, i - 1).r == 40.0 * ScaleX(p) > 0.0
    ensures i > 0 ==> Ring(p, i).opacity < Ring(p, i - 1).opacity
    ensures Ring(p, i).paint == Quantity <==> i < 4
    ensures 0.25 <= Ring(p, i).opacity <= 0.6
    ensures Ring(p, i).fill == Unfilled(2.0 * (p.width / 1584.0)) && Ring(p, i).fill.strokeWidth > 0.0
    ensures RippleCore(p).fill == Filled
  {
  }
}
