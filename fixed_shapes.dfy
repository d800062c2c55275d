/**
 * The generators drawn from fixed tables of reference coordinates on the
 * 1584 x 396 banner, scaled to the canvas: `renderFunnel`, `renderNetwork`
 * and `renderGeometric`. Each goes from quantity shapes on the left,
 * through gradient shapes, to quality shapes on the right.
 */
module FixedShapes {
  import opened Shapes
  import opened Params

  /** A reference coordinate scaled to the canvas. */
  function At(p: BannerProps, x: real, y: real): Point {
    Point(x * ScaleX(p), y * ScaleY(p))
  }

  // ---------------------------------------------------------------- funnel

  /** One closed quadrilateral segment of the funnel, between reference abscissas x0 and x1. */
  function FunnelSegment(p: BannerProps, x0: real, top0: real, bottom0: real, x1: real, top1: real, bottom1: real,
                         paint: Paint, opacity: real): Primitive {
    Path([At(p, x0, top0), At(p, x0, bottom0), At(p, x1, bottom1), At(p, x1, top1)], true, Filled, paint, opacity)
  }

  /** `renderFunnel(scale)`: a wide quantity mouth, a gradient middle and a narrow quality neck. */
  function RenderFunnel(p: BannerProps, scale: real): (g: Pattern)
    ensures g.scale == scale + 0.3
    ensures |g.elements| == 3
    ensures forall k :: 0 <= k < 3 ==> g.elements[k].Path? && |g.elements[k].points| == 4 && g.elements[k].closed
    ensures OpacitiesValid(g.elements)
  {
    Pattern(scale + 0.3, [
      FunnelSegment(p, 100.0, 80.0, 316.0, 350.0, 116.0, 280.0, Quantity, 0.7),
      FunnelSegment(p, 350.0, 116.0, 280.0, 650.0, 156.0, 240.0, Gradient, 0.6),
      FunnelSegment(p, 650.0, 156.0, 240.0, 800.0, 176.0, 220.0, Quality, 0.8)])
  }

  /** Opening height of a funnel segment at its left (`right == false`) or right edge. */
  function Opening(e: Primitive, right: bool): real
    requires e.Path? && |e.points| == 4
  {
    if right then e.points[2].y - e.points[3].y else e.points[1].y - e.points[0].y
  }

  /**
   * The three segments join without gaps (each one's right edge is the
   * next one's left edge), colour runs quantity, gradient, quality, and on a
   * canvas of positive height the funnel narrows strictly within and across
   * its segments.
   */
  lemma FunnelShape(p: BannerProps, scale: real)
    requires ValidCanvas(p)
    ensures var e := RenderFunnel(p, scale).elements;
      && e[0].points[3] == e[1].points[0] && e[0].points[2] == e[1].points[1]
      && e[1].points[3] == e[2].points[0] && e[1].points[2] == e[2].points[1]
      && e[0].paint == Quantity && e[1].paint == Gradient && e[2].paint == Quality
      && Opening(e[0], false) > Opening(e[0], true) == Opening(e[1], false)
      && Opening(e[1], false) > Opening(e[1], true) == Opening(e[2], false)
      && Opening(e[2], false) > Opening(e[2], true) > 0.0
  {
    var sy := ScaleY(p);
    assert sy > 0.0;
    assert 316.0 * sy - 80.0 * sy > 280.0 * sy - 116.0 * sy;
    assert 280.0 * sy - 116.0 * sy > 240.0 * sy - 156.0 * sy;
    assert 240.0 * sy - 156.0 * sy > 220.0 * sy - 176.0 * sy > 0.0;
  }

  // --------------------------------------------------------------- network

  /** A node of the network table: reference centre, reference radius and colour. */
  datatype NodeSpec = NodeSpec(x: real, y: real, r: real, paint: Paint)

  const NetworkNodes: seq<NodeSpec> := [
    NodeSpec(150.0, 120.0, 6.0, Quantity),
    NodeSpec(200.0, 180.0, 7.0, Quantity),
    NodeSpec(250.0, 100.0, 5.0, Quantity),
    NodeSpec(280.0, 200.0, 8.0, Quantity),
    NodeSpec(350.0, 150.0, 6.0, Quantity),
    NodeSpec(450.0, 180.0, 10.0, Gradient),
    NodeSpec(600.0, 160.0, 12.0, Quality),
    NodeSpec(750.0, 190.0, 14.0, Quality),
    NodeSpec(900.0, 170.0, 16.0, Quality)]

  /** The circle drawn for node k. */
  function NodeCircle(p: BannerProps, k: nat): Primitive
    requires ValidCanvas(p) && k < |NetworkNodes|
  {
    var n := NetworkNodes[k];
    Circle(n.x * ScaleX(p), n.y * ScaleY(p), n.r * Uniform(p), Filled, n.paint, 0.9)
  }

  /** The connection from node i to node i + 1. */
  function Link(p: BannerProps, i: nat): Primitive
    requires ValidCanvas(p) && i < |NetworkNodes| - 1
  {
    var from, to := NetworkNodes[i], NetworkNodes[i + 1];
    Line(from.x * ScaleX(p), from.y * ScaleY(p), to.x * ScaleX(p), to.y * ScaleY(p),
         2.0 * Uniform(p), if i < 4 then Quantity else Quality, 0.4)
  }

  /** `renderNetwork(scale)`: the eight links of the chain, then the nine nodes on top. */
  method RenderNetwork(p: BannerProps, scale: real) returns (g: Pattern)
    requires ValidCanvas(p)
    ensures g.scale == scale + 0.5
    ensures |g.elements| == 17
    ensures forall i :: 0 <= i < 8 ==> g.elements[i] == Link(p, i)
    ensures forall k :: 0 <= k < 9 ==> g.elements[8 + k] == NodeCircle(p, k)
    ensures OpacitiesValid(g.elements)
  {
    var elements: seq<Primitive> := [];
    var i := 0;
    while i < |NetworkNodes| - 1
      invariant 0 <= i <= |NetworkNodes| - 1
      invariant |elements| == i
      invariant forall k :: 0 <= k < i ==> elements[k] == Link(p, k)
      invariant OpacitiesValid(elements)
    {
      elements := elements + [Link(p, i)];
      i := i + 1;
    }
    var idx := 0;
    while idx < |NetworkNodes|
      invariant 0 <= idx <= |NetworkNodes|
      invariant |elements| == 8 + idx
      invariant forall k :: 0 <= k < 8 ==> elements[k] == Link(p, k)
      invariant forall k :: 0 <= k < idx ==> elements[8 + k] == NodeCircle(p, k)
      invariant OpacitiesValid(elements)
    {
      elements := elements + [NodeCircle(p, idx)];
      idx := idx + 1;
    }
    g := Pattern(scale + 0.5, elements);
  }

  /**
   * The links form one chain through the nodes in table order: link i runs
   * from the centre of node i to the centre of node i + 1, so it starts
   * where link i - 1 ends.
   */
  lemma LinksChainNodes(p: BannerProps, i: nat)
    requires ValidCanvas(p) && i < 8
    ensures Link(p, i).x1 == NodeCircle(p, i).cx && Link(p, i).y1 == NodeCircle(p, i).cy
    ensures Link(p, i).x2 == NodeCircle(p, i + 1).cx && Link(p, i).y2 == NodeCircle(p, i + 1).cy
    ensures i > 0 ==> Link(p, i).x1 == Link(p, i - 1).x2 && Link(p, i).y1 == Link(p, i - 1).y2
  {
  }

  /** Node colours: quantity for the first five nodes, the gradient for the sixth, quality for the last three. */
  lemma NodeColours(p: BannerProps, k: nat)
    requires ValidCanvas(p) && k < 9
    ensures NodeCircle(p, k).paint == (if k < 5 then Quantity else if k == 5 then Gradient else Quality)
  {
  }

  // ------------------------------------------------------------- geometric

  datatype ShapeSpec = ShapeSpec(x: real, y: real, size: real)

  const Triangles: seq<ShapeSpec> := [
    ShapeSpec(150.0, 100.0, 50.0), ShapeSpec(250.0, 180.0, 40.0),
    ShapeSpec(180.0, 250.0, 45.0), ShapeSpec(300.0, 120.0, 35.0)]

  const Squares: seq<ShapeSpec> := [ShapeSpec(450.0, 150.0, 40.0), ShapeSpec(550.0, 200.0, 35.0)]

  const Discs: seq<ShapeSpec> := [
    ShapeSpec(750.0, 140.0, 45.0), ShapeSpec(850.0, 200.0, 50.0), ShapeSpec(950.0, 160.0, 55.0)]

  /** Triangle idx: apex above the scaled centre, base corners at +-0.866 size, half a size below. */
  function Triangle(p: BannerProps, idx: nat): Primitive
    requires ValidCanvas(p) && idx < |Triangles|
  {
    var t := Triangles[idx];
    var x, y, size := t.x * ScaleX(p), t.y * ScaleY(p), t.size * Uniform(p);
    Path([Point(x, y - size), Point(x + size * 0.866, y + size * 0.5), Point(x - size * 0.866, y + size * 0.5)],
         true, Filled, Quantity, 0.3 + idx as real * 0.1)
  }

  /** Square idx, centred on its scaled reference point and turned 45 + 15 idx degrees. */
  function Square(p: BannerProps, idx: nat): Primitive
    requires ValidCanvas(p) && idx < |Squares|
  {
    var q := Squares[idx];
    var x, y, size := q.x * ScaleX(p), q.y * ScaleY(p), q.size * Uniform(p);
    Rect(x - size / 2.0, y - size / 2.0, size, size, 45.0 + idx as real * 15.0, Gradient, 0.5)
  }

  function Disc(p: BannerProps, idx: nat): Primitive
    requires ValidCanvas(p) && idx < |Discs|
  {
    var c := Discs[idx];
    Circle(c.x * ScaleX(p), c.y * ScaleY(p), c.size * Uniform(p), Filled, Quality, 0.4 + idx as real * 0.15)
  }

  /** `renderGeometric(scale)`: four quantity triangles, two gradient squares, three quality circles. */
  method RenderGeometric(p: BannerProps, scale: real) returns (g: Pattern)
    requires ValidCanvas(p)
    ensures g.scale == scale + 0.3
    ensures |g.elements| == 9
    ensures forall k :: 0 <= k < 4 ==> g.elements[k] == Triangle(p, k)
    ensures forall k :: 0 <= k < 2 ==> g.elements[4 + k] == Square(p, k)
    ensures forall k :: 0 <= k < 3 ==> g.elements[6 + k] == Disc(p, k)
    ensures OpacitiesValid(g.elements)
  {
    var elements: seq<Primitive> := [];
    var idx := 0;
    while idx < |Triangles|
      invariant 0 <= idx <= |Triangles|
      invariant |elements| == idx
      invariant forall k :: 0 <= k < idx ==> elements[k] == Triangle(p, k)
      invariant OpacitiesValid(elements)
    {
      elements := elements + [Triangle(p, idx)];
      idx := idx + 1;
    }
    idx := 0;
    while idx < |Squares|
      invariant 0 <= idx <= |Squares|
      invariant |elements| == 4 + idx
      invariant forall k :: 0 <= k < 4 ==> elements[k] == Triangle(p, k)
      invariant forall k :: 0 <= k < idx ==> elements[4 + k] == Square(p, k)
      invariant OpacitiesValid(elements)
    {
      elements := elements + [Square(p, idx)];
      idx := idx + 1;
    }
    idx := 0;
    while idx < |Discs|
      invariant 0 <= idx <= |Discs|
      invariant |elements| == 6 + idx
      invariant forall k :: 0 <= k < 4 ==> elements[k] == Triangle(p, k)
      invariant forall k :: 0 <= k < 2 ==> elements[4 + k] == Square(p, k)
      invariant forall k :: 0 <= k < idx ==> elements[6 + k] == Disc(p, k)
      invariant OpacitiesValid(elements)
    {
      elements := elements + [Disc(p, idx)];
      idx := idx + 1;
    }
    g := Pattern(scale + 0.3, elements);
  }

  /**
   * Each triangle's centroid is its scaled reference point, and each square
   * is centred on its own, so the rotations the source applies about those
   * points turn each shape about its own centre.
   */
  lemma GeometricCentres(p: BannerProps, idx: nat, sq: nat)
    requires ValidCanvas(p) && idx < 4 && sq < 2
    ensures var t := Triangle(p, idx).points;
      (t[0].x + t[1].x + t[2].x) / 3.0 == Triangles[idx].x * ScaleX(p) &&
      (t[0].y + t[1].y + t[2].y) / 3.0 == Triangles[idx].y * ScaleY(p)
    ensures var s := Square(p, sq);
      s.x + s.w / 2.0 == Squares[sq].x * ScaleX(p) && s.y + s.h / 2.0 == Squares[sq].y * ScaleY(p)
  {
  }
}
