/**
 * The vector primitives the generators emit. Each primitive carries its
 * geometry in canvas coordinates, the colour it is drawn with and its
 * opacity. The colour is a tag: the quantity colour, the quality colour, or
 * the left-to-right gradient from one to the other (`url(#gradient)`); it is
 * the fill of a filled shape and the stroke of an unfilled one.
 */
module Shapes {

  datatype Point = Point(x: real, y: real)

  datatype Paint = Quantity | Quality | Gradient

  /**
   * How a circle or path uses its paint: `Filled` fills the shape;
   * `Unfilled(w)` is `fill="none"` with the outline stroked w wide.
   */
  datatype Fill = Filled | Unfilled(strokeWidth: real)

  datatype Primitive =
    | Circle(cx: real, cy: real, r: real, fill: Fill, paint: Paint, opacity: real)
    | Line(x1: real, y1: real, x2: real, y2: real, strokeWidth: real, paint: Paint, opacity: real)
      /** A path through `points`; `closed` when the source ends it with `Z`. */
    | Path(points: seq<Point>, closed: bool, fill: Fill, paint: Paint, opacity: real)
    | Polyline(points: seq<Point>, strokeWidth: real, paint: Paint, opacity: real)
      /** A rectangle, turned by `rotation` degrees about its own centre. */
    | Rect(x: real, y: real, w: real, h: real, rotation: real, paint: Paint, opacity: real)

  /** The `<g>` that wraps a generator's primitives, scaled by `scale` (1 when the source sets no transform). */
  datatype Pattern = Pattern(scale: real, elements: seq<Primitive>)

  /** The colour-by-progress rule shared by the generators: quantity colour before the halfway point, quality colour from it. */
  function ProgressPaint(progress: real): (c: Paint)
    ensures c == Quantity <==> progress < 0.5
    ensures c != Gradient
  {
    if progress < 0.5 then Quantity else Quality
  }

  /** Every opacity is a valid SVG opacity. */
  predicate OpacitiesValid(s: seq<Primitive>) {
    forall k :: 0 <= k < |s| ==> 0.0 <= s[k].opacity <= 1.0
  }

  lemma OpacitiesValidAppend(a: seq<Primitive>, b: seq<Primitive>)
    requires OpacitiesValid(a) && OpacitiesValid(b)
    ensures OpacitiesValid(a + b)
  {
    forall k | 0 <= k < |a + b|
      ensures 0.0 <= (a + b)[k].opacity <= 1.0
    {
      if k >= |a| {
        assert (a + b)[k] == b[k - |a|];
      }
    }
  }

  /** Concatenation is associative; stated once so that loop steps need not rediscover it. */
  lemma SeqAssoc<T>(a: seq<T>, b: seq<T>, c: seq<T>)
    ensures (a + b) + c == a + (b + c)
  {
  }
}
