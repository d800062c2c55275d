/**
 * `renderDots`: a 4-column grid of quantity-coloured dots on the left and a
 * sparser 3-column grid of larger quality-coloured dots on the right, with
 * radius and opacity jittered by the seeded generator.
 */
module Dots {
  import opened JsNumber
  import opened Seed
  import opened Random
  import opened Shapes
  import opened Params

  const QuantityTag: JsString := Units("quantity")
  const QualityTag: JsString := Units("quality")

  /** `Math.max(6, Math.floor(12 * (width / 1584)))`. */
  function LeftDotCount(width: real): (n: int)
    ensures n >= 6
  {
    MaxInt(6, Floor(12.0 * (width / 1584.0)))
  }

  /** `Math.max(4, Math.floor(8 * (width / 1584)))`. */
  function RightDotCount(width: real): (n: int)
    ensures n >= 4
  {
    MaxInt(4, Floor(8.0 * (width / 1584.0)))
  }

  /** `Math.max(20, 45 * scale * (width / 1584))`. */
  function DotSpacing(p: BannerProps, scale: real): (s: real)
    ensures s >= 20.0
  {
    MaxReal(20.0, 45.0 * scale * ScaleX(p))
  }

  /** The seeds of the two sides. */
  function QuantitySeed(p: BannerProps): nat {
    SeedOf(p.primaryText + p.quantityColor, QuantityTag)
  }

  function QualitySeed(p: BannerProps): nat {
    SeedOf(p.secondaryText + p.qualityColor, QualityTag)
  }

  /** The i-th left (quantity) dot. */
  function LeftDot(m: MathLib, p: BannerProps, spacing: real, seed: int, i: nat): Primitive {
    Circle(
      p.width * 0.1 + (i % 4) as real * spacing,
      p.height * 0.25 + (i / 4) as real * spacing,
      MaxReal(4.0, 8.0 * ScaleX(p)) + SeededRandom(m, seed + i) * 4.0 * ScaleX(p),
      Filled,
      Quantity,
      0.7 + SeededRandom(m, seed + i + 100) * 0.3)
  }

  /** The i-th right (quality) dot. */
  function RightDot(m: MathLib, p: BannerProps, spacing: real, seed: int, i: nat): Primitive {
    Circle(
      p.width * 0.75 + (i % 3) as real * (spacing * 1.2),
      p.height * 0.25 + (i / 3) as real * (spacing * 1.2),
      MaxReal(6.0, 12.0 * ScaleX(p)) + SeededRandom(m, seed + i) * 6.0 * ScaleX(p),
      Filled,
      Quality,
      0.8 + SeededRandom(m, seed + i + 100) * 0.2)
  }

  lemma LeftDotOpacity(m: MathLib, p: BannerProps, spacing: real, seed: int, i: nat)
    ensures 0.7 <= LeftDot(m, p, spacing, seed, i).opacity < 1.0
  {
    JitterRange(m, seed + i + 100, 0.7, 0.3);
  }

  lemma RightDotOpacity(m: MathLib, p: BannerProps, spacing: real, seed: int, i: nat)
    ensures 0.8 <= RightDot(m, p, spacing, seed, i).opacity < 1.0
  {
    JitterRange(m, seed + i + 100, 0.8, 0.2);
  }

  /** Two distinct multiples a s and b s of a non-negative pitch s differ by at least s. */
  lemma GridGap(a: int, b: int, s: real, d: real)
    requires a != b && s >= 0.0 && d == a as real * s - b as real * s
    ensures d >= s || -d >= s
  {
    var k := (a - b) as real;
    assert a as real * s - b as real * s == (a as real - b as real) * s;
    assert d == k * s;
    if a > b {
      assert k >= 1.0;
      assert d - s == (k - 1.0) * s;
    } else {
      assert -k >= 1.0;
      assert -d - s == (-k - 1.0) * s;
    }
  }

  ghost predicate Apart(c1: Primitive, c2: Primitive, gap: real)
    requires c1.Circle? && c2.Circle?
  {
    c1.cx - c2.cx >= gap || c2.cx - c1.cx >= gap || c1.cy - c2.cy >= gap || c2.cy - c1.cy >= gap
  }

  /** Distinct indices fall in distinct cells: they differ in column `i % n` or in row `i / n`. */
  lemma DistinctCell(i: nat, j: nat, n: nat)
    requires n > 0 && i != j
    ensures i % n != j % n || i / n != j / n
  {
    assert i == n * (i / n) + i % n;
    assert j == n * (j / n) + j % n;
  }

  /** Distinct grid cells (a1, b1) and (a2, b2) of pitch s have centres at least s apart along some axis. */
  lemma CellsApart(a1: nat, b1: nat, a2: nat, b2: nat, s: real, dx: real, dy: real)
    requires (a1 != a2 || b1 != b2) && s >= 0.0
    requires dx == a1 as real * s - a2 as real * s && dy == b1 as real * s - b2 as real * s
    ensures dx >= s || -dx >= s || dy >= s || -dy >= s
  {
    if a1 != a2 {
      GridGap(a1, a2, s, dx);
    } else {
      GridGap(b1, b2, s, dy);
    }
  }

  /** Distinct left dots occupy distinct cells of the 4-column grid: their centres are at least 20 apart along some axis. */
  lemma LeftDotsApart(m: MathLib, p: BannerProps, scale: real, seed: int, i: nat, j: nat)
    requires i != j
    ensures Apart(LeftDot(m, p, DotSpacing(p, scale), seed, i), LeftDot(m, p, DotSpacing(p, scale), seed, j), 20.0)
  {
    var s := DotSpacing(p, scale);
    DistinctCell(i, j, 4);
    var d1, d2 := LeftDot(m, p, s, seed, i), LeftDot(m, p, s, seed, j);
    CellsApart(i % 4, i / 4, j % 4, j / 4, s, d1.cx - d2.cx, d1.cy - d2.cy);
  }

  /** Distinct right dots occupy distinct cells of the 3-column grid, at least 24 apart along some axis. */
  lemma RightDotsApart(m: MathLib, p: BannerProps, scale: real, seed: int, i: nat, j: nat)
    requires i != j
    ensures Apart(RightDot(m, p, DotSpacing(p, scale), seed, i), RightDot(m, p, DotSpacing(p, scale), seed, j), 24.0)
  {
    var sp := DotSpacing(p, scale);
    DistinctCell(i, j, 3);
    var d1, d2 := RightDot(m, p, sp, seed, i), RightDot(m, p, sp, seed, j);
    CellsApart(i % 3, i / 3, j % 3, j / 3, sp * 1.2, d1.cx - d2.cx, d1.cy - d2.cy);
  }

  /** On the reference banner width there are 12 left dots and 8 right dots. */
  lemma DotCountsAtReference()
    ensures LeftDotCount(1584.0) == 12 && RightDotCount(1584.0) == 8
  {
  }

  /** For an integer width the floors are integer divisions: `floor(12w/1584)` is `(12*w)/1584`. */
  lemma DotCountsIntegerWidth(w: nat)
    ensures LeftDotCount(w as real) == MaxInt(6, (12 * w) / 1584)
    ensures RightDotCount(w as real) == MaxInt(4, (8 * w) / 1584)
  {
    FloorOfRatio(12 * w, 12.0 * (w as real / 1584.0));
    FloorOfRatio(8 * w, 8.0 * (w as real / 1584.0));
  }

  lemma FloorOfRatio(n: nat, x: real)
    requires x == n as real / 1584.0
    ensures Floor(x) == n / 1584
  {
    var q, r := n / 1584, n % 1584;
    assert n == 1584 * q + r;
    assert x == q as real + r as real / 1584.0;
  }

  /** The left loop: `leftDots` quantity circles, in index order. */
  method PlaceLeftDots(m: MathLib, p: BannerProps, spacing: real, seed: int, n: nat) returns (dots: seq<Primitive>)
    ensures |dots| == n
    ensures forall k :: 0 <= k < n ==> dots[k] == LeftDot(m, p, spacing, seed, k)
    ensures OpacitiesValid(dots)
  {
    dots := [];
    var i := 0;
    while i < n
      invariant 0 <= i <= n
      invariant |dots| == i
      invariant forall k :: 0 <= k < i ==> dots[k] == LeftDot(m, p, spacing, seed, k)
      invariant OpacitiesValid(dots)
    {
      LeftDotOpacity(m, p, spacing, seed, i);
      dots := dots + [LeftDot(m, p, spacing, seed, i)];
      i := i + 1;
    }
  }

  /** The right loop: `rightDots` quality circles, in index order. */
  method PlaceRightDots(m: MathLib, p: BannerProps, spacing: real, seed: int, n: nat) returns (dots: seq<Primitive>)
    ensures |dots| == n
    ensures forall k :: 0 <= k < n ==> dots[k] == RightDot(m, p, spacing, seed, k)
    ensures OpacitiesValid(dots)
  {
    dots := [];
    var i := 0;
    while i < n
      invariant 0 <= i <= n
      invariant |dots| == i
      invariant forall k :: 0 <= k < i ==> dots[k] == RightDot(m, p, spacing, seed, k)
      invariant OpacitiesValid(dots)
    {
      RightDotOpacity(m, p, spacing, seed, i);
      dots := dots + [RightDot(m, p, spacing, seed, i)];
      i := i + 1;
    }
  }

  /** `renderDots(scale)`. */
  method RenderDots(m: MathLib, p: BannerProps, scale: real) returns (g: Pattern)
    ensures g.scale == 1.0
    ensures |g.elements| == LeftDotCount(p.width) + RightDotCount(p.width)
    ensures forall i :: 0 <= i < LeftDotCount(p.width) ==>
      g.elements[i] == LeftDot(m, p, DotSpacing(p, scale), QuantitySeed(p), i)
    ensures forall i :: 0 <= i < RightDotCount(p.width) ==>
      g.elements[LeftDotCount(p.width) + i] == RightDot(m, p, DotSpacing(p, scale), QualitySeed(p), i)
    ensures OpacitiesValid(g.elements)
  {
    var leftDots := LeftDotCount(p.width);
    var rightDots := RightDotCount(p.width);
    var spacing := DotSpacing(p, scale);
    var quantitySeed := CreateSeed(p.primaryText + p.quantityColor, QuantityTag);
    var qualitySeed := CreateSeed(p.secondaryText + p.qualityColor, QualityTag);
    var left := PlaceLeftDots(m, p, spacing, quantitySeed, leftDots);
    var right := PlaceRightDots(m, p, spacing, qualitySeed, rightDots);
    OpacitiesValidAppend(left, right);
    g := Pattern(1.0, left + right);
  }
}
