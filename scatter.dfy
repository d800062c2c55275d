/**
 * The seeded scatter generators: `renderParticles` (sixty particles along a
 * left-to-right path) and `renderConstellation` (thirty stars, a line for
 * every close pair, and a star with its glow).
 */
module Scatter {
  import opened JsNumber
  import opened Seed
  import opened Random
  import opened Shapes
  import opened Params

  const ParticlesTag: JsString := Units("particles")
  const ConstellationTag: JsString := Units("constellation")

  // ------------------------------------------------------------- particles

  function ParticleSeed(p: BannerProps): nat {
    SeedOf(p.primaryText + p.quantityColor, ParticlesTag)
  }

  /** Particle i's abscissa: a fixed march from 0.1 w to 0.9 w. */
  function ParticleX(p: BannerProps, i: nat): real {
    p.width * (0.1 + (i as real / 60.0) * 0.8)
  }

  /** Particle i's radius, growing with its index. */
  function ParticleSize(p: BannerProps, i: nat): real {
    (2.0 + (i as real / 60.0) * 8.0) * (p.width / 1584.0)
  }

  /** Particle i of sixty, for the seed `seed`. */
  function Particle(m: MathLib, p: BannerProps, seed: int, i: nat): Primitive {
    Circle(
      ParticleX(p, i),
      p.height * (0.3 + SeededRandom(m, seed + i) * 0.4),
      ParticleSize(p, i),
      Filled,
      ProgressPaint(i as real / 60.0),
      0.3 + SeededRandom(m, seed + i + 1000) * 0.5)
  }

  lemma ParticleOpacity(m: MathLib, p: BannerProps, seed: int, i: nat)
    ensures 0.3 <= Particle(m, p, seed, i).opacity < 0.8
  {
    JitterRange(m, seed + i + 1000, 0.3, 0.5);
  }

  /** `renderParticles()`. */
  method RenderParticles(m: MathLib, p: BannerProps) returns (g: Pattern)
    ensures g.scale == 1.0
    ensures |g.elements| == 60
    ensures forall i :: 0 <= i < 60 ==> g.elements[i] == Particle(m, p, ParticleSeed(p), i)
    ensures OpacitiesValid(g.elements)
  {
    var elements: seq<Primitive> := [];
    var quantitySeed := CreateSeed(p.primaryText + p.quantityColor, ParticlesTag);
    var i := 0;
    while i < 60
      invariant 0 <= i <= 60
      invariant |elements| == i
      invariant forall k :: 0 <= k < i ==> elements[k] == Particle(m, p, quantitySeed, k)
      invariant OpacitiesValid(elements)
    {
      ParticleOpacity(m, p, quantitySeed, i);
      elements := elements + [Particle(m, p, quantitySeed, i)];
      i := i + 1;
    }
    g := Pattern(1.0, elements);
  }

  /** The first thirty particles take the quantity colour, the last thirty the quality colour. */
  lemma ParticleColours(m: MathLib, p: BannerProps, seed: int, i: nat)
    ensures Particle(m, p, seed, i).paint == Quantity <==> i < 30
  {
  }

  /** Particles stay in the band [0.3 h, 0.7 h) and have opacity in [0.3, 0.8). */
  lemma ParticleBand(m: MathLib, p: BannerProps, seed: int, i: nat)
    requires ValidCanvas(p)
    ensures p.height * 0.3 <= Particle(m, p, seed, i).cy < p.height * 0.7
    ensures 0.3 <= Particle(m, p, seed, i).opacity < 0.8
  {
    ParticleOpacity(m, p, seed, i);
    var r := SeededRandom(m, seed + i);
    ScaledUnit(p.height, r, 0.3, 0.4);
    assert Particle(m, p, seed, i).cy == p.height * (0.3 + r * 0.4);
    assert p.height * (0.3 + 0.4) == p.height * 0.7;
  }

  /** `h * (lo + r * span)` lies in [h * lo, h * (lo + span)) for h > 0, span > 0 and r in [0, 1). */
  lemma ScaledUnit(h: real, r: real, lo: real, span: real)
    requires h > 0.0 && span > 0.0 && 0.0 <= r < 1.0
    ensures h * lo <= h * (lo + r * span) < h * (lo + span)
  {
    assert h * (lo + r * span) == h * lo + h * (r * span);
    assert 0.0 <= r * span < span;
    assert h * (r * span) < h * span;
  }

  /** Along the path particles march right and grow. */
  lemma ParticleMarch(p: BannerProps, i: nat)
    requires ValidCanvas(p) && 0 < i < 60
    ensures ParticleX(p, i - 1) < ParticleX(p, i)
    ensures ParticleSize(p, i - 1) < ParticleSize(p, i)
  {
    var a, b := (i - 1) as real / 60.0, i as real / 60.0;
    ScaledStrict(p.width, 0.1 + a * 0.8, 0.1 + b * 0.8);
    ScaledStrict(p.width / 1584.0, 2.0 + a * 8.0, 2.0 + b * 8.0);
    assert ParticleSize(p, i - 1) == (p.width / 1584.0) * (2.0 + a * 8.0);
    assert ParticleSize(p, i) == (p.width / 1584.0) * (2.0 + b * 8.0);
  }

  /** Every particle lies between 0.1 w and 0.9 w. */
  lemma ParticleSpan(p: BannerProps, i: nat)
    requires ValidCanvas(p) && i < 60
    ensures p.width * 0.1 <= ParticleX(p, i) < p.width * 0.9
  {
    var b := i as real / 60.0;
    assert 0.0 <= b < 1.0;
    assert 0.1 + b * 0.8 < 0.9;
    assert ParticleX(p, i) == p.width * (0.1 + b * 0.8);
    ScaledIncrease(p.width, 0.1, 0.1 + b * 0.8);
    ScaledStrict(p.width, 0.1 + b * 0.8, 0.9);
  }

  lemma ScaledStrict(w: real, a: real, b: real)
    requires w > 0.0 && a < b
    ensures w * a < w * b
  {
    assert w * b - w * a == w * (b - a);
    assert w * (b - a) > 0.0;
  }

  lemma ScaledIncrease(w: real, a: real, b: real)
    requires w > 0.0 && a <= b
    ensures w * a <= w * b
    ensures a < b ==> w * a < w * b
  {
    assert w * b - w * a == w * (b - a);
  }

  // --------------------------------------------------------- constellation

  datatype Star = Star(x: real, y: real, size: real, progress: real)

  function ConstellationSeed(p: BannerProps): nat {
    SeedOf(p.primaryText + p.quantityColor, ConstellationTag)
  }

  const StarCount: nat := 30

  /** Star i of thirty: scattered over [0.1 w, 0.9 w) x [0.2 h, 0.8 h), growing with its index. */
  function StarAt(m: MathLib, p: BannerProps, seed: int, i: nat): Star {
    var progress := i as real / 30.0;
    Star(p.width * (0.1 + SeededRandom(m, seed + i) * 0.8),
         p.height * (0.2 + SeededRandom(m, seed + i + 1000) * 0.6),
         (2.0 + progress * 5.0) * (p.width / 1584.0),
         progress)
  }

  function Stars(m: MathLib, p: BannerProps, seed: int): (s: seq<Star>)
    ensures |s| == StarCount
    ensures forall i :: 0 <= i < StarCount ==> s[i] == StarAt(m, p, seed, i)
  {
    seq(StarCount, i requires 0 <= i => StarAt(m, p, seed, i))
  }

  /**
   * Stars a and b are joined when `Math.sqrt(dx*dx + dy*dy) < 0.15 * width`.
   * A square root is never negative, so for a width that is not positive no
   * pair is joined; otherwise the comparison is that of the squares.
   */
  predicate Close(a: Star, b: Star, width: real) {
    var dx, dy := b.x - a.x, b.y - a.y;
    width > 0.0 && dx * dx + dy * dy < (width * 0.15) * (width * 0.15)
  }

  /** The pairs a < b of stars that are close. */
  function Joined(stars: seq<Star>, width: real): set<(nat, nat)> {
    set a: nat, b: nat | a < b < |stars| && Close(stars[a], stars[b], width) :: (a, b)
  }

  /**
   * The pairs of `joined` that the nested loop over n stars meets, from
   * position (i, j) onward: for each i in order, each j from i + 1 on.
   */
  function LoopPairs(n: nat, joined: set<(nat, nat)>, i: nat, j: nat): seq<(nat, nat)>
    decreases n - i, n - j
  {
    if i >= n then []
    else if j >= n then LoopPairs(n, joined, i + 1, i + 2)
    else (if (i, j) in joined then [(i, j)] else []) + LoopPairs(n, joined, i, j + 1)
  }

  /** Every pair indexes two stars. */
  predicate InRange(ps: seq<(nat, nat)>, n: nat) {
    forall k :: 0 <= k < |ps| ==> ps[k].0 < n && ps[k].1 < n
  }

  /** The line joining the stars of a pair, coloured by their mean progress. */
  function PairLine(p: BannerProps, stars: seq<Star>, e: (nat, nat)): Primitive
    requires e.0 < |stars| && e.1 < |stars|
  {
    var a, b := stars[e.0], stars[e.1];
    Line(a.x, a.y, b.x, b.y, 1.0 * (p.width / 1584.0), ProgressPaint((a.progress + b.progress) / 2.0), 0.3)
  }

  /** The lines of a list of pairs, in order. */
  function PairLines(p: BannerProps, stars: seq<Star>, ps: seq<(nat, nat)>): (r: seq<Primitive>)
    requires InRange(ps, |stars|)
    ensures |r| == |ps|
    ensures forall k :: 0 <= k < |ps| ==> r[k] == PairLine(p, stars, ps[k])
    ensures OpacitiesValid(r)
  {
    if ps == [] then [] else PairLines(p, stars, ps[..|ps| - 1]) + [PairLine(p, stars, ps[|ps| - 1])]
  }

  function StarCircle(s: Star): Primitive {
    Circle(s.x, s.y, s.size, Filled, ProgressPaint(s.progress), 0.8)
  }

  function StarGlow(s: Star): Primitive {
    Circle(s.x, s.y, s.size * 2.0, Filled, ProgressPaint(s.progress), 0.2)
  }

  /** For each of the first n stars, its circle and then its glow. */
  function StarLights(stars: seq<Star>, n: nat): (r: seq<Primitive>)
    requires n <= |stars|
    ensures |r| == 2 * n
    ensures forall s :: 0 <= s < n ==> r[2 * s] == StarCircle(stars[s]) && r[2 * s + 1] == StarGlow(stars[s])
    ensures OpacitiesValid(r)
  {
    if n == 0 then [] else StarLights(stars, n - 1) + [StarCircle(stars[n - 1]), StarGlow(stars[n - 1])]
  }

  /** Every pair listed from (i, j) on is a pair a < b < n of `joined` with a >= i, and b >= j when a == i. */
  ghost predicate SoundFrom(n: nat, joined: set<(nat, nat)>, i: nat, j: nat, ps: seq<(nat, nat)>) {
    forall k :: 0 <= k < |ps| ==>
      i <= ps[k].0 < ps[k].1 < n && ps[k] in joined && (ps[k].0 == i ==> ps[k].1 >= j)
  }

  /** Lexicographic order on index pairs. */
  predicate LexLess(a: (nat, nat), b: (nat, nat)) {
    a.0 < b.0 || (a.0 == b.0 && a.1 < b.1)
  }

  predicate Increasing(ps: seq<(nat, nat)>) {
    forall k :: 0 < k < |ps| ==> LexLess(ps[k - 1], ps[k])
  }

  /** Soundness and order of the pairs listed from (i, j) on. */
  lemma {:induction false} LoopPairsSound(n: nat, joined: set<(nat, nat)>, i: nat, j: nat)
    requires i < j
    ensures SoundFrom(n, joined, i, j, LoopPairs(n, joined, i, j))
    ensures Increasing(LoopPairs(n, joined, i, j))
    decreases n - i, n - j
  {
    if i >= n {
    } else if j >= n {
      LoopPairsSound(n, joined, i + 1, i + 2);
      assert LoopPairs(n, joined, i, j) == LoopPairs(n, joined, i + 1, i + 2);
    } else {
      LoopPairsSound(n, joined, i, j + 1);
      var rest := LoopPairs(n, joined, i, j + 1);
      var head: seq<(nat, nat)> := if (i, j) in joined then [(i, j)] else [];
      var all := head + rest;
      assert LoopPairs(n, joined, i, j) == all;
      forall k | 0 <= k < |all|
        ensures i <= all[k].0 < all[k].1 < n && all[k] in joined && (all[k].0 == i ==> all[k].1 >= j)
      {
        if k >= |head| {
          assert all[k] == rest[k - |head|];
        }
      }
      forall k | 0 < k < |all|
        ensures LexLess(all[k - 1], all[k])
      {
        if |head| == 1 && k == 1 {
          assert all[0] == (i, j) && all[1] == rest[0];
        } else {
          assert all[k] == rest[k - |head|];
          assert all[k - 1] == rest[k - 1 - |head|];
        }
      }
    }
  }

  /** Completeness: every close pair a < b at or after (i, j) in loop order is listed. */
  lemma {:induction false} LoopPairsComplete(n: nat, joined: set<(nat, nat)>, i: nat, j: nat, a: nat, b: nat)
    requires i < j
    requires a < b < n && (a, b) in joined
    requires a > i || (a == i && b >= j)
    ensures (a, b) in LoopPairs(n, joined, i, j)
    decreases n - i, n - j
  {
    if j >= n {
      LoopPairsComplete(n, joined, i + 1, i + 2, a, b);
    } else if a == i && b == j {
    } else {
      LoopPairsComplete(n, joined, i, j + 1, a, b);
    }
  }

  /** In a strictly increasing list, every earlier entry is below every later one. */
  lemma LexDistinct(ps: seq<(nat, nat)>)
    requires Increasing(ps)
    ensures forall k, l :: 0 <= k < l < |ps| ==> LexLess(ps[k], ps[l])
  {
    forall k, l | 0 <= k < l < |ps|
      ensures LexLess(ps[k], ps[l])
    {
      var d := k + 1;
      while d < l
        invariant k + 1 <= d <= l
        invariant LexLess(ps[k], ps[d])
      {
        d := d + 1;
      }
    }
  }

  /** The pairs a < b < n. */
  function PairsBelow(n: nat): set<(nat, nat)> {
    set a: nat, b: nat | a < b < n :: (a, b)
  }

  /** The pairs (a, b) with a < n. */
  function Column(b: nat, n: nat): set<(nat, nat)> {
    set a: nat | a < n :: (a, b)
  }

  /** Twice the number of pairs a < b < n. */
  function Triangle(n: nat): nat {
    if n == 0 then 0 else Triangle(n - 1) + (n - 1)
  }

  lemma {:induction false} TriangleClosed(n: nat)
    ensures 2 * Triangle(n) == n * (n - 1)
  {
    if n > 0 {
      TriangleClosed(n - 1);
      assert (n - 1) * (n - 2) + 2 * (n - 1) == n * (n - 1);
    }
  }

  lemma {:induction false} ColumnCard(b: nat, n: nat)
    ensures |Column(b, n)| == n
  {
    if n > 0 {
      assert Column(b, n) == Column(b, n - 1) + {(n - 1, b)};
      ColumnCard(b, n - 1);
    }
  }

  lemma {:induction false} PairsBelowCard(n: nat)
    ensures |PairsBelow(n)| == Triangle(n)
  {
    if n > 0 {
      PairsBelowCard(n - 1);
      ColumnCard(n - 1, n - 1);
      PairsBelowSplit(n);
    }
  }

  /** The pairs below n are those below n - 1 together with the column of n - 1. */
  lemma PairsBelowSplit(n: nat)
    requires n > 0
    ensures PairsBelow(n) == PairsBelow(n - 1) + Column(n - 1, n - 1)
    ensures PairsBelow(n - 1) !! Column(n - 1, n - 1)
  {
    forall e | e in PairsBelow(n)
      ensures e in PairsBelow(n - 1) + Column(n - 1, n - 1)
    {
      if e.1 < n - 1 {
        assert e in PairsBelow(n - 1);
      } else {
        assert e in Column(n - 1, n - 1);
      }
    }
    forall e | e in PairsBelow(n - 1) + Column(n - 1, n - 1)
      ensures e in PairsBelow(n)
    {
    }
  }

  /** A list without repeats drawn from a set has no more entries than the set. */
  lemma {:induction false} DistinctCard(ps: seq<(nat, nat)>, all: set<(nat, nat)>)
    requires forall k :: 0 <= k < |ps| ==> ps[k] in all
    requires forall k, l :: 0 <= k < l < |ps| ==> LexLess(ps[k], ps[l])
    ensures |ps| <= |all|
    decreases |ps|
  {
    if |ps| > 0 {
      var last := ps[|ps| - 1];
      var init := ps[..|ps| - 1];
      forall k | 0 <= k < |init|
        ensures init[k] in all - {last}
      {
        assert LexLess(ps[k], ps[|ps| - 1]);
      }
      DistinctCard(init, all - {last});
    }
  }

  /** The pair loop over 30 stars emits at most 30 * 29 / 2 = 435 pairs, whatever it joins. */
  lemma PairCountBound(joined: set<(nat, nat)>)
    ensures |LoopPairs(StarCount, joined, 0, 1)| <= 435
  {
    var ps := LoopPairs(StarCount, joined, 0, 1);
    LoopPairsSound(StarCount, joined, 0, 1);
    LexDistinct(ps);
    forall k | 0 <= k < |ps|
      ensures ps[k] in PairsBelow(StarCount)
    {
      assert ps[k] == (ps[k].0, ps[k].1);
    }
    DistinctCard(ps, PairsBelow(StarCount));
    PairsBelowCard(StarCount);
    TriangleClosed(StarCount);
  }

  /** What the constellation joins: exactly the close pairs i < j, each once, in lexicographic order, at most 435 of them. */
  lemma ConstellationEdges(stars: seq<Star>, width: real)
    requires |stars| == StarCount
    ensures var ps := LoopPairs(StarCount, Joined(stars, width), 0, 1);
      && (forall k :: 0 <= k < |ps| ==> ps[k].0 < ps[k].1 < StarCount && Close(stars[ps[k].0], stars[ps[k].1], width))
      && (forall a: nat, b: nat :: a < b < StarCount && Close(stars[a], stars[b], width) ==> (a, b) in ps)
      && (forall k, l :: 0 <= k < l < |ps| ==> LexLess(ps[k], ps[l]))
      && |ps| <= 435
  {
    var joined := Joined(stars, width);
    var ps := LoopPairs(StarCount, joined, 0, 1);
    LoopPairsSound(StarCount, joined, 0, 1);
    LexDistinct(ps);
    forall k | 0 <= k < |ps|
      ensures ps[k].0 < ps[k].1 < StarCount && Close(stars[ps[k].0], stars[ps[k].1], width)
    {
      assert ps[k] in joined;
    }
    forall a: nat, b: nat | a < b < StarCount && Close(stars[a], stars[b], width)
      ensures (a, b) in ps
    {
      assert (a, b) in joined;
      LoopPairsComplete(StarCount, joined, 0, 1, a, b);
    }
    PairCountBound(joined);
  }

  /** The star list, with the source's first loop. */
  method BuildStars(m: MathLib, p: BannerProps, seed: int) returns (stars: seq<Star>)
    ensures stars == Stars(m, p, seed)
  {
    stars := [];
    var i := 0;
    while i < StarCount
      invariant 0 <= i <= StarCount
      invariant |stars| == i
      invariant forall k :: 0 <= k < i ==> stars[k] == StarAt(m, p, seed, k)
    {
      stars := stars + [StarAt(m, p, seed, i)];
      i := i + 1;
    }
  }

  /** One step of the inner loop: the pair (i, j) is listed exactly when it is joined. */
  lemma LoopPairsStep(n: nat, joined: set<(nat, nat)>, i: nat, j: nat, done: seq<(nat, nat)>)
    requires i < j < n
    ensures (i, j) in joined ==>
      (done + [(i, j)]) + LoopPairs(n, joined, i, j + 1) == done + LoopPairs(n, joined, i, j)
    ensures (i, j) !in joined ==>
      done + LoopPairs(n, joined, i, j + 1) == done + LoopPairs(n, joined, i, j)
  {
    var rest := LoopPairs(n, joined, i, j + 1);
    var head: seq<(nat, nat)> := if (i, j) in joined then [(i, j)] else [];
    assert LoopPairs(n, joined, i, j) == head + rest;
    assert (done + head) + rest == done + (head + rest);
    if head == [] {
      assert done + head == done;
    }
  }

  /** Appending a pair appends its line. */
  lemma PairLinesSnoc(p: BannerProps, stars: seq<Star>, ps: seq<(nat, nat)>, e: (nat, nat))
    requires InRange(ps, |stars|) && e.0 < |stars| && e.1 < |stars|
    ensures InRange(ps + [e], |stars|)
    ensures PairLines(p, stars, ps + [e]) == PairLines(p, stars, ps) + [PairLine(p, stars, e)]
  {
    assert (ps + [e])[..|ps|] == ps;
  }

  /** `joined` holds exactly the close pairs a < b. */
  ghost predicate JoinedExactly(stars: seq<Star>, width: real, joined: set<(nat, nat)>) {
    forall a: nat, b: nat {:trigger Close(stars[a], stars[b], width)} ::
      a < b < |stars| ==> ((a, b) in joined <==> Close(stars[a], stars[b], width))
  }

  /** The inner loop for star i: the lines to the stars after it that are close to it. */
  method JoinRow(p: BannerProps, stars: seq<Star>, ghost joined: set<(nat, nat)>, i: nat)
      returns (lines: seq<Primitive>, ghost row: seq<(nat, nat)>)
    requires JoinedExactly(stars, p.width, joined)
    requires i < |stars|
    ensures row + LoopPairs(|stars|, joined, i + 1, i + 2) == LoopPairs(|stars|, joined, i, i + 1)
    ensures InRange(row, |stars|)
    ensures lines == PairLines(p, stars, row)
  {
    ghost var n, whole := |stars|, LoopPairs(|stars|, joined, i, i + 1);
    lines, row := [], [];
    assert row + whole == whole;
    var j := i + 1;
    while j < |stars|
      invariant i + 1 <= j <= n
      invariant row + LoopPairs(n, joined, i, j) == whole
      invariant InRange(row, n)
      invariant lines == PairLines(p, stars, row)
    {
      lines, row := JoinPair(p, stars, joined, i, j, lines, row);
      j := j + 1;
    }
    RowEnd(n, joined, i);
  }

  /** Past the last j, the loop moves on to the next row. */
  lemma RowEnd(n: nat, joined: set<(nat, nat)>, i: nat)
    requires i < n
    ensures LoopPairs(n, joined, i, n) == LoopPairs(n, joined, i + 1, i + 2)
  {
  }

  /** The body of the inner loop: join stars i and j when they are close. */
  method JoinPair(p: BannerProps, stars: seq<Star>, ghost joined: set<(nat, nat)>, i: nat, j: nat,
                  lines: seq<Primitive>, ghost row: seq<(nat, nat)>)
      returns (lines': seq<Primitive>, ghost row': seq<(nat, nat)>)
    requires JoinedExactly(stars, p.width, joined)
    requires i < j < |stars| && InRange(row, |stars|) && lines == PairLines(p, stars, row)
    ensures row' + LoopPairs(|stars|, joined, i, j + 1) == row + LoopPairs(|stars|, joined, i, j)
    ensures InRange(row', |stars|)
    ensures lines' == PairLines(p, stars, row')
  {
    JoinStep(p, stars, joined, i, j, row);
    lines', row' := lines, row;
    if Close(stars[i], stars[j], p.width) {
      lines' := lines + [PairLine(p, stars, (i, j))];
      row' := row + [(i, j)];
    }
  }

  /** One pass of the inner loop keeps its invariants: the pair (i, j) is listed, and its line drawn, exactly when the stars are close. */
  lemma JoinStep(p: BannerProps, stars: seq<Star>, joined: set<(nat, nat)>, i: nat, j: nat, row: seq<(nat, nat)>)
    requires JoinedExactly(stars, p.width, joined)
    requires i < j < |stars| && InRange(row, |stars|)
    ensures var close := Close(stars[i], stars[j], p.width);
      var row' := if close then row + [(i, j)] else row;
      && row' + LoopPairs(|stars|, joined, i, j + 1) == row + LoopPairs(|stars|, joined, i, j)
      && InRange(row', |stars|)
      && PairLines(p, stars, row') == PairLines(p, stars, row) + (if close then [PairLine(p, stars, (i, j))] else [])
  {
    LoopPairsStep(|stars|, joined, i, j, row);
    if Close(stars[i], stars[j], p.width) {
      assert (i, j) in joined;
      PairLinesSnoc(p, stars, row, (i, j));
    } else {
      assert (i, j) !in joined;
    }
  }

  /** The source's nested loop over pairs i < j: the lines of the close pairs, in loop order. */
  method JoinPairs(p: BannerProps, stars: seq<Star>, ghost joined: set<(nat, nat)>) returns (lines: seq<Primitive>)
    requires JoinedExactly(stars, p.width, joined)
    ensures InRange(LoopPairs(|stars|, joined, 0, 1), |stars|)
    ensures lines == PairLines(p, stars, LoopPairs(|stars|, joined, 0, 1))
  {
    ghost var pairs := LoopPairs(|stars|, joined, 0, 1);
    lines := [];
    ghost var done: seq<(nat, nat)> := [];
    var i := 0;
    while i < |stars|
      invariant 0 <= i <= |stars|
      invariant done + LoopPairs(|stars|, joined, i, i + 1) == pairs
      invariant InRange(done, |stars|)
      invariant lines == PairLines(p, stars, done)
    {
      var rowLines, row := JoinRow(p, stars, joined, i);
      PairLinesAppend(p, stars, done, row);
      SeqAssoc(done, row, LoopPairs(|stars|, joined, i + 1, i + 2));
      lines := lines + rowLines;
      done := done + row;
      i := i + 1;
    }
    assert done + [] == pairs;
  }

  /** The `forEach` over the stars: each star's circle, then its glow. */
  method LightStars(stars: seq<Star>) returns (lights: seq<Primitive>)
    ensures lights == StarLights(stars, |stars|)
  {
    lights := [];
    var idx := 0;
    while idx < |stars|
      invariant 0 <= idx <= |stars|
      invariant lights == StarLights(stars, idx)
    {
      lights := lights + [StarCircle(stars[idx]), StarGlow(stars[idx])];
      idx := idx + 1;
    }
  }

  /** `renderConstellation()`: the lines of the close pairs in loop order, then each star's circle and glow. */
  method RenderConstellation(m: MathLib, p: BannerProps) returns (g: Pattern)
    ensures var stars := Stars(m, p, ConstellationSeed(p));
      var pairs := LoopPairs(StarCount, Joined(stars, p.width), 0, 1);
      && InRange(pairs, StarCount)
      && g == Pattern(1.0, PairLines(p, stars, pairs) + StarLights(stars, StarCount))
    ensures OpacitiesValid(g.elements)
  {
    var seed := CreateSeed(p.primaryText + p.quantityColor, ConstellationTag);
    var stars := BuildStars(m, p, seed);
    ghost var joined := Joined(stars, p.width);
    assert JoinedExactly(stars, p.width, joined) by {
      forall a: nat, b: nat | a < b < |stars|
        ensures (a, b) in joined <==> Close(stars[a], stars[b], p.width)
      {
        if Close(stars[a], stars[b], p.width) {
          assert (a, b) in joined;
        }
      }
    }
    var lines := JoinPairs(p, stars, joined);
    var lights := LightStars(stars);
    OpacitiesValidAppend(lines, lights);
    g := Pattern(1.0, lines + lights);
  }

  lemma {:induction false} PairLinesAppend(p: BannerProps, stars: seq<Star>, a: seq<(nat, nat)>, b: seq<(nat, nat)>)
    requires InRange(a, |stars|) && InRange(b, |stars|)
    ensures InRange(a + b, |stars|)
    ensures PairLines(p, stars, a + b) == PairLines(p, stars, a) + PairLines(p, stars, b)
    decreases |b|
  {
    assert InRange(a + b, |stars|) by {
      forall k | 0 <= k < |a + b|
        ensures (a + b)[k].0 < |stars| && (a + b)[k].1 < |stars|
      {
        if k >= |a| {
          assert (a + b)[k] == b[k - |a|];
        }
      }
    }
    if b != [] {
      var b' := b[..|b| - 1];
      assert (a + b)[..|a + b| - 1] == a + b';
      PairLinesAppend(p, stars, a, b');
    } else {
      assert a + b == a;
    }
  }

  /** Each star's glow is centred on it with twice its radius, in its colour; stars 0 to 14 take the quantity colour. */
  lemma StarStructure(m: MathLib, p: BannerProps, seed: int, s: nat)
    requires s < StarCount
    ensures var st := Stars(m, p, seed)[s];
      && StarGlow(st).cx == StarCircle(st).cx && StarGlow(st).cy == StarCircle(st).cy
      && StarGlow(st).r == 2.0 * StarCircle(st).r
      && StarGlow(st).paint == StarCircle(st).paint
      && (StarCircle(st).paint == Quantity <==> s < 15)
  {
  }

  /** The constellation draws one line per close pair and two circles per star. */
  lemma ConstellationCount(m: MathLib, p: BannerProps, g: Pattern)
    requires var stars := Stars(m, p, ConstellationSeed(p));
      var pairs := LoopPairs(StarCount, Joined(stars, p.width), 0, 1);
      InRange(pairs, StarCount) && g == Pattern(1.0, PairLines(p, stars, pairs) + StarLights(stars, StarCount))
    ensures var pairs := LoopPairs(StarCount, Joined(Stars(m, p, ConstellationSeed(p)), p.width), 0, 1);
      |g.elements| == |pairs| + 60 && |pairs| <= 435
  {
    ConstellationEdges(Stars(m, p, ConstellationSeed(p)), p.width);
  }
}
