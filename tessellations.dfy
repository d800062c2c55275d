/**
 * The generators that tile the canvas with rectangles stepped by a real
 * spacing, `for (let y = start; y < end; y += step)`: `renderBricks` (a
 * running-bond wall), `renderBlocks` (rotated squares past every edge) and
 * `renderIndustrial` (riveted plates).
 *
 * Each loop's k-th value is `start + k * step` (the arithmetic is exact
 * here), and it runs `StepCount(end - start, step)` times. Each generator
 * is specified by the primitives emitted for its first rows and, within a
 * row, its first columns.
 */
module Tessellations {
  import opened JsNumber
  import opened Seed
  import opened Random
  import opened Shapes
  import opened Params

  // ---------------------------------------------------------------- bricks

  const BricksTag: JsString := Units("bricks")

  function BricksSeed(p: BannerProps): nat {
    SeedOf(p.primaryText + p.quantityColor, BricksTag)
  }

  function BrickWidth(p: BannerProps): real {
    40.0 * ScaleX(p)
  }

  function BrickHeight(p: BannerProps): real {
    30.0 * ScaleY(p)
  }

  /** The loop steps: a brick and a 2-unit joint. */
  function BrickStepX(p: BannerProps): (s: real)
    requires ValidCanvas(p)
    ensures s > 2.0
  {
    BrickWidth(p) + 2.0
  }

  function BrickStepY(p: BannerProps): (s: real)
    requires ValidCanvas(p)
    ensures s > 2.0
  {
    BrickHeight(p) + 2.0
  }

  /** `(Math.floor(y / (brickHeight + 2)) % 2) * (brickWidth / 2)`. */
  function BrickOffset(p: BannerProps, y: real): real
    requires ValidCanvas(p)
  {
    (Floor(y / BrickStepY(p)) % 2) as real * (BrickWidth(p) / 2.0)
  }

  /** The wall's rows and the columns of each row. */
  function BrickRows(p: BannerProps): nat
    requires ValidCanvas(p)
  {
    StepCount(p.height, BrickStepY(p))
  }

  function BrickColumns(p: BannerProps): nat
    requires ValidCanvas(p)
  {
    StepCount(p.width, BrickStepX(p))
  }

  /** The top of row k. */
  function BrickY(p: BannerProps, k: nat): real
    requires ValidCanvas(p)
  {
    LoopValue(k, BrickStepY(p))
  }

  /** The left edge of the brick in row k, column j: `x + offsetX`. */
  function BrickX(p: BannerProps, k: nat, j: nat): real
    requires ValidCanvas(p)
  {
    LoopValue(j, BrickStepX(p)) + BrickOffset(p, BrickY(p, k))
  }

  /** A brick whose left edge is at x is laid unless it would cross the right edge. */
  predicate BrickFits(p: BannerProps, x: real) {
    !(x + BrickWidth(p) > p.width)
  }

  /** The brick laid at (x, y) as the `index`-th. */
  function BrickAt(m: MathLib, p: BannerProps, seed: int, x: real, y: real, index: nat): Primitive
    requires ValidCanvas(p)
  {
    Rect(x, y, BrickWidth(p), BrickHeight(p), 0.0,
         ProgressPaint((x + y) / (p.width + p.height)),
         0.4 + SeededRandom(m, seed + index) * 0.3)
  }

  /** The bricks of the first j columns of row k, numbered from `start`. */
  function BrickRow(m: MathLib, p: BannerProps, seed: int, start: nat, k: nat, j: nat): seq<Primitive>
    requires ValidCanvas(p)
  {
    if j == 0 then []
    else
      var before := BrickRow(m, p, seed, start, k, j - 1);
      var x := BrickX(p, k, j - 1);
      before + (if BrickFits(p, x) then [BrickAt(m, p, seed, x, BrickY(p, k), start + |before|)] else [])
  }

  /** The bricks of the first k rows. */
  function BrickWall(m: MathLib, p: BannerProps, seed: int, k: nat): seq<Primitive>
    requires ValidCanvas(p)
  {
    if k == 0 then []
    else
      var before := BrickWall(m, p, seed, k - 1);
      before + BrickRow(m, p, seed, |before|, k - 1, BrickColumns(p))
  }

  /** The inner loop of `renderBricks` for row k at height y, numbering from `start`. */
  method LayBrickRow(m: MathLib, p: BannerProps, seed: int, ghost k: nat, y: real, start: nat) returns (bricks: seq<Primitive>)
    requires ValidCanvas(p) && y == BrickY(p, k)
    ensures bricks == BrickRow(m, p, seed, start, k, BrickColumns(p))
  {
    var brickWidth := BrickWidth(p);
    bricks := [];
    var index := start;
    var x := 0.0;
    ghost var j: nat := 0;
    while x < p.width
      invariant x == LoopValue(j, BrickStepX(p))
      invariant j <= BrickColumns(p)
      invariant bricks == BrickRow(m, p, seed, start, k, j)
      invariant index == start + |bricks|
      decreases BrickColumns(p) - j
    {
      StepCountLoop(p.width, BrickStepX(p), j);
      var offsetX := BrickOffset(p, y);
      var finalX := x + offsetX;
      if !(finalX + brickWidth > p.width) {
        bricks := bricks + [BrickAt(m, p, seed, finalX, y, index)];
        index := index + 1;
      }
      x := x + BrickStepX(p);
      j := j + 1;
    }
    StepCountLoop(p.width, BrickStepX(p), j);
  }

  /** `renderBricks()`. */
  method RenderBricks(m: MathLib, p: BannerProps) returns (g: Pattern)
    requires ValidCanvas(p)
    ensures g == Pattern(1.0, BrickWall(m, p, BricksSeed(p), BrickRows(p)))
    ensures OpacitiesValid(g.elements)
  {
    var seed := CreateSeed(p.primaryText + p.quantityColor, BricksTag);
    var elements: seq<Primitive> := [];
    var index := 0;
    var y := 0.0;
    ghost var k: nat := 0;
    while y < p.height
      invariant y == BrickY(p, k)
      invariant k <= BrickRows(p)
      invariant elements == BrickWall(m, p, seed, k)
      invariant index == |elements|
      decreases BrickRows(p) - k
    {
      StepCountLoop(p.height, BrickStepY(p), k);
      var bricks := LayBrickRow(m, p, seed, k, y, index);
      elements := elements + bricks;
      index := index + |bricks|;
      y := y + BrickStepY(p);
      k := k + 1;
    }
    StepCountLoop(p.height, BrickStepY(p), k);
    g := Pattern(1.0, elements);
    BrickWallOpacities(m, p, BricksSeed(p));
  }

  /** Row k is shifted by half a brick exactly when k is odd. */
  lemma BrickRowShift(p: BannerProps, k: nat, j: nat)
    requires ValidCanvas(p)
    ensures BrickOffset(p, BrickY(p, k)) == (k % 2) as real * (BrickWidth(p) / 2.0)
    ensures BrickX(p, k, j) == LoopValue(j, BrickStepX(p)) + (k % 2) as real * (BrickWidth(p) / 2.0)
  {
    var s := BrickStepY(p);
    LoopValueIsProduct(k, s);
    MulDivCancel(k as real, s);
    assert BrickY(p, k) == k as real * s;
    assert BrickY(p, k) / s == k as real;
    assert Floor(BrickY(p, k) / s) == k;
  }

  /** Every primitive is a rectangle lying on the canvas: from x >= 0 to at most the right edge, with its top above the bottom. */
  predicate OnCanvas(p: BannerProps, s: seq<Primitive>) {
    forall n :: 0 <= n < |s| ==>
      s[n].Rect? && 0.0 <= s[n].x && s[n].x + s[n].w <= p.width && 0.0 <= s[n].y < p.height
  }

  /** A brick that passes the right-edge test lies on the canvas, and draws its opacity from `seed + index`. */
  lemma BrickInside(m: MathLib, p: BannerProps, seed: int, k: nat, j: nat, index: nat)
    requires ValidCanvas(p) && k < BrickRows(p) && BrickFits(p, BrickX(p, k, j))
    ensures OnCanvas(p, [BrickAt(m, p, seed, BrickX(p, k, j), BrickY(p, k), index)])
    ensures DrawsInOrder(m, seed, index, [BrickAt(m, p, seed, BrickX(p, k, j), BrickY(p, k), index)])
  {
    StepCountLoop(p.height, BrickStepY(p), k);
    BrickRowShift(p, k, j);
  }

  /** The n-th primitive, numbered from `start`, draws its opacity from `seed + start + n`. */
  predicate DrawsInOrder(m: MathLib, seed: int, start: nat, s: seq<Primitive>) {
    forall n :: 0 <= n < |s| ==> s[n].opacity == 0.4 + SeededRandom(m, seed + start + n) * 0.3
  }

  lemma OnCanvasAppend(p: BannerProps, a: seq<Primitive>, b: seq<Primitive>)
    requires OnCanvas(p, a) && OnCanvas(p, b)
    ensures OnCanvas(p, a + b)
  {
    forall n | 0 <= n < |a + b|
      ensures (a + b)[n].Rect? && 0.0 <= (a + b)[n].x && (a + b)[n].x + (a + b)[n].w <= p.width && 0.0 <= (a + b)[n].y < p.height
    {
      if n >= |a| {
        assert (a + b)[n] == b[n - |a|];
      }
    }
  }

  lemma DrawsInOrderAppend(m: MathLib, seed: int, start: nat, a: seq<Primitive>, b: seq<Primitive>)
    requires DrawsInOrder(m, seed, start, a) && DrawsInOrder(m, seed, start + |a|, b)
    ensures DrawsInOrder(m, seed, start, a + b)
  {
    forall n | 0 <= n < |a + b|
      ensures (a + b)[n].opacity == 0.4 + SeededRandom(m, seed + start + n) * 0.3
    {
      if n >= |a| {
        assert (a + b)[n] == b[n - |a|];
        assert seed + (start + |a|) + (n - |a|) == seed + start + n;
      }
    }
  }

  lemma {:induction false} BrickRowFacts(m: MathLib, p: BannerProps, seed: int, start: nat, k: nat, j: nat)
    requires ValidCanvas(p) && k < BrickRows(p)
    ensures OnCanvas(p, BrickRow(m, p, seed, start, k, j))
    ensures DrawsInOrder(m, seed, start, BrickRow(m, p, seed, start, k, j))
    ensures |BrickRow(m, p, seed, start, k, j)| <= j
  {
    if j > 0 {
      BrickRowFacts(m, p, seed, start, k, j - 1);
      var before := BrickRow(m, p, seed, start, k, j - 1);
      var x := BrickX(p, k, j - 1);
      if BrickFits(p, x) {
        var b := [BrickAt(m, p, seed, x, BrickY(p, k), start + |before|)];
        BrickInside(m, p, seed, k, j - 1, start + |before|);
        OnCanvasAppend(p, before, b);
        DrawsInOrderAppend(m, seed, start, before, b);
      } else {
        assert BrickRow(m, p, seed, start, k, j) == before + [];
      }
    }
  }

  /**
   * The whole wall: every brick lies on the canvas, the n-th brick laid
   * draws its opacity from `seed + n`, and there are at most rows x columns.
   */
  lemma {:induction false} BrickWallFacts(m: MathLib, p: BannerProps, seed: int, k: nat)
    requires ValidCanvas(p) && k <= BrickRows(p)
    ensures OnCanvas(p, BrickWall(m, p, seed, k))
    ensures DrawsInOrder(m, seed, 0, BrickWall(m, p, seed, k))
    ensures |BrickWall(m, p, seed, k)| <= k * BrickColumns(p)
  {
    if k > 0 {
      BrickWallFacts(m, p, seed, k - 1);
      var before := BrickWall(m, p, seed, k - 1);
      var row := BrickRow(m, p, seed, |before|, k - 1, BrickColumns(p));
      BrickRowFacts(m, p, seed, |before|, k - 1, BrickColumns(p));
      OnCanvasAppend(p, before, row);
      DrawsInOrderAppend(m, seed, 0, before, row);
      assert (k - 1) * BrickColumns(p) + BrickColumns(p) == k * BrickColumns(p);
    }
  }

  lemma BrickOpacity(m: MathLib, seed: int, n: int)
    ensures 0.4 <= 0.4 + SeededRandom(m, seed + n) * 0.3 < 0.7
  {
    JitterRange(m, seed + n, 0.4, 0.3);
  }

  /** Every brick of the wall has a valid opacity. */
  lemma BrickWallOpacities(m: MathLib, p: BannerProps, seed: int)
    requires ValidCanvas(p)
    ensures OpacitiesValid(BrickWall(m, p, seed, BrickRows(p)))
  {
    var wall := BrickWall(m, p, seed, BrickRows(p));
    BrickWallFacts(m, p, seed, BrickRows(p));
    forall n | 0 <= n < |wall|
      ensures 0.0 <= wall[n].opacity <= 1.0
    {
      BrickOpacity(m, seed + 0, n);
    }
  }

  // ---------------------------------------------------------------- blocks

  const BlocksTag: JsString := Units("blocks")

  function BlocksSeed(p: BannerProps): nat {
    SeedOf(p.primaryText + p.quantityColor, BlocksTag)
  }

  /** `60 * Math.min(scaleX, scaleY)`. */
  function BlockSize(p: BannerProps): (b: real)
    requires ValidCanvas(p)
    ensures b > 0.0
  {
    60.0 * Uniform(p)
  }

  function BlockStep(p: BannerProps): (s: real)
    requires ValidCanvas(p)
    ensures s > 4.0
  {
    BlockSize(p) + 4.0
  }

  /** Both loops start one block before the canvas and run while below one block past it. */
  function BlockRows(p: BannerProps): nat
    requires ValidCanvas(p)
  {
    StepCount(p.height + 2.0 * BlockSize(p), BlockStep(p))
  }

  function BlockColumns(p: BannerProps): nat
    requires ValidCanvas(p)
  {
    StepCount(p.width + 2.0 * BlockSize(p), BlockStep(p))
  }

  /** The k-th value of either loop variable: `-blockSize + k (blockSize + 4)`. */
  function BlockPos(p: BannerProps, k: nat): real
    requires ValidCanvas(p)
  {
    -BlockSize(p) + LoopValue(k, BlockStep(p))
  }

  /** Every block of the grid has a valid opacity. */
  lemma BlockGridOpacities(m: MathLib, p: BannerProps, seed: int)
    requires ValidCanvas(p)
    ensures OpacitiesValid(BlockGrid(m, p, seed, BlockRows(p)))
  {
    var grid := BlockGrid(m, p, seed, BlockRows(p));
    BlockGridFacts(m, p, seed, BlockRows(p));
    forall n | 0 <= n < |grid|
      ensures 0.0 <= grid[n].opacity <= 1.0
    {
      JitterRange(m, seed + 0 + n + 1, 0.5, 0.3);
    }
  }

  /** The block loops run while the loop variable is below one block past the canvas's far edge. */
  lemma BlockRowLoop(p: BannerProps, k: nat)
    requires ValidCanvas(p)
    ensures k < BlockRows(p) <==> BlockPos(p, k) < p.height + BlockSize(p)
  {
    StepCountLoop(p.height + 2.0 * BlockSize(p), BlockStep(p), k);
  }

  lemma BlockColumnLoop(p: BannerProps, j: nat)
    requires ValidCanvas(p)
    ensures j < BlockColumns(p) <==> BlockPos(p, j) < p.width + BlockSize(p)
  {
    StepCountLoop(p.width + 2.0 * BlockSize(p), BlockStep(p), j);
  }

  /** The block drawn at (x, y) as the `index`-th: turned by a seeded angle about its centre. */
  function BlockAt(m: MathLib, p: BannerProps, seed: int, x: real, y: real, index: nat): Primitive
    requires ValidCanvas(p)
  {
    Rect(x, y, BlockSize(p), BlockSize(p), SeededRandom(m, seed + index) * 360.0,
         ProgressPaint((x + y) / (p.width + p.height)),
         0.5 + SeededRandom(m, seed + index + 1) * 0.3)
  }

  /** The blocks of the first j columns of row k, numbered from `start`; none is skipped. */
  function BlockRow(m: MathLib, p: BannerProps, seed: int, start: nat, k: nat, j: nat): (r: seq<Primitive>)
    requires ValidCanvas(p)
    ensures |r| == j
  {
    if j == 0 then []
    else BlockRow(m, p, seed, start, k, j - 1) + [BlockAt(m, p, seed, BlockPos(p, j - 1), BlockPos(p, k), start + j - 1)]
  }

  /** The blocks of the first k rows. */
  function BlockGrid(m: MathLib, p: BannerProps, seed: int, k: nat): seq<Primitive>
    requires ValidCanvas(p)
  {
    if k == 0 then []
    else
      var before: seq<Primitive> := BlockGrid(m, p, seed, k - 1);
      before + BlockRow(m, p, seed, |before|, k - 1, BlockColumns(p))
  }

  /** The inner loop of `renderBlocks` for row k at height y, numbering from `start`. */
  method LayBlockRow(m: MathLib, p: BannerProps, seed: int, ghost k: nat, y: real, start: nat) returns (blocks: seq<Primitive>)
    requires ValidCanvas(p) && y == BlockPos(p, k)
    ensures blocks == BlockRow(m, p, seed, start, k, BlockColumns(p))
  {
    var blockSize := BlockSize(p);
    blocks := [];
    var index := start;
    var x := -blockSize;
    ghost var j: nat := 0;
    while x < p.width + blockSize
      invariant x == BlockPos(p, j)
      invariant j <= BlockColumns(p)
      invariant blocks == BlockRow(m, p, seed, start, k, j)
      invariant index == start + j
      decreases BlockColumns(p) - j
    {
      BlockColumnLoop(p, j);
      blocks := blocks + [BlockAt(m, p, seed, x, y, index)];
      index := index + 1;
      x := x + BlockStep(p);
      j := j + 1;
    }
    BlockColumnLoop(p, j);
  }

  /** `renderBlocks()`. */
  method RenderBlocks(m: MathLib, p: BannerProps) returns (g: Pattern)
    requires ValidCanvas(p)
    ensures g == Pattern(1.0, BlockGrid(m, p, BlocksSeed(p), BlockRows(p)))
    ensures OpacitiesValid(g.elements)
  {
    var blockSize := BlockSize(p);
    var seed := CreateSeed(p.primaryText + p.quantityColor, BlocksTag);
    var elements: seq<Primitive> := [];
    var index := 0;
    var y := -blockSize;
    ghost var k: nat := 0;
    while y < p.height + blockSize
      invariant y == BlockPos(p, k)
      invariant k <= BlockRows(p)
      invariant elements == BlockGrid(m, p, seed, k)
      invariant index == |elements|
      decreases BlockRows(p) - k
    {
      BlockRowLoop(p, k);
      var blocks := LayBlockRow(m, p, seed, k, y, index);
      elements := elements + blocks;
      index := index + |blocks|;
      y := y + BlockStep(p);
      k := k + 1;
    }
    BlockRowLoop(p, k);
    g := Pattern(1.0, elements);
    BlockGridOpacities(m, p, BlocksSeed(p));
  }

  /** The n-th block, numbered from `start`, turns by draw `seed + start + n` and takes its opacity from the next draw. */
  predicate BlockDrawsInOrder(m: MathLib, seed: int, start: nat, s: seq<Primitive>) {
    forall n :: 0 <= n < |s| ==>
      s[n].Rect? && s[n].rotation == SeededRandom(m, seed + start + n) * 360.0 &&
      s[n].opacity == 0.5 + SeededRandom(m, seed + start + n + 1) * 0.3
  }

  /** Block j of a row sits at column position j, on the row's line, and is numbered `start + j`. */
  lemma {:induction false} BlockRowMembers(m: MathLib, p: BannerProps, seed: int, start: nat, k: nat, j: nat)
    requires ValidCanvas(p)
    ensures forall n :: 0 <= n < j ==>
      BlockRow(m, p, seed, start, k, j)[n] == BlockAt(m, p, seed, BlockPos(p, n), BlockPos(p, k), start + n)
  {
    if j > 0 {
      BlockRowMembers(m, p, seed, start, k, j - 1);
    }
  }

  lemma BlockDrawsAppend(m: MathLib, seed: int, start: nat, a: seq<Primitive>, b: seq<Primitive>)
    requires BlockDrawsInOrder(m, seed, start, a) && BlockDrawsInOrder(m, seed, start + |a|, b)
    ensures BlockDrawsInOrder(m, seed, start, a + b)
  {
    forall n | 0 <= n < |a + b|
      ensures (a + b)[n].Rect?
      ensures (a + b)[n].rotation == SeededRandom(m, seed + start + n) * 360.0
      ensures (a + b)[n].opacity == 0.5 + SeededRandom(m, seed + start + n + 1) * 0.3
    {
      if n >= |a| {
        assert (a + b)[n] == b[n - |a|];
        assert seed + (start + |a|) + (n - |a|) == seed + start + n;
      }
    }
  }

  lemma BlockRowDraws(m: MathLib, p: BannerProps, seed: int, start: nat, k: nat, j: nat)
    requires ValidCanvas(p)
    ensures BlockDrawsInOrder(m, seed, start, BlockRow(m, p, seed, start, k, j))
  {
    BlockRowMembers(m, p, seed, start, k, j);
  }

  /**
   * The grid is complete: every row has all its columns, so there are
   * rows x columns blocks, and the n-th block drawn turns by draw `seed + n`
   * and takes its opacity from draw `seed + n + 1`.
   */
  lemma {:induction false} BlockGridFacts(m: MathLib, p: BannerProps, seed: int, k: nat)
    requires ValidCanvas(p)
    ensures |BlockGrid(m, p, seed, k)| == k * BlockColumns(p)
    ensures BlockDrawsInOrder(m, seed, 0, BlockGrid(m, p, seed, k))
  {
    if k > 0 {
      BlockGridFacts(m, p, seed, k - 1);
      var before := BlockGrid(m, p, seed, k - 1);
      BlockRowDraws(m, p, seed, |before|, k - 1, BlockColumns(p));
      BlockDrawsAppend(m, seed, 0, before, BlockRow(m, p, seed, |before|, k - 1, BlockColumns(p)));
      assert (k - 1) * BlockColumns(p) + BlockColumns(p) == k * BlockColumns(p);
    }
  }

  /**
   * Every block is turned by an angle in [0, 360) and has opacity in
   * [0.5, 0.8); the opacity draw of one block is the rotation draw of the
   * next, so the two are tied: rotation(n + 1) / 360 = (opacity(n) - 0.5) / 0.3.
   */
  lemma BlockDraws(m: MathLib, p: BannerProps, seed: int, x: real, y: real, x': real, index: nat)
    requires ValidCanvas(p)
    ensures 0.0 <= BlockAt(m, p, seed, x, y, index).rotation < 360.0
    ensures 0.5 <= BlockAt(m, p, seed, x, y, index).opacity < 0.8
    ensures BlockAt(m, p, seed, x', y, index + 1).rotation / 360.0 == (BlockAt(m, p, seed, x, y, index).opacity - 0.5) / 0.3
  {
    JitterRange(m, seed + index, 0.0, 360.0);
    JitterRange(m, seed + index + 1, 0.5, 0.3);
  }

  /** The grid overhangs every edge: its first block starts a block before the canvas and its last reaches past it. */
  lemma BlockOverhang(p: BannerProps)
    requires ValidCanvas(p)
    ensures BlockColumns(p) >= 1 && BlockRows(p) >= 1
    ensures BlockPos(p, 0) == -BlockSize(p)
    ensures BlockPos(p, BlockColumns(p) - 1) < p.width + BlockSize(p) <= BlockPos(p, BlockColumns(p))
    ensures BlockPos(p, BlockRows(p) - 1) < p.height + BlockSize(p) <= BlockPos(p, BlockRows(p))
  {
    BlockColumnLoop(p, 0);
    BlockRowLoop(p, 0);
    BlockColumnLoop(p, BlockColumns(p));
    BlockColumnLoop(p, BlockColumns(p) - 1);
    BlockRowLoop(p, BlockRows(p));
    BlockRowLoop(p, BlockRows(p) - 1);
  }

  // ------------------------------------------------------------ industrial

  function PlateSize(p: BannerProps): (s: real)
    requires ValidCanvas(p)
    ensures s > 0.0
  {
    80.0 * ScaleX(p)
  }

  function PlateStep(p: BannerProps): (s: real)
    requires ValidCanvas(p)
    ensures s > 8.0
  {
    PlateSize(p) + 8.0
  }

  function PlateRows(p: BannerProps): nat
    requires ValidCanvas(p)
  {
    StepCount(p.height, PlateStep(p))
  }

  function PlateColumns(p: BannerProps): nat
    requires ValidCanvas(p)
  {
    StepCount(p.width, PlateStep(p))
  }

  /** `isQuantity = (x + y) / (width + height) < 0.5`. */
  function PlatePaint(p: BannerProps, x: real, y: real): Paint
    requires ValidCanvas(p)
  {
    if (x + y) / (p.width + p.height) < 0.5 then Quantity else Quality
  }

  /** The rivet spacing, a third of the plate. */
  function RivetSpacing(p: BannerProps): (rs: real)
    requires ValidCanvas(p)
    ensures rs > 0.0
  {
    PlateSize(p) / 3.0
  }

  /** The a-th value of a rivet loop variable: `rivetSpacing + a rivetSpacing`. */
  function RivetOffset(p: BannerProps, a: nat): real
    requires ValidCanvas(p)
  {
    LoopValue(a + 1, RivetSpacing(p))
  }

  function RivetAt(p: BannerProps, x: real, y: real, rx: real, ry: real): Primitive
    requires ValidCanvas(p)
  {
    Circle(x + rx, y + ry, 4.0 * ScaleX(p), Filled, PlatePaint(p, x, y), 0.8)
  }

  /** A plate and then its rivets in the loops' order: the 2 x 2 interior points of the plate's 3 x 3 grid. */
  function PlateGroup(p: BannerProps, x: real, y: real): seq<Primitive>
    requires ValidCanvas(p)
  {
    var r0, r1 := RivetOffset(p, 0), RivetOffset(p, 1);
    [Rect(x, y, PlateSize(p), PlateSize(p), 0.0, PlatePaint(p, x, y), 0.4),
     RivetAt(p, x, y, r0, r0), RivetAt(p, x, y, r0, r1), RivetAt(p, x, y, r1, r0), RivetAt(p, x, y, r1, r1)]
  }

  /** The plates of the first j columns of row k. */
  function PlateRow(p: BannerProps, k: nat, j: nat): seq<Primitive>
    requires ValidCanvas(p)
  {
    if j == 0 then []
    else PlateRow(p, k, j - 1) + PlateGroup(p, LoopValue(j - 1, PlateStep(p)), LoopValue(k, PlateStep(p)))
  }

  function PlateGrid(p: BannerProps, k: nat): seq<Primitive>
    requires ValidCanvas(p)
  {
    if k == 0 then [] else PlateGrid(p, k - 1) + PlateRow(p, k - 1, PlateColumns(p))
  }

  /** The rivet loops test rs and 2 rs successfully and stop at 3 rs, the plate size itself. */
  lemma RivetSteps(p: BannerProps, a: nat)
    requires ValidCanvas(p) && a <= 2
    ensures RivetOffset(p, a) < PlateSize(p) <==> a < 2
    ensures RivetOffset(p, a) == (a + 1) as real * RivetSpacing(p)
  {
    LoopValueIsProduct(a + 1, RivetSpacing(p));
  }

  /** The rivet loops of one plate: `rx` and `ry` over rs and 2 rs. */
  method PlaceRivets(p: BannerProps, x: real, y: real) returns (rivets: seq<Primitive>)
    requires ValidCanvas(p)
    ensures rivets == PlateGroup(p, x, y)[1..]
  {
    var plateSize := PlateSize(p);
    var rivetSpacing := plateSize / 3.0;
    ghost var group := PlateGroup(p, x, y);
    rivets := [];
    var rx := rivetSpacing;
    ghost var a: nat := 0;
    RivetSteps(p, 0);
    while rx < plateSize
      invariant a <= 2 && rx == RivetOffset(p, a)
      invariant rivets == group[1..1 + 2 * a]
      decreases 2 - a
    {
      RivetSteps(p, a);
      var ry := rivetSpacing;
      ghost var b: nat := 0;
      while ry < plateSize
        invariant b <= 2 && ry == RivetOffset(p, b)
        invariant rivets == group[1..1 + 2 * a + b]
        decreases 2 - b
      {
        RivetSteps(p, b);
        assert group[1 + 2 * a + b] == RivetAt(p, x, y, rx, ry);
        assert group[1..1 + 2 * a + b + 1] == group[1..1 + 2 * a + b] + [group[1 + 2 * a + b]];
        rivets := rivets + [RivetAt(p, x, y, rx, ry)];
        ry := ry + rivetSpacing;
        b := b + 1;
      }
      RivetSteps(p, b);
      rx := rx + rivetSpacing;
      a := a + 1;
    }
    RivetSteps(p, a);
  }

  /** The inner loop of `renderIndustrial` for row k at height y. */
  method LayPlateRow(p: BannerProps, ghost k: nat, y: real) returns (plates: seq<Primitive>)
    requires ValidCanvas(p) && y == LoopValue(k, PlateStep(p))
    ensures plates == PlateRow(p, k, PlateColumns(p))
  {
    var plateSize := PlateSize(p);
    plates := [];
    var x := 0.0;
    ghost var j: nat := 0;
    while x < p.width
      invariant x == LoopValue(j, PlateStep(p))
      invariant j <= PlateColumns(p)
      invariant plates == PlateRow(p, k, j)
      decreases PlateColumns(p) - j
    {
      StepCountLoop(p.width, PlateStep(p), j);
      var color := PlatePaint(p, x, y);
      var plate := Rect(x, y, plateSize, plateSize, 0.0, color, 0.4);
      var rivets := PlaceRivets(p, x, y);
      SeqAssoc(plates, [plate], rivets);
      plates := plates + ([plate] + rivets);
      x := x + PlateStep(p);
      j := j + 1;
    }
    StepCountLoop(p.width, PlateStep(p), j);
  }

  /** `renderIndustrial()`. */
  method RenderIndustrial(p: BannerProps) returns (g: Pattern)
    requires ValidCanvas(p)
    ensures g == Pattern(1.0, PlateGrid(p, PlateRows(p)))
    ensures OpacitiesValid(g.elements)
  {
    var elements: seq<Primitive> := [];
    var y := 0.0;
    ghost var k: nat := 0;
    while y < p.height
      invariant y == LoopValue(k, PlateStep(p))
      invariant k <= PlateRows(p)
      invariant elements == PlateGrid(p, k)
      decreases PlateRows(p) - k
    {
      StepCountLoop(p.height, PlateStep(p), k);
      var plates := LayPlateRow(p, k, y);
      elements := elements + plates;
      y := y + PlateStep(p);
      k := k + 1;
    }
    StepCountLoop(p.height, PlateStep(p), k);
    g := Pattern(1.0, elements);
    PlateGridOpacities(p, PlateRows(p));
  }

  /** Each plate contributes five primitives: the industrial pattern holds 5 x rows x columns. */
  lemma {:induction false} PlateGridCount(p: BannerProps, k: nat)
    requires ValidCanvas(p)
    ensures |PlateGrid(p, k)| == 5 * k * PlateColumns(p)
  {
    if k > 0 {
      PlateGridCount(p, k - 1);
      PlateRowCount(p, k - 1, PlateColumns(p));
      RowsStep(k, PlateColumns(p), |PlateGrid(p, k - 1)|);
    }
  }

  /** k - 1 rows of c plates and one more row make k rows. */
  lemma RowsStep(k: nat, c: int, n: int)
    requires k > 0 && n == 5 * (k - 1) * c
    ensures n + 5 * c == 5 * k * c
  {
    assert (k - 1) * c + c == k * c;
  }

  lemma {:induction false} PlateRowCount(p: BannerProps, k: nat, j: nat)
    requires ValidCanvas(p)
    ensures |PlateRow(p, k, j)| == 5 * j
  {
    if j > 0 {
      PlateRowCount(p, k, j - 1);
    }
  }

  /** Plates (0.4) and rivets (0.8) have valid opacities. */
  lemma {:induction false} PlateGridOpacities(p: BannerProps, k: nat)
    requires ValidCanvas(p)
    ensures OpacitiesValid(PlateGrid(p, k))
  {
    if k > 0 {
      PlateGridOpacities(p, k - 1);
      PlateRowOpacities(p, k - 1, PlateColumns(p));
      OpacitiesValidAppend(PlateGrid(p, k - 1), PlateRow(p, k - 1, PlateColumns(p)));
    }
  }

  lemma {:induction false} PlateRowOpacities(p: BannerProps, k: nat, j: nat)
    requires ValidCanvas(p)
    ensures OpacitiesValid(PlateRow(p, k, j))
  {
    if j > 0 {
      PlateRowOpacities(p, k, j - 1);
      var group := PlateGroup(p, LoopValue(j - 1, PlateStep(p)), LoopValue(k, PlateStep(p)));
      assert OpacitiesValid(group);
      OpacitiesValidAppend(PlateRow(p, k, j - 1), group);
    }
  }

  /**
   * The rivets of a plate sit strictly inside it, one third and two thirds
   * of the way along each side, in the plate's colour.
   */
  lemma RivetsInside(p: BannerProps, x: real, y: real, n: nat)
    requires ValidCanvas(p) && 1 <= n < 5
    ensures var g := PlateGroup(p, x, y);
      && g[n].Circle? && g[n].paint == g[0].paint
      && x < g[n].cx < x + PlateSize(p) && y < g[n].cy < y + PlateSize(p)
  {
    RivetSteps(p, 0);
    RivetSteps(p, 1);
  }
}
