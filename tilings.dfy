/**
 * The two grid tilings: `renderHexagons` (a 4 x 12 honeycomb of filled
 * hexagons growing and lightening from left to right) and `renderMosaic`
 * (a square grid of diamonds, each tile kept or skipped by the seeded
 * generator).
 *
 * Both loop over rows and columns and skip some cells; each is specified by
 * the list of primitives emitted for the first rows (`HexGrid`,
 * `MosaicGrid`) and, within a row, for its first columns (`HexRow`,
 * `MosaicRow`).
 */
module Tilings {
  import opened JsNumber
  import opened Seed
  import opened Random
  import opened Shapes
  import opened Params

  // -------------------------------------------------------------- hexagons

  const HexRows: nat := 4
  const HexColumns: nat := 12

  /** `35 * Math.min(scaleX, scaleY)`. */
  function HexSize(p: BannerProps): real
    requires ValidCanvas(p)
  {
    35.0 * Uniform(p)
  }

  /** The centre of cell (row, col): odd rows shift half a cell to the right. */
  function HexCentre(p: BannerProps, row: nat, col: nat): Point
    requires ValidCanvas(p)
  {
    var hs := HexSize(p);
    Point(150.0 * ScaleX(p) + (col as real * hs * 1.73 + (row % 2) as real * hs * 0.865),
          100.0 * ScaleY(p) + row as real * hs * 1.5)
  }

  /** A cell is drawn unless its centre lies right of 0.95 w. */
  predicate HexKept(p: BannerProps, row: nat, col: nat)
    requires ValidCanvas(p)
  {
    !(HexCentre(p, row, col).x > p.width * 0.95)
  }

  /** The angle of vertex i, `(Math.PI / 3) * i`. */
  function HexAngle(m: MathLib, i: int): real {
    (m.pi / 3.0) * i as real
  }

  /** Vertex i of `createHexPath`: at angle i pi / 3, `size` from the centre. */
  function HexVertex(m: MathLib, c: Point, size: real, i: int): Point {
    Point(c.x + size * m.cos(HexAngle(m, i)), c.y + size * m.sin(HexAngle(m, i)))
  }

  function HexVertices(m: MathLib, c: Point, size: real): (pts: seq<Point>)
    ensures |pts| == 6
  {
    seq(6, i => HexVertex(m, c, size, i))
  }

  /** `createHexPath(cx, cy, size)`: the loop over the six vertices. */
  method HexPoints(m: MathLib, c: Point, size: real) returns (pts: seq<Point>)
    ensures pts == HexVertices(m, c, size)
  {
    pts := [];
    var i := 0;
    while i < 6
      invariant 0 <= i <= 6
      invariant |pts| == i
      invariant forall j :: 0 <= j < i ==> pts[j] == HexVertex(m, c, size, j)
    {
      pts := pts + [HexVertex(m, c, size, i)];
      i := i + 1;
    }
  }

  function HexProgress(col: nat): real {
    col as real / HexColumns as real
  }

  /** The hexagon of cell (row, col), its size, colour and opacity set by the column's progress. */
  function Hexagon(m: MathLib, p: BannerProps, row: nat, col: nat): Primitive
    requires ValidCanvas(p)
  {
    var progress := HexProgress(col);
    Path(HexVertices(m, HexCentre(p, row, col), HexSize(p) * (0.7 + progress * 0.3)), true, Filled,
         ProgressPaint(progress), 0.2 + progress * 0.4)
  }

  /** The hexagons of the first `col` cells of row `row`. */
  function HexRow(m: MathLib, p: BannerProps, row: nat, col: nat): seq<Primitive>
    requires ValidCanvas(p)
  {
    if col == 0 then []
    else HexRow(m, p, row, col - 1) + (if HexKept(p, row, col - 1) then [Hexagon(m, p, row, col - 1)] else [])
  }

  /** The hexagons of the first `row` rows. */
  function HexGrid(m: MathLib, p: BannerProps, row: nat): seq<Primitive>
    requires ValidCanvas(p)
  {
    if row == 0 then [] else HexGrid(m, p, row - 1) + HexRow(m, p, row - 1, HexColumns)
  }

  lemma HexOpacity(col: nat)
    requires col < HexColumns
    ensures 0.2 <= 0.2 + HexProgress(col) * 0.4 < 0.6
  {
  }

  /** One pass of the column loop: the cell's hexagon, unless its centre is past 0.95 of the width. */
  method HexCell(m: MathLib, p: BannerProps, row: nat, col: nat) returns (cell: seq<Primitive>)
    requires ValidCanvas(p) && col < HexColumns
    ensures cell == if HexKept(p, row, col) then [Hexagon(m, p, row, col)] else []
    ensures OpacitiesValid(cell)
  {
    cell := [];
    var c := HexCentre(p, row, col);
    if !(c.x > p.width * 0.95) {
      var progress := HexProgress(col);
      var pts := HexPoints(m, c, HexSize(p) * (0.7 + progress * 0.3));
      HexOpacity(col);
      cell := [Path(pts, true, Filled, ProgressPaint(progress), 0.2 + progress * 0.4)];
      assert cell[0] == Hexagon(m, p, row, col);
    }
  }

  /** The column loop of one row. */
  method HexagonRow(m: MathLib, p: BannerProps, row: nat) returns (hexes: seq<Primitive>)
    requires ValidCanvas(p)
    ensures hexes == HexRow(m, p, row, HexColumns)
    ensures OpacitiesValid(hexes)
  {
    hexes := [];
    var col := 0;
    while col < HexColumns
      invariant 0 <= col <= HexColumns
      invariant hexes == HexRow(m, p, row, col)
      invariant OpacitiesValid(hexes)
    {
      var cell := HexCell(m, p, row, col);
      OpacitiesValidAppend(hexes, cell);
      hexes := hexes + cell;
      col := col + 1;
    }
  }

  /** `renderHexagons(scale)`. */
  method RenderHexagons(m: MathLib, p: BannerProps, scale: real) returns (g: Pattern)
    requires ValidCanvas(p)
    ensures g == Pattern(scale + 0.4, HexGrid(m, p, HexRows))
    ensures OpacitiesValid(g.elements)
  {
    var elements: seq<Primitive> := [];
    var row := 0;
    while row < HexRows
      invariant 0 <= row <= HexRows
      invariant elements == HexGrid(m, p, row)
      invariant OpacitiesValid(elements)
    {
      var hexes := HexagonRow(m, p, row);
      OpacitiesValidAppend(elements, hexes);
      elements := elements + hexes;
      row := row + 1;
    }
    g := Pattern(scale + 0.4, elements);
  }

  /**
   * The skip never fires: on any canvas the rightmost centre is at most
   * 846.3 sx, within 0.95 w = 1504.8 sx.
   */
  lemma HexAllKept(p: BannerProps, row: nat, col: nat)
    requires ValidCanvas(p) && row < HexRows && col < HexColumns
    ensures HexKept(p, row, col)
  {
    var hs, sx := HexSize(p), ScaleX(p);
    assert hs <= 35.0 * sx;
    assert col as real * hs * 1.73 <= 11.0 * (35.0 * sx) * 1.73 by {
      MulMono(col as real, 11.0, hs * 1.73, 35.0 * sx * 1.73);
    }
    assert (row % 2) as real * hs * 0.865 <= 35.0 * sx * 0.865 by {
      MulMono((row % 2) as real, 1.0, hs * 0.865, 35.0 * sx * 0.865);
    }
  }

  /** Monotonicity of a product of non-negative factors. */
  lemma MulMono(a: real, a': real, b: real, b': real)
    requires 0.0 <= a <= a' && 0.0 <= b <= b'
    ensures a * b <= a' * b'
  {
    assert a * b <= a' * b;
    assert a' * b <= a' * b';
  }

  /** With every cell kept, row `row` holds its first `col` hexagons in column order. */
  lemma {:induction false} HexRowFull(m: MathLib, p: BannerProps, row: nat, col: nat)
    requires ValidCanvas(p) && row < HexRows && col <= HexColumns
    ensures |HexRow(m, p, row, col)| == col
    ensures forall c :: 0 <= c < col ==> HexRow(m, p, row, col)[c] == Hexagon(m, p, row, c)
  {
    if col > 0 {
      HexRowFull(m, p, row, col - 1);
      HexAllKept(p, row, col - 1);
    }
  }

  /** The honeycomb is complete: 12 r hexagons after r rows, cell (row, col) at index 12 row + col. */
  lemma {:induction false} HexGridFull(m: MathLib, p: BannerProps, rows: nat)
    requires ValidCanvas(p) && rows <= HexRows
    ensures |HexGrid(m, p, rows)| == HexColumns * rows
    ensures forall r, c :: 0 <= r < rows && 0 <= c < HexColumns ==>
      HexGrid(m, p, rows)[HexColumns * r + c] == Hexagon(m, p, r, c)
  {
    if rows > 0 {
      HexGridFull(m, p, rows - 1);
      HexRowFull(m, p, rows - 1, HexColumns);
      var before, last := HexGrid(m, p, rows - 1), HexRow(m, p, rows - 1, HexColumns);
      forall r, c | 0 <= r < rows && 0 <= c < HexColumns
        ensures (before + last)[HexColumns * r + c] == Hexagon(m, p, r, c)
      {
        if r < rows - 1 {
          assert HexColumns * r + c < HexColumns * (rows - 1);
        } else {
          assert HexColumns * r + c == |before| + c;
        }
      }
    }
  }

  /** `renderHexagons` draws exactly 48 hexagons. */
  lemma HexCount(m: MathLib, p: BannerProps)
    requires ValidCanvas(p)
    ensures |HexGrid(m, p, HexRows)| == 48
  {
    HexGridFull(m, p, HexRows);
  }

  /**
   * Columns 0 to 5 take the quantity colour and 6 to 11 the quality colour;
   * hexagons grow from 0.7 to under the full size and lighten from opacity
   * 0.2 to under 0.6; neighbours in a row are 1.73 sizes apart and odd rows
   * are shifted by half of that.
   */
  lemma HexStructure(m: MathLib, p: BannerProps, row: nat, col: nat)
    requires ValidCanvas(p) && col < HexColumns
    ensures var h := Hexagon(m, p, row, col);
      && h.closed && |h.points| == 6
      && (h.paint == Quantity <==> col < 6)
      && 0.2 <= h.opacity < 0.6
    ensures HexCentre(p, row, col + 1).x - HexCentre(p, row, col).x == HexSize(p) * 1.73
    ensures HexCentre(p, row + 1, col).y - HexCentre(p, row, col).y == HexSize(p) * 1.5
    ensures row % 2 == 1 ==> HexCentre(p, row, col).x - HexCentre(p, row - 1, col).x == HexSize(p) * 0.865
  {
    HexOpacity(col);
    if row % 2 == 1 {
      assert (row - 1) % 2 == 0;
    }
  }

  /** Under the trigonometric identity at its angle, each vertex lies exactly `size` from the centre. */
  lemma HexVertexDistance(m: MathLib, c: Point, size: real, i: nat)
    requires i < 6 && Pythagorean(m, HexAngle(m, i))
    ensures var v := HexVertices(m, c, size)[i];
      (v.x - c.x) * (v.x - c.x) + (v.y - c.y) * (v.y - c.y) == size * size
  {
    var v := HexVertices(m, c, size)[i];
    assert v == HexVertex(m, c, size, i);
    ScaledUnitCircle(size, m.cos(HexAngle(m, i)), m.sin(HexAngle(m, i)));
  }

  /** A point on the unit circle, scaled by `size`, lies `size` from the origin. */
  lemma ScaledUnitCircle(size: real, co: real, si: real)
    requires si * si + co * co == 1.0
    ensures (size * co) * (size * co) + (size * si) * (size * si) == size * size
  {
    assert (size * co) * (size * co) + (size * si) * (size * si) == size * size * (si * si + co * co);
  }

  // ---------------------------------------------------------------- mosaic

  const MosaicTag: JsString := Units("mosaic")

  function MosaicSeed(p: BannerProps): nat {
    SeedOf(p.primaryText + p.quantityColor, MosaicTag)
  }

  /** `40 * Math.min(scaleX, scaleY)`. */
  function TileSize(p: BannerProps): (t: real)
    requires ValidCanvas(p)
    ensures t > 0.0
  {
    40.0 * Uniform(p)
  }

  /** `Math.floor(width / tileSize)`. */
  function MosaicColumns(p: BannerProps): int
    requires ValidCanvas(p)
  {
    Floor(p.width / TileSize(p))
  }

  /** `Math.floor(height / tileSize)`. */
  function MosaicRows(p: BannerProps): int
    requires ValidCanvas(p)
  {
    Floor(p.height / TileSize(p))
  }

  /** The draw of tile (row, col): seeded by its row-major index. */
  function TileRandom(m: MathLib, seed: int, cols: int, row: nat, col: nat): real {
    SeededRandom(m, seed + row * cols + col)
  }

  /** A tile is drawn unless its draw exceeds 0.7. */
  predicate TileKept(m: MathLib, seed: int, cols: int, row: nat, col: nat) {
    !(TileRandom(m, seed, cols, row, col) > 0.7)
  }

  /** The diamond inscribed in the square at (x, y) of side `tile`, with half-diagonal `half`. */
  function Diamond(x: real, y: real, tile: real, half: real): seq<Point> {
    var cx, cy := x + tile / 2.0, y + tile / 2.0;
    [Point(cx, cy - half), Point(cx + half, cy), Point(cx, cy + half), Point(cx - half, cy)]
  }

  /** The left edge of column `col`'s cell. */
  function CellX(p: BannerProps, col: nat): real
    requires ValidCanvas(p)
  {
    col as real * TileSize(p)
  }

  /** The top edge of row `row`'s cell. */
  function CellY(p: BannerProps, row: nat): real
    requires ValidCanvas(p)
  {
    row as real * TileSize(p)
  }

  /** The diamond of tile (row, col): sized and lightened by its draw, coloured by its column. */
  function Tile(m: MathLib, p: BannerProps, seed: int, cols: int, row: nat, col: nat): Primitive
    requires ValidCanvas(p) && cols > 0
  {
    Path(Diamond(CellX(p, col), CellY(p, row), TileSize(p),
                 TileHalfDiagonal(TileSize(p), TileRandom(m, seed, cols, row, col))), true, Filled,
         ProgressPaint(col as real / cols as real), 0.2 + TileRandom(m, seed, cols, row, col) * 0.4)
  }

  /** Half of `size = tileSize * (0.6 + randomness * 0.4)`. */
  function TileHalfDiagonal(tile: real, r: real): real {
    tile * (0.6 + r * 0.4) / 2.0
  }

  /** The tiles of the first `col` cells of row `row`. */
  function MosaicRow(m: MathLib, p: BannerProps, seed: int, cols: int, row: nat, col: nat): seq<Primitive>
    requires ValidCanvas(p) && cols > 0
  {
    if col == 0 then []
    else
      var kept := if TileKept(m, seed, cols, row, col - 1) then [Tile(m, p, seed, cols, row, col - 1)] else [];
      MosaicRow(m, p, seed, cols, row, col - 1) + kept
  }

  /** The tiles of the first `row` rows. */
  function MosaicGrid(m: MathLib, p: BannerProps, seed: int, cols: nat, row: nat): seq<Primitive>
    requires ValidCanvas(p) && cols > 0
  {
    if row == 0 then [] else MosaicGrid(m, p, seed, cols, row - 1) + MosaicRow(m, p, seed, cols, row - 1, cols)
  }

  /** On any canvas the grid has at least 39 columns and 9 rows. */
  lemma MosaicDimensions(p: BannerProps)
    requires ValidCanvas(p)
    ensures MosaicColumns(p) >= 39 && MosaicRows(p) >= 9
  {
    var u := Uniform(p);
    assert p.width / TileSize(p) >= 39.6 by {
      assert p.width == 1584.0 * ScaleX(p);
      RatioAtLeast(p.width, ScaleX(p), u, 1584.0 / 40.0);
    }
    assert p.height / TileSize(p) >= 9.9 by {
      assert p.height == 396.0 * ScaleY(p);
      RatioAtLeast(p.height, ScaleY(p), u, 396.0 / 40.0);
    }
  }

  /** `(k * 40 s) / (40 u) >= k` when 0 < u <= s. */
  lemma RatioAtLeast(length: real, s: real, u: real, k: real)
    requires 0.0 < u <= s && k > 0.0 && length == 40.0 * k * s
    ensures length / (40.0 * u) >= k
  {
    var d := 40.0 * u;
    assert k * d <= length by {
      assert k * d == 40.0 * k * u;
      MulMono(40.0 * k, 40.0 * k, u, s);
    }
    var q := length / d;
    assert q * d == length;
    if q < k {
      assert q * d < k * d;
    }
  }

  lemma TileOpacity(m: MathLib, seed: int, cols: int, row: nat, col: nat)
    requires TileKept(m, seed, cols, row, col)
    ensures 0.2 <= 0.2 + TileRandom(m, seed, cols, row, col) * 0.4 <= 0.48
  {
  }

  /** `renderMosaic(scale)`. */
  method RenderMosaic(m: MathLib, p: BannerProps, scale: real) returns (g: Pattern)
    requires ValidCanvas(p)
    ensures MosaicColumns(p) > 0
    ensures g == Pattern(scale + 0.3, MosaicGrid(m, p, MosaicSeed(p), MosaicColumns(p), MosaicRows(p)))
    ensures OpacitiesValid(g.elements)
  {
    MosaicDimensions(p);
    var tile := TileSize(p);
    var cols: nat := MosaicColumns(p);
    var rows: nat := MosaicRows(p);
    var seed := CreateSeed(p.primaryText + p.quantityColor, MosaicTag);
    var elements: seq<Primitive> := [];
    var row := 0;
    while row < rows
      invariant 0 <= row <= rows
      invariant elements == MosaicGrid(m, p, seed, cols, row)
      invariant OpacitiesValid(elements)
    {
      var tiles := MosaicTileRow(m, p, seed, cols, row);
      OpacitiesValidAppend(elements, tiles);
      elements := elements + tiles;
      row := row + 1;
    }
    g := Pattern(scale + 0.3, elements);
  }

  /** The inner loop of `renderMosaic` for one row. */
  method MosaicTileRow(m: MathLib, p: BannerProps, seed: int, cols: nat, row: nat) returns (tiles: seq<Primitive>)
    requires ValidCanvas(p) && cols > 0
    ensures tiles == MosaicRow(m, p, seed, cols, row, cols)
    ensures OpacitiesValid(tiles)
  {
    tiles := [];
    var col := 0;
    while col < cols
      invariant 0 <= col <= cols
      invariant tiles == MosaicRow(m, p, seed, cols, row, col)
      invariant OpacitiesValid(tiles)
    {
      var randomness := TileRandom(m, seed, cols, row, col);
      if !(randomness > 0.7) {
        TileOpacity(m, seed, cols, row, col);
        tiles := tiles + [Tile(m, p, seed, cols, row, col)];
      }
      col := col + 1;
    }
  }

  /** Distinct cells of a row-major grid draw from distinct seeds. */
  lemma TileSeedsDistinct(cols: nat, r1: nat, c1: nat, r2: nat, c2: nat)
    requires c1 < cols && c2 < cols && (r1, c1) != (r2, c2)
    ensures r1 * cols + c1 != r2 * cols + c2
  {
    if r1 == r2 {
    } else if r1 < r2 {
      assert r1 * cols + c1 < (r1 + 1) * cols <= r2 * cols;
    } else {
      assert r2 * cols + c2 < (r2 + 1) * cols <= r1 * cols;
    }
  }

  /** A drawn tile's half-diagonal lies in (0, 0.44 tile]. */
  lemma TileHalf(tile: real, r: real)
    requires tile > 0.0 && 0.0 <= r <= 0.7
    ensures 0.0 < TileHalfDiagonal(tile, r) <= tile * 0.44
  {
    MulMono(tile, tile, 0.6 + r * 0.4, 0.88);
    MulMono(tile, tile, 0.6, 0.6 + r * 0.4);
  }

  /** Every point of `pts` lies strictly inside the square at (x, y) of side `tile`. */
  predicate InSquare(pts: seq<Point>, x: real, y: real, tile: real) {
    forall k :: 0 <= k < |pts| ==> x < pts[k].x < x + tile && y < pts[k].y < y + tile
  }

  /** A diamond whose half-diagonal is under half the side lies strictly inside its square. */
  lemma DiamondInside(x: real, y: real, tile: real, half: real)
    requires 0.0 < half < tile / 2.0
    ensures |Diamond(x, y, tile, half)| == 4 && InSquare(Diamond(x, y, tile, half), x, y, tile)
  {
  }

  /** A drawn tile's diamond is a closed four-point path strictly inside its square. */
  lemma TileInside(m: MathLib, p: BannerProps, seed: int, cols: nat, row: nat, col: nat)
    requires ValidCanvas(p) && cols > 0 && TileKept(m, seed, cols, row, col)
    ensures var t := Tile(m, p, seed, cols, row, col);
      && t.closed && |t.points| == 4
      && InSquare(t.points, CellX(p, col), CellY(p, row), TileSize(p))
  {
    var tile := TileSize(p);
    var r := TileRandom(m, seed, cols, row, col);
    TileHalf(tile, r);
    DiamondInside(CellX(p, col), CellY(p, row), tile, TileHalfDiagonal(tile, r));
  }


  /** The left half of the columns takes the quantity colour; a drawn tile's opacity is in [0.2, 0.48]. */
  lemma TileLook(m: MathLib, p: BannerProps, seed: int, cols: nat, row: nat, col: nat)
    requires ValidCanvas(p) && cols > 0 && TileKept(m, seed, cols, row, col)
    ensures Tile(m, p, seed, cols, row, col).paint == Quantity <==> 2 * col < cols
    ensures 0.2 <= Tile(m, p, seed, cols, row, col).opacity <= 0.48
  {
    TileOpacity(m, seed, cols, row, col);
    HalfColumns(col, cols);
  }

  lemma HalfColumns(col: nat, cols: nat)
    requires cols > 0
    ensures col as real / cols as real < 0.5 <==> 2 * col < cols
  {
    DivLess(col as real, cols as real, 0.5);
  }

  /** Every row holds at most `cols` tiles, so the mosaic holds at most rows x cols. */
  lemma {:induction false} MosaicCount(m: MathLib, p: BannerProps, seed: int, cols: nat, rows: nat)
    requires ValidCanvas(p) && cols > 0
    ensures |MosaicGrid(m, p, seed, cols, rows)| <= rows * cols
  {
    if rows > 0 {
      MosaicCount(m, p, seed, cols, rows - 1);
      MosaicRowCount(m, p, seed, cols, rows - 1, cols);
    }
  }

  lemma {:induction false} MosaicRowCount(m: MathLib, p: BannerProps, seed: int, cols: nat, row: nat, col: nat)
    requires ValidCanvas(p) && cols > 0
    ensures |MosaicRow(m, p, seed, cols, row, col)| <= col
  {
    if col > 0 {
      MosaicRowCount(m, p, seed, cols, row, col - 1);
    }
  }

  /** A tile whose draw is at most 0.7 is drawn in its row. */
  lemma {:induction false} MosaicRowMembers(m: MathLib, p: BannerProps, seed: int, cols: nat, row: nat, col: nat, c: nat)
    requires ValidCanvas(p) && cols > 0 && c < col
    ensures Tile(m, p, seed, cols, row, c) in MosaicRow(m, p, seed, cols, row, col) <== TileKept(m, seed, cols, row, c)
  {
    if c < col - 1 {
      MosaicRowMembers(m, p, seed, cols, row, col - 1, c);
    }
  }

  /** Conversely, every element of a row is the tile of an earlier column whose draw is at most 0.7: a draw above 0.7 is skipped. */
  lemma {:induction false} MosaicRowDrawn(m: MathLib, p: BannerProps, seed: int, cols: nat, row: nat, col: nat)
    requires ValidCanvas(p) && cols > 0
    ensures forall e :: e in MosaicRow(m, p, seed, cols, row, col) ==>
      exists c: nat :: c < col && TileKept(m, seed, cols, row, c) && e == Tile(m, p, seed, cols, row, c)
  {
    if col > 0 {
      MosaicRowDrawn(m, p, seed, cols, row, col - 1);
      forall e | e in MosaicRow(m, p, seed, cols, row, col)
        ensures exists c: nat :: c < col && TileKept(m, seed, cols, row, c) && e == Tile(m, p, seed, cols, row, c)
      {
        if e !in MosaicRow(m, p, seed, cols, row, col - 1) {
          assert TileKept(m, seed, cols, row, col - 1) && e == Tile(m, p, seed, cols, row, col - 1);
        }
      }
    }
  }

  /** Every element of the first `rows` rows is a kept tile of one of their cells. */
  lemma {:induction false} MosaicGridDrawn(m: MathLib, p: BannerProps, seed: int, cols: nat, rows: nat)
    requires ValidCanvas(p) && cols > 0
    ensures forall e :: e in MosaicGrid(m, p, seed, cols, rows) ==>
      exists r: nat, c: nat :: r < rows && c < cols && TileKept(m, seed, cols, r, c) && e == Tile(m, p, seed, cols, r, c)
  {
    if rows > 0 {
      MosaicGridDrawn(m, p, seed, cols, rows - 1);
      MosaicRowDrawn(m, p, seed, cols, rows - 1, cols);
      forall e | e in MosaicGrid(m, p, seed, cols, rows)
        ensures exists r: nat, c: nat :: r < rows && c < cols && TileKept(m, seed, cols, r, c) && e == Tile(m, p, seed, cols, r, c)
      {
        if e !in MosaicGrid(m, p, seed, cols, rows - 1) {
          assert e in MosaicRow(m, p, seed, cols, rows - 1, cols);
          var c: nat :| c < cols && TileKept(m, seed, cols, rows - 1, c) && e == Tile(m, p, seed, cols, rows - 1, c);
          assert rows - 1 < rows;
        }
      }
    }
  }

  /**
   * What the skip rule buys: every element of the mosaic is a closed diamond
   * strictly inside its own cell, quantity-coloured exactly in the left half
   * of the columns, with opacity in [0.2, 0.48].
   */
  lemma MosaicTilesFit(m: MathLib, p: BannerProps, seed: int, cols: nat, rows: nat, e: Primitive)
    requires ValidCanvas(p) && cols > 0 && e in MosaicGrid(m, p, seed, cols, rows)
    ensures exists r: nat, c: nat ::
      && r < rows && c < cols && e == Tile(m, p, seed, cols, r, c)
      && e.closed && |e.points| == 4 && InSquare(e.points, CellX(p, c), CellY(p, r), TileSize(p))
      && (e.paint == Quantity <==> 2 * c < cols) && 0.2 <= e.opacity <= 0.48
  {
    MosaicGridDrawn(m, p, seed, cols, rows);
    var r: nat, c: nat :| r < rows && c < cols && TileKept(m, seed, cols, r, c) && e == Tile(m, p, seed, cols, r, c);
    TileInside(m, p, seed, cols, r, c);
    TileLook(m, p, seed, cols, r, c);
  }
}
