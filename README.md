# Banner pattern engine

This project models the deterministic part of the `BannerCanvas` React component. Given a banner's props, the component draws an SVG in three layers:

1. A background rectangle filled with a quantity-to-quality gradient.
2. One of 21 decorative patterns, chosen by `graphicStyle`.
3. Two caption lines.

Every pattern is deterministic:
- Its randomness comes from `seededRandom`, the fractional part of `sin(seed) * 10000`.
- The seed comes from a Java-style x31 string hash, `createSeed`, of the banner's texts and colours.
- When the styles take it, the pattern is scaled by a density factor that shrinks as the caption grows.

The model's parts, one Dafny module per concern:

- `JsNumber`:
  - JavaScript's 32-bit conversion (`ToInt32`), `Math.abs`/`max`/`min`/`floor`.
  - The repeated-addition value of a `for (x = 0; x < limit; x += step)` loop variable (`LoopValue`), and that loop's iteration count (`StepCount`).
- `Seed`: `createSeed` as a method with two loops. It is proved equal to a fold of the wrapped hash step, and that fold is proved equal to the wrapped polynomial hash.
- `Random`: `seededRandom`. `Math.sin`, `Math.cos`, `Math.tan` and `Math.PI` are the fields of a `MathLib` value passed in as a parameter.
- `Params`: the props, the scale factors relative to the 1584 x 396 reference banner, and the density factor.
- `Shapes`: the primitives the generators emit.
  - The kinds are circle, line, path, polyline and rect.
  - Each carries a paint (quantity colour, quality colour or the gradient) and an opacity.
  - Circles and paths are either filled or unfilled (`fill="none"`) with a stroke width; lines and polylines carry their stroke width.
  - A pattern is a list of primitives plus the scale of its `<g>`.
- The generators. Each loop-driven generator is a method building the element list the source pushes, specified by a function and proved against it. The funnel, which has no loop, is the function `FixedShapes.RenderFunnel` itself, with its shape stated by `FixedShapes.FunnelShape`. The modules:
  - `Dots`;
  - `FixedShapes`: funnel, network, geometric;
  - `Curves`: waves, flow, aurora;
  - `Radial`: rays, spiral, prism, ripple;
  - `Scatter`: particles, constellation;
  - `Tilings`: hexagons, mosaic;
  - `Tessellations`: bricks, blocks, industrial;
  - `GridLines`: lines, brutalist grid, striped.
- `Graphic`: `renderGraphic`. It maps the style to its name, runs the dispatching switch with its `null` fallback, and ties each drawn pattern to its scale and specification.
- `TextLayout`: `getTextAnchor`, `getTextX`, `getVerticalPositions` and the two `<text>` layers.
- `Banner`: the whole rendered scene.

Strings are sequences of UTF-16 code units, so `.length` and `charCodeAt` are exact. Arithmetic is on exact reals.

On a positive canvas, the hexagon generator's `cx > width * 0.95` skip can never fire: `Tilings.HexAllKept` proves it. So all 48 hexagons are drawn.

The block generator reads its random numbers with overlapping indices: `index` for a block's rotation and `index + 1` for its opacity. So block n+1's rotation is fixed by block n's opacity (`Tessellations.BlockDraws`). The model keeps this as the source has it.

## Model

| member | source | states |
|---|---|---|
| JsNumber.ToInt32Identity | src/components/BannerCanvas.tsx:50-51 | a value already in the signed 32-bit range is unchanged by the int32 conversion |
| JsNumber.ToInt32Absorbs | src/components/BannerCanvas.tsx:50-51 | converting after adding a multiple of 2^32 gives the same int32, so intermediate wraps do not matter |
| JsNumber.LoopValueIsProduct | src/components/BannerCanvas.tsx:927-928 | the k-th value of a loop variable advanced by repeated `+= step` from 0 is k * step |
| JsNumber.StepCountLoop | src/components/BannerCanvas.tsx:927-928 | iteration k of `for (v = 0; v < limit; v += step)` runs exactly when k is below the iteration count |
| JsNumber.CountBelowBound | src/components/BannerCanvas.tsx:963 | `for (i = 0; i < bound; i++)` runs iteration i exactly when i < bound |
| Seed.StepIsTimes31 | src/components/BannerCanvas.tsx:50-51 | one loop step `(h << 5) - h + c`, then `h & h`, is the int32-wrapped `31 * h + c` |
| Seed.FoldIsInt32 | src/components/BannerCanvas.tsx:49-56 | the running hash stays a signed 32-bit integer |
| Seed.FoldIsWrappedPoly | src/components/BannerCanvas.tsx:49-56 | the fold equals the int32 wrap of the polynomial hash sum c_i * 31^(n-1-i) |
| Seed.FoldAppend | src/components/BannerCanvas.tsx:49-56 | hashing a + b is hashing b starting from the hash of a |
| Seed.SeedOfConcat | src/components/BannerCanvas.tsx:48-59 | createSeed(text, color) equals createSeed(text + color, "") |
| Seed.SeedRange | src/components/BannerCanvas.tsx:58 | the seed is at most 2^31, and equals 2^31 exactly when the final hash is -2^31 |
| Seed.CreateSeed | src/components/BannerCanvas.tsx:48-59 | the two loops compute the seed of the text followed by the colour, a natural number at most 2^31 |
| Random.SeededRandom | src/components/BannerCanvas.tsx:42-45 | the result is in [0, 1) whatever `Math.sin` returns |
| Random.JitterRange | src/components/BannerCanvas.tsx:42-45 | lo + seededRandom * span lies in [lo, lo + span) |
| Params.Uniform | src/components/BannerCanvas.tsx:832 | the uniform scale is positive, the smaller of the two axis scales, and one of them |
| Params.DensityOf | src/components/BannerCanvas.tsx:76-77 | the density is in [0.5, 1]; it is 1 exactly for length 0 and 0.5 exactly from length 100 |
| Params.Density | src/components/BannerCanvas.tsx:76-77 | the banner's density is in [0.5, 1] and is 1 exactly when both texts are empty |
| Params.DensityMonotone | src/components/BannerCanvas.tsx:76-77 | more text never gives a larger density |
| Shapes.ProgressPaint | src/components/BannerCanvas.tsx:600 | progress below one half paints with the quantity colour, otherwise the quality colour |
| Dots.LeftDotCount | src/components/BannerCanvas.tsx:129 | there are at least 6 left dots |
| Dots.RightDotCount | src/components/BannerCanvas.tsx:130 | there are at least 4 right dots |
| Dots.DotSpacing | src/components/BannerCanvas.tsx:131 | the spacing is at least 20 |
| Dots.LeftDotOpacity | src/components/BannerCanvas.tsx:152 | left-dot opacity is in [0.7, 1) |
| Dots.RightDotOpacity | src/components/BannerCanvas.tsx:171 | right-dot opacity is in [0.8, 1) |
| Dots.LeftDotsApart | src/components/BannerCanvas.tsx:139-141 | distinct left dots sit in distinct cells of a 4-column grid, at least 20 apart on some axis |
| Dots.RightDotsApart | src/components/BannerCanvas.tsx:158-160 | distinct right dots sit in distinct cells of a 3-column grid, at least 24 apart on some axis |
| Dots.DotCountsAtReference | src/components/BannerCanvas.tsx:129-130 | at width 1584 there are 12 left and 8 right dots |
| Dots.DotCountsIntegerWidth | src/components/BannerCanvas.tsx:129-130 | for an integer width w the counts are max(6, 12w div 1584) and max(4, 8w div 1584) |
| Dots.PlaceLeftDots | src/components/BannerCanvas.tsx:139-155 | the left loop yields exactly the left dots in index order, with valid opacities |
| Dots.PlaceRightDots | src/components/BannerCanvas.tsx:158-174 | the right loop yields exactly the right dots in index order, with valid opacities |
| Dots.RenderDots | src/components/BannerCanvas.tsx:127-177 | the pattern is the left dots in index order (quantity seed) followed by the right dots (quality seed), at scale 1, with valid opacities |
| FixedShapes.RenderFunnel | src/components/BannerCanvas.tsx:179-213 | three closed four-point paths at scale + 0.3, with valid opacities |
| FixedShapes.FunnelShape | src/components/BannerCanvas.tsx:184-209 | consecutive segments share an edge; they are painted quantity, gradient, quality; each one narrows strictly, and the neck stays open |
| FixedShapes.RenderNetwork | src/components/BannerCanvas.tsx:215-309 | 8 links followed by 9 node circles, at scale + 0.5, with valid opacities |
| FixedShapes.LinksChainNodes | src/components/BannerCanvas.tsx:277-292 | link i runs from node i to node i + 1, so the links form one chain |
| FixedShapes.NodeColours | src/components/BannerCanvas.tsx:217-306 | the first five nodes are quantity, the sixth is the gradient, the rest are quality |
| FixedShapes.RenderGeometric | src/components/BannerCanvas.tsx:340-420 | 4 triangles, 2 squares and 3 circles at scale + 0.3, with valid opacities |
| FixedShapes.GeometricCentres | src/components/BannerCanvas.tsx:340-420 | each triangle's centroid and each square's centre is its table position scaled to the canvas |
| Curves.SampleCountBound | src/components/BannerCanvas.tsx:323 | `for (x = 0; x <= width; x += step)` takes sample k exactly when k * step <= width |
| Curves.Sample | src/components/BannerCanvas.tsx:323-330 | the sampling loop yields the samples function |
| Curves.SamplesSpan | src/components/BannerCanvas.tsx:323-330 | every sample lies on the curve within [0, width], and consecutive samples are one step apart |
| Curves.RenderWaves | src/components/BannerCanvas.tsx:311-338 | exactly the four waves, in order, at scale 1, with valid opacities |
| Curves.WaveStructure | src/components/BannerCanvas.tsx:317-335 | each wave is its samples closed by the two bottom corners; two quantity waves, then two quality; opacity rises from 0.15 to 0.45 |
| Curves.WaveWithinAmplitude | src/components/BannerCanvas.tsx:318-325 | each wave stays within its amplitude of its baseline |
| Curves.RenderFlow | src/components/BannerCanvas.tsx:620-656 | exactly the five flow lines (open, unfilled strokes) at scale + 0.3, with valid opacities |
| Curves.FlowStructure | src/components/BannerCanvas.tsx:626-652 | each line is open with floor(w/20) + 1 samples and unfilled, stroked 3 min(scaleX, scaleY) wide; three quantity lines, then two quality; opacity in [0.4, 0.64] |
| Curves.RenderAurora | src/components/BannerCanvas.tsx:871-916 | five curtain/shimmer pairs at scale 1, with valid opacities |
| Curves.AuroraStructure | src/components/BannerCanvas.tsx:875-912 | a shimmer traces its curtain's upper edge in the same paint; three quantity layers, then two quality; curtain opacity in [0.15, 0.23] |
| Radial.PolarDistance | src/components/BannerCanvas.tsx:474-475 | given sin^2 + cos^2 = 1, a polar point lies at its radius from the centre |
| Radial.RenderRays | src/components/BannerCanvas.tsx:457-506 | 12 rays followed by the hub, at scale + 0.4, with valid opacities |
| Radial.RayStructure | src/components/BannerCanvas.tsx:465-490 | every ray starts at the hub and has its length; lengths grow; the first six are quantity; opacity in [0.2, 0.6) |
| Radial.ArmPoints | src/components/BannerCanvas.tsx:521-526 | the arm loop yields the 101 spiral points in order |
| Radial.PlaceArmDots | src/components/BannerCanvas.tsx:545-564 | the dot loop over i = 0, 20, ..., 100 yields the arm's six dots in order, with valid opacities |
| Radial.SpiralStep | src/components/BannerCanvas.tsx:516-565 | one pass of the arm loop appends the arm's polyline and then its six dots at positions 7 s to 7 s + 6, keeping the earlier arms in place |
| Radial.RenderSpiral | src/components/BannerCanvas.tsx:508-568 | two arms, each followed by its six dots, at scale + 0.2, with valid opacities |
| Radial.SpiralStructure | src/components/BannerCanvas.tsx:516-563 | each dot sits on every 20th arm point in the arm's paint, at the spiral radius; the second arm is the first turned by pi |
| Radial.RenderPrism | src/components/BannerCanvas.tsx:658-707 | 8 beams followed by the core triangle, at scale + 0.4, with valid opacities |
| Radial.PrismStructure | src/components/BannerCanvas.tsx:667-704 | every beam starts at the prism centre, which is the core's centroid; the first four beams are quantity; opacity in [0.2, 0.5) |
| Radial.RenderRipple | src/components/BannerCanvas.tsx:788-826 | 8 rings (unfilled strokes) followed by the filled core, at scale 1, with valid opacities |
| Radial.RippleStructure | src/components/BannerCanvas.tsx:794-823 | the rings are unfilled strokes 2 w/1584 wide, concentric with the filled core, 40 scaled units apart, and fade outward from 0.6 to 0.25; the first four are quantity |
| Scatter.RenderParticles | src/components/BannerCanvas.tsx:422-455 | exactly the 60 particles, in order, at scale 1, with valid opacities |
| Scatter.ParticleOpacity | src/components/BannerCanvas.tsx:440 | particle opacity is in [0.3, 0.8) |
| Scatter.ParticleColours | src/components/BannerCanvas.tsx:428-439 | the first 30 particles are quantity, the rest quality |
| Scatter.ParticleBand | src/components/BannerCanvas.tsx:433-440 | every particle's centre lies in the band [0.3h, 0.7h) |
| Scatter.ParticleMarch | src/components/BannerCanvas.tsx:428-436 | particles march left to right and grow in size |
| Scatter.ParticleSpan | src/components/BannerCanvas.tsx:428-432 | particle abscissas lie in [0.1w, 0.9w) |
| Scatter.Stars | src/components/BannerCanvas.tsx:721-728 | the star list has 30 stars, star i drawn from seeds seed + i and seed + i + 1000 |
| Scatter.BuildStars | src/components/BannerCanvas.tsx:721-728 | the star loop builds the star list |
| Scatter.PairLines | src/components/BannerCanvas.tsx:736-752 | one line per selected pair, in pair order, with valid opacities |
| Scatter.StarLights | src/components/BannerCanvas.tsx:758-783 | each star is drawn as its circle followed by its glow, in star order |
| Scatter.LoopPairsSound | src/components/BannerCanvas.tsx:731-755 | the pair loop only emits pairs i < j that are close, in strictly increasing lexicographic order |
| Scatter.LoopPairsComplete | src/components/BannerCanvas.tsx:731-755 | every close pair not yet passed by the loop is emitted |
| Scatter.PairCountBound | src/components/BannerCanvas.tsx:731-732 | the pair loop over 30 stars emits at most 30 * 29 / 2 = 435 pairs |
| Scatter.ConstellationEdges | src/components/BannerCanvas.tsx:731-755 | edges are exactly the close pairs i < j, in lexicographic order, never a self-pair, and at most 435 |
| Scatter.JoinRow | src/components/BannerCanvas.tsx:732-754 | the inner loop for star i emits that row's pairs and their lines |
| Scatter.JoinStep | src/components/BannerCanvas.tsx:733-753 | one pass of the inner loop lists pair (i, j), and draws its line, exactly when the two stars are close |
| Scatter.JoinPair | src/components/BannerCanvas.tsx:733-753 | the inner loop's body keeps the loop's invariants: the pairs listed so far followed by the rest of the loop are the same whole |
| Scatter.JoinPairs | src/components/BannerCanvas.tsx:731-755 | the nested loop emits the lines of every selected pair |
| Scatter.LightStars | src/components/BannerCanvas.tsx:758-783 | the star loop emits the circle-and-glow lights of every star |
| Scatter.RenderConstellation | src/components/BannerCanvas.tsx:709-786 | the pattern is the edge lines followed by the star lights, at scale 1, with valid opacities |
| Scatter.StarStructure | src/components/BannerCanvas.tsx:758-783 | a glow is centred on its star with twice its radius and the same paint; the first 15 stars are quantity |
| Scatter.ConstellationCount | src/components/BannerCanvas.tsx:709-786 | the pattern has edges + 60 elements, with at most 435 edges |
| Tilings.HexVertices | src/components/BannerCanvas.tsx:578-587 | a hexagon path has six vertices |
| Tilings.HexPoints | src/components/BannerCanvas.tsx:578-587 | the vertex loop yields the six vertices |
| Tilings.HexVertexDistance | src/components/BannerCanvas.tsx:580-584 | given sin^2 + cos^2 = 1, every vertex lies at the hexagon size from the centre |
| Tilings.HexCell | src/components/BannerCanvas.tsx:591-613 | one pass of the column loop yields the cell's hexagon unless its centre passes 0.95w, with a valid opacity |
| Tilings.HexagonRow | src/components/BannerCanvas.tsx:590-615 | the column loop yields the row's hexagons, with valid opacities |
| Tilings.RenderHexagons | src/components/BannerCanvas.tsx:570-618 | the pattern is the hexagon grid at scale + 0.4, with valid opacities |
| Tilings.HexAllKept | src/components/BannerCanvas.tsx:597 | on a positive canvas, no hexagon centre passes 0.95w, so the skip never fires |
| Tilings.HexGridFull | src/components/BannerCanvas.tsx:589-590 | grid element 12r + c is the hexagon at row r, column c |
| Tilings.HexCount | src/components/BannerCanvas.tsx:570-618 | 48 hexagons are drawn |
| Tilings.HexStructure | src/components/BannerCanvas.tsx:591-610 | every hexagon is closed with six vertices; columns 0-5 are quantity; opacity in [0.2, 0.6); the spacing is 1.73 and 1.5 sizes, and odd rows are offset by half a column |
| Tilings.MosaicDimensions | src/components/BannerCanvas.tsx:830-834 | on a positive canvas there are at least 39 columns and 9 rows of tiles |
| Tilings.TileOpacity | src/components/BannerCanvas.tsx:842-853 | a kept tile has opacity in [0.2, 0.48] |
| Tilings.MosaicTileRow | src/components/BannerCanvas.tsx:838-865 | the column loop yields the row's kept tiles, with valid opacities |
| Tilings.RenderMosaic | src/components/BannerCanvas.tsx:828-869 | the pattern is the grid of kept tiles at scale + 0.3, with valid opacities |
| Tilings.TileSeedsDistinct | src/components/BannerCanvas.tsx:842 | distinct cells draw from distinct seeds `seed + row * cols + col` |
| Tilings.TileInside | src/components/BannerCanvas.tsx:846-856 | every kept tile is a closed diamond strictly inside its cell |
| Tilings.TileLook | src/components/BannerCanvas.tsx:846-862 | a tile is quantity exactly in the left half of the columns; its opacity is in [0.2, 0.48] |
| Tilings.MosaicCount | src/components/BannerCanvas.tsx:837-845 | at most rows * cols tiles are drawn |
| Tilings.MosaicRowMembers | src/components/BannerCanvas.tsx:838-845 | every tile that passes the `randomness > 0.7` test is drawn |
| Tilings.MosaicRowDrawn | src/components/BannerCanvas.tsx:838-845 | conversely, every element of a row is a kept tile of an earlier column, so a tile whose draw exceeds 0.7 is skipped |
| Tilings.MosaicGridDrawn | src/components/BannerCanvas.tsx:837-865 | every element of the mosaic is the kept tile of one of its cells |
| Tilings.MosaicTilesFit | src/components/BannerCanvas.tsx:837-865 | every element of the mosaic is a closed diamond strictly inside its own cell, quantity exactly in the left half of the columns, with opacity in [0.2, 0.48] |
| Tessellations.LayBrickRow | src/components/BannerCanvas.tsx:928-952 | the inner loop yields the row's fitting bricks, numbered on from `index` |
| Tessellations.RenderBricks | src/components/BannerCanvas.tsx:918-956 | the pattern is the brick wall at scale 1 |
| Tessellations.BrickRowShift | src/components/BannerCanvas.tsx:929-931 | row k is shifted right by half a brick exactly when k is odd |
| Tessellations.BrickInside | src/components/BannerCanvas.tsx:932-946 | a brick that passes the right-edge test lies on the canvas and takes its opacity from seed + index |
| Tessellations.BrickRowFacts | src/components/BannerCanvas.tsx:928-952 | a row's bricks stay on the canvas (none crosses the right edge), take opacities from consecutive indices, and number at most the columns |
| Tessellations.BrickWallFacts | src/components/BannerCanvas.tsx:927-953 | every brick is on the canvas; brick n takes its opacity from seed + n, so `index` counts exactly the emitted bricks |
| Tessellations.BrickOpacity | src/components/BannerCanvas.tsx:936 | brick opacity is in [0.4, 0.7) |
| Tessellations.BrickWallOpacities | src/components/BannerCanvas.tsx:918-956 | every brick's opacity is valid |
| Tessellations.BlockRowLoop | src/components/BannerCanvas.tsx:1014 | row k runs exactly when its y is below height + blockSize |
| Tessellations.BlockColumnLoop | src/components/BannerCanvas.tsx:1015 | column j runs exactly when its x is below width + blockSize |
| Tessellations.LayBlockRow | src/components/BannerCanvas.tsx:1015-1033 | the inner loop yields the row's blocks, numbered on from `index` |
| Tessellations.RenderBlocks | src/components/BannerCanvas.tsx:1006-1037 | the pattern is the block grid at scale 1 |
| Tessellations.BlockRowMembers | src/components/BannerCanvas.tsx:1015-1032 | block j of a row sits at column position j and is numbered start + j |
| Tessellations.BlockGridFacts | src/components/BannerCanvas.tsx:1014-1033 | the grid has rows * columns blocks; block n takes its rotation from seed + n and its opacity from seed + n + 1 |
| Tessellations.BlockDraws | src/components/BannerCanvas.tsx:1018-1029 | rotation is in [0, 360) and opacity in [0.5, 0.8); the next block's rotation is determined by this block's opacity |
| Tessellations.BlockOverhang | src/components/BannerCanvas.tsx:1014-1015 | the grid starts one block before the canvas and its last row and column are the last ones below the far edge plus one block |
| Tessellations.BlockGridOpacities | src/components/BannerCanvas.tsx:1006-1037 | every block's opacity is valid |
| Tessellations.RivetSteps | src/components/BannerCanvas.tsx:1149-1150 | the rivet loops run for offsets rs and 2rs only |
| Tessellations.PlaceRivets | src/components/BannerCanvas.tsx:1149-1162 | the rivet loops yield the plate's four rivets in loop order |
| Tessellations.RivetsInside | src/components/BannerCanvas.tsx:1131-1162 | each rivet is a circle strictly inside its plate, in the plate's paint |
| Tessellations.LayPlateRow | src/components/BannerCanvas.tsx:1128-1165 | the inner loop yields each plate followed by its rivets |
| Tessellations.RenderIndustrial | src/components/BannerCanvas.tsx:1119-1169 | the pattern is the plate grid at scale 1 |
| Tessellations.PlateGridCount | src/components/BannerCanvas.tsx:1127-1165 | there are five elements (a plate and four rivets) per grid cell |
| Tessellations.PlateGridOpacities | src/components/BannerCanvas.tsx:1119-1169 | every plate and rivet opacity is valid |
| GridLines.VerticalRules | src/components/BannerCanvas.tsx:963-980 | the vertical rules, one per iteration |
| GridLines.HorizontalRules | src/components/BannerCanvas.tsx:983-1000 | the horizontal rules, one per iteration |
| GridLines.RenderLines | src/components/BannerCanvas.tsx:958-1004 | the pattern is the vertical rules followed by the horizontal rules, at scale 1 |
| GridLines.VerticalRuleCount | src/components/BannerCanvas.tsx:963 | the vertical loop bound is w / (25w/1584) = 63.36, so 64 rules are drawn |
| GridLines.VerticalRulesAt | src/components/BannerCanvas.tsx:963-980 | element i is the rule of iteration i |
| GridLines.HorizontalRulesAt | src/components/BannerCanvas.tsx:983-1000 | element i is the rule of iteration i |
| GridLines.VerticalRuleLook | src/components/BannerCanvas.tsx:963-980 | rule i is a full-height line at i * spacing, 2 to 6 wide; it is quantity exactly for i < 32 |
| GridLines.VerticalRulesThicken | src/components/BannerCanvas.tsx:964-976 | later vertical rules are strictly thicker |
| GridLines.HorizontalRuleLook | src/components/BannerCanvas.tsx:983-1000 | each rule is a full-width horizontal line, 1 to 3 wide; it is quantity exactly in the top half of the iterations |
| GridLines.LinesOpacities | src/components/BannerCanvas.tsx:978-998 | every rule's opacity is valid |
| GridLines.GridColumnRules | src/components/BannerCanvas.tsx:1046-1059 | the column rules, one per iteration |
| GridLines.GridRowRules | src/components/BannerCanvas.tsx:1062-1075 | the row rules, one per iteration |
| GridLines.RenderBrutalistGrid | src/components/BannerCanvas.tsx:1039-1078 | the pattern is the column rules followed by the row rules, at scale 1 |
| GridLines.GridColumnCount | src/components/BannerCanvas.tsx:1046 | 32 column rules are drawn, since width / cellSize = 31.68 |
| GridLines.GridColumnRulesLook | src/components/BannerCanvas.tsx:1046-1059 | column rule j is quantity and 3 wide at j * cellSize, inside the canvas |
| GridLines.GridRowRulesLook | src/components/BannerCanvas.tsx:1062-1075 | row rule k is quality and 3 wide at k * 0.75 cellSize, inside the canvas |
| GridLines.BrutalistOpacities | src/components/BannerCanvas.tsx:1056-1072 | every rule's opacity is valid |
| GridLines.Stripes | src/components/BannerCanvas.tsx:1085-1097 | the stripes, one per iteration |
| GridLines.Hatches | src/components/BannerCanvas.tsx:1100-1114 | the hatch lines, one per iteration |
| GridLines.LayStripes | src/components/BannerCanvas.tsx:1085-1097 | the stripe loop yields exactly the stripes |
| GridLines.DrawHatches | src/components/BannerCanvas.tsx:1100-1114 | the hatch loop yields exactly the 30 hatch lines |
| GridLines.RenderStriped | src/components/BannerCanvas.tsx:1080-1117 | the pattern is the stripes followed by the 30 hatch lines, at scale 1 |
| GridLines.StripeCountIs | src/components/BannerCanvas.tsx:1085 | 27 stripes are drawn |
| GridLines.StripesApart | src/components/BannerCanvas.tsx:1085-1092 | one stripe width of gap separates each stripe from the next |
| GridLines.StripesAt | src/components/BannerCanvas.tsx:1085-1097 | stripe j sits at the j-th loop position |
| GridLines.HatchesAt | src/components/BannerCanvas.tsx:1100-1114 | element i is hatch line i |
| GridLines.HatchGeometry | src/components/BannerCanvas.tsx:1100-1110 | hatches run from top to bottom, one stripe width apart; where tan 45 degrees is 1, each runs at 45 degrees |
| GridLines.StripedOpacities | src/components/BannerCanvas.tsx:1094-1111 | every stripe and hatch opacity is valid |
| Graphic.ParseStyle | src/components/BannerCanvas.tsx:79-124 | a name selects a style only if it is that style's name, and selects none exactly when no style has that name |
| Graphic.ParseStyleName | src/components/BannerCanvas.tsx:79-122 | every one of the 21 style names selects its own case |
| Graphic.StyleNameInjective | src/components/BannerCanvas.tsx:80-120 | no two styles share a name, so each name selects exactly one generator |
| Graphic.StyleScaleFacts | src/components/BannerCanvas.tsx:77-121 | styles not handed the density draw at scale 1; the scale is in [0.5, 1.5]; more text never enlarges a pattern, and below 100 characters it strictly shrinks every density-scaled style except dots |
| Graphic.DrawStyle | src/components/BannerCanvas.tsx:79-121 | every style draws its generator's pattern at the scale its density gives, with valid opacities, exactly as specified for the nine fully specified generators |
| Graphic.DrawScaled | src/components/BannerCanvas.tsx:80-107 | each of the ten density-taking cases draws its generator at density + its own enlargement, with valid opacities, and funnel, hexagons and mosaic give exactly their specified pattern |
| Graphic.DrawUnscaled | src/components/BannerCanvas.tsx:86-121 | each of the eleven other cases draws at scale 1 with valid opacities, and bricks, lines, blocks, brutalist grid, striped and industrial give exactly their specified pattern |
| Graphic.RenderGraphic | src/components/BannerCanvas.tsx:75-125 | an unknown style gives no pattern; a known one gives its generator's pattern at the banner's density |
| TextLayout.TextAnchor | src/components/BannerCanvas.tsx:1171-1181 | left gives start, right gives end, and anything else gives middle |
| TextLayout.TextX | src/components/BannerCanvas.tsx:1183-1194 | start sits one padding (0.076w) in, end one padding from the right, middle at w/2 |
| TextLayout.TextXSymmetry | src/components/BannerCanvas.tsx:1183-1194 | left and right mirror about the centre; on a positive width they lie inside the canvas in the order left, centre, right |
| TextLayout.UnknownAlignmentIsCentred | src/components/BannerCanvas.tsx:1177-1179 | any other alignment is laid out exactly like `center` |
| TextLayout.GetVerticalPositions | src/components/BannerCanvas.tsx:1197-1205 | the two baselines have midpoint h/2 and are one line height apart |
| TextLayout.VerticalPositionsUnique | src/components/BannerCanvas.tsx:1197-1205 | those two facts determine the placement |
| TextLayout.CaptionLayout | src/components/BannerCanvas.tsx:1243-1268 | both lines share x and anchor; the secondary is 0.7 of the font size, lighter (500 < 700) and at opacity 0.95 |
| TextLayout.ReferenceBannerLayout | src/components/BannerCanvas.tsx:1183-1205 | on the 1584 x 396 banner, centred text sits at x = 792 and its lines straddle y = 198 |
| Banner.RenderBanner | src/components/BannerCanvas.tsx:1221-1271 | the scene has the canvas size, the gradient background, the dispatched pattern (none for an unknown style) and the two caption layers |
| Banner.SceneOpacities | src/components/BannerCanvas.tsx:1236-1241 | a drawn pattern has valid opacities and a scale in [0.5, 1.5]; an unknown style draws only background and text |

## Left out

- The model uses exact reals, not IEEE doubles. Rounding, and the exact iteration counts of loops with fractional steps under floating-point accumulation, are not modelled. Affected loops: the bricks, blocks, industrial, brutalist grid, striped and lines loops, and the wave, flow and aurora sampling. For example, under floats a rivet loop can run a third time.
- `Math.sin`, `Math.cos`, `Math.tan` and `Math.PI` are not computed. They come in as the `MathLib` parameter. Facts that need a trigonometric identity take it as a hypothesis (`Pythagorean`).
- `Math.sqrt` in the constellation is modelled by comparing squared distances: `dx^2 + dy^2 < (0.15w)^2`. This is equivalent for a positive width.
- Canvas sizes: generators that divide by the canvas size or depend on its sign require a positive width and height (`ValidCanvas`). The presets are all positive; negative or zero sizes are not modelled.
- Outline strokes of filled shapes are not modelled: hexagon, brick and plate outlines, and the white brick stroke. A filled primitive carries one paint and one opacity. Unfilled strokes (flow lines, ripple rings, polylines) do carry their stroke width.
- SVG serialisation is not modelled: path strings, React keys, `transform` scale and rotate strings, and the `<defs>` gradient markup. The gradient is the `Gradient` paint, and a `<g>` scale is a number on the pattern.
- The React side is not modelled: `useRef`, the empty `useEffect`, and the `svg` element's attributes.
- src/app/page.tsx (download pipeline and preset wiring), src/components/ControlPanel.tsx (form widgets and preset tables) and src/app/layout.tsx (metadata) are not part of this model.
- The industrial generator's `index` is only used for React keys, so the model does not carry it.
- Graphic.Drawn: for the generators specified in full (funnel, hexagons, mosaic, bricks, blocks, industrial, lines, brutalist grid, striped), the dispatcher's contract gives exactly their specification. For the other twelve styles it states only the scale and valid opacities. Their full element lists are stated by their own `Render` methods.
- Graphic.RenderGraphic: weaker in the same way as `Graphic.Drawn`, which it ensures.
- Graphic.DrawStyle: weaker in the same way as `Graphic.Drawn`, which it ensures.
- Graphic.DrawScaled: weaker in the same way as `Graphic.Drawn`, which it ensures; for dots, network, geometric, rays, spiral, flow and prism it states only the scale and valid opacities.
- Graphic.DrawUnscaled: weaker in the same way as `Graphic.Drawn`, which it ensures; for waves, particles, constellation, ripple and aurora it states only the scale and valid opacities.
- Banner.RenderBanner: weaker in the same way, since its pattern is stated through `Graphic.Drawn`.
- FixedShapes.Triangle: the source turns triangle idx by idx * 30 degrees about its own centre (`rotate(...)`). Paths carry no rotation, so the model's four triangles are unturned. The squares' and blocks' turns are kept in `Rect.rotation`.
