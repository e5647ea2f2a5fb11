# thornoise2 core, modelled in Dafny

thornoise2 generates coherent 2D noise for terrain. Each octave (a "level") splits a
square chunk of S x S pixels into n x n cells. The heights are imposed at the
corners of every cell, and each cell is filled with a polynomial patch that
interpolates them. Three patch kinds are modelled:

- zero-gradient D2M1N3 (ZG);
- the generic D2M1N3 polynomial, which also takes corner slopes f and g;
- Perlin gradient noise.

The octaves are summed with halving amplitude. The corner values are drawn from a
random stream seeded by the chunk position, so neighbouring chunks agree on their
shared edge. Colour scales and a BMP writer turn a height map into an image.

The model covers four source files. Each becomes Dafny in the form it has in the
source.

- **`numpygen/noisegen.py`** is modelled in several modules:
  - `SmoothstepBasis`: the smoothstep polynomials.
  - `Patches`: the three patch polynomials as pure functions.
  - `NoiseCache` and the class `CacheObject.Cache`: the cache objects. `build_params`
    and the `build_cache` loops are methods that fill the cache's fields.
  - `Seeding`: the seeded boundary conditions. Array methods fill them edge by edge.
  - `Terrain`: `fill_array` and the `generate_terrain*` loops, as methods over an
    `array2<real>` height map.
  - `Normalization`: `normalize` and `theoretical_normalize`.
  - `TerrainSeams`: the seam properties between chunks.
- **`numpygen/colorscale.py`** is the module `ColorScales`. The class `ColorScale`
  keeps its band list and its material dictionary as fields. `get` is a loop nest
  that paints an `array3<int>`.
- **`c/imagewriter.h`** is the module `ImageWriter`:
  - `normalizeArray` and `interpColor` are methods on arrays.
  - The colour chain of `writeToBmp` is a method.
  - The byte layout of the BMP headers and of the pixel buffer, padding included, is
    proved.
- **`c/zg.c`** is the module `ZgStream`. It is the streaming ZG generator `zgTerrain`
  with its hand-maintained cell indices, relative positions and reload flag. The
  proof shows that every pixel receives its own cell's ZG patch (smoothstep s3),
  scaled by the octave amplitude, and that the whole terrain is the sum of the
  octaves.

Floats are modelled as exact reals. numpy's and C's random generators are a
parameter `rng(key, i)`: the i-th value drawn after seeding with `key`.

## Model

| member | source | states |
|---|---|---|
| SmoothstepBasis.SmoothstepEndpoints | numpygen/noisegen.py:377-392 | every smoothstep s1, s3, s5, s7, s9 maps 0 to 0 and 1 to 1 |
| SmoothstepBasis.SmoothstepSymmetric | numpygen/noisegen.py:377-392 | every smoothstep is point-symmetric: s(1 - x) == 1 - s(x) |
| SmoothstepBasis.S3InUnit | numpygen/noisegen.py:380-381 | s3 maps [0, 1] into [0, 1] |
| SmoothstepBasis.S5InUnit | numpygen/noisegen.py:383-384 | s5 maps [0, 1] into [0, 1] |
| Grids.Transpose | numpygen/noisegen.py:181 | the transpose of a square grid is square and holds g[b][a] at [a][b] |
| Grids.Tabulate | numpygen/noisegen.py:370-375 | a tabulated n x n grid holds f(a, b) at [a][b] |
| Grids.TransposeTwice | numpygen/noisegen.py:181 | transposing twice gives the grid back, so the cached Y grids are the transposes of X |
| Patches.ZgFromBlock | numpygen/noisegen.py:15-19 | the ZG coefficients h0, dhx, dhy, A reproduce the four imposed corner heights |
| Patches.ZgImposedHeights | numpygen/noisegen.py:15-26 | the ZG patch takes the imposed height at each corner of its cell, for every smoothstep degree |
| Patches.ZgEdgeTraces | numpygen/noisegen.py:15-26 | along each cell edge the ZG patch is the smoothstep blend of that edge's two corner heights |
| Patches.ZgLeavesCornerRange | numpygen/noisegen.py:15-26 | a counterexample: a ZG patch can leave the range of its corner heights (corners in [-1, 1], value above 1) |
| Patches.MonomialsArePowers | numpygen/noisegen.py:229-231 | each cached monomial entry (i, j) is x^i * y^j |
| Patches.NcImposedHeights | numpygen/noisegen.py:36-69 | the generic D2M1N3 patch takes the imposed height at each corner, whatever the slopes f and g |
| Patches.PerlinVanishesAtCorners | numpygen/noisegen.py:83-92 | the Perlin patch is 0 at the four corners of its cell |
| NoiseCache.PowNonZero | numpygen/noisegen.py:133 | a power of a non-zero H_DIVIDER is non-zero, so 1/H_DIVIDER**i is defined |
| NoiseCache.PowPositive | numpygen/noisegen.py:133 | a power of a positive H_DIVIDER is positive |
| NoiseCache.LevelNSucc | numpygen/noisegen.py:130-136 | the number of cells of level i+1 is DOM_DIVIDER times that of level i |
| NoiseCache.LevelNs | numpygen/noisegen.py:128-136 | PARAM_N has one entry per level |
| NoiseCache.LevelHs | numpygen/noisegen.py:128-136 | PARAM_H has one entry per level |
| NoiseCache.LevelRes | numpygen/noisegen.py:128-136 | RES has one entry per level |
| NoiseCache.RejectedExample | numpygen/noisegen.py:134-138 | S = 500 with MIN_N 1 and DOM_DIVIDER 3 fails the divisibility assertion at level 2 (500 % 9 != 0) |
| NoiseCache.LevelsTileChunk | numpygen/noisegen.py:124-138 | once build_params' assertions pass, the cells of every level tile the chunk exactly (PARAM_N * RES == S), and PARAM_N[i] == MIN_N * DOM_DIVIDER^i |
| NoiseCache.MaxHPositive | numpygen/noisegen.py:143-146 | with a positive divider the maximum height is at least 1 and every level amplitude is positive |
| NoiseCache.MaxHSumsParamH | numpygen/noisegen.py:143-146 | compute_max_h is the sum of the per-level amplitudes PARAM_H (PARAM_H at line 133) |
| NoiseCache.TheoreticalNormalizeRange | numpygen/noisegen.py:149-152 | theoretical_normalize maps -H to 0 and H to 1, is strictly increasing, and maps [-H, H] into [0, 1] |
| NoiseCache.CoordGrid | numpygen/noisegen.py:370-375 | the coordinate grid of a level is square |
| NoiseCache.GetX | numpygen/noisegen.py:370-375 | get_x(res) fills row x with x/res, a value in [0, 1) |
| NoiseCache.SmoothGrid | numpygen/noisegen.py:205-208 | the smoothstep grid keeps the grid's shape (also line 255 for Perlin) |
| NoiseCache.XyGrid | numpygen/noisegen.py:211 | the XY grid keeps the grid's shape |
| NoiseCache.MonomialGrids | numpygen/noisegen.py:228-232 | the XiYj table holds sixteen square grids |
| NoiseCache.MinusOneGrid | numpygen/noisegen.py:260-262 | the XM1 grid keeps the grid's shape |
| NoiseCache.ZgDomainEval | numpygen/noisegen.py:21-26 | ZG domain_eval yields a square grid |
| NoiseCache.NcDomainEval | numpygen/noisegen.py:56-69 | generic domain_eval yields a square grid |
| NoiseCache.PerlinDomainEval | numpygen/noisegen.py:83-92 | Perlin domain_eval yields a square grid |
| NoiseCache.ZgCacheEvaluates | numpygen/noisegen.py:202-211 | ZG domain_eval on the cached grids equals the ZG patch at (a/res, b/res), pixel by pixel (domain_eval at lines 21-26) |
| NoiseCache.NcCacheEvaluates | numpygen/noisegen.py:223-232 | generic domain_eval on the cached XiYj grids equals the generic patch at (a/res, b/res) (domain_eval at lines 56-69) |
| NoiseCache.CachedMonomialsAt | numpygen/noisegen.py:228-232 | the cached monomials at a pixel are the monomials of that pixel's coordinates |
| NoiseCache.MonomialAt | numpygen/noisegen.py:231 | XiYj[(i, j)] at a pixel is x^i * y^j of its coordinates |
| NoiseCache.PerlinCacheEvaluates | numpygen/noisegen.py:249-262 | Perlin domain_eval on the cached grids equals the Perlin patch at (a/res, b/res) (domain_eval at lines 83-92) |
| CacheObject.Cache.constructor | numpygen/noisegen.py:104-122 | a fresh cache has the default parameters (DEPTH 7, dividers 2, MIN_N 1, S 512, world 1x1, seed 0) and the variant's degree (3 ZG, 5 Perlin) (subclass __init__ at lines 193-198, 217-219, 239-245) |
| CacheObject.Cache.BuildParams | numpygen/noisegen.py:124-139 | build_params succeeds exactly when its assertions hold; then PARAM_N, PARAM_H, RES and max_h are filled, and each failure names the assertion that failed |
| CacheObject.Cache.LevelsPositive | numpygen/noisegen.py:130-136 | after build_params every level has at least one cell of at least one pixel, and they tile the chunk |
| CacheObject.Cache.BuildCoords | numpygen/noisegen.py:176-181 | build_cache stores X[k] = get_x(RES[k]) and Y[k] = X[k].T for every level |
| CacheObject.Cache.BuildSmooth | numpygen/noisegen.py:202-210 | SMOOTHSTEP_X[k] is the smoothstep of X[k] and SMOOTHSTEP_Y[k] its transpose; fails when sdegree has no smoothstep (also lines 253-259 for Perlin) |
| CacheObject.Cache.BuildZgCache | numpygen/noisegen.py:202-211 | the ZG cache holds the smoothstep grids and XY[k] = x*y - y*sx - x*sy |
| CacheObject.Cache.BuildNcCache | numpygen/noisegen.py:223-232 | the generic cache holds XiYj[k][(i, j)] = X[k]^i * Y[k]^j |
| CacheObject.Cache.BuildPerlinCache | numpygen/noisegen.py:249-262 | the Perlin cache holds the smoothstep grids and XM1 = X - 1, YM1 = XM1.T |
| CacheObject.Cache.BuildCache | numpygen/noisegen.py:176-262 | the variant's build_cache succeeds exactly when the cache is buildable, and then every level is cached |
| CacheObject.Cache.Build | numpygen/noisegen.py:183-187 | build succeeds exactly when the parameters pass build_params and the cache is buildable; it changes no parameter |
| Seeding.Draw | numpygen/noisegen.py:264-265 | val*(2*random()-1) lies in [-val, val) |
| Seeding.PyMod | numpygen/noisegen.py:269-270 | Python's % gives a remainder with the divisor's sign |
| Seeding.WrapAround | numpygen/noisegen.py:269 | the right neighbour of the last chunk column is column 0, and of any other column the next one |
| Seeding.SeamRightLeft | numpygen/noisegen.py:267-287 | a chunk's right edge (x = n) holds the same heights as its right neighbour's left edge (x = 0), whatever the bulk streams |
| Seeding.SeamBottomTop | numpygen/noisegen.py:267-287 | a chunk's bottom edge (y = n) holds the same heights as its lower neighbour's top edge (y = 0) |
| Seeding.NoSeamWithoutCells | numpygen/noisegen.py:280-287 | with n = 0 the single entry is the last corner written, the bottom-right draw |
| Seeding.SeededHeightRange | numpygen/noisegen.py:264-287 | every seeded height of a level lies in [-PARAM_H, PARAM_H) |
| Seeding.RandArray | numpygen/noisegen.py:264-265 | RandArray fills an n x n array with consecutive draws of one stream, in row-major order |
| Seeding.SetColumn | numpygen/noisegen.py:272-274 | a[x, :] gets the draws of its stream and nothing else changes |
| Seeding.SetRow | numpygen/noisegen.py:276-278 | a[:, y] gets the draws of its stream and nothing else changes |
| Seeding.SetSeededCondition | numpygen/noisegen.py:267-287 | after the eight writes each border entry holds its edge or corner draw (later writes win) and the interior is unchanged; fails when the world size has a zero |
| Seeding.GetSeededConditionsD2m1n3 | numpygen/noisegen.py:289-304 | the height array is the seeded heights with bulk stream (SEED, cx, cy, n, 0) |
| Seeding.GetSeededConditions | numpygen/noisegen.py:308-323 | heights as above with bulk stream [l, t, n, 0], and slopes f and g from the same stream after the heights |
| Terrain.BlockIndex | numpygen/noisegen.py:28-32 | pixel i lies in the block of cell x exactly when i / res == x, at offset i % res |
| Terrain.CellBelowCount | numpygen/noisegen.py:28-32 | every pixel of the chunk belongs to one of the n cells |
| Terrain.MakePolynom | numpygen/noisegen.py:13-81 | the polynomial built for a cell has the cache's variant and takes h[0,0] (and f, g) as its constant terms (the three polynom constructors) |
| Terrain.LevelCacheOf | numpygen/noisegen.py:176-262 | the cached grids of level k have RES[k] pixels per side and the level's amplitude and degree |
| Terrain.IdealLevel | numpygen/noisegen.py:176-262 | the grids a level's cache should hold have the shape its variant needs |
| Terrain.IdealLevelOk | numpygen/noisegen.py:176-262 | those grids are the ones build_cache computes |
| Terrain.CachedLevel | numpygen/noisegen.py:176-262 | a built cache holds exactly those grids at every level |
| Terrain.DomainEval | numpygen/noisegen.py:21-92 | domain_eval of any variant yields a RES x RES grid (the three domain_eval methods) |
| Terrain.FillBlock | numpygen/noisegen.py:28-32 | the block added by fill_array is RES x RES (also lines 75 and 98) |
| Terrain.Scaled | numpygen/noisegen.py:71-75 | multiplying by PARAM_H[k] scales every entry (also line 98) |
| Terrain.FillBlockScaledAt | numpygen/noisegen.py:71-75 | the generic and Perlin blocks are domain_eval scaled by PARAM_H[k] (also line 98) |
| Terrain.NcFillBlockIsPatch | numpygen/noisegen.py:56-75 | the generic block holds the generic patch at (a/res, b/res) times PARAM_H[k] |
| Terrain.PerlinFillBlockIsPatch | numpygen/noisegen.py:83-98 | the Perlin block holds the Perlin patch at (a/res, b/res) times PARAM_H[k] |
| Terrain.AddBlock | numpygen/noisegen.py:28-32 | a[x0:x0+res, y0:y0+res] += block adds the block there and changes nothing else (also lines 75 and 98) |
| Terrain.FillArray | numpygen/noisegen.py:28-98 | fill_array adds the cell's block at (x*RES, y*RES) and changes nothing else (the three fill_array methods) |
| Terrain.LevelsOf | numpygen/noisegen.py:124-262 | the level view of a built cache holds each level's cached grids |
| Terrain.BuiltLevelsOk | numpygen/noisegen.py:124-262 | a built cache gives consistent levels that tile the chunk |
| Terrain.ZgOctaveIsPatch | numpygen/noisegen.py:337-348 | in the ZG generator, an octave's value at a pixel is the ZG patch of its cell's seeded corner heights (PolynomZG at lines 15-32) |
| Terrain.LevelBuilt | numpygen/noisegen.py:176-262 | each level's grids are the ones build_cache computes, with the level's amplitude |
| Terrain.OctaveIsFill | numpygen/noisegen.py:329-334 | an octave's value at a pixel is what fill_array adds for the cell's polynomial, built from the seeded 2x2 slices (also lines 343-347) |
| Terrain.Octaves | numpygen/noisegen.py:329-334 | the table of octave values agrees with every level's contribution |
| Terrain.CellContribution | numpygen/noisegen.py:331-334 | the cell blocks of one level are disjoint: a pixel receives the octave value from its own cell and 0 from every other cell |
| Terrain.FillCell | numpygen/noisegen.py:333-334 | filling one cell adds the octave value on the cell's pixels and nothing elsewhere |
| Terrain.AddLevel | numpygen/noisegen.py:331-334 | the double loop over cells adds the level's octave value to every pixel exactly once |
| Terrain.AddSeededLevel | numpygen/noisegen.py:329-334 | one level, seeded conditions included, adds its octave value to every pixel; with a total random generator it fails only when the world size has a zero (also lines 343-347) |
| Terrain.SumNextLevel | numpygen/noisegen.py:329-334 | after level k the height map is the sum of octaves 0..k |
| Terrain.SumLevels | numpygen/noisegen.py:329-334 | after the level loop the height map is the sum of all octaves |
| Terrain.GenerateTerrain | numpygen/noisegen.py:325-335 | generate_terrain returns an S x S map whose every pixel is the sum over levels of that level's patch value |
| Terrain.GenerateTerrainD2m1n3 | numpygen/noisegen.py:337-348 | the same sum for the ZG generator with only height arrays; with a cache of any other generator it fails, because that polynomial needs the slopes it is not given |
| Normalization.RowMin | numpygen/noisegen.py:364 | the minimum of a row is one of its entries and below all of them |
| Normalization.RowMax | numpygen/noisegen.py:364 | the maximum of a row is one of its entries and above all of them |
| Normalization.GridMin | numpygen/noisegen.py:364 | np.min of the map is one of its entries and below all of them |
| Normalization.MinOfRows | numpygen/noisegen.py:364 | the minimum over the first k rows is attained there and below them |
| Normalization.GridMax | numpygen/noisegen.py:364 | np.max of the map is one of its entries and above all of them |
| Normalization.MaxOfRows | numpygen/noisegen.py:364 | the maximum over the first k rows is attained there and above them |
| Normalization.UnitRatio | numpygen/noisegen.py:365 | x/d lies in [0, 1] for 0 <= x <= d, is 0 at 0 and 1 at d |
| Normalization.AffineOrder | numpygen/noisegen.py:365 | (v - lo)/d keeps strict order and equality for d > 0 |
| Normalization.Normalize | numpygen/noisegen.py:363-365 | normalize is undefined exactly when the map is empty or flat; otherwise it keeps the shape |
| Normalization.NormalizeRange | numpygen/noisegen.py:363-365 | normalized values lie in [0, 1], the minimum becomes 0 and the maximum 1 |
| Normalization.NormalizeAt | numpygen/noisegen.py:363-365 | each normalized entry is (h - min)/(max - min) |
| Normalization.NormalizeMonotone | numpygen/noisegen.py:363-365 | normalize keeps the order and the ties between any two pixels |
| Normalization.TheoreticalNormalizeGrid | numpygen/noisegen.py:149-152 | theoretical_normalize of a map keeps its shape and puts every height of [-H, H] in [0, 1] (called at lines 367-368) |
| Normalization.TheoreticalNormalizeBounded | numpygen/noisegen.py:149-152 | every height in [-H, H] normalizes into [0, 1] |
| Normalization.TheoreticalNormalizeGridMonotone | numpygen/noisegen.py:149-152 | theoretical_normalize keeps the strict order of any two pixels (called at lines 367-368) |
| TerrainSeams.ZgSharedVerticalEdge | numpygen/noisegen.py:15-26 | two ZG patches sharing their right/left corner heights agree along the shared edge |
| TerrainSeams.ZgSharedHorizontalEdge | numpygen/noisegen.py:15-26 | two ZG patches sharing their bottom/top corner heights agree along the shared edge |
| TerrainSeams.ZgSeamRight | numpygen/noisegen.py:267-304 | the last ZG cell of a chunk, extended to u = 1, meets the first cell of the right neighbour chunk at u = 0 (ZG patch at lines 15-26) |
| TerrainSeams.ZgSeamBelow | numpygen/noisegen.py:267-304 | the same for the chunk below (ZG patch at lines 15-26) |
| ColorScales.LastNamed | numpygen/colorscale.py:12-23 | finds the last band with a given name, or none |
| ColorScales.MaterialIsLastNamedBand | numpygen/colorscale.py:12-23 | a material is in the dictionary exactly when some band has that name, and it maps to the last such band |
| ColorScales.OrderIsKeys | numpygen/colorscale.py:22-23 | the dictionary's iteration order lists each key once and only the keys |
| ColorScales.FirstContaining | numpygen/colorscale.py:61-67 | the first band with m <= h < M, or none if no band holds h (the same test at lines 47-48) |
| ColorScales.FirstBelow | numpygen/colorscale.py:29-31 | the first band with h < M, which is the band whose mask first catches h |
| ColorScales.FirstBelowIsFirstContaining | numpygen/colorscale.py:29-48 | for chained bands and h above minval, get's masks pick the same band as get_color_from_h's search |
| ColorScales.MaterialSearch | numpygen/colorscale.py:69-73 | the material found holds h and is the first in the order whose band holds h; no material is found only if none holds h |
| ColorScales.Interp | numpygen/colorscale.py:49-57 | the colour is c1 at m (or for a flat band) and c2 at M |
| ColorScales.Trunc | numpygen/colorscale.py:40-42 | storing into the int array truncates toward zero |
| ColorScales.ColorFromH | numpygen/colorscale.py:46-58 | the colour of the first band holding h, else the last band's c2; undefined for no bands |
| ColorScales.ColorSearch | numpygen/colorscale.py:47-58 | the loop of get_color_from_h, from band i on, gives that same colour |
| ColorScales.PaintedIsColorFromH | numpygen/colorscale.py:29-58 | for h in the scale's range, the pixel get paints is the truncated get_color_from_h(h) |
| ColorScales.ContourThresholds | numpygen/colorscale.py:247 | linspace(0, 1.000001, n)[1:] gives n-1 increasing positive thresholds ending at 1.000001; it fails for negative n |
| ColorScales.ContourSpecs | numpygen/colorscale.py:246-248 | one unnamed band spec (c1, c2, v) per threshold |
| ColorScales.ContourBands | numpygen/colorscale.py:245-249 | the contour scale runs from 0 to 1.000001 with n-1 unnamed bands, each non-empty |
| ColorScales.ColorScale.constructor | numpygen/colorscale.py:7-23 | band i runs from the previous band's top (or minval) to its own maxval with delta = M - m, and named bands enter the dictionary |
| ColorScales.ColorScale.GetColorIndexFromH | numpygen/colorscale.py:61-67 | the index of the first band holding h, or -1 |
| ColorScales.ColorScale.GetMaterialFromH | numpygen/colorscale.py:69-73 | the first material in the dictionary's insertion order whose band holds h, or none if none does |
| ColorScales.ColorScale.GetHMaterialBegin | numpygen/colorscale.py:75-77 | the lower bound of the last band with that name; absent names have none |
| ColorScales.ColorScale.GetHMaterialEnd | numpygen/colorscale.py:79-81 | the upper bound of the last band with that name; absent names have none |
| ColorScales.ColorScale.PaintPixel | numpygen/colorscale.py:30-43 | one band's masked assignment at one pixel paints it when band k is its first h < M band, and changes no other pixel |
| ColorScales.ColorScale.PaintRow | numpygen/colorscale.py:30-43 | the same for one row |
| ColorScales.ColorScale.PaintBand | numpygen/colorscale.py:30-43 | the same for the whole array |
| ColorScales.ColorScale.Get | numpygen/colorscale.py:25-44 | get returns a w x h x 3 array whose every pixel has the colour of the first band with h < M; it fails for a flat band |
| ColorScales.ColorScale.ContourColorScale | numpygen/colorscale.py:245-249 | get_contour_colorscale builds a valid scale from the contour bands; it fails for negative n |
| ImageWriter.Rows | c/imagewriter.h:15-25 | the rows of the array, entry by entry |
| ImageWriter.ScanRowBounds | c/imagewriter.h:19-25 | a scan of one row keeps minValue below every value seen; the corrected scan also keeps maxValue above them; each is either the start value or one seen |
| ImageWriter.ScanRowsBounds | c/imagewriter.h:17-25 | the same over the whole array from the initial 1 and -1 |
| ImageWriter.FindExtremes | c/imagewriter.h:17-25 | the scan loops compute the minimum and maximum as the scan function does |
| ImageWriter.Rescale | c/imagewriter.h:26-30 | every entry becomes (a - offset)/divider |
| ImageWriter.NormalizeArrayAsWritten | c/imagewriter.h:15-31 | normalizeArray with its else-if: rescales by the scanned minimum and maximum; refuses a flat scan |
| ImageWriter.ElseIfMissesMaximum | c/imagewriter.h:23-24 | on [[0.8, 0.2], [0.3, 0.4]] the else-if scan reports maximum 0.4, so 0.8 normalizes to 3.0; the corrected scan reports 0.8 |
| ImageWriter.NormalizeArray | c/imagewriter.h:15-31 | normalizeArray with independent minimum and maximum tests |
| ImageWriter.OffsetBelowEveryValue | c/imagewriter.h:23-26 | the offset is at most every value, so a - offset >= 0 |
| ImageWriter.NormalizedKeepsOrder | c/imagewriter.h:26-30 | normalizing keeps the strict order between values |
| ImageWriter.NormalizedInUnit | c/imagewriter.h:15-31 | with the corrected scan every normalized value lies in [0, 1] |
| ImageWriter.MixTrunc | c/imagewriter.h:35-37 | the int colour is c1 at k = 0 and c2 at k = 1 |
| ImageWriter.Interpolated | c/imagewriter.h:33-38 | interpColor gives c1 at h1 and c2 at h2 |
| ImageWriter.InterpColor | c/imagewriter.h:33-38 | the loop writes the interpolated colour into c3 |
| ImageWriter.ChainColor | c/imagewriter.h:88-101 | a value gets the colour of the first admitting segment, and none if no segment admits it |
| ImageWriter.TerrainColorIsChain | c/imagewriter.h:70-101 | the terrain scale is a well-formed chain; a value is coloured exactly when v <= 1 |
| ImageWriter.TerrainColorAtThresholds | c/imagewriter.h:70-101 | consecutive segments share their threshold and colour, so the colour is continuous at each threshold, and 1 is snow |
| ImageWriter.SelectColor | c/imagewriter.h:88-101 | the if-else chain writes the terrain colour of v into rgb, and writes nothing for v > 1 |
| ImageWriter.Padding | c/imagewriter.h:63 | the padding is 0 to 3 bytes and makes a row a multiple of 4 bytes |
| ImageWriter.Stride | c/imagewriter.h:63-65 | a padded row is a multiple of 4 and at most 3 bytes longer than 3w |
| ImageWriter.RowStart | c/imagewriter.h:116-118 | row y > 0 starts at least one stride in (row size from line 65) |
| ImageWriter.RowStartIsProduct | c/imagewriter.h:116-118 | row y starts at y * (3w + padding) (row size from line 65) |
| ImageWriter.RowStartOrder | c/imagewriter.h:116-118 | rows do not overlap |
| ImageWriter.RowsFillData | c/imagewriter.h:65 | the h rows fill datasize exactly |
| ImageWriter.RowDecomposition | c/imagewriter.h:116-118 | a byte position has one row and one place inside its row |
| ImageWriter.Offset | c/imagewriter.h:116-118 | the byte of channel c of pixel (x, y) |
| ImageWriter.OffsetFormula | c/imagewriter.h:116-118 | that byte is (x + y*w)*3 + y*padding + c |
| ImageWriter.OffsetInRange | c/imagewriter.h:116-118 | every pixel byte lies inside the datasize buffer (datasize at line 65) |
| ImageWriter.PaddingInRange | c/imagewriter.h:63-68 | every padding byte lies inside the buffer |
| ImageWriter.OffsetInjective | c/imagewriter.h:116-118 | distinct (pixel, channel) pairs write distinct bytes |
| ImageWriter.PixelsApart | c/imagewriter.h:116-118 | two different pixels share no byte |
| ImageWriter.PixelNotPadding | c/imagewriter.h:116-118 | no pixel byte is a padding byte |
| ImageWriter.LE32 | c/imagewriter.h:122-125 | the four shifted bytes of a value |
| ImageWriter.LE32RoundTrip | c/imagewriter.h:122-138 | decoding the four little-endian bytes gives back any 32-bit value |
| ImageWriter.PutLE32 | c/imagewriter.h:122-138 | storing a field writes its four bytes and no other |
| ImageWriter.FileHeader | c/imagewriter.h:122-125 | the file header is 14 bytes (initializer at line 52) |
| ImageWriter.InfoHeader | c/imagewriter.h:127-138 | the info header is 40 bytes (initializer at lines 53-56) |
| ImageWriter.PutLE32Elsewhere | c/imagewriter.h:122-138 | storing one field leaves a disjoint field unchanged |
| ImageWriter.FileHeaderFields | c/imagewriter.h:122-125 | the file header reads "BM", the file size, 0 and the pixel offset 54 (initializer at line 52) |
| ImageWriter.InfoHeaderInitFields | c/imagewriter.h:53-56 | the initial info header has size 40, 1 plane, 24 bits and no compression |
| ImageWriter.InfoFieldsOver | c/imagewriter.h:127-138 | storing width, height and datasize keeps the size, plane, depth and compression fields |
| ImageWriter.InfoHeaderFields | c/imagewriter.h:127-138 | the info header reads 40, w, h, 1 plane, 24 bits, no compression and datasize (initializer at lines 53-56) |
| ImageWriter.StoreLE32 | c/imagewriter.h:122-125 | the four byte stores write the field into the array |
| ImageWriter.NewBytes | c/imagewriter.h:52-56 | the header array holds its initializer |
| ImageWriter.StoreSizes | c/imagewriter.h:127-138 | the info header stores hold w, h and datasize |
| ImageWriter.BuildHeaders | c/imagewriter.h:52-138 | the headers hold the file and info headers of a w x h image |
| ImageWriter.PutPixel | c/imagewriter.h:116-118 | the three stores write B, G, R of the pixel and no other byte |
| ImageWriter.PlacePixel | c/imagewriter.h:116-118 | placing a pixel keeps every other pixel's bytes and the zero padding |
| ImageWriter.ZeroPaddingClear | c/imagewriter.h:68 | calloc's zeroed buffer has zero padding |
| ImageWriter.FillPixel | c/imagewriter.h:83-118 | terrain[j][i] is painted at (i, h-1-j) with its terrain colour; other pixels and the padding keep their bytes |
| ImageWriter.FillImage | c/imagewriter.h:80-120 | every pixel is painted with its terrain colour, flipped vertically, and the padding stays zero (calloc at line 68) |
| ImageWriter.NormalizedArrayInUnit | c/imagewriter.h:15-31 | after the corrected normalization of a terrain that is not flat every array entry lies in [0, 1] |
| ImageWriter.NormalizeTerrain | c/imagewriter.h:61 | writeToBmp's normalization, done with the corrected scan rather than the `else if` scan line 61 calls, rescales every height in place to (v - min) / (max - min), which lies in [0, 1]; a flat terrain fails and is left unchanged |
| ImageWriter.WriteToBmp | c/imagewriter.h:42-139 | writeToBmp rescales the terrain in place to (v - min) / (max - min), so every height lies in [0, 1] and gets a colour from the chain; it then builds the headers and an image whose every pixel has its terrain colour; a flat terrain fails and is left unchanged |
| ZgStream.MaxOctavesIsLog2 | c/zg.c:134 | MAX_OCTAVES is log2(S): 2^8 == 256 (S at line 19) |
| ZgStream.Rem | c/zg.c:51-60 | the position inside a cell is below res |
| ZgStream.CellRemIsDivMod | c/zg.c:51-60 | the cell and position counters are x / res and x % res |
| ZgStream.CellRemStep | c/zg.c:51-64 | one step advances the position, or at a cell's end resets it to 0 and moves to the next cell |
| ZgStream.CornerStep | c/zg.c:52-62 | each new cell moves the corner index on by res - 1 |
| ZgStream.CornerIndexIsProduct | c/zg.c:42-62 | the corner index of cell c is c * (res - 1) |
| ZgStream.CornerInRange | c/zg.c:68-71 | both corner indices of a pixel's cell lie inside h |
| ZgStream.RelPos | c/zg.c:40-48 | the relative position (x mod res)/res lies in [0, 1) |
| ZgStream.RelAfter | c/zg.c:81-87 | the accumulated xRel stays in [0, 1) |
| ZgStream.RelAfterIsRelPos | c/zg.c:40-87 | after x steps of delta = 1/res, xRel is (x mod res)/res |
| ZgStream.ZgPixelIsPatch | c/zg.c:49-78 | a pixel's value is the ZG patch (s3) of its cell's four corners at its relative position |
| ZgStream.ZgPixelAtCellOrigin | c/zg.c:68-78 | at a cell's first pixel the value is h00, the imposed height |
| ZgStream.DhIsPixel | c/zg.c:49-78 | the dh computed from the loop variables is the pixel's ZG value |
| ZgStream.BlockIsCell | c/zg.c:68-74 | the coefficients reloaded from h[idx][idy] and so on are the cell's ZG polynomial |
| ZgStream.SmoothxIsS3 | c/zg.c:49-59 | 3x^2 - 2x*x^2 is the smoothstep s3 |
| ZgStream.DhIsZgEval | c/zg.c:78 | dh is the ZG polynomial evaluated at the smoothed position |
| ZgStream.PixelDh | c/zg.c:58-78 | the inner body computes the pixel's ZG value |
| ZgStream.ZgColumn | c/zg.c:46-84 | the y loop adds amplitude * (ZG value) to every pixel of column x and to no other column |
| ZgStream.ZgOctave | c/zg.c:40-88 | one octave adds amplitude * (ZG value at res) to every pixel |
| ZgStream.OctaveResIsPower | c/zg.c:89 | octave i has res == 2^(8 - i) (res starts at S, line 34) |
| ZgStream.OctaveAmplitude | c/zg.c:90 | octave i has amplitude 1/2^i (amplitude starts at 1, line 37) |
| ZgStream.OctaveFits | c/zg.c:89 | every octave up to MAX_OCTAVES has a res that divides S (used by x % res at lines 51 and 60) |
| ZgStream.OctaveAfterLast | c/zg.c:89 | octave index MAX_OCTAVES, a ninth octave that zgTerrain's requires admits and main's limit at line 138 does not, has res 1; a tenth octave would have res 0, so `x%res` and `y%res` at lines 51 and 60 would be undefined |
| ZgStream.AmplitudeScales | c/zg.c:79 | amplitude * dh in octave i is dh halved i times (halving at line 90) |
| ZgStream.OctaveSumStep | c/zg.c:79 | each octave adds its halved pixel value to the running sum (octave loop at line 38) |
| ZgStream.ZgTerrain | c/zg.c:24-92 | zgTerrain adds to every pixel the sum over octaves of its ZG value at that octave, halved once per octave |
| ZgStream.MainKeepsCellsWide | c/zg.c:134-142 | every octave main allows has cells at least 2 pixels wide |
| ZgStream.ZgMain | c/zg.c:118-145 | main stops unless nOctaves <= MAX_OCTAVES; otherwise the terrain is the octave sum on a zeroed array |

## Left out

- The random generators are not modelled. numpy's `np.random.seed`/`random` (numpygen/noisegen.py:264-287, 301, 320) and C's `srand`/`rand` (c/zg.c:105-126) become the parameter `rng(key, i)`. The model assumes only that draws lie in [0, 1), and `fillRandom`'s boundary grid h is an input of `ZgStream.ZgMain`.
- Floats are exact reals. Rounding is not modelled. In particular, the accumulated `xRel += delta` in c/zg.c:81-87 is taken exactly as (x mod res)/res.
- Integer overflow is not modelled, for C `int` or for the header fields. The header lemmas require sizes below 2^32.
- `buildArray` (c/zg.c:94-103) and the `free`s (c/zg.c:150-154) are allocation; Dafny arrays stand in for them.
- The file output of `writeToBmp` (c/imagewriter.h:141-152) and its `filename` buffers are I/O. The model returns the two headers and the pixel buffer instead.
- The `print` calls in `Cache.build` (numpygen/noisegen.py:185-187) and the `printf` in main are output only.
- `lru_cache` on `compute_max_h` only memoizes and does not change the value.
- `generate_rect_terrain` (numpygen/noisegen.py:350-360) is not part of this model. It indexes the seeded arrays beyond their n+1 entries for widths above 1, which numpy slicing silently truncates.
- The colour-scale constants (SUMMER, WINTER, BEACH, ... in numpygen/colorscale.py:102-242) are data. Only `get_contour_colorscale` is modelled as a constructor of scales.
- ZgStream.MaxOctaves: the C constant `(int)(log(S)/log(2))` is a floating-point computation. It is the constant 8, and `ZgStream.MaxOctavesIsLog2` proves that 2^8 == S.
- ZgStream.ZgTerrain requires nOctaves <= MAX_OCTAVES + 1. With more octaves res reaches 0 and `x % res` is undefined behaviour in C. main only calls it with nOctaves <= MAX_OCTAVES.
- ZgStream.ZgColumn: h00, deltaX, deltaY and A start at 0.0. C leaves them uninitialised, but the reload flag is set before their first use.
- ZgStream.PixelDh computes smoothy inside the pixel step, with `yRel*yRel` inlined in place of the `y2` temporary. `ZgStream.Scaled` names the product `amplitude*dh`.
- ColorScales.ColorScale.Get reports failure when a band has delta == 0. In the source, `r` is then a plain int and `r[current_mask]` raises.
- ColorScales.ColorFromH returns None for a scale with no bands, where `self.colors[-1]` raises.
- ColorScales.ColorScale.GetHMaterialBegin and GetHMaterialEnd return None for an unknown name, where the dictionary lookup raises KeyError.
- ColorScales.ColorScale.constructor: the source keeps the caller's list as `self.colors` (numpygen/colorscale.py:10) and rewrites each entry in place into `[c1, c2, m, M, delta]` (line 21), so the caller sees its list rewritten and a second `ColorScale` built on the same list raises ValueError at line 17 when it unpacks five values into four names. The model takes the band specifications by value and captures neither the aliasing nor the rewrite; no scale defined at lines 102-249 reuses a list.
- ColorScales.ColorScale.GetMaterialFromH searches the dictionary in insertion order. The dictionary is the field `materialOrder` plus the map `materials`.
- Normalization.Normalize returns None for a flat map, where numpy divides by zero and fills the map with NaN.
- ImageWriter.NormalizeArray and NormalizeArrayAsWritten refuse a flat scan (maxValue == minValue), where C divides by zero.
- ImageWriter.NormalizeTerrain and ImageWriter.WriteToBmp normalize with the corrected scan (ImageWriter.NormalizeArray), not the `else if` scan that c/imagewriter.h:61 calls (lines 23-24). With the scan as written an entry can be rescaled above 1 (see Findings); the colour chain then sets no colour and C writes an uninitialised `rgb` to that pixel. The model does not capture that garbage pixel.
- ImageWriter.SelectColor leaves rgb unwritten for v > 1, as the C chain does. C then stores an uninitialised `rgb`; `ImageWriter.FillPixel` then writes nothing to that pixel, which keeps the zero bytes of calloc.
- Seeding.SetSeededCondition, Seeding.GetSeededConditionsD2m1n3, Seeding.GetSeededConditions, Terrain.AddSeededLevel, Terrain.SumNextLevel, Terrain.SumLevels, Terrain.GenerateTerrain and Terrain.GenerateTerrainD2m1n3: the random generator `rng` is total, so numpy's ValueError for a seed key entry that is negative or at least 2^32 (numpygen/noisegen.py:271-286, 301, 320), for example a negative chunk coordinate or a negative SEED, is not modelled. Their ok or found result reflects only the world size (and, for GenerateTerrainD2m1n3, the cache's generator).
- The NoiseCache bulk stream `[l, t, n, 0]` omits SEED (numpygen/noisegen.py:320). The slopes f and g have no boundary condition. So there is no seam property for the generic and Perlin generators; only the heights agree across chunks (`Seeding.SeamRightLeft`).
- Chunk coordinates are not wrapped: only the right and bottom neighbours are taken modulo WORLD_SIZE. The seam lemmas therefore hold for the chunk coordinates as given.
- The heights of neighbouring chunks meet in the sense of continuity (`TerrainSeams.ZgSeamRight`): the last cell of a chunk, extended to u = 1, equals the next chunk's first cell at u = 0. The last pixel column samples u = (res-1)/res and does not equal the neighbour's first column.
- A bound of the terrain by [-max_h, max_h] is not claimed for the ZG patch. `Patches.ZgLeavesCornerRange` shows a ZG patch leaving the range of its corners, so `theoretical_normalize` can leave [0, 1] (`Normalization.TheoreticalNormalizeGrid` states the bound only for heights inside [-H, H]).

## Findings

| source | as written | input that shows it | evidently intended | confidence | as-written member | corrected member |
|---|---|---|---|---|---|---|
| c/imagewriter.h:23-24 | `else if (value > maxValue)` skips the maximum test whenever a value lowers the minimum | a = [[0.8, 0.2], [0.3, 0.4]]: maxValue ends at 0.4, so 0.8 normalizes to 3.0 | independent minimum and maximum tests, so every value lands in [0, 1] | not executed | ImageWriter.NormalizeArrayAsWritten, ImageWriter.ElseIfMissesMaximum | ImageWriter.NormalizeArray, ImageWriter.NormalizedInUnit |
