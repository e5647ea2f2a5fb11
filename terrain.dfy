/** Terrain generation of numpygen/noisegen.py: fill_array of the three polynom
    classes, generate_terrain, generate_terrain_d2m1n3, normalize and
    theoretical_normalize. A chunk's heightmap is the sum over the levels of the
    patches of every cell, each added into its res x res block. */
module Terrain {
  import opened Wrappers
  import opened Grids
  import opened SmoothstepBasis
  import opened Patches
  import opened NoiseCache
  import opened CacheObject
  import opened Seeding

  // ------------------------------------------------------------ integer cells

  /** Point i lies in the block of cell x exactly when i / res == x, and then its
      offset in the block is i % res. */
  lemma BlockIndex(i: nat, x: nat, res: nat)
    requires res >= 1
    ensures (x * res <= i < x * res + res) <==> i / res == x
    ensures i / res == x ==> i - x * res == i % res
  {
    var q := i / res;
    assert i == q * res + i % res;
    if q < x {
      MulLe(q + 1, x, res);
    } else if q > x {
      MulLe(x + 1, q, res);
    }
  }

  /** A point of a chunk of n cells of res points lies in one of the n cells. */
  lemma CellBelowCount(j: nat, n: nat, res: nat)
    requires res >= 1 && j < n * res
    ensures j / res < n
  {
    var q := j / res;
    assert j == q * res + j % res;
    if q >= n {
      MulLe(n, q, res);
    }
  }

  // -------------------------------------------------------------- polynoms

  /** An instance of c.polynom: the patch of one cell. */
  datatype Polynom = ZgPol(zg: ZgPolynom) | NcPol(nc: NcPolynom) | PerlinPol(f: Block, g: Block)

  /** The cache class whose `polynom` builds p. */
  function VariantOf(p: Polynom): Variant {
    match p
    case ZgPol(_) => ZeroGradient
    case NcPol(_) => DualCubic
    case PerlinPol(_, _) => Perlin
  }

  /** c.polynom(h, f, g): PolynomZG ignores the slopes and PolynomPerlin ignores the heights. */
  function MakePolynom(variant: Variant, h: Block, f: Block, g: Block): (p: Polynom)
    ensures VariantOf(p) == variant
    ensures p.ZgPol? ==> p.zg.h0 == h.v00
    ensures p.NcPol? ==> p.nc.c00 == h.v00 && p.nc.c10 == f.v00 && p.nc.c01 == g.v00
    ensures p.PerlinPol? ==> p.f == f && p.g == g
  {
    match variant
    case ZeroGradient => ZgPol(ZgFromBlock(h))
    case DualCubic => NcPol(NcFromBlocks(h, f, g))
    case Perlin => PerlinPol(f, g)
  }

  /** The surface of the cell's polynom at the point (u, v) of the cell, before any
      amplitude: PolynomZG blends the corner heights, PolynomNoiseCache fits the
      heights and slopes, PolynomPerlin blends the corner gradients. */
  function CellPatch(variant: Variant, d: int, h: Block, f: Block, g: Block, u: real, v: real): real
    requires variant.DualCubic? || d in Degrees
  {
    match variant
    case ZeroGradient => ZgPatch(h, d, u, v)
    case DualCubic => NcPatch(h, f, g, u, v)
    case Perlin => PerlinPatch(f, g, d, u, v)
  }

  /** The factor fill_array applies to domain_eval: PARAM_H[k] for the NoiseCache and
      Perlin polynoms, none for PolynomZG, whose corner heights already carry it. */
  function Gain(variant: Variant, amp: real): real {
    if variant.ZeroGradient? then 1.0 else amp
  }

  // ------------------------------------------------------- one level's cache

  /** The entries [k] of a built cache that the polynoms read at level k: RES, PARAM_H,
      the smoothstep degree and the cached grids (those the variant does not build
      are left empty). */
  datatype LevelCache = LevelCache(n: nat, amp: real, sdegree: int, x: Grid, y: Grid,
                                   sx: Grid, sy: Grid, xy: Grid, xiyj: seq<seq<Grid>>,
                                   xm1: Grid, ym1: Grid)

  /** Level k of the built cache c. */
  function LevelCacheOf(c: Cache, k: nat): (lc: LevelCache)
    reads c
    requires c.CacheBuilt() && k < c.levels
    ensures lc.n == c.res[k] && lc.amp == c.paramH[k] && lc.sdegree == c.sdegree
  {
    var n: nat := c.res[k];
    match c.variant
    case ZeroGradient =>
      LevelCache(n, c.paramH[k], c.sdegree, c.xs[k], c.ys[k], c.smoothX[k], c.smoothY[k],
                 c.xy[k], [], [], [])
    case DualCubic =>
      LevelCache(n, c.paramH[k], c.sdegree, c.xs[k], c.ys[k], [], [], [], c.xiyj[k], [], [])
    case Perlin =>
      LevelCache(n, c.paramH[k], c.sdegree, c.xs[k], c.ys[k], c.smoothX[k], c.smoothY[k],
                 [], [], c.xm1[k], c.ym1[k])
  }

  /** The grids the variant's domain_eval reads are n x n (and XiYj has every key). */
  predicate LevelShaped(lc: LevelCache, variant: Variant) {
    && IsSquare(lc.x, lc.n) && IsSquare(lc.y, lc.n)
    && match variant
       case ZeroGradient => IsSquare(lc.sx, lc.n) && IsSquare(lc.sy, lc.n) && IsSquare(lc.xy, lc.n)
       case DualCubic => MonomialsShaped(lc.xiyj, lc.n)
       case Perlin =>
         && IsSquare(lc.sx, lc.n) && IsSquare(lc.sy, lc.n)
         && IsSquare(lc.xm1, lc.n) && IsSquare(lc.ym1, lc.n)
  }

  /** The grids of lc are those build_cache computes for a cell of n x n points. */
  ghost predicate LevelCacheOk(lc: LevelCache, variant: Variant) {
    && LevelShaped(lc, variant)
    && lc.n >= 1
    && lc.x == CoordGrid(lc.n) && lc.y == Transpose(lc.x, lc.n)
    && match variant
       case ZeroGradient =>
         && lc.sdegree in Degrees
         && lc.sx == SmoothGrid(lc.sdegree, lc.x, lc.n) && lc.sy == Transpose(lc.sx, lc.n)
         && lc.xy == XyGrid(lc.x, lc.y, lc.sx, lc.sy, lc.n)
       case DualCubic =>
         lc.xiyj == MonomialGrids(lc.x, lc.y, lc.n)
       case Perlin =>
         && lc.sdegree in Degrees
         && lc.sx == SmoothGrid(lc.sdegree, lc.x, lc.n) && lc.sy == Transpose(lc.sx, lc.n)
         && lc.xm1 == MinusOneGrid(lc.x, lc.n) && lc.ym1 == Transpose(lc.xm1, lc.n)
  }

  /** The grids build_cache computes for one level of n x n points per cell. */
  function IdealLevel(variant: Variant, n: nat, amp: real, d: int): (lc: LevelCache)
    requires n >= 1 && (variant.DualCubic? || d in Degrees)
    ensures LevelShaped(lc, variant) && lc.n == n && lc.amp == amp && lc.sdegree == d
  {
    var x := CoordGrid(n);
    var y := Transpose(x, n);
    match variant
    case ZeroGradient =>
      var sx := SmoothGrid(d, x, n);
      var sy := Transpose(sx, n);
      LevelCache(n, amp, d, x, y, sx, sy, XyGrid(x, y, sx, sy, n), [], [], [])
    case DualCubic =>
      LevelCache(n, amp, d, x, y, [], [], [], MonomialGrids(x, y, n), [], [])
    case Perlin =>
      var sx := SmoothGrid(d, x, n);
      var xm1 := MinusOneGrid(x, n);
      LevelCache(n, amp, d, x, y, sx, Transpose(sx, n), [], [], xm1, Transpose(xm1, n))
  }

  /** The grids of IdealLevel are those of its cell size. */
  lemma IdealLevelOk(variant: Variant, n: nat, amp: real, d: int)
    requires n >= 1 && (variant.DualCubic? || d in Degrees)
    ensures LevelCacheOk(IdealLevel(variant, n, amp, d), variant)
  {
  }

  /** Every level of a built cache holds exactly the grids of its cell size. */
  lemma CachedLevel(c: Cache, k: nat)
    requires c.CacheBuilt() && k < c.levels
    ensures c.res[k] >= 1 && (c.variant.DualCubic? || c.sdegree in Degrees)
    ensures LevelCacheOf(c, k) == IdealLevel(c.variant, c.res[k], c.paramH[k], c.sdegree)
  {
    if !c.variant.DualCubic? {
      assert c.SmoothBuilt();
    }
  }

  /** p.domain_eval(c, k): the patch over the res x res block, from the cache. */
  function DomainEval(p: Polynom, lc: LevelCache): (r: Grid)
    requires LevelShaped(lc, VariantOf(p))
    ensures IsSquare(r, lc.n)
  {
    match p
    case ZgPol(z) => ZgDomainEval(z, lc.sx, lc.sy, lc.xy, lc.n)
    case NcPol(q) => NcDomainEval(q, lc.xiyj, lc.n)
    case PerlinPol(f, g) => PerlinDomainEval(f, g, lc.x, lc.y, lc.xm1, lc.ym1, lc.sx, lc.sy, lc.n)
  }

  /** What p.fill_array adds over the block: domain_eval, times PARAM_H[k] for the
      NoiseCache and Perlin polynoms. */
  function FillBlock(p: Polynom, lc: LevelCache): (r: Grid)
    requires LevelShaped(lc, VariantOf(p))
    ensures IsSquare(r, lc.n)
  {
    var e := DomainEval(p, lc);
    if p.ZgPol? then e else Scaled(e, lc.n, lc.amp)
  }

  /** Every entry of the n x n grid e times amp. */
  function Scaled(e: Grid, n: nat, amp: real): (r: Grid)
    requires IsSquare(e, n)
    ensures IsSquare(r, n)
    ensures forall a, b :: 0 <= a < n && 0 <= b < n ==> r[a][b] == e[a][b] * amp
  {
    seq(n, a requires 0 <= a < n => seq(n, b requires 0 <= b < n => e[a][b] * amp))
  }

  /** The NoiseCache and Perlin blocks are domain_eval scaled by the level's amplitude. */
  lemma FillBlockScaledAt(p: Polynom, lc: LevelCache, a: nat, b: nat, w: real)
    requires LevelShaped(lc, VariantOf(p)) && !p.ZgPol? && a < lc.n && b < lc.n
    requires DomainEval(p, lc)[a][b] == w
    ensures FillBlock(p, lc)[a][b] == w * lc.amp
  {
  }

  /** PolynomNoiseCache.fill_array adds at entry [a][b] of the block w times the
      level's amplitude, for w the dual-cubic surface at the point (a/res, b/res). */
  lemma NcFillBlockIsPatch(lc: LevelCache, h: Block, f: Block, g: Block, a: nat, b: nat, w: real)
    requires LevelCacheOk(lc, DualCubic) && a < lc.n && b < lc.n
    requires w == NcPatch(h, f, g, a as real / lc.n as real, b as real / lc.n as real)
    ensures FillBlock(NcPol(NcFromBlocks(h, f, g)), lc)[a][b] == w * lc.amp
  {
    NcCacheEvaluates(lc.n, h, f, g, a, b);
    FillBlockScaledAt(NcPol(NcFromBlocks(h, f, g)), lc, a, b, w);
  }

  /** PolynomPerlin.fill_array adds at entry [a][b] of the block w times the level's
      amplitude, for w the gradient-noise surface at the point (a/res, b/res). */
  lemma PerlinFillBlockIsPatch(lc: LevelCache, f: Block, g: Block, a: nat, b: nat, w: real)
    requires LevelCacheOk(lc, Perlin) && a < lc.n && b < lc.n
    requires w == PerlinPatch(f, g, lc.sdegree, a as real / lc.n as real, b as real / lc.n as real)
    ensures FillBlock(PerlinPol(f, g), lc)[a][b] == w * lc.amp
  {
    PerlinCacheEvaluates(lc.sdegree, lc.n, f, g, a, b);
    FillBlockScaledAt(PerlinPol(f, g), lc, a, b, w);
  }

  // ----------------------------------------------------------- filling blocks

  /** What an n x n block placed at (ox, oy) adds at the point (i, j). */
  function BlockEntry(blk: Grid, n: nat, ox: int, oy: int, i: int, j: int): real
    requires IsSquare(blk, n)
  {
    if ox <= i < ox + n && oy <= j < oy + n then blk[i - ox][j - oy] else 0.0
  }

  /** hmap[ox:ox+n, oy:oy+n] += blk, entry by entry; nothing outside the block changes. */
  method AddBlock(hmap: array2<real>, blk: Grid, n: nat, ox: nat, oy: nat)
    requires IsSquare(blk, n) && ox + n <= hmap.Length0 && oy + n <= hmap.Length1
    modifies hmap
    ensures forall i, j :: 0 <= i < hmap.Length0 && 0 <= j < hmap.Length1 ==>
              hmap[i, j] == old(hmap[i, j]) + BlockEntry(blk, n, ox, oy, i, j)
  {
    for a := 0 to n
      invariant forall i, j :: 0 <= i < hmap.Length0 && 0 <= j < hmap.Length1 ==>
                  hmap[i, j] == old(hmap[i, j]) +
                    (if ox <= i < ox + a && oy <= j < oy + n then blk[i - ox][j - oy] else 0.0)
    {
      for b := 0 to n
        invariant forall i, j :: 0 <= i < hmap.Length0 && 0 <= j < hmap.Length1 ==>
                    hmap[i, j] == old(hmap[i, j]) +
                      (if (ox <= i < ox + a && oy <= j < oy + n) || (i == ox + a && oy <= j < oy + b)
                       then blk[i - ox][j - oy] else 0.0)
      {
        hmap[ox + a, oy + b] := hmap[ox + a, oy + b] + blk[a][b];
      }
    }
  }

  /** p.fill_array(hmap, c, k, x0, y0): the block of cell (x0, y0) of level k gets the
      polynom's values added; nothing outside the block changes. */
  method FillArray(p: Polynom, hmap: array2<real>, c: Cache, k: nat, x0: nat, y0: nat)
    requires c.CacheBuilt() && k < c.levels && VariantOf(p) == c.variant
    requires (x0 + 1) * c.res[k] <= hmap.Length0 && (y0 + 1) * c.res[k] <= hmap.Length1
    modifies hmap
    ensures LevelShaped(LevelCacheOf(c, k), c.variant)
    ensures forall i, j :: 0 <= i < hmap.Length0 && 0 <= j < hmap.Length1 ==>
              hmap[i, j] == old(hmap[i, j])
                            + BlockEntry(FillBlock(p, LevelCacheOf(c, k)), c.res[k],
                                         x0 * c.res[k], y0 * c.res[k], i, j)
  {
    CachedLevel(c, k);
    var res: nat := c.res[k];
    var blk := FillBlock(p, LevelCacheOf(c, k));
    AddBlock(hmap, blk, res, x0 * res, y0 * res);
  }

  // ------------------------------------------------------ the terrain values

  /** What generate_terrain reads from a built cache, with the grids of every level. */
  datatype Levels = Levels(variant: Variant, sdegree: int, seed: int, worldSize: (int, int),
                           s: int, paramN: seq<int>, paramH: seq<real>, res: seq<int>,
                           caches: seq<LevelCache>)

  function LevelsOf(c: Cache): (lv: Levels)
    reads c
    requires c.CacheBuilt()
    ensures |lv.caches| == c.levels
    ensures forall k :: 0 <= k < c.levels ==> lv.caches[k] == LevelCacheOf(c, k)
  {
    Levels(c.variant, c.sdegree, c.seed, c.worldSize, c.s, c.paramN, c.paramH, c.res,
           seq(c.levels, k requires 0 <= k < c.levels && c.CacheBuilt() reads c => LevelCacheOf(c, k)))
  }

  /** Every level has cells that tile the chunk and grids of its cell size, the
      smoothstep degree is usable and the world size can be divided by. */
  ghost predicate LevelsOk(lv: Levels) {
    && |lv.paramN| == |lv.res| && |lv.paramH| == |lv.res| && |lv.caches| == |lv.res|
    && (forall k :: 0 <= k < |lv.res| ==>
          lv.paramN[k] >= 1 && lv.res[k] >= 1 && lv.paramN[k] * lv.res[k] == lv.s)
    && (forall k :: 0 <= k < |lv.res| ==>
          LevelShaped(lv.caches[k], lv.variant) && lv.caches[k].n == lv.res[k])
    && (lv.variant.DualCubic? || |lv.res| == 0 || lv.sdegree in Degrees)
    && WorldOk(lv.worldSize)
  }

  /** Every level holds the grids build_cache computes for it. */
  ghost predicate LevelsBuilt(lv: Levels)
    requires LevelsOk(lv)
  {
    forall k :: 0 <= k < |lv.res| ==>
      lv.caches[k] == IdealLevel(lv.variant, lv.res[k], lv.paramH[k], lv.sdegree)
  }

  lemma BuiltLevelsOk(c: Cache)
    requires c.CacheBuilt() && WorldOk(c.worldSize)
    ensures LevelsOk(LevelsOf(c)) && LevelsBuilt(LevelsOf(c))
    ensures |c.res| == c.levels
  {
    forall k | 0 <= k < c.levels
      ensures c.paramN[k] >= 1 && c.res[k] >= 1 && c.paramN[k] * c.res[k] == c.s
      ensures LevelCacheOf(c, k) == IdealLevel(c.variant, c.res[k], c.paramH[k], c.sdegree)
    {
      c.LevelsPositive(k);
      CachedLevel(c, k);
    }
  }

  /** Entry [x, y] of the height array of level k (get_seeded_conditions when
      `generic`, get_seeded_conditions_d2m1n3 otherwise). */
  function LevelHeight(rng: Rng, lv: Levels, chunk: (int, int), generic: bool, k: nat,
                       x: nat, y: nat): real
    requires LevelsOk(lv) && k < |lv.res|
  {
    var n: nat := lv.paramN[k];
    var key := if generic then BulkKey(chunk, n) else BulkKeyD2m1n3(lv.seed, chunk, n);
    SeededHeight(rng, lv.seed, chunk.0, chunk.1, n, lv.paramH[k], lv.worldSize, key, x, y)
  }

  /** The slice h[x:x+2, y:y+2] of the height array of level k. */
  function HeightBlock(rng: Rng, lv: Levels, chunk: (int, int), generic: bool, k: nat,
                       x: nat, y: nat): Block
    requires LevelsOk(lv) && k < |lv.res|
  {
    Block(LevelHeight(rng, lv, chunk, generic, k, x, y),
          LevelHeight(rng, lv, chunk, generic, k, x, y + 1),
          LevelHeight(rng, lv, chunk, generic, k, x + 1, y),
          LevelHeight(rng, lv, chunk, generic, k, x + 1, y + 1))
  }

  /** Entry [x, y] of the slope array f (m = 1) or g (m = 2) of get_seeded_conditions. */
  function SlopeDraw(rng: Rng, lv: Levels, chunk: (int, int), k: nat, m: nat, x: nat, y: nat): real
    requires LevelsOk(lv) && k < |lv.res|
  {
    var n: nat := lv.paramN[k];
    Draw(rng, 1.0, BulkKey(chunk, n), m * (n + 1) * (n + 1) + x * (n + 1) + y)
  }

  /** The slice f[x:x+2, y:y+2] (m = 1) or g[x:x+2, y:y+2] (m = 2). */
  function SlopeBlock(rng: Rng, lv: Levels, chunk: (int, int), k: nat, m: nat, x: nat, y: nat): Block
    requires LevelsOk(lv) && k < |lv.res|
  {
    Block(SlopeDraw(rng, lv, chunk, k, m, x, y), SlopeDraw(rng, lv, chunk, k, m, x, y + 1),
          SlopeDraw(rng, lv, chunk, k, m, x + 1, y), SlopeDraw(rng, lv, chunk, k, m, x + 1, y + 1))
  }

  /** The arguments h, f and g of c.polynom for cell (x, y) of level k. Without
      `generic` (generate_terrain_d2m1n3) the slopes are not drawn; PolynomZG, the
      only polynom that path can build, does not read them, and the height slice
      stands in for them. */
  function CellBlocks(rng: Rng, lv: Levels, chunk: (int, int), generic: bool, k: nat,
                      x: nat, y: nat): (Block, Block, Block)
    requires LevelsOk(lv) && k < |lv.res|
  {
    var hb := HeightBlock(rng, lv, chunk, generic, k, x, y);
    if generic then (hb, SlopeBlock(rng, lv, chunk, k, 1, x, y), SlopeBlock(rng, lv, chunk, k, 2, x, y))
    else (hb, hb, hb)
  }

  /** What the polynom of cell (x, y) of level k adds at entry [a][b] of its block. */
  function OctaveAt(rng: Rng, lv: Levels, chunk: (int, int), generic: bool, k: nat,
                    x: nat, y: nat, a: nat, b: nat): real
    requires LevelsOk(lv) && k < |lv.res| && a < lv.res[k] && b < lv.res[k]
  {
    var cb := CellBlocks(rng, lv, chunk, generic, k, x, y);
    FillBlock(MakePolynom(lv.variant, cb.0, cb.1, cb.2), lv.caches[k])[a][b]
  }

  /** The contribution of level k at the point (i, j) of the chunk: the entry
      (i % res, j % res) of the block of cell (i / res, j / res). */
  function OctaveValue(rng: Rng, lv: Levels, chunk: (int, int), generic: bool, k: nat,
                       i: nat, j: nat): real
    requires LevelsOk(lv) && k < |lv.res|
  {
    var r: nat := lv.res[k];
    OctaveAt(rng, lv, chunk, generic, k, i / r, j / r, i % r, j % r)
  }

  /** With PolynomZG, level k adds at entry [a][b] of cell (x, y) the zero-gradient
      surface of the cell's corner heights at the point (a/res, b/res). */
  lemma ZgOctaveIsPatch(rng: Rng, lv: Levels, chunk: (int, int), generic: bool, k: nat,
                        x: nat, y: nat, a: nat, b: nat)
    requires LevelsOk(lv) && LevelsBuilt(lv) && lv.variant == ZeroGradient
    requires k < |lv.res| && a < lv.res[k] && b < lv.res[k]
    ensures OctaveAt(rng, lv, chunk, generic, k, x, y, a, b)
            == ZgPatch(HeightBlock(rng, lv, chunk, generic, k, x, y), lv.sdegree,
                       a as real / lv.res[k] as real, b as real / lv.res[k] as real)
  {
    ZgCacheEvaluates(lv.sdegree, lv.res[k], HeightBlock(rng, lv, chunk, generic, k, x, y), a, b);
  }

  /** A built level holds the grids of its cell size, its amplitude and the degree. */
  lemma LevelBuilt(lv: Levels, k: nat)
    requires LevelsOk(lv) && LevelsBuilt(lv) && k < |lv.res|
    ensures LevelCacheOk(lv.caches[k], lv.variant)
    ensures lv.caches[k].amp == lv.paramH[k] && lv.caches[k].sdegree == lv.sdegree
  {
    IdealLevelOk(lv.variant, lv.res[k], lv.paramH[k], lv.sdegree);
  }

  /** Entry [a][b] of cell (x, y) is that entry of the block of the polynom that
      c.polynom builds from the cell's slices. */
  lemma OctaveIsFill(rng: Rng, lv: Levels, chunk: (int, int), generic: bool, k: nat,
                     x: nat, y: nat, a: nat, b: nat)
    requires LevelsOk(lv) && k < |lv.res| && a < lv.res[k] && b < lv.res[k]
    ensures var hb := HeightBlock(rng, lv, chunk, generic, k, x, y);
            var fb := if generic then SlopeBlock(rng, lv, chunk, k, 1, x, y) else hb;
            var gb := if generic then SlopeBlock(rng, lv, chunk, k, 2, x, y) else hb;
            OctaveAt(rng, lv, chunk, generic, k, x, y, a, b)
            == FillBlock(MakePolynom(lv.variant, hb, fb, gb), lv.caches[k])[a][b]
  {
  }

  /** The sum of the contributions of levels 0 .. K-1 at the point (i, j). */
  function LevelSum(oct: (nat, nat, nat) -> real, K: nat, i: nat, j: nat): real {
    if K == 0 then 0.0 else LevelSum(oct, K - 1, i, j) + oct(K - 1, i, j)
  }

  /** The contribution of every level of lv, as a function of the level and the point. */
  ghost function Octaves(rng: Rng, lv: Levels, chunk: (int, int), generic: bool): (oct: (nat, nat, nat) -> real)
    ensures LevelsOk(lv) ==> forall k: nat, i: nat, j: nat :: k < |lv.res| ==>
              oct(k, i, j) == OctaveValue(rng, lv, chunk, generic, k, i, j)
  {
    (k: nat, i: nat, j: nat) =>
      if LevelsOk(lv) && k < |lv.res| then OctaveValue(rng, lv, chunk, generic, k, i, j) else 0.0
  }

  /** The height at the point (i, j) of the chunk after the first K levels. */
  ghost function TerrainHeight(rng: Rng, lv: Levels, chunk: (int, int), generic: bool, K: nat,
                               i: nat, j: nat): real
    requires LevelsOk(lv) && K <= |lv.res|
  {
    LevelSum(Octaves(rng, lv, chunk, generic), K, i, j)
  }

  // ------------------------------------------------------------- generation

  /** The block of cell (x, y) of level k adds, at the point (i, j) of the chunk,
      level k's value there when (i, j) lies in the cell, and nothing otherwise. */
  lemma CellContribution(rng: Rng, lv: Levels, chunk: (int, int), generic: bool, k: nat,
                         blk: Grid, x: nat, y: nat, i: nat, j: nat)
    requires LevelsOk(lv) && k < |lv.res|
    requires var cb := CellBlocks(rng, lv, chunk, generic, k, x, y);
             blk == FillBlock(MakePolynom(lv.variant, cb.0, cb.1, cb.2), lv.caches[k])
    ensures var r := lv.res[k];
            BlockEntry(blk, r, x * r, y * r, i, j)
            == if x * r <= i < x * r + r && y * r <= j < y * r + r
               then OctaveValue(rng, lv, chunk, generic, k, i, j) else 0.0
  {
    var r: nat := lv.res[k];
    BlockIndex(i, x, r);
    BlockIndex(j, y, r);
  }

  /** One step of the cell loop of generate_terrain: the slices of cell (x, y) build
      its polynom, which fills the cell's block with level k's values there. The
      ghost function ov names those values (OctaveValue) for the caller's invariants. */
  method FillCell(rng: Rng, c: Cache, chunk: (int, int), generic: bool, k: nat,
                  hmap: array2<real>, h: array2<real>, f: array2<real>, g: array2<real>,
                  x: nat, y: nat, ghost ov: (nat, nat) -> real)
    requires c.CacheBuilt() && LevelsOk(LevelsOf(c)) && k < c.levels
    requires generic || c.variant.ZeroGradient?
    requires hmap.Length0 == c.s && hmap.Length1 == c.s
    requires hmap != h && hmap != f && hmap != g
    requires x < c.paramN[k] && y < c.paramN[k]
    requires h.Length0 == c.paramN[k] + 1 && h.Length1 == c.paramN[k] + 1
    requires f.Length0 == c.paramN[k] + 1 && f.Length1 == c.paramN[k] + 1
    requires g.Length0 == c.paramN[k] + 1 && g.Length1 == c.paramN[k] + 1
    requires forall x, y :: 0 <= x <= c.paramN[k] && 0 <= y <= c.paramN[k] ==>
               && h[x, y] == LevelHeight(rng, LevelsOf(c), chunk, generic, k, x, y)
               && (generic ==> f[x, y] == SlopeDraw(rng, LevelsOf(c), chunk, k, 1, x, y))
               && (generic ==> g[x, y] == SlopeDraw(rng, LevelsOf(c), chunk, k, 2, x, y))
    requires forall i: nat, j: nat {:trigger OctaveValue(rng, LevelsOf(c), chunk, generic, k, i, j)} ::
               ov(i, j) == OctaveValue(rng, LevelsOf(c), chunk, generic, k, i, j)
    modifies hmap
    ensures forall i, j :: 0 <= i < c.s && 0 <= j < c.s ==>
              var r := c.res[k];
              hmap[i, j] == old(hmap[i, j]) +
                (if x * r <= i < x * r + r && y * r <= j < y * r + r then ov(i, j) else 0.0)
  {
    ghost var lv := LevelsOf(c);
    var n: nat, res: nat := c.paramN[k], c.res[k];
    var hb := Block(h[x, y], h[x, y + 1], h[x + 1, y], h[x + 1, y + 1]);
    var fb := if generic then Block(f[x, y], f[x, y + 1], f[x + 1, y], f[x + 1, y + 1]) else hb;
    var gb := if generic then Block(g[x, y], g[x, y + 1], g[x + 1, y], g[x + 1, y + 1]) else hb;
    assert (hb, fb, gb) == CellBlocks(rng, lv, chunk, generic, k, x, y);
    var pol := MakePolynom(c.variant, hb, fb, gb);
    ghost var blk := FillBlock(pol, LevelCacheOf(c, k));
    MulLe(x + 1, n, res);
    MulLe(y + 1, n, res);
    FillArray(pol, hmap, c, k, x, y);
    forall i, j | 0 <= i < c.s && 0 <= j < c.s
      ensures hmap[i, j] == old(hmap[i, j]) +
                (if x * res <= i < x * res + res && y * res <= j < y * res + res
                 then ov(i, j) else 0.0)
    {
      CellContribution(rng, lv, chunk, generic, k, blk, x, y, i, j);
    }
  }

  /** The body of the level loop of generate_terrain (and, with `generic` false, of
      generate_terrain_d2m1n3): every cell's polynom fills its block, which adds
      level k (named ov, as in FillCell) to every point of the chunk. */
  method AddLevel(rng: Rng, c: Cache, chunk: (int, int), generic: bool, k: nat,
                  hmap: array2<real>, h: array2<real>, f: array2<real>, g: array2<real>,
                  ghost ov: (nat, nat) -> real)
    requires c.CacheBuilt() && LevelsOk(LevelsOf(c)) && k < c.levels
    requires generic || c.variant.ZeroGradient?
    requires hmap.Length0 == c.s && hmap.Length1 == c.s
    requires hmap != h && hmap != f && hmap != g
    requires h.Length0 == c.paramN[k] + 1 && h.Length1 == c.paramN[k] + 1
    requires f.Length0 == c.paramN[k] + 1 && f.Length1 == c.paramN[k] + 1
    requires g.Length0 == c.paramN[k] + 1 && g.Length1 == c.paramN[k] + 1
    requires forall x, y :: 0 <= x <= c.paramN[k] && 0 <= y <= c.paramN[k] ==>
               && h[x, y] == LevelHeight(rng, LevelsOf(c), chunk, generic, k, x, y)
               && (generic ==> f[x, y] == SlopeDraw(rng, LevelsOf(c), chunk, k, 1, x, y))
               && (generic ==> g[x, y] == SlopeDraw(rng, LevelsOf(c), chunk, k, 2, x, y))
    requires forall i: nat, j: nat {:trigger OctaveValue(rng, LevelsOf(c), chunk, generic, k, i, j)} ::
               ov(i, j) == OctaveValue(rng, LevelsOf(c), chunk, generic, k, i, j)
    modifies hmap
    ensures forall i, j :: 0 <= i < c.s && 0 <= j < c.s ==> hmap[i, j] == old(hmap[i, j]) + ov(i, j)
  {
    var n: nat, res: nat := c.paramN[k], c.res[k];
    assert n * res == c.s;
    for x := 0 to n
      invariant forall i, j :: 0 <= i < c.s && 0 <= j < c.s ==>
                  hmap[i, j] == old(hmap[i, j]) + (if i < x * res then ov(i, j) else 0.0)
    {
      for y := 0 to n
        invariant forall i, j :: 0 <= i < c.s && 0 <= j < c.s ==>
                    hmap[i, j] == old(hmap[i, j]) +
                      (if i < x * res || (i < x * res + res && j < y * res) then ov(i, j) else 0.0)
      {
        FillCell(rng, c, chunk, generic, k, hmap, h, f, g, x, y, ov);
        assert (y + 1) * res == y * res + res;
      }
      assert (x + 1) * res == x * res + res;
    }
  }

  /** One iteration of the level loop of generate_terrain (`generic`) or of
      generate_terrain_d2m1n3: draw level k's corner arrays, then add level k to every
      point of the chunk. Drawing fails when a world dimension is 0 (a modulo by zero). */
  method AddSeededLevel(rng: Rng, chunk: (int, int), c: Cache, generic: bool, k: nat,
                        hmap: array2<real>) returns (found: bool)
    requires c.CacheBuilt() && k < c.levels && (generic || c.variant.ZeroGradient?)
    requires hmap.Length0 == c.s && hmap.Length1 == c.s
    modifies hmap
    ensures found <==> WorldOk(c.worldSize)
    ensures found ==> LevelsOk(LevelsOf(c)) && forall i, j :: 0 <= i < c.s && 0 <= j < c.s ==>
                        hmap[i, j] == old(hmap[i, j]) + OctaveValue(rng, LevelsOf(c), chunk, generic, k, i, j)
  {
    var h, f, g;
    if generic {
      found, h, f, g := GetSeededConditions(rng, chunk, k, c);
    } else {
      found, h := GetSeededConditionsD2m1n3(rng, chunk, k, c);
      f, g := h, h;
    }
    if !found {
      return;
    }
    BuiltLevelsOk(c);
    ghost var lv := LevelsOf(c);
    AddLevel(rng, c, chunk, generic, k, hmap, h, f, g,
             (i: nat, j: nat) => OctaveValue(rng, lv, chunk, generic, k, i, j));
  }

  /** The partial sums of the level loop: after k levels every point of the chunk
      holds the sum of the contributions of levels 0 .. k-1. */
  ghost predicate SummedLevels(oct: (nat, nat, nat) -> real, k: nat, hmap: array2<real>, s: int)
    reads hmap
  {
    && hmap.Length0 == s && hmap.Length1 == s
    && forall i, j :: 0 <= i < s && 0 <= j < s ==> hmap[i, j] == LevelSum(oct, k, i, j)
  }

  /** `oct` gives the contributions of the levels of lv, once lv is consistent. */
  ghost predicate OctavesOf(oct: (nat, nat, nat) -> real, rng: Rng, lv: Levels, chunk: (int, int),
                            generic: bool)
  {
    LevelsOk(lv) ==>
      forall k: nat, i: nat, j: nat {:trigger OctaveValue(rng, lv, chunk, generic, k, i, j)} ::
        k < |lv.res| ==> oct(k, i, j) == OctaveValue(rng, lv, chunk, generic, k, i, j)
  }

  /** One pass of the level loop, stated on the partial sums. */
  method SumNextLevel(rng: Rng, chunk: (int, int), c: Cache, generic: bool, k: nat,
                      hmap: array2<real>, ghost lv: Levels, ghost oct: (nat, nat, nat) -> real)
    returns (found: bool)
    requires c.CacheBuilt() && lv == LevelsOf(c) && k < c.levels && (generic || c.variant.ZeroGradient?)
    requires OctavesOf(oct, rng, lv, chunk, generic) && SummedLevels(oct, k, hmap, c.s)
    modifies hmap
    ensures found <==> WorldOk(c.worldSize)
    ensures found ==> SummedLevels(oct, k + 1, hmap, c.s)
  {
    found := AddSeededLevel(rng, chunk, c, generic, k, hmap);
  }

  /** The level loop shared by generate_terrain (`generic`) and
      generate_terrain_d2m1n3: add the levels one by one, stopping at the first
      level whose corner arrays cannot be drawn. */
  method SumLevels(rng: Rng, chunk: (int, int), c: Cache, generic: bool,
                   hmap: array2<real>, ghost lv: Levels, ghost oct: (nat, nat, nat) -> real)
    returns (ok: bool)
    requires c.CacheBuilt() && lv == LevelsOf(c) && (generic || c.variant.ZeroGradient?)
    requires OctavesOf(oct, rng, lv, chunk, generic) && SummedLevels(oct, 0, hmap, c.s)
    modifies hmap
    ensures ok <==> WorldOk(c.worldSize)
    ensures ok ==> SummedLevels(oct, c.levels, hmap, c.s)
  {
    c.LevelsPositive(0);
    for k := 0 to c.levels
      invariant k > 0 ==> WorldOk(c.worldSize)
      invariant SummedLevels(oct, k, hmap, c.s)
    {
      ok := SumNextLevel(rng, chunk, c, generic, k, hmap, lv, oct);
      if !ok {
        return;
      }
    }
    ok := true;
  }

  /** generate_terrain: the heightmap of a chunk is the sum of every level's patches. */
  method GenerateTerrain(rng: Rng, chunk: (int, int), c: Cache) returns (ok: bool, hmap: array2<real>)
    requires c.CacheBuilt()
    ensures fresh(hmap) && hmap.Length0 == c.s && hmap.Length1 == c.s
    ensures ok <==> WorldOk(c.worldSize)
    ensures ok ==> LevelsOk(LevelsOf(c)) && forall i, j :: 0 <= i < c.s && 0 <= j < c.s ==>
                     hmap[i, j] == TerrainHeight(rng, LevelsOf(c), chunk, true, c.levels, i, j)
  {
    c.LevelsPositive(0);
    hmap := new real[c.s, c.s]((i, j) => 0.0);
    ghost var lv := LevelsOf(c);
    ok := SumLevels(rng, chunk, c, true, hmap, lv, Octaves(rng, lv, chunk, true));
    if ok {
      BuiltLevelsOk(c);
    }
  }

  /** generate_terrain_d2m1n3: the same sum with the heights of
      get_seeded_conditions_d2m1n3 and no slopes, which only PolynomZG accepts: with
      any other cache the first polynomial of level 0 fails on its missing slopes, so
      ok is false. */
  method GenerateTerrainD2m1n3(rng: Rng, chunk: (int, int), c: Cache) returns (ok: bool, hmap: array2<real>)
    requires c.CacheBuilt()
    ensures fresh(hmap) && hmap.Length0 == c.s && hmap.Length1 == c.s
    ensures ok <==> WorldOk(c.worldSize) && c.variant == ZeroGradient
    ensures ok ==> LevelsOk(LevelsOf(c)) && forall i, j :: 0 <= i < c.s && 0 <= j < c.s ==>
                     hmap[i, j] == TerrainHeight(rng, LevelsOf(c), chunk, false, c.levels, i, j)
  {
    c.LevelsPositive(0);
    hmap := new real[c.s, c.s]((i, j) => 0.0);
    if !c.variant.ZeroGradient? {
      ok := false;
      return;
    }
    ghost var lv := LevelsOf(c);
    ok := SumLevels(rng, chunk, c, false, hmap, lv, Octaves(rng, lv, chunk, false));
    if ok {
      BuiltLevelsOk(c);
    }
  }
}
