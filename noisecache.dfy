/** The Cache classes of numpygen/noisegen.py: the configuration of a noise, the
    per-octave parameters derived from it (Cache.build_params, compute_max_h,
    theoretical_normalize) and the per-octave coordinate caches (get_x,
    Cache.build_cache and the build_cache of ZeroGradient, NoiseCache and
    Perlin). The three subclasses are the three values of Variant. */
module NoiseCache {
  import opened Wrappers
  import opened Grids
  import opened SmoothstepBasis
  import opened Patches

  /** The Cache subclass, which fixes the patch evaluator (`polynom`):
      ZeroGradient uses PolynomZG, NoiseCache (here DualCubic) uses
      PolynomNoiseCache and Perlin uses PolynomPerlin. */
  datatype Variant = ZeroGradient | DualCubic | Perlin

  /** The exception build_params raises. */
  datatype ConfigError =
    | DivisionByZero        // ZeroDivisionError: 1./H_DIVIDER**i or S % n with a zero divisor
    | NotDivisible(level: nat)  // assert S % n == 0
    | NonPositiveMinN       // assert MIN_N > 0
    | NoLevels              // IndexError: PARAM_N[-1] of an empty list
    | LastLevelTooFine      // assert PARAM_N[-1] <= S

  lemma ProductOfPositives(a: int, b: int)
    requires a >= 1 && b >= 1
    ensures a * b >= 1
  {
    assert a * b == (a - 1) * b + b;
  }

  lemma NonPositiveProduct(a: int, b: int)
    requires a <= 0 && b >= 1
    ensures a * b <= 0
  {
    assert a * b == -((-a) * b);
  }

  // ------------------------------------------------------ level derivation

  function IntPow(b: int, i: nat): int {
    if i == 0 then 1 else IntPow(b, i - 1) * b
  }

  /** PARAM_N[i]: the number of cells along each side of a chunk at level i. */
  function LevelN(minN: int, domDivider: int, i: nat): int {
    minN * IntPow(domDivider, i)
  }

  /** PARAM_H[i] = 1./H_DIVIDER**i, the amplitude of level i. */
  function LevelH(hDivider: real, i: nat): real
    requires hDivider != 0.0 || i == 0
  {
    PowNonZero(hDivider, i);
    1.0 / Pow(hDivider, i)
  }

  lemma {:induction false} PowNonZero(x: real, i: nat)
    requires x != 0.0 || i == 0
    ensures Pow(x, i) != 0.0
  {
    if i > 0 {
      PowNonZero(x, i - 1);
    }
  }

  /** Every check of build_params passes, so it raises nothing. */
  predicate ConfigOk(depth: int, hDivider: real, domDivider: int, minN: int, s: int) {
    && depth >= 1
    && (hDivider != 0.0 || depth == 1)
    && (forall i: nat :: i < depth ==>
          LevelN(minN, domDivider, i) != 0 && s % LevelN(minN, domDivider, i) == 0)
    && minN > 0
    && LevelN(minN, domDivider, depth - 1) <= s
  }

  /** Each level has DOM_DIVIDER times as many cells per side as the previous one. */
  lemma LevelNSucc(minN: int, domDivider: int, i: nat)
    ensures LevelN(minN, domDivider, i + 1) == LevelN(minN, domDivider, i) * domDivider
  {
    calc {
      LevelN(minN, domDivider, i + 1);
      minN * (IntPow(domDivider, i) * domDivider);
      (minN * IntPow(domDivider, i)) * domDivider;
    }
  }

  /** PARAM_N after `k` levels: [LevelN(0), ..., LevelN(k-1)]. */
  function LevelNs(minN: int, domDivider: int, k: nat): (ns: seq<int>)
    ensures |ns| == k
  {
    seq(k, i requires 0 <= i < k => LevelN(minN, domDivider, i))
  }

  /** PARAM_H after `k` levels. */
  function LevelHs(hDivider: real, k: nat): (hs: seq<real>)
    requires hDivider != 0.0 || k <= 1
    ensures |hs| == k
  {
    seq(k, i requires 0 <= i < k => LevelH(hDivider, i))
  }

  /** RES after `k` levels: the cells of level i are S / PARAM_N[i] points wide. */
  function LevelRes(s: int, minN: int, domDivider: int, k: nat): (rs: seq<int>)
    requires forall i: nat :: i < k ==> LevelN(minN, domDivider, i) != 0
    ensures |rs| == k
  {
    seq(k, i requires 0 <= i < k => s / LevelN(minN, domDivider, i))
  }

  /** compute_max_h: the sum of the amplitudes of the first `depth` levels. */
  function ComputeMaxH(depth: nat, hDivider: real): real
    requires hDivider != 0.0 || depth <= 1
  {
    if depth == 0 then 0.0 else ComputeMaxH(depth - 1, hDivider) + LevelH(hDivider, depth - 1)
  }

  /** The sum of a list of reals (Python's `sum`). */
  function Sum(xs: seq<real>): real {
    if xs == [] then 0.0 else Sum(xs[..|xs| - 1]) + xs[|xs| - 1]
  }

  /** The configuration S=500, MIN_N=1, DOM_DIVIDER=3, DEPTH=3 is rejected: its third
      level has 9 cells and 500 is not a multiple of 9. */
  lemma RejectedExample()
    ensures LevelN(1, 3, 2) == 9 && 500 % 9 != 0
    ensures !ConfigOk(3, 2.0, 3, 1, 500)
  {
    assert LevelN(1, 3, 2) == 9;
  }

  /** Accepted levels have positive cell counts and tile the chunk: each resolution
      times its cell count is S, and the cell counts grow by DOM_DIVIDER. */
  lemma {:induction false} LevelsTileChunk(depth: int, hDivider: real, domDivider: int,
                                           minN: int, s: int, i: nat)
    requires ConfigOk(depth, hDivider, domDivider, minN, s)
    requires i < depth
    ensures LevelN(minN, domDivider, i) * (s / LevelN(minN, domDivider, i)) == s
    ensures LevelN(minN, domDivider, i) == minN * IntPow(domDivider, i)
    ensures i + 1 < depth ==>
              LevelN(minN, domDivider, i + 1) == LevelN(minN, domDivider, i) * domDivider
  {
    var n := LevelN(minN, domDivider, i);
    assert n != 0 && s % n == 0;
    assert s == n * (s / n) + s % n;
    if i + 1 < depth {
      calc {
        LevelN(minN, domDivider, i + 1);
        minN * (IntPow(domDivider, i) * domDivider);
        (minN * IntPow(domDivider, i)) * domDivider;
      }
    }
  }

  /** With a positive divider every amplitude is positive and the maximal deviation
      is at least the first amplitude, 1. */
  lemma {:induction false} MaxHPositive(depth: nat, hDivider: real)
    requires hDivider > 0.0 && depth >= 1
    ensures ComputeMaxH(depth, hDivider) >= 1.0
    ensures forall i: nat :: i < depth ==> LevelH(hDivider, i) > 0.0
  {
    forall i: nat | i < depth ensures LevelH(hDivider, i) > 0.0 {
      PowPositive(hDivider, i);
    }
    if depth > 1 {
      MaxHPositive(depth - 1, hDivider);
    }
  }

  lemma {:induction false} PowPositive(x: real, i: nat)
    requires x > 0.0
    ensures Pow(x, i) > 0.0
  {
    if i > 0 {
      PowPositive(x, i - 1);
    }
  }

  /** compute_max_h is the sum of the list PARAM_H. */
  lemma {:induction false} MaxHSumsParamH(depth: nat, hDivider: real)
    requires hDivider != 0.0 || depth <= 1
    ensures ComputeMaxH(depth, hDivider)
            == Sum(seq(depth, i requires 0 <= i < depth => LevelH(hDivider, i)))
  {
    var hs := seq(depth, i requires 0 <= i < depth => LevelH(hDivider, i));
    if depth > 0 {
      assert hs[..depth - 1] == seq(depth - 1, i requires 0 <= i < depth - 1 => LevelH(hDivider, i));
      MaxHSumsParamH(depth - 1, hDivider);
    }
  }

  /** Cache.theoretical_normalize at one value: (v + H) / (2H). */
  function TheoreticalNormalize(v: real, maxH: real): real
    requires maxH != 0.0
  {
    (v + maxH) / (2.0 * maxH)
  }

  /** For H > 0 the theoretical normalisation is a strictly increasing affine map that
      sends -H to 0 and H to 1, hence [-H, H] into [0, 1]. */
  lemma TheoreticalNormalizeRange(maxH: real, v: real, w: real)
    requires maxH > 0.0
    ensures TheoreticalNormalize(-maxH, maxH) == 0.0
    ensures TheoreticalNormalize(maxH, maxH) == 1.0
    ensures v < w ==> TheoreticalNormalize(v, maxH) < TheoreticalNormalize(w, maxH)
    ensures -maxH <= v <= maxH ==> 0.0 <= TheoreticalNormalize(v, maxH) <= 1.0
  {
    var d := 2.0 * maxH;
    var r, q := TheoreticalNormalize(v, maxH), TheoreticalNormalize(w, maxH);
    assert r * d == v + maxH && q * d == w + maxH;
    if v < w {
      assert (q - r) * d == w - v;
      if q <= r {
        NonPositiveTimesPositive(q - r, d);
      }
    }
    if -maxH <= v <= maxH {
      if r < 0.0 {
        NonPositiveTimesPositive(r, d);
        assert r * d < 0.0;
      }
    }
  }

  lemma NonPositiveTimesPositive(a: real, b: real)
    requires a <= 0.0 < b
    ensures a * b <= 0.0
    ensures a < 0.0 ==> a * b < 0.0
  {
  }

  // -------------------------------------------------------- coordinate caches

  /** The result of get_x(n): entry [a][b] is a/n, the intra-cell coordinate of row a. */
  function CoordGrid(n: nat): (g: Grid)
    requires n >= 1
    ensures IsSquare(g, n)
  {
    seq(n, a requires 0 <= a < n => seq(n, b requires 0 <= b < n => a as real / n as real))
  }

  /** get_x: fills an n x n array row by row with np.arange(0., 1., 1./n). */
  method GetX(n: int) returns (g: Grid)
    requires n >= 1
    ensures IsSquare(g, n)
    ensures forall a, b :: 0 <= a < n && 0 <= b < n ==>
              g[a][b] == a as real / n as real && 0.0 <= g[a][b] < 1.0
  {
    var domain := seq(n, i requires 0 <= i < n => i as real * (1.0 / n as real));
    g := seq(n, i => seq(n, j => 0.0));
    for x := 0 to n
      invariant IsSquare(g, n)
      invariant forall a, b :: 0 <= a < x && 0 <= b < n ==> g[a][b] == a as real / n as real
      invariant forall a, b :: x <= a < n && 0 <= b < n ==> g[a][b] == 0.0
    {
      g := g[x := seq(n, j => domain[x])];
    }
    forall a, b | 0 <= a < n && 0 <= b < n
      ensures 0.0 <= g[a][b] < 1.0
    {
      assert a as real < n as real;
    }
  }

  /** smoothstep[d] applied to every entry of the n x n grid x. */
  function SmoothGrid(d: int, x: Grid, n: nat): (g: Grid)
    requires d in Degrees && IsSquare(x, n)
    ensures IsSquare(g, n)
  {
    seq(n, a requires 0 <= a < n => seq(n, b requires 0 <= b < n => Smoothstep(d, x[a][b])))
  }

  /** The array XY = x*y - y*sx - x*sy of the ZeroGradient cache. */
  function XyGrid(x: Grid, y: Grid, sx: Grid, sy: Grid, n: nat): (g: Grid)
    requires IsSquare(x, n) && IsSquare(y, n) && IsSquare(sx, n) && IsSquare(sy, n)
    ensures IsSquare(g, n)
  {
    seq(n, a requires 0 <= a < n =>
      seq(n, b requires 0 <= b < n => XyTerm(x[a][b], y[a][b], sx[a][b], sy[a][b])))
  }

  /** The entry x**i * y**j of the dictionary XiYj of the NoiseCache cache. */
  function MonomialGrid(x: Grid, y: Grid, n: nat, i: nat, j: nat): (g: Grid)
    requires IsSquare(x, n) && IsSquare(y, n)
    ensures IsSquare(g, n)
  {
    seq(n, a requires 0 <= a < n =>
      seq(n, b requires 0 <= b < n => Mono(x[a][b], y[a][b], i, j)))
  }

  /** The dictionary XiYj as a 4 x 4 table: entry [i][j] is stored under the key (i, j). */
  function MonomialGrids(x: Grid, y: Grid, n: nat): (m: seq<seq<Grid>>)
    requires IsSquare(x, n) && IsSquare(y, n)
    ensures MonomialsShaped(m, n)
  {
    seq(4, i requires 0 <= i < 4 => seq(4, j requires 0 <= j < 4 => MonomialGrid(x, y, n, i, j)))
  }

  /** The array XM1 = x - 1 of the Perlin cache. */
  function MinusOneGrid(x: Grid, n: nat): (g: Grid)
    requires IsSquare(x, n)
    ensures IsSquare(g, n)
  {
    seq(n, a requires 0 <= a < n => seq(n, b requires 0 <= b < n => x[a][b] - 1.0))
  }

  // ------------------------------------------------- cached patch evaluation

  /** PolynomZG.domain_eval(c, k): the block of values the cell adds, from the cache. */
  function ZgDomainEval(p: ZgPolynom, sx: Grid, sy: Grid, xy: Grid, n: nat): (r: Grid)
    requires IsSquare(sx, n) && IsSquare(sy, n) && IsSquare(xy, n)
    ensures IsSquare(r, n)
  {
    seq(n, a requires 0 <= a < n =>
      seq(n, b requires 0 <= b < n => ZgEval(p, sx[a][b], sy[a][b], xy[a][b])))
  }

  /** The monomial table holds a square grid for every key (i, j) with i, j < 4. */
  predicate MonomialsShaped(m: seq<seq<Grid>>, n: nat) {
    |m| == 4 && forall i :: 0 <= i < 4 ==> |m[i]| == 4 && forall j :: 0 <= j < 4 ==> IsSquare(m[i][j], n)
  }

  /** PolynomNoiseCache.domain_eval(c, k), from the cached monomials. */
  function NcDomainEval(p: NcPolynom, m: seq<seq<Grid>>, n: nat): (r: Grid)
    requires MonomialsShaped(m, n)
    ensures IsSquare(r, n)
  {
    seq(n, a requires 0 <= a < n =>
      seq(n, b requires 0 <= b < n =>
        NcEval(p, CachedMonomials(m, n, a, b))))
  }

  /** The dictionary lookups XiYj[k][(i, j)] at entry [a][b]. */
  function CachedMonomials(m: seq<seq<Grid>>, n: nat, a: nat, b: nat): Monos
    requires MonomialsShaped(m, n) && a < n && b < n
  {
    Monos(m[1][0][a][b], m[2][0][a][b], m[3][0][a][b], m[0][1][a][b], m[0][2][a][b],
          m[0][3][a][b], m[1][1][a][b], m[2][1][a][b], m[3][1][a][b], m[1][2][a][b],
          m[1][3][a][b])
  }

  /** PolynomPerlin.domain_eval(c, k), from the cached X, Y, XM1, YM1 and smoothsteps. */
  function PerlinDomainEval(f: Block, g: Block, x: Grid, y: Grid, xm1: Grid, ym1: Grid,
                            sx: Grid, sy: Grid, n: nat): (r: Grid)
    requires IsSquare(x, n) && IsSquare(y, n) && IsSquare(xm1, n) && IsSquare(ym1, n)
    requires IsSquare(sx, n) && IsSquare(sy, n)
    ensures IsSquare(r, n)
  {
    seq(n, a requires 0 <= a < n =>
      seq(n, b requires 0 <= b < n =>
        PerlinEval(f, g, x[a][b], y[a][b], xm1[a][b], ym1[a][b], sx[a][b], sy[a][b])))
  }

  /** The ZeroGradient cache evaluates the zero-gradient surface exactly at the
      intra-cell coordinates (a/n, b/n). */
  lemma ZgCacheEvaluates(d: int, n: nat, h: Block, a: nat, b: nat)
    requires d in Degrees && n >= 1 && a < n && b < n
    ensures var x := CoordGrid(n);
            var y := Transpose(x, n);
            var sx := SmoothGrid(d, x, n);
            var sy := Transpose(sx, n);
            ZgDomainEval(ZgFromBlock(h), sx, sy, XyGrid(x, y, sx, sy, n), n)[a][b]
            == ZgPatch(h, d, a as real / n as real, b as real / n as real)
  {
  }

  /** The NoiseCache cache evaluates the dual-cubic surface exactly at (a/n, b/n). */
  lemma NcCacheEvaluates(n: nat, h: Block, f: Block, g: Block, a: nat, b: nat)
    requires n >= 1 && a < n && b < n
    ensures var x := CoordGrid(n);
            var m := MonomialGrids(x, Transpose(x, n), n);
            NcDomainEval(NcFromBlocks(h, f, g), m, n)[a][b]
            == NcPatch(h, f, g, a as real / n as real, b as real / n as real)
  {
    var x := CoordGrid(n);
    var y := Transpose(x, n);
    assert x[a][b] == a as real / n as real && y[a][b] == b as real / n as real;
    CachedMonomialsAt(x, y, n, a, b);
  }

  /** Each dictionary lookup at [a][b] is the monomial of the coordinates stored there. */
  lemma CachedMonomialsAt(x: Grid, y: Grid, n: nat, a: nat, b: nat)
    requires IsSquare(x, n) && IsSquare(y, n) && a < n && b < n
    ensures CachedMonomials(MonomialGrids(x, y, n), n, a, b) == Monomials(x[a][b], y[a][b])
  {
    MonomialAt(x, y, n, 1, 0, a, b);
    MonomialAt(x, y, n, 2, 0, a, b);
    MonomialAt(x, y, n, 3, 0, a, b);
    MonomialAt(x, y, n, 0, 1, a, b);
    MonomialAt(x, y, n, 0, 2, a, b);
    MonomialAt(x, y, n, 0, 3, a, b);
    MonomialAt(x, y, n, 1, 1, a, b);
    MonomialAt(x, y, n, 2, 1, a, b);
    MonomialAt(x, y, n, 3, 1, a, b);
    MonomialAt(x, y, n, 1, 2, a, b);
    MonomialAt(x, y, n, 1, 3, a, b);
    MonomialsArePowers(x[a][b], y[a][b]);
  }

  /** The lookup XiYj[(i, j)][a][b] is x[a][b]**i * y[a][b]**j. */
  lemma MonomialAt(x: Grid, y: Grid, n: nat, i: nat, j: nat, a: nat, b: nat)
    requires IsSquare(x, n) && IsSquare(y, n) && i < 4 && j < 4 && a < n && b < n
    ensures MonomialGrids(x, y, n)[i][j][a][b] == Mono(x[a][b], y[a][b], i, j)
  {
    assert MonomialGrids(x, y, n)[i][j] == MonomialGrid(x, y, n, i, j);
  }

  /** The Perlin cache evaluates the gradient-noise surface exactly at (a/n, b/n). */
  lemma PerlinCacheEvaluates(d: int, n: nat, f: Block, g: Block, a: nat, b: nat)
    requires d in Degrees && n >= 1 && a < n && b < n
    ensures var x := CoordGrid(n);
            var y := Transpose(x, n);
            var sx := SmoothGrid(d, x, n);
            var xm1 := MinusOneGrid(x, n);
            PerlinDomainEval(f, g, x, y, xm1, Transpose(xm1, n), sx, Transpose(sx, n), n)[a][b]
            == PerlinPatch(f, g, d, a as real / n as real, b as real / n as real)
  {
  }
}

/** The noise configuration and its derived, read-only state. */
module CacheObject {
  import opened Wrappers
  import opened Grids
  import opened SmoothstepBasis
  import opened Patches
  import opened NoiseCache

  /** One noise cache: a configured Cache subclass (numpygen/noisegen.py, classes
      Cache, ZeroGradient, NoiseCache and Perlin). The configuration fields are set
      by the constructor and may be reassigned by the user before `Build`; the
      derived fields are written by BuildParams and BuildCache. */
  class Cache {
    const variant: Variant
    var depth: int           // DEPTH
    var hDivider: real       // H_DIVIDER
    var domDivider: int      // DOM_DIVIDER
    var minN: int            // MIN_N
    var s: int               // S
    var worldSize: (int, int)  // WORLD_SIZE
    var seed: int            // SEED
    var sdegree: int         // sdegree (ZeroGradient and Perlin)
    var levels: nat          // LEVELS is range(levels)
    var paramN: seq<int>     // PARAM_N
    var paramH: seq<real>    // PARAM_H
    var res: seq<int>        // RES
    var maxH: real           // max_h
    var xs: seq<Grid>        // X
    var ys: seq<Grid>        // Y
    var smoothX: seq<Grid>   // SMOOTHSTEP_X
    var smoothY: seq<Grid>   // SMOOTHSTEP_Y
    var xy: seq<Grid>        // XY
    var xiyj: seq<seq<seq<Grid>>>  // XiYj
    var xm1: seq<Grid>       // XM1
    var ym1: seq<Grid>       // YM1

    /** Cache.__init__ followed by the subclass's __init__. */
    constructor (variant: Variant)
      ensures this.variant == variant
      ensures depth == 7 && hDivider == 2.0 && domDivider == 2 && minN == 1 && s == 512
      ensures worldSize == (1, 1) && seed == 0
      ensures sdegree == if variant.Perlin? then 5 else 3
      ensures levels == 0 && paramN == [] && paramH == [] && res == [] && xs == [] && ys == []
    {
      this.variant := variant;
      depth, hDivider, domDivider, minN, s := 7, 2.0, 2, 1, 512;
      worldSize, seed := (1, 1), 0;
      sdegree := if variant.Perlin? then 5 else 3;
      levels, paramN, paramH, res, maxH := 0, [], [], [], 0.0;
      xs, ys, smoothX, smoothY, xy, xiyj, xm1, ym1 := [], [], [], [], [], [], [], [];
    }

    /** The state build_params leaves when it raises nothing. */
    ghost predicate ParamsBuilt()
      reads this`depth, this`hDivider, this`domDivider, this`minN, this`s, this`levels, this`paramN,
            this`paramH, this`res, this`maxH
    {
      && ConfigOk(depth, hDivider, domDivider, minN, s)
      && levels == depth
      && paramN == LevelNs(minN, domDivider, depth)
      && paramH == LevelHs(hDivider, depth)
      && res == LevelRes(s, minN, domDivider, depth)
      && maxH == ComputeMaxH(depth, hDivider)
    }

    /** Cache.build_params: derives PARAM_N, PARAM_H and RES level by level, then
        max_h, and raises on a configuration that cannot tile the chunk. */
    method BuildParams() returns (r: Outcome<ConfigError>)
      modifies this`levels, this`paramN, this`paramH, this`res, this`maxH
      ensures r.Pass? <==> ConfigOk(depth, hDivider, domDivider, minN, s)
      ensures r.Pass? ==> ParamsBuilt()
      ensures r == Fail(NonPositiveMinN) ==> minN <= 0
      ensures r == Fail(NoLevels) ==> depth <= 0
      ensures r == Fail(LastLevelTooFine) ==> depth >= 1 && LevelN(minN, domDivider, depth - 1) > s
      ensures r.Fail? && r.error.NotDivisible? ==>
                && r.error.level < depth
                && LevelN(minN, domDivider, r.error.level) != 0
                && s % LevelN(minN, domDivider, r.error.level) != 0
    {
      levels := if depth > 0 then depth else 0;
      paramN, paramH, res := [], [], [];
      var n := minN;
      for i := 0 to levels
        modifies this`paramN, this`paramH, this`res
        invariant n == LevelN(minN, domDivider, i)
        invariant hDivider == 0.0 ==> i <= 1
        invariant forall j: nat :: j < i ==>
                    LevelN(minN, domDivider, j) != 0 && s % LevelN(minN, domDivider, j) == 0
        invariant paramN == LevelNs(minN, domDivider, i)
        invariant paramH == LevelHs(hDivider, i)
        invariant res == LevelRes(s, minN, domDivider, i)
      {
        paramN := paramN + [n];
        assert paramN == LevelNs(minN, domDivider, i + 1);
        if hDivider == 0.0 && i > 0 {
          return Fail(DivisionByZero);
        }
        paramH := paramH + [LevelH(hDivider, i)];
        assert paramH == LevelHs(hDivider, i + 1);
        if n == 0 {
          return Fail(DivisionByZero);
        }
        if s % n != 0 {
          return Fail(NotDivisible(i));
        }
        res := res + [s / n];
        assert res == LevelRes(s, minN, domDivider, i + 1);
        LevelNSucc(minN, domDivider, i);
        n := n * domDivider;
      }
      if minN <= 0 {
        return Fail(NonPositiveMinN);
      }
      if levels == 0 {
        return Fail(NoLevels);
      }
      if paramN[levels - 1] > s {
        return Fail(LastLevelTooFine);
      }
      maxH := ComputeMaxH(depth, hDivider);
      r := Pass;
    }

    /** Every level has a positive resolution (get_x raises otherwise) and, when there
        is a level, the subclass's smoothstep degree is a key of `smoothstep`. */
    ghost predicate CacheBuildable()
      reads this
    {
      && (forall k :: 0 <= k < |res| ==> res[k] >= 1)
      && (|res| == 0 || variant.DualCubic? || sdegree in Degrees)
    }

    /** The state Cache.build_cache leaves: X[k] = get_x(RES[k]) and Y[k] = X[k].T. */
    ghost predicate CoordsBuilt()
      reads this`depth, this`hDivider, this`domDivider, this`minN, this`s, this`levels, this`paramN,
            this`paramH, this`res, this`maxH, this`xs, this`ys
    {
      && ParamsBuilt()
      && (forall k :: 0 <= k < levels ==> res[k] >= 1)
      && |xs| == levels && |ys| == levels
      && (forall k :: 0 <= k < levels ==>
            xs[k] == CoordGrid(res[k]) && ys[k] == Transpose(xs[k], res[k]))
    }

    /** SMOOTHSTEP_X[k] = smoothstep[sdegree](X[k]) and SMOOTHSTEP_Y[k] is its transpose. */
    ghost predicate SmoothBuilt()
      reads this`depth, this`hDivider, this`domDivider, this`minN, this`s, this`levels, this`paramN,
            this`paramH, this`res, this`maxH, this`xs, this`ys
      reads this`sdegree, this`smoothX, this`smoothY
      requires CoordsBuilt()
    {
      && (levels == 0 || sdegree in Degrees)
      && |smoothX| == levels && |smoothY| == levels
      && (forall k :: 0 <= k < levels ==>
            smoothX[k] == SmoothGrid(sdegree, xs[k], res[k])
            && smoothY[k] == Transpose(smoothX[k], res[k]))
    }

    /** The state the subclass's build_cache leaves. */
    ghost predicate CacheBuilt()
      reads this
    {
      && CoordsBuilt()
      && match variant
         case ZeroGradient =>
           && SmoothBuilt()
           && |xy| == levels
           && (forall k :: 0 <= k < levels ==>
                 xy[k] == XyGrid(xs[k], ys[k], smoothX[k], smoothY[k], res[k]))
         case DualCubic =>
           && |xiyj| == levels
           && (forall k :: 0 <= k < levels ==> xiyj[k] == MonomialGrids(xs[k], ys[k], res[k]))
         case Perlin =>
           && SmoothBuilt()
           && |xm1| == levels && |ym1| == levels
           && (forall k :: 0 <= k < levels ==>
                 xm1[k] == MinusOneGrid(xs[k], res[k]) && ym1[k] == Transpose(xm1[k], res[k]))
    }

    /** Once the coordinate grids exist, every level has a positive number of cells
        and a positive resolution, and its cells tile the chunk of S points. */
    lemma LevelsPositive(k: nat)
      requires CoordsBuilt() && k < levels
      ensures paramN[k] >= 1 && res[k] >= 1 && paramN[k] * res[k] == s && s >= 1
    {
      LevelsTileChunk(depth, hDivider, domDivider, minN, s, 0);
      LevelsTileChunk(depth, hDivider, domDivider, minN, s, k);
      assert LevelN(minN, domDivider, 0) == minN;
      assert s == minN * res[0];
      ProductOfPositives(minN, res[0]);
      var n, r := paramN[k], res[k];
      assert n * r == s;
      if n <= 0 {
        NonPositiveProduct(n, r);
      }
    }

    /** Cache.build_cache: the coordinate grids of every level. */
    method BuildCoords() returns (ok: bool)
      requires ParamsBuilt()
      modifies this`xs, this`ys
      ensures ok <==> forall k :: 0 <= k < levels ==> res[k] >= 1
      ensures ok ==> CoordsBuilt()
    {
      xs, ys := [], [];
      for k := 0 to levels
        invariant |xs| == k && |ys| == k
        invariant forall j :: 0 <= j < k ==>
                    res[j] >= 1 && xs[j] == CoordGrid(res[j]) && ys[j] == Transpose(xs[j], res[j])
      {
        if res[k] < 1 {
          return false;
        }
        var x := GetX(res[k]);
        assert x == CoordGrid(res[k]) by {
          forall a | 0 <= a < res[k] ensures x[a] == CoordGrid(res[k])[a] { }
        }
        xs := xs + [x];
        ys := ys + [Transpose(x, res[k])];
      }
      ok := true;
    }

    /** The smoothstep part shared by ZeroGradient.build_cache and Perlin.build_cache. */
    method BuildSmooth() returns (ok: bool)
      requires CoordsBuilt()
      modifies this`smoothX, this`smoothY
      ensures ok <==> levels == 0 || sdegree in Degrees
      ensures ok ==> SmoothBuilt()
    {
      smoothX, smoothY := [], [];
      for k := 0 to levels
        invariant sdegree in Degrees || k == 0
        invariant |smoothX| == k && |smoothY| == k
        invariant forall j :: 0 <= j < k ==>
                    smoothX[j] == SmoothGrid(sdegree, xs[j], res[j])
                    && smoothY[j] == Transpose(smoothX[j], res[j])
      {
        if sdegree !in Degrees {
          return false;
        }
        var sx := SmoothGrid(sdegree, xs[k], res[k]);
        smoothX := smoothX + [sx];
        smoothY := smoothY + [Transpose(sx, res[k])];
      }
      ok := true;
    }

    /** ZeroGradient.build_cache after the common part: the array XY of every level. */
    method BuildZgCache() returns (ok: bool)
      requires CoordsBuilt() && variant.ZeroGradient?
      modifies this`smoothX, this`smoothY, this`xy
      ensures ok <==> levels == 0 || sdegree in Degrees
      ensures ok ==> CacheBuilt()
    {
      ok := BuildSmooth();
      if !ok {
        return;
      }
      var grids := [];
      for k := 0 to levels
        invariant |grids| == k
        invariant forall j :: 0 <= j < k ==>
                    grids[j] == XyGrid(xs[j], ys[j], smoothX[j], smoothY[j], res[j])
      {
        grids := grids + [XyGrid(xs[k], ys[k], smoothX[k], smoothY[k], res[k])];
      }
      xy := grids;
    }

    /** NoiseCache.build_cache after the common part: the dictionary XiYj of every
        level, filled key by key. */
    method BuildNcCache()
      requires CoordsBuilt() && variant.DualCubic?
      modifies this`xiyj
      ensures CacheBuilt()
    {
      var dicts := [];
      for k := 0 to levels
        invariant |dicts| == k
        invariant forall j :: 0 <= j < k ==> dicts[j] == MonomialGrids(xs[j], ys[j], res[j])
      {
        var x, y, n := xs[k], ys[k], res[k];
        var dictij: seq<seq<Grid>> := seq(4, i => seq(4, j => []));
        for i := 0 to 4
          invariant |dictij| == 4 && forall i' :: 0 <= i' < 4 ==> |dictij[i']| == 4
          invariant forall i', j' :: 0 <= i' < i && 0 <= j' < 4 ==>
                      dictij[i'][j'] == MonomialGrid(x, y, n, i', j')
        {
          for j := 0 to 4
            invariant |dictij| == 4 && forall i' :: 0 <= i' < 4 ==> |dictij[i']| == 4
            invariant forall i', j' :: 0 <= i' < i && 0 <= j' < 4 ==>
                        dictij[i'][j'] == MonomialGrid(x, y, n, i', j')
            invariant forall j' :: 0 <= j' < j ==> dictij[i][j'] == MonomialGrid(x, y, n, i, j')
          {
            dictij := dictij[i := dictij[i][j := MonomialGrid(x, y, n, i, j)]];
          }
        }
        assert dictij == MonomialGrids(x, y, n) by {
          forall i | 0 <= i < 4 ensures dictij[i] == MonomialGrids(x, y, n)[i] { }
        }
        dicts := dicts + [dictij];
      }
      xiyj := dicts;
    }

    /** Perlin.build_cache after the common part: XM1 = X - 1 and YM1 = XM1.T. */
    method BuildPerlinCache() returns (ok: bool)
      requires CoordsBuilt() && variant.Perlin?
      modifies this`smoothX, this`smoothY, this`xm1, this`ym1
      ensures ok <==> levels == 0 || sdegree in Degrees
      ensures ok ==> CacheBuilt()
    {
      ok := BuildSmooth();
      if !ok {
        return;
      }
      var m1, m2 := [], [];
      for k := 0 to levels
        invariant |m1| == k && |m2| == k
        invariant forall j :: 0 <= j < k ==>
                    m1[j] == MinusOneGrid(xs[j], res[j]) && m2[j] == Transpose(m1[j], res[j])
      {
        var m := MinusOneGrid(xs[k], res[k]);
        m1 := m1 + [m];
        m2 := m2 + [Transpose(m, res[k])];
      }
      xm1, ym1 := m1, m2;
    }

    /** build_cache of the configured subclass. */
    method BuildCache() returns (ok: bool)
      requires ParamsBuilt()
      modifies this`xs, this`ys, this`smoothX, this`smoothY, this`xy, this`xiyj, this`xm1, this`ym1
      ensures ok <==> CacheBuildable()
      ensures ok ==> CacheBuilt()
    {
      ok := BuildCoords();
      if !ok {
        return;
      }
      match variant {
        case ZeroGradient => ok := BuildZgCache();
        case DualCubic => BuildNcCache();
        case Perlin => ok := BuildPerlinCache();
      }
    }

    /** Cache.build: build_params, then build_cache (the progress messages are left out). */
    method Build() returns (ok: bool)
      modifies this
      ensures ok <==> ConfigOk(old(depth), old(hDivider), old(domDivider), old(minN), old(s))
                      && CacheBuildable()
      ensures ok ==> CacheBuilt()
      ensures depth == old(depth) && hDivider == old(hDivider) && domDivider == old(domDivider)
      ensures minN == old(minN) && s == old(s) && seed == old(seed)
      ensures worldSize == old(worldSize) && sdegree == old(sdegree)
    {
      var r := BuildParams();
      if r.Fail? {
        return false;
      }
      ok := BuildCache();
    }
  }
}
