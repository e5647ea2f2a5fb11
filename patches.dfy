/** The three local patch evaluators of numpygen/noisegen.py: PolynomZG (zero
    gradient), PolynomNoiseCache (dual cubic) and PolynomPerlin (gradient noise).
    Each one is built from the 2 x 2 corner slices of the corner grids and
    evaluated at a point (u, v) of the unit cell; the cached evaluation over a
    whole res x res block is tied to these pointwise definitions in the module
    NoiseCache. */
module Patches {
  import opened SmoothstepBasis

  /** The slice a[x:x+2, y:y+2] of a corner grid: v01 is a[x, y+1], v10 is a[x+1, y]. */
  datatype Block = Block(v00: real, v01: real, v10: real, v11: real)

  /** x raised to the natural power i (numpy's `x**i`, with x**0 == 1). */
  function Pow(x: real, i: nat): real {
    if i == 0 then 1.0 else x * Pow(x, i - 1)
  }

  // ---------------------------------------------------------------- PolynomZG

  /** The fields h0, dhx, dhy and A of a PolynomZG. */
  datatype ZgPolynom = ZgPolynom(h0: real, dhx: real, dhy: real, a: real)

  /** PolynomZG.__init__: the coefficients give the four imposed heights back. */
  function ZgFromBlock(h: Block): (p: ZgPolynom)
    ensures p.h0 == h.v00
    ensures p.h0 + p.dhx == h.v10
    ensures p.h0 + p.dhy == h.v01
    ensures p.h0 + p.dhx + p.dhy - p.a == h.v11
  {
    var dhx := h.v10 - h.v00;
    ZgPolynom(h.v00, dhx, h.v01 - h.v00, dhx - h.v11 + h.v01)
  }

  /** One entry of the cached array XY: x*y - y*sx - x*sy. */
  function XyTerm(u: real, v: real, su: real, sv: real): real {
    u * v - v * su - u * sv
  }

  /** PolynomZG.domain_eval at one entry, from the cached SMOOTHSTEP_X, SMOOTHSTEP_Y and XY values. */
  function ZgEval(p: ZgPolynom, su: real, sv: real, xy: real): real {
    p.dhx * su + p.dhy * sv + p.a * xy + p.h0
  }

  /** The zero-gradient surface of the corner block h at the point (u, v) of the cell,
      blended with the smoothstep of degree d. */
  function ZgPatch(h: Block, d: int, u: real, v: real): real
    requires d in Degrees
  {
    var su, sv := Smoothstep(d, u), Smoothstep(d, v);
    ZgEval(ZgFromBlock(h), su, sv, XyTerm(u, v, su, sv))
  }

  /** The surface takes the imposed height at each of the four corners. */
  lemma ZgImposedHeights(h: Block, d: int)
    requires d in Degrees
    ensures ZgPatch(h, d, 0.0, 0.0) == h.v00
    ensures ZgPatch(h, d, 1.0, 0.0) == h.v10
    ensures ZgPatch(h, d, 0.0, 1.0) == h.v01
    ensures ZgPatch(h, d, 1.0, 1.0) == h.v11
  {
    SmoothstepEndpoints(d);
  }

  /** Along each edge of the cell the surface is the smoothstep blend of that edge's
      two corners only, so two cells that share an edge's corners agree on it. */
  lemma ZgEdgeTraces(h: Block, d: int, t: real)
    requires d in Degrees
    ensures ZgPatch(h, d, 0.0, t) == h.v00 + Smoothstep(d, t) * (h.v01 - h.v00)
    ensures ZgPatch(h, d, 1.0, t) == h.v10 + Smoothstep(d, t) * (h.v11 - h.v10)
    ensures ZgPatch(h, d, t, 0.0) == h.v00 + Smoothstep(d, t) * (h.v10 - h.v00)
    ensures ZgPatch(h, d, t, 1.0) == h.v01 + Smoothstep(d, t) * (h.v11 - h.v01)
  {
    SmoothstepEndpoints(d);
    var p, s := ZgFromBlock(h), Smoothstep(d, t);
    assert XyTerm(0.0, t, 0.0, s) == 0.0;
    assert XyTerm(1.0, t, 1.0, s) == -s;
    assert XyTerm(t, 0.0, s, 0.0) == 0.0;
    assert XyTerm(t, 1.0, s, 1.0) == -s;
    assert ZgPatch(h, d, 1.0, t) == ZgEval(p, 1.0, s, -s);
    assert ZgPatch(h, d, t, 1.0) == ZgEval(p, s, 1.0, -s);
  }

  /** The blend is not a convex combination of the corners: inside the cell it can
      leave the range of the corner heights. */
  lemma ZgLeavesCornerRange()
    ensures ZgPatch(Block(1.0, 1.0, -1.0, 1.0), 3, 0.1, 0.9) > 1.0
  {
  }

  // -------------------------------------------------------- PolynomNoiseCache

  /** The twelve coefficients c[i, j] that PolynomNoiseCache.__init__ sets; the
      other four entries of its 4 x 4 array stay zero. */
  datatype NcPolynom = NcPolynom(c00: real, c10: real, c01: real, c20: real, c02: real,
                                 c30: real, c03: real, c11: real, c31: real, c13: real,
                                 c21: real, c12: real)

  /** PolynomNoiseCache.__init__ from the height slice h and the slope slices f and g. */
  function NcFromBlocks(h: Block, f: Block, g: Block): NcPolynom {
    var a := h.v01 + h.v10 - h.v00 - h.v11;
    var c20 := 3.0 * (h.v10 - h.v00) - 2.0 * f.v00 - f.v10;
    var c02 := 3.0 * (h.v01 - h.v00) - 2.0 * g.v00 - g.v01;
    var c30 := f.v10 + f.v00 - 2.0 * (h.v10 - h.v00);
    var c03 := g.v01 + g.v00 - 2.0 * (h.v01 - h.v00);
    NcPolynom(
      h.v00, f.v00, g.v00, c20, c02, c30, c03,
      a + g.v10 + f.v01 - g.v00 - f.v00,
      f.v11 + f.v01 - 2.0 * (h.v11 - h.v01) - c30,
      g.v11 + g.v10 - 2.0 * (h.v11 - h.v10) - c03,
      3.0 * (h.v11 - h.v01) - 2.0 * f.v01 - f.v11 - c20,
      3.0 * (h.v11 - h.v10) - 2.0 * g.v10 - g.v11 - c02)
  }

  /** The entries (i, j) of the monomial dictionary XiYj that domain_eval reads,
      at one point: m21 is x**2 * y**1. */
  datatype Monos = Monos(m10: real, m20: real, m30: real, m01: real, m02: real, m03: real,
                         m11: real, m21: real, m31: real, m12: real, m13: real)

  /** PolynomNoiseCache.domain_eval at one entry, from the cached monomials there. */
  function NcEval(p: NcPolynom, m: Monos): real {
    p.c00 + p.c10 * m.m10 + p.c20 * m.m20 + p.c30 * m.m30
    + p.c01 * m.m01 + p.c02 * m.m02 + p.c03 * m.m03
    + p.c11 * m.m11 + p.c21 * m.m21 + p.c31 * m.m31
    + p.c12 * m.m12 + p.c13 * m.m13
  }

  /** The monomial u**i * v**j. */
  function Mono(u: real, v: real, i: nat, j: nat): real {
    Pow(u, i) * Pow(v, j)
  }

  /** The monomials u**i * v**j at the point (u, v), multiplied out. */
  function Monomials(u: real, v: real): Monos {
    Monos(u, u * u, u * u * u, v, v * v, v * v * v,
          u * v, u * u * v, u * u * u * v, u * v * v, u * v * v * v)
  }

  /** The products u**i * v**j of the cache are the monomials at (u, v). */
  lemma MonomialsArePowers(u: real, v: real)
    ensures var m := Monomials(u, v);
            && m.m10 == Mono(u, v, 1, 0) && m.m20 == Mono(u, v, 2, 0) && m.m30 == Mono(u, v, 3, 0)
            && m.m01 == Mono(u, v, 0, 1) && m.m02 == Mono(u, v, 0, 2) && m.m03 == Mono(u, v, 0, 3)
            && m.m11 == Mono(u, v, 1, 1) && m.m21 == Mono(u, v, 2, 1) && m.m31 == Mono(u, v, 3, 1)
            && m.m12 == Mono(u, v, 1, 2) && m.m13 == Mono(u, v, 1, 3)
  {
    SmallPowers(u);
    SmallPowers(v);
  }

  lemma SmallPowers(x: real)
    ensures Pow(x, 0) == 1.0 && Pow(x, 1) == x && Pow(x, 2) == x * x && Pow(x, 3) == x * x * x
  {
    assert Pow(x, 2) == x * Pow(x, 1);
    assert Pow(x, 3) == x * Pow(x, 2);
  }

  /** The dual-cubic surface at the point (u, v) of the cell. */
  function NcPatch(h: Block, f: Block, g: Block, u: real, v: real): real {
    NcEval(NcFromBlocks(h, f, g), Monomials(u, v))
  }

  /** The dual-cubic surface also takes the imposed height at each corner, whatever
      the slopes f and g. */
  lemma NcImposedHeights(h: Block, f: Block, g: Block)
    ensures NcPatch(h, f, g, 0.0, 0.0) == h.v00
    ensures NcPatch(h, f, g, 1.0, 0.0) == h.v10
    ensures NcPatch(h, f, g, 0.0, 1.0) == h.v01
    ensures NcPatch(h, f, g, 1.0, 1.0) == h.v11
  {
  }

  // ------------------------------------------------------------ PolynomPerlin

  /** PolynomPerlin.domain_eval at one entry, from the cached X, Y, XM1, YM1,
      SMOOTHSTEP_X and SMOOTHSTEP_Y values; f and g are the gradient slices. */
  function PerlinEval(f: Block, g: Block, u: real, v: real, um1: real, vm1: real,
                      su: real, sv: real): real
  {
    var topleft := f.v00 * u + g.v00 * v;
    var topright := f.v10 * um1 + g.v10 * v;
    var bottomleft := f.v01 * u + g.v01 * vm1;
    var bottomright := f.v11 * um1 + g.v11 * vm1;
    var htop := topleft + su * (topright - topleft);
    var hbottom := bottomleft + su * (bottomright - bottomleft);
    htop + sv * (hbottom - htop)
  }

  /** The gradient-noise surface at the point (u, v) of the cell, blended with the
      smoothstep of degree d. */
  function PerlinPatch(f: Block, g: Block, d: int, u: real, v: real): real
    requires d in Degrees
  {
    PerlinEval(f, g, u, v, u - 1.0, v - 1.0, Smoothstep(d, u), Smoothstep(d, v))
  }

  /** Gradient noise vanishes at every lattice point, whatever the gradients. */
  lemma PerlinVanishesAtCorners(f: Block, g: Block, d: int)
    requires d in Degrees
    ensures PerlinPatch(f, g, d, 0.0, 0.0) == 0.0
    ensures PerlinPatch(f, g, d, 1.0, 0.0) == 0.0
    ensures PerlinPatch(f, g, d, 0.0, 1.0) == 0.0
    ensures PerlinPatch(f, g, d, 1.0, 1.0) == 0.0
  {
    SmoothstepEndpoints(d);
  }
}
