/** Seams between neighbouring chunks under PolynomZG. A cell's surface on one of its
    edges depends on that edge's two corners only, and _set_seeded_condition gives
    neighbouring chunks the same corners along their shared edge, so the last cell of
    a chunk, extended to u = 1, meets the first cell of the next chunk at u = 0. */
module TerrainSeams {
  import opened SmoothstepBasis
  import opened Patches
  import opened NoiseCache
  import opened Seeding
  import opened Terrain

  /** Two cells whose corners agree along the edge u = 1 of the first and u = 0 of
      the second have the same surface there. */
  lemma ZgSharedVerticalEdge(here: Block, next: Block, d: int, v: real)
    requires d in Degrees && here.v10 == next.v00 && here.v11 == next.v01
    ensures ZgPatch(here, d, 1.0, v) == ZgPatch(next, d, 0.0, v)
  {
    ZgEdgeTraces(here, d, v);
    ZgEdgeTraces(next, d, v);
  }

  /** The same along the edge v = 1 of the first cell and v = 0 of the second. */
  lemma ZgSharedHorizontalEdge(here: Block, next: Block, d: int, u: real)
    requires d in Degrees && here.v01 == next.v00 && here.v11 == next.v10
    ensures ZgPatch(here, d, u, 1.0) == ZgPatch(next, d, u, 0.0)
  {
    ZgEdgeTraces(here, d, u);
    ZgEdgeTraces(next, d, u);
  }

  /** The right edge of the last column of cells of chunk (l, t) is the left edge of
      the first column of cells of chunk ((l+1) % ws[0], t), at every level. */
  lemma ZgSeamRight(rng: Rng, lv: Levels, l: int, t: int, generic: bool, k: nat, y: nat, v: real)
    requires LevelsOk(lv) && lv.variant == ZeroGradient && k < |lv.res| && y < lv.paramN[k]
    ensures var n := lv.paramN[k];
            ZgPatch(HeightBlock(rng, lv, (l, t), generic, k, n - 1, y), lv.sdegree, 1.0, v)
            == ZgPatch(HeightBlock(rng, lv, (RightOf(l, lv.worldSize), t), generic, k, 0, y),
                       lv.sdegree, 0.0, v)
  {
    var n := lv.paramN[k];
    var r := RightOf(l, lv.worldSize);
    var here := HeightBlock(rng, lv, (l, t), generic, k, n - 1, y);
    var next := HeightBlock(rng, lv, (r, t), generic, k, 0, y);
    var key := if generic then BulkKey((l, t), n) else BulkKeyD2m1n3(lv.seed, (l, t), n);
    var key' := if generic then BulkKey((r, t), n) else BulkKeyD2m1n3(lv.seed, (r, t), n);
    SeamRightLeft(rng, lv.seed, l, t, n, lv.paramH[k], lv.worldSize, key, key', y);
    SeamRightLeft(rng, lv.seed, l, t, n, lv.paramH[k], lv.worldSize, key, key', y + 1);
    ZgSharedVerticalEdge(here, next, lv.sdegree, v);
  }

  /** The bottom edge of the last row of cells of chunk (l, t) is the top edge of the
      first row of cells of chunk (l, (t+1) % ws[1]), at every level. */
  lemma ZgSeamBelow(rng: Rng, lv: Levels, l: int, t: int, generic: bool, k: nat, x: nat, u: real)
    requires LevelsOk(lv) && lv.variant == ZeroGradient && k < |lv.res| && x < lv.paramN[k]
    ensures var n := lv.paramN[k];
            ZgPatch(HeightBlock(rng, lv, (l, t), generic, k, x, n - 1), lv.sdegree, u, 1.0)
            == ZgPatch(HeightBlock(rng, lv, (l, BelowOf(t, lv.worldSize)), generic, k, x, 0),
                       lv.sdegree, u, 0.0)
  {
    var n := lv.paramN[k];
    var b := BelowOf(t, lv.worldSize);
    var here := HeightBlock(rng, lv, (l, t), generic, k, x, n - 1);
    var next := HeightBlock(rng, lv, (l, b), generic, k, x, 0);
    var key := if generic then BulkKey((l, t), n) else BulkKeyD2m1n3(lv.seed, (l, t), n);
    var key' := if generic then BulkKey((l, b), n) else BulkKeyD2m1n3(lv.seed, (l, b), n);
    SeamBottomTop(rng, lv.seed, l, t, n, lv.paramH[k], lv.worldSize, key, key', x);
    SeamBottomTop(rng, lv.seed, l, t, n, lv.paramH[k], lv.worldSize, key, key', x + 1);
    ZgSharedHorizontalEdge(here, next, lv.sdegree, u);
  }
}
