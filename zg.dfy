/** The streaming zero-gradient generator of c/zg.c: zgTerrain walks the S x S terrain
    column by column for each octave, tracking by hand the position inside the current
    cell (xRel, yRel), the indices of the cell's corners in the boundary grid h (idx,
    idx1, idy, idy1) and a flag telling when the corner heights must be reloaded. The
    model keeps those variables and loops, and proves that every pixel receives the
    zero-gradient surface of its own cell (Patches.ZgPatch with smoothstep s3), scaled
    by the octave's amplitude. Floats are exact reals here. */
module ZgStream {
  import opened SmoothstepBasis
  import opened Patches

  /** The resolution S of the square terrain and of the boundary grid h. */
  const S: nat := 256

  /** main's MAX_OCTAVES, (int)(log(S) / log(2)): the base-2 logarithm of S. */
  const MaxOctaves: nat := 8

  function Pow2(i: nat): (p: nat)
    ensures p >= 1
  {
    if i == 0 then 1 else 2 * Pow2(i - 1)
  }

  /** S is 2^MaxOctaves, so MaxOctaves is exactly log2(S). */
  lemma MaxOctavesIsLog2()
    ensures Pow2(MaxOctaves) == S
  {
  }

  // ------------------------------------------------------------- cells

  /** A cell width zgTerrain can work with: res >= 1 cells tile the S pixels exactly. */
  predicate Fits(res: nat) {
    res >= 1 && Rem(S, res) == 0
  }

  /** The cell holding pixel x, counted by whole cells of width res. */
  function Cell(x: nat, res: nat): nat
    requires res >= 1
  {
    if x < res then 0 else Cell(x - res, res) + 1
  }

  /** The place of pixel x inside its cell, what is left after the whole cells. */
  function Rem(x: nat, res: nat): (r: nat)
    requires res >= 1
    ensures r < res
  {
    if x < res then x else Rem(x - res, res)
  }

  /** Quotient and remainder are determined by n == q * d + r with 0 <= r < d. */
  lemma DivModUnique(n: nat, d: nat, q: nat, r: nat)
    requires 0 <= r < d && n == q * d + r
    ensures n / d == q && n % d == r
  {
    var q0, r0 := n / d, n % d;
    assert n == q0 * d + r0;
    if q0 < q {
      MulLeNat(q0 + 1, q, d);
    } else if q < q0 {
      MulLeNat(q + 1, q0, d);
    }
  }

  /** Cell and Rem are x / res and x % res. */
  lemma {:induction false} CellRemIsDivMod(x: nat, res: nat)
    requires res >= 1
    ensures Cell(x, res) == x / res && Rem(x, res) == x % res
  {
    if x < res {
      DivModUnique(x, res, 0, x);
    } else {
      CellRemIsDivMod(x - res, res);
      var q, r := Cell(x - res, res), Rem(x - res, res);
      assert x == (q + 1) * res + r;
      DivModUnique(x, res, q + 1, r);
    }
  }

  /** The test x % res == 0 of zgTerrain asks whether pixel x opens a cell. */
  lemma RemIsMod(x: nat, res: nat)
    requires res >= 1
    ensures x % res == Rem(x, res)
  {
    CellRemIsDivMod(x, res);
  }

  /** Stepping from pixel x to x + 1 enters a new cell exactly when the remainder
      reaches res. */
  lemma {:induction false} CellRemStep(x: nat, res: nat)
    requires res >= 1
    ensures Rem(x, res) + 1 < res ==> Rem(x + 1, res) == Rem(x, res) + 1 && Cell(x + 1, res) == Cell(x, res)
    ensures Rem(x, res) + 1 == res ==> Rem(x + 1, res) == 0 && Cell(x + 1, res) == Cell(x, res) + 1
  {
    if x + 1 < res {
    } else if x + 1 == res {
      assert Rem(x + 1, res) == Rem(0, res);
      assert Cell(x + 1, res) == Cell(0, res) + 1;
    } else {
      CellRemStep(x - res, res);
      assert x + 1 - res == x - res + 1;
    }
  }

  /** The row (or column) of h holding corner c of the cells of width res: the corners
      are res - 1 apart, as idx1 += res - 1 makes them. */
  function CornerIndex(c: nat, res: nat): (k: nat)
    requires res >= 1
  {
    if c == 0 then 0 else CornerIndex(c - 1, res) + res - 1
  }

  /** The next corner is res - 1 further on. */
  lemma CornerStep(c: nat, res: nat)
    requires res >= 1
    ensures CornerIndex(c + 1, res) == CornerIndex(c, res) + res - 1
  {
    assert c + 1 - 1 == c;
  }

  /** Corner c of cells of width res is c * (res - 1) into h. */
  lemma {:induction false} CornerIndexIsProduct(c: nat, res: nat)
    requires res >= 1
    ensures CornerIndex(c, res) == c * (res - 1)
  {
    if c > 0 {
      CornerIndexIsProduct(c - 1, res);
      assert (c - 1) * (res - 1) + res - 1 == c * (res - 1);
    }
  }

  /** Every corner index a pixel x < S uses lies inside h when res fits S. */
  lemma CornerInRange(x: nat, res: nat)
    requires Fits(res) && x < S
    ensures CornerIndex(Cell(x, res), res) <= CornerIndex(Cell(x, res) + 1, res) < S
  {
    CellBelow(x, res);
    CornerIndexIsProduct(Cell(x, res) + 1, res);
    CornerBound(Cell(x, res), Cell(S, res), res);
  }

  /** A pixel x < S lies in one of the Cell(S, res) cells, which cover S exactly. */
  lemma CellBelow(x: nat, res: nat)
    requires Fits(res) && x < S
    ensures Cell(x, res) < Cell(S, res) && Cell(S, res) * res == S
  {
    CellRemIsDivMod(x, res);
    CellRemIsDivMod(S, res);
    var c, q := x / res, S / res;
    assert q * res == S;
    assert c * res <= x;
    MulLtCancel(c, q, res);
  }

  /** The far corner of a cell before cell q is below q cells of width res. */
  lemma CornerBound(c: nat, q: nat, res: nat)
    requires res >= 1 && c < q
    ensures (c + 1) * (res - 1) < q * res
  {
    MulLeNat(c + 1, q, res - 1);
    assert q * (res - 1) == q * res - q;
  }

  /** Order of products with a common natural factor is the order of the other factors. */
  lemma MulLtCancel(a: nat, b: nat, c: nat)
    ensures a * c < b * c ==> a < b
  {
    if a >= b {
      MulLeNat(b, a, c);
    }
  }

  /** Multiplying by a natural keeps order. */
  lemma MulLeNat(a: nat, b: nat, c: nat)
    requires a <= b
    ensures a * c <= b * c
  {
    assert b * c - a * c == (b - a) * c;
  }

  /** The position of pixel x inside its cell, (x mod res) / res. */
  function RelPos(x: nat, res: nat): (r: real)
    requires res >= 1
    ensures 0.0 <= r < 1.0
  {
    Rem(x, res) as real / res as real
  }

  lemma DivAdd(a: real, b: real, d: real)
    requires d > 0.0
    ensures a / d + b / d == (a + b) / d
  {
  }

  lemma DivSelf(d: real)
    requires d > 0.0
    ensures d / d == 1.0
  {
  }

  lemma DivBelowOne(a: real, d: real)
    requires 0.0 <= a < d
    ensures a / d < 1.0
  {
  }

  /** xRel (or yRel) after n pixels: it starts at 0, grows by delta after every pixel
      and drops back to 0 on reaching 1. */
  function RelAfter(n: nat, delta: real): (r: real)
    ensures delta >= 0.0 ==> 0.0 <= r < 1.0
  {
    if n == 0 then 0.0
    else
      var r := RelAfter(n - 1, delta) + delta;
      if r >= 1.0 then 0.0 else r
  }

  /** With delta == 1/res the accumulated xRel is the pixel's place in its cell. */
  lemma {:induction false} RelAfterIsRelPos(x: nat, res: nat)
    requires res >= 1
    ensures RelAfter(x, 1.0 / res as real) == RelPos(x, res)
  {
    if x > 0 {
      RelAfterIsRelPos(x - 1, res);
      var p, d := x - 1, res as real;
      CellRemStep(p, res);
      assert p + 1 == x;
      var k := Rem(p, res) as real;
      DivAdd(k, 1.0, d);
      if Rem(p, res) + 1 == res {
        DivSelf(d);
      } else {
        DivBelowOne(k + 1.0, d);
      }
    }
  }

  /** The heights at the four corners of cell (cx, cy) of width res, read from h as
      h00 = h[idx][idy], h01 = h[idx][idy1], h10 = h[idx1][idy] and h11 = h[idx1][idy1]. */
  function CellBlock(h: array2<real>, cx: nat, cy: nat, res: nat): Block
    reads h
    requires res >= 1 && CornerIndex(cx + 1, res) < h.Length0 && CornerIndex(cy + 1, res) < h.Length1
  {
    var i0, i1 := CornerIndex(cx, res), CornerIndex(cx + 1, res);
    var j0, j1 := CornerIndex(cy, res), CornerIndex(cy + 1, res);
    Block(h[i0, j0], h[i0, j1], h[i1, j0], h[i1, j1])
  }

  /** The ZG polynomial of the cell holding pixel (x, y). */
  function CellPolynom(h: array2<real>, res: nat, x: nat, y: nat): ZgPolynom
    reads h
    requires h.Length0 == S && h.Length1 == S && Fits(res) && x < S && y < S
  {
    CornerInRange(x, res);
    CornerInRange(y, res);
    ZgFromBlock(CellBlock(h, Cell(x, res), Cell(y, res), res))
  }

  /** dh at pixel (x, y) for cells of width res: the zero-gradient polynomial of the
      pixel's cell, with smoothstep s3, at the pixel's place inside the cell. */
  function ZgPixel(h: array2<real>, res: nat, x: nat, y: nat): real
    reads h
    requires h.Length0 == S && h.Length1 == S && Fits(res) && x < S && y < S
  {
    var u, v := RelPos(x, res), RelPos(y, res);
    var su, sv := S3(u), S3(v);
    ZgEval(CellPolynom(h, res, x, y), su, sv, XyTerm(u, v, su, sv))
  }

  /** The streamed dh is the PolynomZG surface of the pixel's corner block. */
  lemma ZgPixelIsPatch(h: array2<real>, res: nat, x: nat, y: nat)
    requires h.Length0 == S && h.Length1 == S && Fits(res) && x < S && y < S
    ensures ZgPixel(h, res, x, y)
            == (CornerInRange(x, res); CornerInRange(y, res);
                ZgPatch(CellBlock(h, Cell(x, res), Cell(y, res), res), 3, RelPos(x, res), RelPos(y, res)))
  {
  }

  /** At the origin of its cell a pixel gets the height h[idx][idy] imposed there. */
  lemma ZgPixelAtCellOrigin(h: array2<real>, res: nat, x: nat, y: nat)
    requires h.Length0 == S && h.Length1 == S && Fits(res) && x < S && y < S
    requires x % res == 0 && y % res == 0
    ensures ZgPixel(h, res, x, y)
            == (CornerInRange(x, res); CornerInRange(y, res);
                h[CornerIndex(Cell(x, res), res), CornerIndex(Cell(y, res), res)])
  {
    CornerInRange(x, res);
    CornerInRange(y, res);
    RemIsMod(x, res);
    RemIsMod(y, res);
    ZgPixelIsPatch(h, res, x, y);
    ZgImposedHeights(CellBlock(h, Cell(x, res), Cell(y, res), res), 3);
  }

  /** The expression zgTerrain evaluates for dh, from the cached corner coefficients
      and smoothx, smoothy, is the pixel's ZG surface. */
  lemma DhIsPixel(h: array2<real>, res: nat, x: nat, y: nat, xRel: real, yRel: real,
                  smoothx: real, smoothy: real, h00: real, deltaX: real, deltaY: real, a: real)
    requires h.Length0 == S && h.Length1 == S && Fits(res) && x < S && y < S
    requires xRel == RelPos(x, res) && yRel == RelPos(y, res)
    requires smoothx == 3.0 * (xRel * xRel) - 2.0 * xRel * (xRel * xRel)
    requires smoothy == 3.0 * (yRel * yRel) - 2.0 * yRel * (yRel * yRel)
    requires ZgPolynom(h00, deltaX, deltaY, a) == CellPolynom(h, res, x, y)
    ensures h00 + smoothx * deltaX + smoothy * deltaY + a * (xRel * yRel - smoothx * yRel - smoothy * xRel)
            == ZgPixel(h, res, x, y)
  {
    SmoothxIsS3(xRel, smoothx);
    SmoothxIsS3(yRel, smoothy);
    var p := ZgPolynom(h00, deltaX, deltaY, a);
    DhIsZgEval(h00, deltaX, deltaY, a, xRel, yRel, smoothx, smoothy);
    assert ZgPixel(h, res, x, y) == ZgEval(p, smoothx, smoothy, XyTerm(xRel, yRel, smoothx, smoothy));
  }

  /** The corner heights read through idx, idx1, idy, idy1 are the pixel's cell block. */
  lemma BlockIsCell(h: array2<real>, res: nat, x: nat, y: nat, idx: nat, idx1: nat, idy: nat, idy1: nat)
    requires h.Length0 == S && h.Length1 == S && Fits(res) && x < S && y < S
    requires idx == CornerIndex(Cell(x, res), res) && idx1 == CornerIndex(Cell(x, res) + 1, res)
    requires idy == CornerIndex(Cell(y, res), res) && idy1 == CornerIndex(Cell(y, res) + 1, res)
    requires idx < S && idx1 < S && idy < S && idy1 < S
    ensures ZgFromBlock(Block(h[idx, idy], h[idx, idy1], h[idx1, idy], h[idx1, idy1])) == CellPolynom(h, res, x, y)
  {
  }

  /** smoothx = 3 x2 - 2 xRel x2 with x2 = xRel * xRel is the smoothstep s3. */
  lemma SmoothxIsS3(t: real, s: real)
    requires s == 3.0 * (t * t) - 2.0 * t * (t * t)
    ensures s == S3(t)
  {
  }

  /** The dh expression of zgTerrain is PolynomZG's evaluation with the cached terms. */
  lemma DhIsZgEval(h00: real, deltaX: real, deltaY: real, a: real, xRel: real, yRel: real,
                   smoothx: real, smoothy: real)
    ensures h00 + smoothx * deltaX + smoothy * deltaY + a * (xRel * yRel - smoothx * yRel - smoothy * xRel)
            == ZgEval(ZgPolynom(h00, deltaX, deltaY, a), smoothx, smoothy, XyTerm(xRel, yRel, smoothx, smoothy))
  {
  }

  // ------------------------------------------------------------- the loops

  /** col holds dh for every pixel of column x. The trigger keeps the loops from
      expanding dh at pixels they never look at. */
  ghost predicate IsColumn(h: array2<real>, res: nat, x: nat, col: seq<real>)
    reads h
  {
    h.Length0 == S && h.Length1 == S && Fits(res) && x < S && |col| == S &&
    forall y {:trigger ZgPixel(h, res, x, y)} :: 0 <= y < S ==> col[y] == ZgPixel(h, res, x, y)
  }

  /** grid holds dh for every pixel. */
  ghost predicate IsGrid(h: array2<real>, res: nat, grid: seq<seq<real>>)
    reads h
  {
    |grid| == S && forall x {:trigger grid[x]} :: 0 <= x < S ==> IsColumn(h, res, x, grid[x])
  }

  /** The table of dh over the whole terrain for cells of width res. */
  ghost function PixelGrid(h: array2<real>, res: nat): (grid: seq<seq<real>>)
    reads h
    requires h.Length0 == S && h.Length1 == S && Fits(res)
    ensures IsGrid(h, res, grid)
  {
    seq(S, x requires 0 <= x < S reads h => seq(S, y requires 0 <= y < S reads h => ZgPixel(h, res, x, y)))
  }

  /** The table of dh, seen only through IsGrid. */
  lemma PixelGridOf(h: array2<real>, res: nat) returns (grid: seq<seq<real>>)
    requires h.Length0 == S && h.Length1 == S && Fits(res)
    ensures IsGrid(h, res, grid)
  {
    grid := PixelGrid(h, res);
  }

  /** dh at pixel (x, y) from the state zgTerrain carries there: xRel and yRel
      accumulated by delta, smoothx, the corner indices of the current cells and the
      coefficients cached from them. It is the pixel's entry in the table. */
  method PixelDh(h: array2<real>, res: nat, x: nat, y: nat, delta: real, xRel: real, yRel: real,
                 smoothx: real, idx: nat, idx1: nat, idy: nat, idy1: nat,
                 h00: real, deltaX: real, deltaY: real, a: real, ghost col: seq<real>)
      returns (dh: real)
    requires h.Length0 == S && h.Length1 == S && Fits(res) && x < S && y < S
    requires delta == 1.0 / res as real && xRel == RelAfter(x, delta) && yRel == RelAfter(y, delta)
    requires smoothx == 3.0 * (xRel * xRel) - 2.0 * xRel * (xRel * xRel)
    requires idx == CornerIndex(Cell(x, res), res) && idx1 == CornerIndex(Cell(x, res) + 1, res)
    requires idy == CornerIndex(Cell(y, res), res) && idy1 == CornerIndex(Cell(y, res) + 1, res)
    requires idx < S && idx1 < S && idy < S && idy1 < S
    requires ZgPolynom(h00, deltaX, deltaY, a) == ZgFromBlock(Block(h[idx, idy], h[idx, idy1], h[idx1, idy], h[idx1, idy1]))
    requires IsColumn(h, res, x, col)
    ensures dh == col[y]
  {
    var smoothy := 3.0 * (yRel * yRel) - 2.0 * yRel * (yRel * yRel);
    dh := h00 + smoothx * deltaX + smoothy * deltaY + a * (xRel * yRel - smoothx * yRel - smoothy * xRel);
    BlockIsCell(h, res, x, y, idx, idx1, idy, idy1);
    RelAfterIsRelPos(x, res);
    RelAfterIsRelPos(y, res);
    DhIsPixel(h, res, x, y, xRel, yRel, smoothx, smoothy, h00, deltaX, deltaY, a);
  }

  /** The share amplitude * dh that one octave adds to a pixel. */
  function Scaled(amplitude: real, dh: real): real
  {
    amplitude * dh
  }

  /** The y loop of zgTerrain for column x: loads the corners of each new cell, then
      adds amplitude * dh to every pixel of the column. The flag changeCell is clear
      when the column ends. */
  method ZgColumn(h: array2<real>, terrain: array2<real>, x: nat, res: nat, amplitude: real,
                  delta: real, idx: nat, idx1: nat, xRel: real, smoothx: real, changeCell0: bool,
                  ghost col: seq<real>)
      returns (changeCell: bool)
    requires h.Length0 == S && h.Length1 == S && terrain.Length0 == S && terrain.Length1 == S
    requires h != terrain && Fits(res) && x < S && delta == 1.0 / res as real
    requires idx == CornerIndex(Cell(x, res), res) && idx1 == CornerIndex(Cell(x, res) + 1, res)
    requires idx < S && idx1 < S
    requires xRel == RelAfter(x, delta) && smoothx == 3.0 * (xRel * xRel) - 2.0 * xRel * (xRel * xRel)
    requires IsColumn(h, res, x, col)
    modifies terrain
    ensures !changeCell
    ensures forall y :: 0 <= y < S ==> terrain[x, y] == old(terrain[x, y]) + Scaled(amplitude, col[y])
    ensures forall x', y :: 0 <= x' < S && 0 <= y < S && x' != x ==> terrain[x', y] == old(terrain[x', y])
  {
    var idy, idy1 := 0, 0;
    var yRel := 0.0;
    var h00, h01, h10, h11 := 0.0, 0.0, 0.0, 0.0;
    var deltaX, deltaY, a := 0.0, 0.0, 0.0;
    changeCell := changeCell0;
    for y := 0 to S
      invariant yRel == RelAfter(y, delta)
      invariant idy < S && idy1 < S
      invariant Rem(y, res) == 0 ==> idy1 == CornerIndex(Cell(y, res), res)
      invariant Rem(y, res) != 0 ==> idy == CornerIndex(Cell(y, res), res) && idy1 == CornerIndex(Cell(y, res) + 1, res)
      invariant Rem(y, res) != 0 ==>
                  ZgPolynom(h00, deltaX, deltaY, a) == ZgFromBlock(Block(h[idx, idy], h[idx, idy1], h[idx1, idy], h[idx1, idy1]))
      invariant y > 0 ==> !changeCell
      invariant forall y' :: 0 <= y' < y ==> terrain[x, y'] == old(terrain[x, y']) + Scaled(amplitude, col[y'])
      invariant forall y' :: y <= y' < S ==> terrain[x, y'] == old(terrain[x, y'])
      invariant forall x', y' :: 0 <= x' < S && 0 <= y' < S && x' != x ==> terrain[x', y'] == old(terrain[x', y'])
    {
      CornerInRange(y, res);
      CornerStep(Cell(y, res), res);
      RemIsMod(y, res);
      if y % res == 0 {
        idy := idy1;
        idy1 := idy1 + res - 1;
        changeCell := true;
      }
      if changeCell {
        h00 := h[idx, idy];
        h01 := h[idx, idy1];
        h10 := h[idx1, idy];
        h11 := h[idx1, idy1];
        deltaX := h10 - h00;
        deltaY := h01 - h00;
        a := deltaX - h11 + h01;
        changeCell := false;
      }
      var dh := PixelDh(h, res, x, y, delta, xRel, yRel, smoothx, idx, idx1, idy, idy1,
                        h00, deltaX, deltaY, a, col);
      terrain[x, y] := terrain[x, y] + Scaled(amplitude, dh);
      CellRemStep(y, res);
      yRel := yRel + delta;
      if yRel >= 1.0 {
        yRel := 0.0;
      }
    }
  }

  /** One octave of zgTerrain with cells of width res: the x loop, moving to the next
      cell's corners whenever x % res == 0, adds amplitude * dh to every pixel. */
  method ZgOctave(h: array2<real>, terrain: array2<real>, res: nat, amplitude: real, changeCell0: bool,
                  ghost grid: seq<seq<real>>)
      returns (changeCell: bool)
    requires h.Length0 == S && h.Length1 == S && terrain.Length0 == S && terrain.Length1 == S
    requires h != terrain && Fits(res) && IsGrid(h, res, grid)
    modifies terrain
    ensures forall x, y :: 0 <= x < S && 0 <= y < S
              ==> terrain[x, y] == old(terrain[x, y]) + Scaled(amplitude, grid[x][y])
  {
    var delta := 1.0 / res as real;
    var xRel := 0.0;
    var idx, idx1 := 0, 0;
    changeCell := changeCell0;
    for x := 0 to S
      invariant xRel == RelAfter(x, delta)
      invariant idx < S && idx1 < S
      invariant Rem(x, res) == 0 ==> idx1 == CornerIndex(Cell(x, res), res)
      invariant Rem(x, res) != 0 ==> idx == CornerIndex(Cell(x, res), res) && idx1 == CornerIndex(Cell(x, res) + 1, res)
      invariant forall x', y :: 0 <= x' < x && 0 <= y < S
                  ==> terrain[x', y] == old(terrain[x', y]) + Scaled(amplitude, grid[x'][y])
      invariant forall x', y :: x <= x' < S && 0 <= y < S ==> terrain[x', y] == old(terrain[x', y])
    {
      CornerInRange(x, res);
      CornerStep(Cell(x, res), res);
      RemIsMod(x, res);
      var smoothx := 3.0 * (xRel * xRel) - 2.0 * xRel * (xRel * xRel);
      if x % res == 0 {
        idx := idx1;
        idx1 := idx1 + res - 1;
        changeCell := true;
      }
      changeCell := ZgColumn(h, terrain, x, res, amplitude, delta, idx, idx1, xRel, smoothx, changeCell, grid[x]);
      CellRemStep(x, res);
      xRel := xRel + delta;
      if xRel >= 1.0 {
        xRel := 0.0;
      }
    }
  }

  // ------------------------------------------------------------- octaves

  /** res during octave i: S halved i times by res /= 2. */
  function OctaveRes(i: nat): nat {
    if i == 0 then S else OctaveRes(i - 1) / 2
  }

  /** amplitude during octave i: 1 halved i times. */
  function Amplitude(i: nat): real {
    if i == 0 then 1.0 else Amplitude(i - 1) / 2.0
  }

  /** Octave i uses cells of width S / 2^i = 2^(MaxOctaves - i). */
  lemma {:induction false} OctaveResIsPower(i: nat)
    requires i <= MaxOctaves
    ensures OctaveRes(i) == Pow2(MaxOctaves - i)
  {
    if i > 0 {
      OctaveResIsPower(i - 1);
      var k := MaxOctaves - i;
      assert MaxOctaves - (i - 1) == k + 1;
      assert Pow2(k + 1) == 2 * Pow2(k);
    }
  }

  lemma MulTwice(p: int, q: int, r: int)
    requires r == 2 * q
    ensures p * r == 2 * (p * q)
  {
  }

  /** 2^a * 2^b == 2^(a + b). */
  lemma {:induction false} Pow2Add(a: nat, b: nat)
    ensures Pow2(a) * Pow2(b) == Pow2(a + b)
  {
    if b > 0 {
      Pow2Add(a, b - 1);
      var p, q := Pow2(a), Pow2(b - 1);
      assert a + (b - 1) + 1 == a + b;
      MulTwice(p, q, Pow2(b));
    }
  }

  /** Octave i has amplitude 1 / 2^i. */
  lemma {:induction false} OctaveAmplitude(i: nat)
    ensures Amplitude(i) * Pow2(i) as real == 1.0
  {
    if i > 0 {
      OctaveAmplitude(i - 1);
      var a, p := Amplitude(i - 1), Pow2(i - 1) as real;
      assert Amplitude(i) * Pow2(i) as real == (a / 2.0) * (2.0 * p);
      assert (a / 2.0) * (2.0 * p) == a * p;
    }
  }

  /** Up to octave MaxOctaves the cells tile the terrain. */
  lemma OctaveFits(i: nat)
    ensures i <= MaxOctaves ==> Fits(OctaveRes(i))
  {
    if i <= MaxOctaves {
      OctaveResIsPower(i);
      Pow2Add(MaxOctaves - i, i);
      assert MaxOctaves - i + i == MaxOctaves;
      MaxOctavesIsLog2();
      FitsOfFactor(Pow2(MaxOctaves - i), Pow2(i));
    }
  }

  /** A width that divides S into q cells fits. */
  lemma FitsOfFactor(res: nat, q: nat)
    requires res * q == S
    ensures Fits(res)
  {
    DivModUnique(S, res, q, 0);
    CellRemIsDivMod(S, res);
  }

  /** Octave index MaxOctaves, a ninth octave that ZgTerrain admits and main does not,
      has res == 1; a tenth octave would have res == 0, and x % res would divide by
      zero. */
  lemma OctaveAfterLast()
    ensures OctaveRes(MaxOctaves) == 1 && OctaveRes(MaxOctaves + 1) == 0
  {
  }

  /** v with amplitude /= 2 applied i times: what octave i makes of a dh of v. */
  function Halved(v: real, i: nat): real {
    if i == 0 then v else Halved(v, i - 1) / 2.0
  }

  /** The amplitude of octave i scales dh as halving it i times does. */
  lemma {:induction false} AmplitudeScales(i: nat, v: real)
    ensures Scaled(Amplitude(i), v) == Halved(v, i)
  {
    if i > 0 {
      AmplitudeScales(i - 1, v);
      assert Amplitude(i) * v == (Amplitude(i - 1) * v) / 2.0;
    }
  }

  /** What the first n octaves add to pixel (x, y): the sum of amplitude * dh. */
  function OctaveSum(h: array2<real>, n: nat, x: nat, y: nat): real
    reads h
    requires h.Length0 == S && h.Length1 == S && n <= MaxOctaves + 1 && x < S && y < S
  {
    if n == 0 then 0.0
    else
      OctaveFits(n - 1);
      OctaveSum(h, n - 1, x, y) + Halved(ZgPixel(h, OctaveRes(n - 1), x, y), n - 1)
  }

  /** Octave i adds the ZG surface of its cells of width res, halved i times. */
  lemma OctaveSumStep(h: array2<real>, i: nat, x: nat, y: nat)
    requires h.Length0 == S && h.Length1 == S && i <= MaxOctaves && x < S && y < S
    ensures Fits(OctaveRes(i))
    ensures OctaveSum(h, i + 1, x, y) == OctaveSum(h, i, x, y) + Halved(ZgPixel(h, OctaveRes(i), x, y), i)
  {
    OctaveFits(i);
  }

  /** OctaveSumStep, read against the table of octave i. */
  lemma OctaveSumInGrid(h: array2<real>, i: nat, x: nat, y: nat, grid: seq<seq<real>>)
    requires h.Length0 == S && h.Length1 == S && i <= MaxOctaves && x < S && y < S
    requires IsGrid(h, OctaveRes(i), grid)
    ensures OctaveSum(h, i + 1, x, y) == OctaveSum(h, i, x, y) + Halved(grid[x][y], i)
  {
    OctaveSumStep(h, i, x, y);
    assert IsColumn(h, OctaveRes(i), x, grid[x]);
  }

  /** sums holds OctaveSum(h, n, x, y) for every pixel. */
  ghost predicate IsSumTable(h: array2<real>, n: nat, sums: seq<seq<real>>)
    reads h
  {
    h.Length0 == S && h.Length1 == S && n <= MaxOctaves + 1 && |sums| == S &&
    (forall x {:trigger sums[x]} :: 0 <= x < S ==> |sums[x]| == S) &&
    forall x, y {:trigger OctaveSum(h, n, x, y)} :: 0 <= x < S && 0 <= y < S
      ==> sums[x][y] == OctaveSum(h, n, x, y)
  }

  /** Before any octave every pixel's sum is zero. */
  lemma ZeroSums(h: array2<real>) returns (sums: seq<seq<real>>)
    requires h.Length0 == S && h.Length1 == S
    ensures IsSumTable(h, 0, sums)
    ensures forall x, y :: 0 <= x < S && 0 <= y < S ==> sums[x][y] == 0.0
  {
    sums := seq(S, x => seq(S, y => 0.0));
  }

  /** The sums after octave i are those before it plus the octave's table, halved i times. */
  lemma SumTableStep(h: array2<real>, i: nat, sums: seq<seq<real>>, grid: seq<seq<real>>)
      returns (next: seq<seq<real>>)
    requires i <= MaxOctaves && IsSumTable(h, i, sums) && IsGrid(h, OctaveRes(i), grid)
    ensures IsSumTable(h, i + 1, next)
    ensures forall x, y :: 0 <= x < S && 0 <= y < S ==> next[x][y] == sums[x][y] + Halved(grid[x][y], i)
  {
    next := seq(S, x requires 0 <= x < S => seq(S, y requires 0 <= y < S => sums[x][y] + Halved(grid[x][y], i)));
    forall x, y | 0 <= x < S && 0 <= y < S
      ensures next[x][y] == OctaveSum(h, i + 1, x, y)
    {
      OctaveSumInGrid(h, i, x, y, grid);
    }
  }

  /** zgTerrain(nOctaves, h, terrain): adds the first nOctaves octaves of the ZG noise
      with boundary heights h to terrain. More than MaxOctaves + 1 octaves would reach
      res == 0. */
  method ZgTerrain(nOctaves: nat, h: array2<real>, terrain: array2<real>)
    requires h.Length0 == S && h.Length1 == S && terrain.Length0 == S && terrain.Length1 == S
    requires h != terrain && nOctaves <= MaxOctaves + 1
    modifies terrain
    ensures forall x, y :: 0 <= x < S && 0 <= y < S
              ==> terrain[x, y] == old(terrain[x, y]) + OctaveSum(h, nOctaves, x, y)
  {
    var changeCell := true;
    var res := S;
    var amplitude := 1.0;
    ghost var sums := ZeroSums(h);
    for i := 0 to nOctaves
      invariant res == OctaveRes(i) && amplitude == Amplitude(i) && IsSumTable(h, i, sums)
      invariant forall x, y :: 0 <= x < S && 0 <= y < S ==> terrain[x, y] == old(terrain[x, y]) + sums[x][y]
    {
      OctaveFits(i);
      ghost var grid := PixelGridOf(h, res);
      label before:
      changeCell := ZgOctave(h, terrain, res, amplitude, changeCell, grid);
      ghost var next := SumTableStep(h, i, sums, grid);
      forall x, y | 0 <= x < S && 0 <= y < S
        ensures terrain[x, y] == old(terrain[x, y]) + next[x][y]
      {
        assert terrain[x, y] == old@before(terrain[x, y]) + Scaled(amplitude, grid[x][y]);
        AmplitudeScales(i, grid[x][y]);
      }
      sums := next;
      res := res / 2;
      amplitude := amplitude / 2.0;
    }
  }

  /** main's guard: nOctaves > MAX_OCTAVES is rejected before any generation, so every
      octave that runs has cells at least 2 pixels wide. */
  lemma MainKeepsCellsWide(nOctaves: nat)
    requires nOctaves <= MaxOctaves
    ensures forall i :: 0 <= i < nOctaves ==> OctaveRes(i) >= 2
  {
    forall i | 0 <= i < nOctaves
      ensures OctaveRes(i) >= 2
    {
      OctaveResIsPower(i);
      assert Pow2(MaxOctaves - i) == 2 * Pow2(MaxOctaves - i - 1);
    }
  }

  /** main without the random boundary and the image: a zeroed terrain, the octave
      guard (exit(1) becomes ok == false), then zgTerrain. */
  method ZgMain(nOctaves: nat, h: array2<real>) returns (ok: bool, terrain: array2<real>)
    requires h.Length0 == S && h.Length1 == S
    ensures ok <==> nOctaves <= MaxOctaves
    ensures fresh(terrain) && terrain.Length0 == S && terrain.Length1 == S
    ensures ok ==> forall x, y :: 0 <= x < S && 0 <= y < S ==> terrain[x, y] == OctaveSum(h, nOctaves, x, y)
  {
    terrain := new real[S, S]((_, _) => 0.0);
    if nOctaves > MaxOctaves {
      return false, terrain;
    }
    ok := true;
    ZgTerrain(nOctaves, h, terrain);
  }
}
