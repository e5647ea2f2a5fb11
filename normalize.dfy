/** The two normalisations of numpygen/noisegen.py: `normalize` rescales a heightmap
    by its own extremes, `theoretical_normalize` by the bound max_h of the cache. */
module Normalization {
  import opened Wrappers
  import opened Grids
  import opened NoiseCache

  /** np.min of a non-empty row. */
  function RowMin(row: seq<real>): (m: real)
    requires |row| > 0
    ensures m in row && forall b :: 0 <= b < |row| ==> m <= row[b]
  {
    if |row| == 1 then row[0]
    else
      var m' := RowMin(row[..|row| - 1]);
      assert forall b :: 0 <= b < |row| - 1 ==> row[..|row| - 1][b] == row[b];
      if row[|row| - 1] < m' then row[|row| - 1] else m'
  }

  /** np.max of a non-empty row. */
  function RowMax(row: seq<real>): (m: real)
    requires |row| > 0
    ensures m in row && forall b :: 0 <= b < |row| ==> row[b] <= m
  {
    if |row| == 1 then row[0]
    else
      var m' := RowMax(row[..|row| - 1]);
      assert forall b :: 0 <= b < |row| - 1 ==> row[..|row| - 1][b] == row[b];
      if row[|row| - 1] > m' then row[|row| - 1] else m'
  }

  /** np.min of an n x n grid with n >= 1: an entry of the grid below no other entry. */
  function GridMin(g: Grid, n: nat): (m: real)
    requires IsSquare(g, n) && n >= 1
    ensures exists a, b :: 0 <= a < n && 0 <= b < n && g[a][b] == m
    ensures forall a, b :: 0 <= a < n && 0 <= b < n ==> m <= g[a][b]
  {
    MinOfRows(g, n, n)
  }

  /** The minimum of the first k rows of g. */
  function MinOfRows(g: Grid, n: nat, k: nat): (m: real)
    requires IsSquare(g, n) && 1 <= k <= n
    ensures exists a, b :: 0 <= a < k && 0 <= b < n && g[a][b] == m
    ensures forall a, b :: 0 <= a < k && 0 <= b < n ==> m <= g[a][b]
  {
    var r := RowMin(g[k - 1]);
    if k == 1 then r
    else
      var rest := MinOfRows(g, n, k - 1);
      if r < rest then r else rest
  }

  /** np.max of an n x n grid with n >= 1: an entry of the grid above no other entry. */
  function GridMax(g: Grid, n: nat): (m: real)
    requires IsSquare(g, n) && n >= 1
    ensures exists a, b :: 0 <= a < n && 0 <= b < n && g[a][b] == m
    ensures forall a, b :: 0 <= a < n && 0 <= b < n ==> g[a][b] <= m
  {
    MaxOfRows(g, n, n)
  }

  /** The maximum of the first k rows of g. */
  function MaxOfRows(g: Grid, n: nat, k: nat): (m: real)
    requires IsSquare(g, n) && 1 <= k <= n
    ensures exists a, b :: 0 <= a < k && 0 <= b < n && g[a][b] == m
    ensures forall a, b :: 0 <= a < k && 0 <= b < n ==> g[a][b] <= m
  {
    var r := RowMax(g[k - 1]);
    if k == 1 then r
    else
      var rest := MaxOfRows(g, n, k - 1);
      if r > rest then r else rest
  }

  /** For 0 <= x <= d and d > 0, x / d lies in [0, 1], with x = 0 giving 0 and x = d giving 1. */
  lemma UnitRatio(x: real, d: real)
    requires 0.0 <= x <= d && d > 0.0
    ensures 0.0 <= x / d <= 1.0
    ensures x == 0.0 ==> x / d == 0.0
    ensures x == d ==> x / d == 1.0
  {
    var q := x / d;
    assert q * d == x;
    ScaledSign(q, d);
    ScaledSign(q - 1.0, d);
  }

  /** Multiplying by a positive d keeps the sign. */
  lemma ScaledSign(q: real, d: real)
    requires d > 0.0
    ensures q < 0.0 <==> q * d < 0.0
    ensures q > 0.0 <==> q * d > 0.0
  {
  }

  /** The map v |-> (v - lo) / d with d > 0 keeps order and equality, both ways. */
  lemma AffineOrder(v: real, w: real, lo: real, d: real)
    requires d > 0.0
    ensures v < w <==> (v - lo) / d < (w - lo) / d
    ensures v == w <==> (v - lo) / d == (w - lo) / d
  {
    var p, q := (v - lo) / d, (w - lo) / d;
    assert p * d == v - lo && q * d == w - lo;
    assert (q - p) * d == w - v;
    ScaledSign(q - p, d);
  }

  /** normalize(hmap) = (hmap - min) / (max - min) on an n x n heightmap. numpy raises
      on an empty array and yields NaN everywhere on a flat one (a division of 0 by 0);
      both are None here. */
  function Normalize(g: Grid, n: nat): (r: Option<Grid>)
    requires IsSquare(g, n)
    ensures r.None? <==> n == 0 || GridMin(g, n) == GridMax(g, n)
    ensures r.Some? ==> IsSquare(r.value, n)
  {
    if n == 0 then None
    else
      var lo, hi := GridMin(g, n), GridMax(g, n);
      if lo == hi then None
      else Some(Tabulate(n, (a: nat, b: nat) => if a < n && b < n then (g[a][b] - lo) / (hi - lo) else 0.0))
  }

  /** normalize sends the lowest points to 0, the highest to 1 and every point into
      [0, 1]. */
  lemma NormalizeRange(g: Grid, n: nat, a: nat, b: nat)
    requires IsSquare(g, n) && a < n && b < n
    requires Normalize(g, n).Some?
    ensures var r := Normalize(g, n).value;
            && 0.0 <= r[a][b] <= 1.0
            && (g[a][b] == GridMin(g, n) ==> r[a][b] == 0.0)
            && (g[a][b] == GridMax(g, n) ==> r[a][b] == 1.0)
  {
    var lo, hi := GridMin(g, n), GridMax(g, n);
    NormalizeAt(g, n, a, b);
    UnitRatio(g[a][b] - lo, hi - lo);
  }

  lemma NormalizeAt(g: Grid, n: nat, a: nat, b: nat)
    requires IsSquare(g, n) && a < n && b < n
    requires Normalize(g, n).Some?
    ensures GridMin(g, n) < GridMax(g, n)
    ensures Normalize(g, n).value[a][b] == (g[a][b] - GridMin(g, n)) / (GridMax(g, n) - GridMin(g, n))
  {
  }

  /** normalize keeps the order of the points, strictly: it is an increasing affine map. */
  lemma NormalizeMonotone(g: Grid, n: nat, a: nat, b: nat, a': nat, b': nat)
    requires IsSquare(g, n) && a < n && b < n && a' < n && b' < n
    requires Normalize(g, n).Some?
    ensures var r := Normalize(g, n).value;
            (g[a][b] < g[a'][b'] <==> r[a][b] < r[a'][b'])
            && (g[a][b] == g[a'][b'] <==> r[a][b] == r[a'][b'])
  {
    NormalizeAt(g, n, a, b);
    NormalizeAt(g, n, a', b');
    AffineOrder(g[a][b], g[a'][b'], GridMin(g, n), GridMax(g, n) - GridMin(g, n));
  }

  /** theoretical_normalize(hmap, c) = (hmap + max_h) / (2 max_h) on an n x n heightmap. */
  function TheoreticalNormalizeGrid(g: Grid, n: nat, maxH: real): (r: Grid)
    requires IsSquare(g, n) && maxH > 0.0
    ensures IsSquare(r, n)
    ensures forall a, b :: 0 <= a < n && 0 <= b < n && -maxH <= g[a][b] <= maxH ==>
              0.0 <= r[a][b] <= 1.0
  {
    TheoreticalNormalizeBounded(maxH);
    Tabulate(n, (a: nat, b: nat) => if a < n && b < n then TheoreticalNormalize(g[a][b], maxH) else 0.0)
  }

  lemma TheoreticalNormalizeBounded(maxH: real)
    requires maxH > 0.0
    ensures forall v :: -maxH <= v <= maxH ==> 0.0 <= TheoreticalNormalize(v, maxH) <= 1.0
  {
    forall v | -maxH <= v <= maxH
      ensures 0.0 <= TheoreticalNormalize(v, maxH) <= 1.0
    {
      TheoreticalNormalizeRange(maxH, v, v);
    }
  }

  /** theoretical_normalize is the same increasing map at every point, so it keeps the
      order of the points of a heightmap. */
  lemma TheoreticalNormalizeGridMonotone(g: Grid, n: nat, maxH: real, a: nat, b: nat, a': nat, b': nat)
    requires IsSquare(g, n) && maxH > 0.0 && a < n && b < n && a' < n && b' < n
    ensures var r := TheoreticalNormalizeGrid(g, n, maxH);
            g[a][b] < g[a'][b'] ==> r[a][b] < r[a'][b']
  {
    TheoreticalNormalizeRange(maxH, g[a][b], g[a'][b']);
  }
}
