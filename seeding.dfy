/** The seeded boundary conditions of numpygen/noisegen.py (RandArray,
    _set_seeded_condition, get_seeded_conditions_d2m1n3 and
    get_seeded_conditions): the (n+1) x (n+1) arrays of imposed heights (and, for
    the generic version, slopes) of one level of one chunk, drawn so that two
    neighbouring chunks draw the same values on their common edge. */
module Seeding {
  import opened Wrappers
  import opened NoiseCache
  import opened CacheObject

  /** numpy's generator as a parameter: rng(key, i) is the i-th float that
      np.random.random draws after np.random.seed(key). */
  type Rng = (seq<int>, nat) -> real

  /** np.random.random draws in [0, 1). */
  ghost predicate ValidRng(rng: Rng) {
    forall key: seq<int>, i: nat :: 0.0 <= rng(key, i) < 1.0
  }

  /** val*(2*random() - 1) for the i-th draw of the stream `key`. */
  function Draw(rng: Rng, val: real, key: seq<int>, i: nat): (r: real)
    ensures ValidRng(rng) && val > 0.0 ==> -val <= r < val
    ensures val == 0.0 ==> r == 0.0
  {
    var u := rng(key, i);
    assert val * (2.0 * u - 1.0) == 2.0 * (val * u) - val;
    assert ValidRng(rng) && val > 0.0 ==> 0.0 <= val * u < val;
    val * (2.0 * u - 1.0)
  }

  /** Python's `a % b` for b != 0: the remainder has the sign of b. */
  function PyMod(a: int, b: int): (r: int)
    requires b != 0
    ensures b > 0 ==> 0 <= r < b
    ensures b < 0 ==> b < r <= 0
  {
    if b > 0 || a % b == 0 then a % b else a % b + b
  }

  /** The world size is usable as a divisor: `(l+1) % ws[0]` and `(t+1) % ws[1]`
      raise ZeroDivisionError otherwise. */
  predicate WorldOk(ws: (int, int)) {
    ws.0 != 0 && ws.1 != 0
  }

  /** The chunk on the right of column l, wrapped around the world. */
  function RightOf(l: int, ws: (int, int)): int
    requires WorldOk(ws)
  {
    PyMod(l + 1, ws.0)
  }

  /** The chunk below row t, wrapped around the world. */
  function BelowOf(t: int, ws: (int, int)): int
    requires WorldOk(ws)
  {
    PyMod(t + 1, ws.1)
  }

  /** Entry [x, y] of an (n+1) x (n+1) array after _set_seeded_condition(seed, l, t,
      a, n, val, flag, ws), given its entry `prev` before the call. The assignments
      run left, right, top and bottom edge, then the four corners, so a later one
      wins where they overlap; the interior keeps `prev`. */
  function SeededCell(rng: Rng, seed: int, l: int, t: int, n: nat, val: real, flag: int,
                      ws: (int, int), prev: real, x: nat, y: nat): real
    requires WorldOk(ws)
  {
    var r, b := RightOf(l, ws), BelowOf(t, ws);
    if x == n && y == n then Draw(rng, val, [seed, r, b, n, flag], 0)
    else if x == 0 && y == n then Draw(rng, val, [seed, l, b, n, flag], 0)
    else if x == n && y == 0 then Draw(rng, val, [seed, r, t, n, flag], 0)
    else if x == 0 && y == 0 then Draw(rng, val, [seed, l, t, n, flag], 0)
    else if y == n then Draw(rng, val, [seed, l, b, n, flag, 1], x)
    else if y == 0 then Draw(rng, val, [seed, l, t, n, flag, 1], x)
    else if x == n then Draw(rng, val, [seed, r, t, n, flag, 0], y)
    else if x == 0 then Draw(rng, val, [seed, l, t, n, flag, 0], y)
    else prev
  }

  /** Entry [x, y] of the height array of chunk (l, t) for a level with n cells and
      amplitude val, when the bulk was drawn from the stream `bulkKey`. */
  function SeededHeight(rng: Rng, seed: int, l: int, t: int, n: nat, val: real,
                        ws: (int, int), bulkKey: seq<int>, x: nat, y: nat): real
    requires WorldOk(ws)
  {
    SeededCell(rng, seed, l, t, n, val, 1, ws, Draw(rng, val, bulkKey, x * (n + 1) + y), x, y)
  }

  /** The bulk stream of get_seeded_conditions_d2m1n3, (SEED, cx, cy, n, 0). */
  function BulkKeyD2m1n3(seed: int, chunk: (int, int), n: int): seq<int> {
    [seed, chunk.0, chunk.1, n, 0]
  }

  /** The bulk stream of get_seeded_conditions, [l, t, n, 0]: it does not hold SEED. */
  function BulkKey(chunk: (int, int), n: int): seq<int> {
    [chunk.0, chunk.1, n, 0]
  }

  // ------------------------------------------------------------- properties

  /** Seam between horizontal neighbours: the last column of chunk (l, t) is the
      first column of chunk ((l+1) % ws[0], t), whatever the bulks. */
  lemma SeamRightLeft(rng: Rng, seed: int, l: int, t: int, n: nat, val: real,
                      ws: (int, int), bulk1: seq<int>, bulk2: seq<int>, y: nat)
    requires WorldOk(ws) && n >= 1 && y <= n
    ensures SeededHeight(rng, seed, l, t, n, val, ws, bulk1, n, y)
            == SeededHeight(rng, seed, RightOf(l, ws), t, n, val, ws, bulk2, 0, y)
  {
  }

  /** Seam between vertical neighbours: the last row of chunk (l, t) is the first
      row of chunk (l, (t+1) % ws[1]), whatever the bulks. */
  lemma SeamBottomTop(rng: Rng, seed: int, l: int, t: int, n: nat, val: real,
                      ws: (int, int), bulk1: seq<int>, bulk2: seq<int>, x: nat)
    requires WorldOk(ws) && n >= 1 && x <= n
    ensures SeededHeight(rng, seed, l, t, n, val, ws, bulk1, x, n)
            == SeededHeight(rng, seed, l, BelowOf(t, ws), n, val, ws, bulk2, x, 0)
  {
  }

  /** The seam needs a cell: with n = 0 the single entry of a chunk is its bottom-right
      corner, drawn from the stream of the chunk on the lower right, so it is not
      the entry of the chunk on the right. */
  lemma NoSeamWithoutCells(rng: Rng, seed: int, l: int, t: int, val: real,
                           ws: (int, int), bulk: seq<int>)
    requires WorldOk(ws)
    ensures SeededHeight(rng, seed, l, t, 0, val, ws, bulk, 0, 0)
            == Draw(rng, val, [seed, RightOf(l, ws), BelowOf(t, ws), 0, 1], 0)
  {
  }

  /** Every seeded entry lies in [-val, val). */
  lemma SeededHeightRange(rng: Rng, seed: int, l: int, t: int, n: nat, val: real,
                          ws: (int, int), bulkKey: seq<int>, x: nat, y: nat)
    requires WorldOk(ws) && ValidRng(rng) && val > 0.0
    ensures -val <= SeededHeight(rng, seed, l, t, n, val, ws, bulkKey, x, y) < val
  {
  }

  /** The wrap: the chunk on the right of the last column of the world is column 0,
      and inside the world it is the next column. */
  lemma WrapAround(l: int, ws: (int, int))
    requires WorldOk(ws) && ws.0 > 0 && 0 <= l < ws.0
    ensures RightOf(l, ws) == if l == ws.0 - 1 then 0 else l + 1
  {
  }

  // ----------------------------------------------------------------- methods

  /** RandArray(val, n+1) drawn from the stream `key` starting at draw `offset`:
      numpy fills the array row by row. */
  method RandArray(rng: Rng, key: seq<int>, offset: nat, val: real, size: nat)
    returns (a: array2<real>)
    ensures fresh(a) && a.Length0 == size && a.Length1 == size
    ensures forall x, y :: 0 <= x < size && 0 <= y < size ==>
              a[x, y] == Draw(rng, val, key, offset + x * size + y)
  {
    a := new real[size, size];
    for x := 0 to size
      invariant forall i, j :: 0 <= i < x && 0 <= j < size ==>
                  a[i, j] == Draw(rng, val, key, offset + i * size + j)
    {
      for y := 0 to size
        invariant forall i, j :: 0 <= i < x && 0 <= j < size ==>
                    a[i, j] == Draw(rng, val, key, offset + i * size + j)
        invariant forall j :: 0 <= j < y ==> a[x, j] == Draw(rng, val, key, offset + x * size + j)
      {
        a[x, y] := Draw(rng, val, key, offset + x * size + y);
      }
    }
  }

  /** a[x, :] = val*(2*np.random.random(n+1) - 1) after np.random.seed(key). */
  method SetColumn(rng: Rng, key: seq<int>, a: array2<real>, x: nat, val: real)
    requires x < a.Length0
    modifies a
    ensures forall i, j :: 0 <= i < a.Length0 && 0 <= j < a.Length1 ==>
              a[i, j] == if i == x then Draw(rng, val, key, j) else old(a[i, j])
  {
    for j := 0 to a.Length1
      invariant forall i, j' :: 0 <= i < a.Length0 && 0 <= j' < a.Length1 ==>
                  a[i, j'] == if i == x && j' < j then Draw(rng, val, key, j') else old(a[i, j'])
    {
      a[x, j] := Draw(rng, val, key, j);
    }
  }

  /** a[:, y] = val*(2*np.random.random(n+1) - 1) after np.random.seed(key). */
  method SetRow(rng: Rng, key: seq<int>, a: array2<real>, y: nat, val: real)
    requires y < a.Length1
    modifies a
    ensures forall i, j :: 0 <= i < a.Length0 && 0 <= j < a.Length1 ==>
              a[i, j] == if j == y then Draw(rng, val, key, i) else old(a[i, j])
  {
    for i := 0 to a.Length0
      invariant forall i', j :: 0 <= i' < a.Length0 && 0 <= j < a.Length1 ==>
                  a[i', j] == if j == y && i' < i then Draw(rng, val, key, i') else old(a[i', j])
    {
      a[i, y] := Draw(rng, val, key, i);
    }
  }

  /** _set_seeded_condition: overwrites the four edges of the (n+1) x (n+1) array a
      with values drawn from streams keyed by the chunk that owns each edge, so that
      neighbouring chunks share them. It raises, before writing anything, when a
      world dimension is zero. */
  method SetSeededCondition(rng: Rng, seed: int, l: int, t: int, a: array2<real>, n: nat,
                            val: real, flag: int, ws: (int, int)) returns (ok: bool)
    requires a.Length0 == n + 1 && a.Length1 == n + 1
    modifies a
    ensures ok <==> WorldOk(ws)
    ensures !ok ==> unchanged(a)
    ensures ok ==> forall x, y :: 0 <= x <= n && 0 <= y <= n ==>
              a[x, y] == SeededCell(rng, seed, l, t, n, val, flag, ws, old(a[x, y]), x, y)
  {
    if !WorldOk(ws) {
      return false;
    }
    var right := PyMod(l + 1, ws.0);
    var bottom := PyMod(t + 1, ws.1);
    SetColumn(rng, [seed, l, t, n, flag, 0], a, 0, val);
    SetColumn(rng, [seed, right, t, n, flag, 0], a, n, val);
    SetRow(rng, [seed, l, t, n, flag, 1], a, 0, val);
    SetRow(rng, [seed, l, bottom, n, flag, 1], a, n, val);
    a[0, 0] := Draw(rng, val, [seed, l, t, n, flag], 0);
    a[n, 0] := Draw(rng, val, [seed, right, t, n, flag], 0);
    a[0, n] := Draw(rng, val, [seed, l, bottom, n, flag], 0);
    a[n, n] := Draw(rng, val, [seed, right, bottom, n, flag], 0);
    ok := true;
  }

  /** get_seeded_conditions_d2m1n3: the height array of level k of a chunk. */
  method GetSeededConditionsD2m1n3(rng: Rng, chunk: (int, int), k: nat, c: Cache)
    returns (ok: bool, tabh: array2<real>)
    requires c.CoordsBuilt() && k < c.levels
    ensures fresh(tabh)
    ensures ok <==> WorldOk(c.worldSize)
    ensures ok ==> && tabh.Length0 == c.paramN[k] + 1 && tabh.Length1 == c.paramN[k] + 1
                   && forall x, y :: 0 <= x <= c.paramN[k] && 0 <= y <= c.paramN[k] ==>
                        tabh[x, y] == SeededHeight(rng, c.seed, chunk.0, chunk.1, c.paramN[k],
                                                   c.paramH[k], c.worldSize,
                                                   BulkKeyD2m1n3(c.seed, chunk, c.paramN[k]), x, y)
  {
    c.LevelsPositive(k);
    var n: nat, h := c.paramN[k], c.paramH[k];
    tabh := RandArray(rng, BulkKeyD2m1n3(c.seed, chunk, n), 0, h, n + 1);
    ok := SetSeededCondition(rng, c.seed, chunk.0, chunk.1, tabh, n, h, 1, c.worldSize);
  }

  /** get_seeded_conditions: the height array of level k of a chunk and two slope
      arrays of amplitude 1 drawn next from the same stream, without boundary
      conditions. */
  method GetSeededConditions(rng: Rng, chunk: (int, int), k: nat, c: Cache)
    returns (ok: bool, tabh: array2<real>, tabf: array2<real>, tabg: array2<real>)
    requires c.CoordsBuilt() && k < c.levels
    ensures fresh(tabh) && fresh(tabf) && fresh(tabg)
    ensures ok <==> WorldOk(c.worldSize)
    ensures ok ==>
      var n := c.paramN[k];
      && tabh.Length0 == n + 1 && tabh.Length1 == n + 1
      && tabf.Length0 == n + 1 && tabf.Length1 == n + 1
      && tabg.Length0 == n + 1 && tabg.Length1 == n + 1
      && (forall x, y :: 0 <= x <= n && 0 <= y <= n ==>
            && tabh[x, y] == SeededHeight(rng, c.seed, chunk.0, chunk.1, n, c.paramH[k],
                                          c.worldSize, BulkKey(chunk, n), x, y)
            && tabf[x, y] == Draw(rng, 1.0, BulkKey(chunk, n), (n + 1) * (n + 1) + x * (n + 1) + y)
            && tabg[x, y] == Draw(rng, 1.0, BulkKey(chunk, n),
                                  2 * (n + 1) * (n + 1) + x * (n + 1) + y))
  {
    c.LevelsPositive(k);
    var n: nat, h := c.paramN[k], c.paramH[k];
    var p := 1.0;
    var key := BulkKey(chunk, n);
    tabh := RandArray(rng, key, 0, h, n + 1);
    tabf := RandArray(rng, key, (n + 1) * (n + 1), p, n + 1);
    tabg := RandArray(rng, key, 2 * (n + 1) * (n + 1), p, n + 1);
    ok := SetSeededCondition(rng, c.seed, chunk.0, chunk.1, tabh, n, h, 1, c.worldSize);
  }
}
