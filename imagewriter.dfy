/** c/imagewriter.h: normalises an S x S heightmap in place and writes it as a 24-bit
    Windows BMP image (a 14-byte BITMAPFILEHEADER, a 40-byte BITMAPINFOHEADER, then the
    pixel rows bottom-up, in B, G, R order, each row padded to a multiple of 4 bytes). */
module ImageWriter {
  import opened Wrappers
  import opened Grids
  import opened Normalization
  import opened ColorScales

  // ------------------------------------------------------------ normalizeArray

  /** The pair (minValue, maxValue) that normalizeArray's first loop carries. */
  datatype Extremes = Extremes(lo: real, hi: real)

  /** One visit of the first loop. As written (asWritten) the maximum is only looked at
      when the value is not a new minimum (`else if`); otherwise both are updated. */
  function Step(e: Extremes, v: real, asWritten: bool): Extremes {
    if asWritten then
      if v < e.lo then Extremes(v, e.hi)
      else if v > e.hi then Extremes(e.lo, v)
      else e
    else
      Extremes(if v < e.lo then v else e.lo, if v > e.hi then v else e.hi)
  }

  /** The extremes after visiting the first j values of row, starting from e. */
  function ScanRow(e: Extremes, row: seq<real>, j: nat, asWritten: bool): Extremes
    requires j <= |row|
  {
    if j == 0 then e else Step(ScanRow(e, row, j - 1, asWritten), row[j - 1], asWritten)
  }

  /** The extremes after visiting the first i rows of g, starting from (1, -1). */
  function ScanRows(g: seq<seq<real>>, i: nat, asWritten: bool): Extremes
    requires i <= |g|
  {
    if i == 0 then Extremes(1.0, -1.0)
    else ScanRow(ScanRows(g, i - 1, asWritten), g[i - 1], |g[i - 1]|, asWritten)
  }

  /** The rows of the array a. */
  ghost function Rows(a: array2<real>): (g: seq<seq<real>>)
    reads a
    ensures |g| == a.Length0
    ensures forall i :: 0 <= i < a.Length0 ==> |g[i]| == a.Length1
    ensures forall i, j :: 0 <= i < a.Length0 && 0 <= j < a.Length1 ==> g[i][j] == a[i, j]
  {
    seq(a.Length0, i requires 0 <= i < a.Length0 reads a =>
      seq(a.Length1, j requires 0 <= j < a.Length1 reads a => a[i, j]))
  }

  /** Along a row the minimum only goes down, to a value below every value visited; it is
      the start value or one of them. Without `else if` the same holds of the maximum,
      upwards; with it the maximum still never goes down. */
  lemma {:induction false} ScanRowBounds(e: Extremes, row: seq<real>, j: nat, asWritten: bool)
    requires j <= |row|
    ensures var r := ScanRow(e, row, j, asWritten);
            && r.lo <= e.lo && e.hi <= r.hi
            && (forall k :: 0 <= k < j ==> r.lo <= row[k])
            && (r.lo == e.lo || exists k :: 0 <= k < j && row[k] == r.lo)
            && (r.hi == e.hi || exists k :: 0 <= k < j && row[k] == r.hi)
            && (!asWritten ==> forall k :: 0 <= k < j ==> row[k] <= r.hi)
  {
    if j > 0 {
      ScanRowBounds(e, row, j - 1, asWritten);
    }
  }

  /** After the first i rows minValue = min(1, every value visited), and it is 1 or one
      of them; maxValue is -1 or one of them, at least -1, and without `else if` it is
      max(-1, every value visited). */
  lemma {:induction false} ScanRowsBounds(g: seq<seq<real>>, i: nat, asWritten: bool)
    requires i <= |g|
    ensures var r := ScanRows(g, i, asWritten);
            && r.lo <= 1.0 && -1.0 <= r.hi
            && (forall a, b :: 0 <= a < i && 0 <= b < |g[a]| ==> r.lo <= g[a][b])
            && (r.lo == 1.0 || exists a, b :: 0 <= a < i && 0 <= b < |g[a]| && g[a][b] == r.lo)
            && (r.hi == -1.0 || exists a, b :: 0 <= a < i && 0 <= b < |g[a]| && g[a][b] == r.hi)
            && (!asWritten ==> forall a, b :: 0 <= a < i && 0 <= b < |g[a]| ==> g[a][b] <= r.hi)
  {
    if i > 0 {
      var e := ScanRows(g, i - 1, asWritten);
      ScanRowsBounds(g, i - 1, asWritten);
      ScanRowBounds(e, g[i - 1], |g[i - 1]|, asWritten);
    }
  }

  /** normalizeArray's first loop: minValue and maxValue over the whole array. */
  method FindExtremes(a: array2<real>, asWritten: bool) returns (e: Extremes)
    ensures e == ScanRows(Rows(a), a.Length0, asWritten)
  {
    ghost var g := Rows(a);
    e := Extremes(1.0, -1.0);
    for i := 0 to a.Length0
      invariant e == ScanRows(g, i, asWritten)
    {
      for j := 0 to a.Length1
        invariant e == ScanRow(ScanRows(g, i, asWritten), g[i], j, asWritten)
      {
        e := Step(e, a[i, j], asWritten);
      }
    }
  }

  /** normalizeArray's second loop: a[i][j] = (a[i][j] - offset) / divider everywhere. */
  method Rescale(a: array2<real>, offset: real, divider: real)
    requires divider != 0.0
    modifies a
    ensures forall i, j :: 0 <= i < a.Length0 && 0 <= j < a.Length1 ==>
              a[i, j] == (old(a[i, j]) - offset) / divider
  {
    for i := 0 to a.Length0
      invariant forall i', j :: 0 <= i' < i && 0 <= j < a.Length1 ==>
                  a[i', j] == (old(a[i', j]) - offset) / divider
      invariant forall i', j :: i <= i' < a.Length0 && 0 <= j < a.Length1 ==> a[i', j] == old(a[i', j])
    {
      for j := 0 to a.Length1
        invariant forall i', j' :: 0 <= i' < i && 0 <= j' < a.Length1 ==>
                    a[i', j'] == (old(a[i', j']) - offset) / divider
        invariant forall j' :: 0 <= j' < j ==> a[i, j'] == (old(a[i, j']) - offset) / divider
        invariant forall i', j' :: 0 <= i' < a.Length0 && 0 <= j' < a.Length1 && (i' > i || (i' == i && j' >= j))
                    ==> a[i', j'] == old(a[i', j'])
      {
        a[i, j] := (a[i, j] - offset) / divider;
      }
    }
  }

  /** normalizeArray as written, with `else if`. A divider of 0 would fill the array with
      NaN (0/0); that is ok false here and the array is left alone. */
  method NormalizeArrayAsWritten(a: array2<real>) returns (ok: bool)
    requires a.Length0 == a.Length1
    modifies a
    ensures var e := ScanRows(old(Rows(a)), a.Length0, true);
            && (ok <==> e.hi != e.lo)
            && (ok ==> forall i, j :: 0 <= i < a.Length0 && 0 <= j < a.Length1 ==>
                          a[i, j] == (old(a[i, j]) - e.lo) / (e.hi - e.lo))
            && (!ok ==> unchanged(a))
  {
    var e := FindExtremes(a, true);
    var offset, divider := e.lo, e.hi - e.lo;
    ok := divider != 0.0;
    if ok {
      Rescale(a, offset, divider);
    }
  }

  /** normalizeArray with the `else` dropped, so that every value is compared with both
      extremes. */
  method NormalizeArray(a: array2<real>) returns (ok: bool)
    requires a.Length0 == a.Length1
    modifies a
    ensures var e := ScanRows(old(Rows(a)), a.Length0, false);
            && (ok <==> e.hi != e.lo)
            && (ok ==> forall i, j :: 0 <= i < a.Length0 && 0 <= j < a.Length1 ==>
                          a[i, j] == (old(a[i, j]) - e.lo) / (e.hi - e.lo))
            && (!ok ==> unchanged(a))
  {
    var e := FindExtremes(a, false);
    var offset, divider := e.lo, e.hi - e.lo;
    ok := divider != 0.0;
    if ok {
      Rescale(a, offset, divider);
    }
  }

  /** With either loop the offset is at most every value, so no value goes below 0 once
      the offset is subtracted. */
  lemma OffsetBelowEveryValue(g: seq<seq<real>>, asWritten: bool, a: nat, b: nat)
    requires a < |g| && b < |g[a]|
    ensures g[a][b] - ScanRows(g, |g|, asWritten).lo >= 0.0
  {
    ScanRowsBounds(g, |g|, asWritten);
  }

  /** With either loop a positive divider keeps the order of the values, both ways. */
  lemma NormalizedKeepsOrder(g: seq<seq<real>>, asWritten: bool, v: real, w: real)
    requires ScanRows(g, |g|, asWritten).lo < ScanRows(g, |g|, asWritten).hi
    ensures var e := ScanRows(g, |g|, asWritten);
            v < w <==> (v - e.lo) / (e.hi - e.lo) < (w - e.lo) / (e.hi - e.lo)
  {
    var e := ScanRows(g, |g|, asWritten);
    AffineOrder(v, w, e.lo, e.hi - e.lo);
  }

  /** Without `else if`, a positive divider sends every value into [0, 1]. */
  lemma NormalizedInUnit(g: seq<seq<real>>, a: nat, b: nat)
    requires a < |g| && b < |g[a]|
    requires ScanRows(g, |g|, false).lo < ScanRows(g, |g|, false).hi
    ensures var e := ScanRows(g, |g|, false);
            0.0 <= (g[a][b] - e.lo) / (e.hi - e.lo) <= 1.0
  {
    var e := ScanRows(g, |g|, false);
    ScanRowsBounds(g, |g|, false);
    UnitRatio(g[a][b] - e.lo, e.hi - e.lo);
  }

  /** With `else if` the first value is never compared with maxValue when it is below 1:
      on [[0.8, 0.2], [0.3, 0.4]] maxValue ends at 0.4, and 0.8 is rescaled to 3. */
  lemma ElseIfMissesMaximum()
    ensures var g := [[0.8, 0.2], [0.3, 0.4]];
            && ScanRows(g, 2, true) == Extremes(0.2, 0.4)
            && (g[0][0] - 0.2) / (0.4 - 0.2) == 3.0
            && ScanRows(g, 2, false) == Extremes(0.2, 0.8)
  {
    var g := [[0.8, 0.2], [0.3, 0.4]];
    assert ScanRow(Extremes(1.0, -1.0), g[0], 2, true) == Extremes(0.2, -1.0);
    assert ScanRow(Extremes(0.2, -1.0), g[1], 2, true) == Extremes(0.2, 0.4);
    assert ScanRow(Extremes(1.0, -1.0), g[0], 2, false) == Extremes(0.2, 0.8);
    assert ScanRow(Extremes(0.2, 0.8), g[1], 2, false) == Extremes(0.2, 0.8);
  }

  // --------------------------------------------------------------- interpColor

  /** c1 + k (c2 - c1) component by component, each truncated to int: k = 0 gives c1
      and k = 1 gives c2. */
  function MixTrunc(c1: seq<int>, c2: seq<int>, k: real): (c3: seq<int>)
    requires |c1| == 3 && |c2| == 3
    ensures |c3| == 3
    ensures k == 0.0 ==> c3 == c1
    ensures k == 1.0 ==> c3 == c2
  {
    seq(3, i requires 0 <= i < 3 => Trunc(Mix(c1[i], c2[i], k)))
  }

  /** The colour interpColor writes into c3: c1 + k (c2 - c1) with k = (value - h1) /
      (h2 - h1), each component truncated to int; value = h1 gives c1, value = h2 gives c2. */
  function Interpolated(c1: seq<int>, c2: seq<int>, value: real, h1: real, h2: real): (c3: seq<int>)
    requires |c1| == 3 && |c2| == 3 && h1 != h2
    ensures |c3| == 3
    ensures value == h1 ==> c3 == c1
    ensures value == h2 ==> c3 == c2
  {
    var k := (value - h1) / (h2 - h1);
    SelfRatio(h2 - h1);
    assert value == h2 ==> k == 1.0;
    MixTrunc(c1, c2, k)
  }

  /** interpColor(c1, c2, value, h1, h2, c3). */
  method InterpColor(c1: seq<int>, c2: seq<int>, value: real, h1: real, h2: real, c3: array<int>)
    requires |c1| == 3 && |c2| == 3 && h1 != h2 && c3.Length == 3
    modifies c3
    ensures c3[..] == Interpolated(c1, c2, value, h1, h2)
  {
    var k := (value - h1) / (h2 - h1);
    for i := 0 to 3
      invariant forall i' :: 0 <= i' < i ==> c3[i'] == Trunc(Mix(c1[i'], c2[i'], k))
    {
      c3[i] := Trunc(Mix(c1[i], c2[i], k));
    }
  }

  // ------------------------------------------------------------ terrain colours

  const Water: seq<int> := [0, 0, 100]
  const ShallowWater: seq<int> := [0, 30, 255]
  const Sand: seq<int> := [137, 131, 200]
  const Sand2: seq<int> := [237, 201, 175]
  const Jungle: seq<int> := [50, 85, 10]
  const Forest: seq<int> := [50, 180, 50]
  const Heights: seq<int> := [150, 180, 150]
  const Snow: seq<int> := [255, 255, 255]

  /** writeToBmp's chain of thresholds: the colour of a normalised height v, None where
      the chain sets no colour (v above hsnow). */
  function TerrainColor(v: real): Option<seq<int>> {
    if v < 0.52 then Some(Interpolated(Water, ShallowWater, v, 0.0, 0.52))
    else if v < 0.597 then Some(Interpolated(ShallowWater, Sand, v, 0.52, 0.597))
    else if v < 0.6 then Some(Interpolated(Sand, Sand2, v, 0.597, 0.6))
    else if v < 0.605 then Some(Interpolated(Sand2, Jungle, v, 0.6, 0.605))
    else if v < 0.78 then Some(Interpolated(Jungle, Forest, v, 0.605, 0.78))
    else if v < 0.85 then Some(Interpolated(Forest, Heights, v, 0.78, 0.85))
    else if v <= 1.0 then Some(Interpolated(Heights, Snow, v, 0.85, 1.0))
    else None
  }

  /** A segment of a colour chain: colour c1 at lo and c2 at hi. */
  datatype Segment = Segment(c1: seq<int>, c2: seq<int>, lo: real, hi: real)

  predicate WellFormed(chain: seq<Segment>) {
    forall k :: 0 <= k < |chain| ==> |chain[k].c1| == 3 && |chain[k].c2| == 3 && chain[k].lo < chain[k].hi
  }

  /** Segment k admits v: v lies below its top, or at it for the last segment. */
  predicate Admits(chain: seq<Segment>, k: nat, v: real)
    requires k < |chain|
  {
    if k == |chain| - 1 then v <= chain[k].hi else v < chain[k].hi
  }

  /** The colour of v on a chain of segments: interpolated on the first segment from k
      on that admits v; None when none does. */
  function ChainColor(chain: seq<Segment>, v: real, k: nat): (r: Option<seq<int>>)
    requires WellFormed(chain) && k <= |chain|
    ensures r.None? <==> forall j :: k <= j < |chain| ==> !Admits(chain, j, v)
    ensures r.Some? ==> exists j :: (k <= j < |chain| && Admits(chain, j, v)
              && r.value == Interpolated(chain[j].c1, chain[j].c2, v, chain[j].lo, chain[j].hi))
    decreases |chain| - k
  {
    if k == |chain| then None
    else if Admits(chain, k, v) then
      Some(Interpolated(chain[k].c1, chain[k].c2, v, chain[k].lo, chain[k].hi))
    else ChainColor(chain, v, k + 1)
  }

  /** The terrain chain as a table: each segment starts where the one before ends, with
      the colour the one before ends with. */
  const TerrainChain: seq<Segment> := [
    Segment(Water, ShallowWater, 0.0, 0.52),
    Segment(ShallowWater, Sand, 0.52, 0.597),
    Segment(Sand, Sand2, 0.597, 0.6),
    Segment(Sand2, Jungle, 0.6, 0.605),
    Segment(Jungle, Forest, 0.605, 0.78),
    Segment(Forest, Heights, 0.78, 0.85),
    Segment(Heights, Snow, 0.85, 1.0)
  ]

  /** The if/else chain of writeToBmp is the first-admitting-segment rule on the table,
      so it colours exactly the heights up to hsnow = 1. */
  lemma TerrainColorIsChain(v: real)
    ensures WellFormed(TerrainChain)
    ensures TerrainColor(v) == ChainColor(TerrainChain, v, 0)
    ensures TerrainColor(v).Some? <==> v <= 1.0
  {
    var t := TerrainChain;
    assert WellFormed(t);
    assert ChainColor(t, v, 6) == if v <= 1.0 then Some(Interpolated(Heights, Snow, v, 0.85, 1.0)) else None;
    assert ChainColor(t, v, 5) == if v < 0.85 then Some(Interpolated(Forest, Heights, v, 0.78, 0.85)) else ChainColor(t, v, 6);
    assert ChainColor(t, v, 4) == if v < 0.78 then Some(Interpolated(Jungle, Forest, v, 0.605, 0.78)) else ChainColor(t, v, 5);
    assert ChainColor(t, v, 3) == if v < 0.605 then Some(Interpolated(Sand2, Jungle, v, 0.6, 0.605)) else ChainColor(t, v, 4);
    assert ChainColor(t, v, 2) == if v < 0.6 then Some(Interpolated(Sand, Sand2, v, 0.597, 0.6)) else ChainColor(t, v, 3);
    assert ChainColor(t, v, 1) == if v < 0.597 then Some(Interpolated(ShallowWater, Sand, v, 0.52, 0.597)) else ChainColor(t, v, 2);
  }

  /** From hwater = 0 up to hsnow = 1 the colour has no jumps at the thresholds: each
      segment starts with the colour the one before ends with, and a height on a
      threshold takes that colour. */
  lemma TerrainColorAtThresholds()
    ensures WellFormed(TerrainChain)
    ensures forall k :: 0 < k < |TerrainChain| ==> TerrainChain[k].lo == TerrainChain[k - 1].hi
    ensures forall k :: 0 < k < |TerrainChain| ==> TerrainChain[k].c1 == TerrainChain[k - 1].c2
    ensures forall k :: 0 <= k < |TerrainChain| ==>
              TerrainColor(TerrainChain[k].lo) == Some(TerrainChain[k].c1)
    ensures TerrainColor(1.0) == Some(Snow)
  {
    assert WellFormed(TerrainChain);
  }

  /** The chain of writeToBmp: interpColor on the first band that admits v; found is
      false when no band does, and rgb is then left as it was. */
  method SelectColor(v: real, rgb: array<int>) returns (found: bool)
    requires rgb.Length == 3
    modifies rgb
    ensures found <==> TerrainColor(v).Some?
    ensures found ==> rgb[..] == TerrainColor(v).value
    ensures !found ==> unchanged(rgb)
  {
    found := true;
    if v < 0.52 {
      InterpColor(Water, ShallowWater, v, 0.0, 0.52, rgb);
    } else if v < 0.597 {
      InterpColor(ShallowWater, Sand, v, 0.52, 0.597, rgb);
    } else if v < 0.6 {
      InterpColor(Sand, Sand2, v, 0.597, 0.6, rgb);
    } else if v < 0.605 {
      InterpColor(Sand2, Jungle, v, 0.6, 0.605, rgb);
    } else if v < 0.78 {
      InterpColor(Jungle, Forest, v, 0.605, 0.78, rgb);
    } else if v < 0.85 {
      InterpColor(Forest, Heights, v, 0.78, 0.85, rgb);
    } else if v <= 1.0 {
      InterpColor(Heights, Snow, v, 0.85, 1.0, rgb);
    } else {
      found := false;
    }
  }

  // -------------------------------------------------------------- BMP layout

  /** Bytes of padding after each row of w pixels: (4 - 3w % 4) % 4. */
  function Padding(w: nat): (p: nat)
    ensures 0 <= p <= 3 && (3 * w + p) % 4 == 0
  {
    (4 - (w * 3) % 4) % 4
  }

  /** The length of a padded row: a multiple of 4. */
  function Stride(w: nat): (s: nat)
    ensures s % 4 == 0 && 3 * w <= s < 3 * w + 4
  {
    3 * w + Padding(w)
  }

  /** datasize = (3w + padding) h. */
  function DataSize(w: nat, h: nat): nat {
    Stride(w) * h
  }

  /** filesize = 54 + datasize: the two headers and the pixel data. */
  function FileSize(w: nat, h: nat): nat {
    54 + DataSize(w, h)
  }

  /** Where row y starts in the pixel data: after y padded rows. */
  function RowStart(w: nat, y: nat): (r: nat)
    ensures y > 0 ==> r >= Stride(w)
  {
    if y == 0 then 0 else RowStart(w, y - 1) + Stride(w)
  }

  /** Row y starts at y strides. */
  lemma {:induction false} RowStartIsProduct(w: nat, y: nat)
    ensures RowStart(w, y) == y * Stride(w)
  {
    if y > 0 {
      RowStartIsProduct(w, y - 1);
      assert y * Stride(w) == (y - 1) * Stride(w) + Stride(w);
    }
  }

  /** A later row starts at least one stride after an earlier one. */
  lemma {:induction false} RowStartOrder(w: nat, y: nat, y': nat)
    ensures y < y' ==> RowStart(w, y) + Stride(w) <= RowStart(w, y')
  {
    if y < y' - 1 {
      RowStartOrder(w, y, y' - 1);
    }
  }

  /** The h rows fill the pixel data exactly. */
  lemma RowsFillData(w: nat, h: nat)
    ensures RowStart(w, h) == DataSize(w, h)
  {
    RowStartIsProduct(w, h);
  }

  /** Two places inside rows give the same index only in the same row at the same
      place. */
  lemma RowDecomposition(w: nat, y: nat, r: nat, y': nat, r': nat)
    requires r < Stride(w) && r' < Stride(w)
    ensures RowStart(w, y) + r == RowStart(w, y') + r' ==> y == y' && r == r'
  {
    RowStartOrder(w, y, y');
    RowStartOrder(w, y', y);
  }

  /** The index in the pixel data of channel c of pixel (x, y), y counted from the
      bottom row of the image. */
  function Offset(w: nat, x: nat, y: nat, c: nat): (o: nat)
    ensures o >= 3 * x + c
  {
    RowStart(w, y) + 3 * x + c
  }

  /** The offset is the expression writeToBmp indexes img with. */
  lemma OffsetFormula(w: nat, x: nat, y: nat, c: nat)
    ensures Offset(w, x, y, c) == (x + y * w) * 3 + y * Padding(w) + c
  {
    RowStartIsProduct(w, y);
    assert y * Stride(w) == y * (3 * w) + y * Padding(w);
  }

  /** For x < w, y < h and c < 3 the offset lies in [0, datasize). */
  lemma OffsetInRange(w: nat, h: nat, x: nat, y: nat, c: nat)
    requires x < w && y < h && c < 3
    ensures Offset(w, x, y, c) < DataSize(w, h)
  {
    RowStartOrder(w, y, h);
    RowsFillData(w, h);
  }

  /** The padding bytes of the rows lie in [0, datasize) too. */
  lemma PaddingInRange(w: nat, h: nat, y: nat, p: nat)
    requires y < h && p < Padding(w)
    ensures PadOffset(w, y, p) < DataSize(w, h)
  {
    RowStartOrder(w, y, h);
    RowsFillData(w, h);
  }

  /** Distinct channels of distinct pixels never share a byte. */
  lemma OffsetInjective(w: nat, x: nat, y: nat, c: nat, x': nat, y': nat, c': nat)
    requires x < w && c < 3 && x' < w && c' < 3
    ensures Offset(w, x, y, c) == Offset(w, x', y', c') ==> x == x' && y == y' && c == c'
  {
    RowDecomposition(w, y, 3 * x + c, y', 3 * x' + c');
  }

  /** The bytes of two distinct pixels are apart. */
  lemma PixelsApart(w: nat, x: nat, y: nat, x': nat, y': nat)
    requires x < w && x' < w && (x, y) != (x', y')
    ensures forall c, c' :: 0 <= c < 3 && 0 <= c' < 3 ==> Offset(w, x, y, c) != Offset(w, x', y', c')
  {
    forall c, c' | 0 <= c < 3 && 0 <= c' < 3
      ensures Offset(w, x, y, c) != Offset(w, x', y', c')
    {
      OffsetInjective(w, x, y, c, x', y', c');
    }
  }

  /** The index in the pixel data of padding byte p at the end of row y. */
  function PadOffset(w: nat, y: nat, p: nat): nat {
    RowStart(w, y) + 3 * w + p
  }

  /** No pixel byte falls in the padding at the end of a row. */
  lemma PixelNotPadding(w: nat, x: nat, y: nat, c: nat, y': nat, p: nat)
    requires x < w && c < 3 && p < Padding(w)
    ensures Offset(w, x, y, c) != PadOffset(w, y', p)
  {
    RowDecomposition(w, y, 3 * x + c, y', 3 * w + p);
  }

  // ------------------------------------------------------------- headers

  /** (unsigned char) x: the low 8 bits, x mod 256. */
  function Byte(x: int): (b: int)
    ensures 0 <= b < 256
  {
    x % 256
  }

  /** The four bytes the header stores for v, low byte first: (unsigned char)(v >> 8k),
      the shift of a C int being floor division by 256, k times. */
  function LE32(v: int): (bs: seq<int>)
    ensures |bs| == 4
  {
    [Byte(v), Byte(v / 256), Byte(v / 256 / 256), Byte(v / 256 / 256 / 256)]
  }

  /** The value that four little-endian bytes stand for. */
  function DecodeLE32(bs: seq<int>): int
    requires |bs| == 4
  {
    bs[0] + 256 * (bs[1] + 256 * (bs[2] + 256 * bs[3]))
  }

  /** Decoding the four bytes of v gives back v for 0 <= v < 2^32. */
  lemma LE32RoundTrip(v: int)
    requires 0 <= v < 0x1_0000_0000
    ensures DecodeLE32(LE32(v)) == v
  {
    var q1 := v / 256;
    var q2 := q1 / 256;
    var q3 := q2 / 256;
    assert v == v % 256 + 256 * q1;
    assert q1 == q1 % 256 + 256 * q2;
    assert q2 == q2 % 256 + 256 * q3;
    assert q3 < 256;
  }

  /** s with the four bytes of v at positions at .. at+3. */
  function PutLE32(s: seq<int>, at: nat, v: int): (r: seq<int>)
    requires at + 4 <= |s|
    ensures |r| == |s| && r[at..at + 4] == LE32(v)
    ensures forall k :: 0 <= k < |s| && !(at <= k < at + 4) ==> r[k] == s[k]
  {
    s[..at] + LE32(v) + s[at + 4..]
  }

  /** The bytes writeToBmp initialises bmpfileheader with. */
  const FileHeaderInit: seq<int> := [66, 77, 0, 0, 0, 0, 0, 0, 0, 0, 54, 0, 0, 0]

  /** The bytes writeToBmp initialises bmpinfoheader with (the rest are 0). */
  const InfoHeaderInit: seq<int> := [40, 0, 0, 0, 0, 0, 0, 0, 0, 0, 0, 0, 1, 0, 24, 0,
     0, 0, 0, 0, 0, 0, 0, 0, 0, 0, 0, 0, 0, 0, 0, 0, 0, 0, 0, 0, 0, 0, 0, 0]

  /** BITMAPFILEHEADER once writeToBmp has filled in the file size. */
  function FileHeader(filesize: int): (hd: seq<int>)
    ensures |hd| == 14
  {
    PutLE32(FileHeaderInit, 2, filesize)
  }

  /** BITMAPINFOHEADER once writeToBmp has filled in width, height and data size. */
  function InfoHeader(w: int, h: int, datasize: int): (hd: seq<int>)
    ensures |hd| == 40
  {
    PutLE32(PutLE32(PutLE32(InfoHeaderInit, 4, w), 8, h), 20, datasize)
  }

  /** Writing four bytes at at leaves the four bytes at from alone when the two places
      do not overlap. */
  lemma PutLE32Elsewhere(s: seq<int>, at: nat, v: int, from: nat)
    requires at + 4 <= |s| && from + 4 <= |s| && (from + 4 <= at || at + 4 <= from)
    ensures PutLE32(s, at, v)[from..from + 4] == s[from..from + 4]
  {
  }

  /** The file header is 'B', 'M', the file size, two zero reserved words and the offset
      54 of the pixel data, each field decoding back to its value. */
  lemma FileHeaderFields(filesize: int)
    requires 0 <= filesize < 0x1_0000_0000
    ensures var fh := FileHeader(filesize);
            && fh[0] == 'B' as int && fh[1] == 'M' as int
            && DecodeLE32(fh[2..6]) == filesize
            && DecodeLE32(fh[6..10]) == 0
            && DecodeLE32(fh[10..14]) == 54
  {
    LE32RoundTrip(filesize);
    PutLE32Elsewhere(FileHeaderInit, 2, filesize, 6);
    PutLE32Elsewhere(FileHeaderInit, 2, filesize, 10);
    assert FileHeaderInit[6..10] == [0, 0, 0, 0];
    assert FileHeaderInit[10..14] == [54, 0, 0, 0];
  }

  /** The fixed fields of the initial info header: size 40, 1 plane, 24 bits per pixel
      and no compression. */
  lemma InfoHeaderInitFields()
    ensures InfoHeaderInit[0..4] == [40, 0, 0, 0]
    ensures InfoHeaderInit[12..16] == [1, 0, 24, 0]
    ensures InfoHeaderInit[16..20] == [0, 0, 0, 0]
  {
    assert InfoHeaderInit[0] == 40 && InfoHeaderInit[1] == 0 && InfoHeaderInit[2] == 0 && InfoHeaderInit[3] == 0;
    assert InfoHeaderInit[12] == 1 && InfoHeaderInit[13] == 0 && InfoHeaderInit[14] == 24 && InfoHeaderInit[15] == 0;
    assert InfoHeaderInit[16] == 0 && InfoHeaderInit[17] == 0 && InfoHeaderInit[18] == 0 && InfoHeaderInit[19] == 0;
  }

  /** Filling width, height and data size into any 40-byte header whose fixed fields are
      those of the initial one leaves those fields and decodes back to the three sizes. */
  lemma InfoFieldsOver(base: seq<int>, w: int, h: int, datasize: int)
    requires |base| == 40
    requires base[0..4] == [40, 0, 0, 0] && base[12..16] == [1, 0, 24, 0] && base[16..20] == [0, 0, 0, 0]
    requires 0 <= w < 0x1_0000_0000 && 0 <= h < 0x1_0000_0000 && 0 <= datasize < 0x1_0000_0000
    ensures var ih := PutLE32(PutLE32(PutLE32(base, 4, w), 8, h), 20, datasize);
            && DecodeLE32(ih[0..4]) == 40
            && DecodeLE32(ih[4..8]) == w
            && DecodeLE32(ih[8..12]) == h
            && ih[12] + 256 * ih[13] == 1
            && ih[14] + 256 * ih[15] == 24
            && DecodeLE32(ih[16..20]) == 0
            && DecodeLE32(ih[20..24]) == datasize
  {
    var i1 := PutLE32(base, 4, w);
    var i2 := PutLE32(i1, 8, h);
    LE32RoundTrip(w);
    LE32RoundTrip(h);
    LE32RoundTrip(datasize);
    PutLE32Elsewhere(base, 4, w, 0);
    PutLE32Elsewhere(i1, 8, h, 0);
    PutLE32Elsewhere(i2, 20, datasize, 0);
    PutLE32Elsewhere(i1, 8, h, 4);
    PutLE32Elsewhere(i2, 20, datasize, 4);
    PutLE32Elsewhere(i2, 20, datasize, 8);
    PutLE32Elsewhere(base, 4, w, 12);
    PutLE32Elsewhere(i1, 8, h, 12);
    PutLE32Elsewhere(i2, 20, datasize, 12);
    PutLE32Elsewhere(base, 4, w, 16);
    PutLE32Elsewhere(i1, 8, h, 16);
    PutLE32Elsewhere(i2, 20, datasize, 16);
  }

  /** The info header is its size 40, width, height, 1 plane, 24 bits per pixel, no
      compression and the data size, each size decoding back to its value. */
  lemma InfoHeaderFields(w: int, h: int, datasize: int)
    requires 0 <= w < 0x1_0000_0000 && 0 <= h < 0x1_0000_0000 && 0 <= datasize < 0x1_0000_0000
    ensures var ih := InfoHeader(w, h, datasize);
            && DecodeLE32(ih[0..4]) == 40
            && DecodeLE32(ih[4..8]) == w
            && DecodeLE32(ih[8..12]) == h
            && ih[12] + 256 * ih[13] == 1
            && ih[14] + 256 * ih[15] == 24
            && DecodeLE32(ih[16..20]) == 0
            && DecodeLE32(ih[20..24]) == datasize
  {
    InfoHeaderInitFields();
    InfoFieldsOver(InfoHeaderInit, w, h, datasize);
  }

  /** Stores the four bytes of v at a[at .. at+3], low byte first. */
  method StoreLE32(a: array<int>, at: nat, v: int)
    requires at + 4 <= a.Length
    modifies a
    ensures a[..] == PutLE32(old(a[..]), at, v)
  {
    a[at], a[at + 1], a[at + 2], a[at + 3] :=
      Byte(v), Byte(v / 256), Byte(v / 256 / 256), Byte(v / 256 / 256 / 256);
    assert a[at..at + 4] == LE32(v);
  }

  /** A fresh array initialised with the bytes of init, as a C array initialiser does. */
  method NewBytes(init: seq<int>) returns (a: array<int>)
    ensures fresh(a) && a[..] == init
  {
    a := new int[|init|](i requires 0 <= i < |init| => init[i]);
  }

  /** Stores width, height and data size into an info header. */
  method StoreSizes(a: array<int>, w: int, h: int, datasize: int)
    requires a.Length == 40
    modifies a
    ensures a[..] == PutLE32(PutLE32(PutLE32(old(a[..]), 4, w), 8, h), 20, datasize)
  {
    StoreLE32(a, 4, w);
    StoreLE32(a, 8, h);
    StoreLE32(a, 20, datasize);
  }

  /** writeToBmp's two header arrays: the initialised bytes, then the size fields
      filled in byte by byte. */
  method BuildHeaders(w: nat, h: nat) returns (fileHeader: array<int>, infoHeader: array<int>)
    ensures fresh(fileHeader) && fresh(infoHeader)
    ensures fileHeader[..] == FileHeader(FileSize(w, h))
    ensures infoHeader[..] == InfoHeader(w, h, DataSize(w, h))
  {
    var datasize := DataSize(w, h);
    var filesize := 54 + datasize;
    fileHeader := NewBytes(FileHeaderInit);
    StoreLE32(fileHeader, 2, filesize);
    infoHeader := NewBytes(InfoHeaderInit);
    StoreSizes(infoHeader, w, h, datasize);
  }

  // ------------------------------------------------------------- pixel data

  /** The three bytes of pixel (x, y) hold rgb in B, G, R order. */
  ghost predicate PixelBytes(img: array<int>, w: nat, h: nat, x: nat, y: nat, rgb: seq<int>)
    reads img
    requires |rgb| == 3 && x < w && y < h && img.Length == DataSize(w, h)
  {
    OffsetInRange(w, h, x, y, 0);
    OffsetInRange(w, h, x, y, 1);
    OffsetInRange(w, h, x, y, 2);
    && img[Offset(w, x, y, 2)] == Byte(rgb[0])
    && img[Offset(w, x, y, 1)] == Byte(rgb[1])
    && img[Offset(w, x, y, 0)] == Byte(rgb[2])
  }

  /** Writes the three bytes of pixel (x, y) and nothing else. */
  method PutPixel(img: array<int>, w: nat, h: nat, x: nat, y: nat, rgb: seq<int>)
    requires |rgb| == 3 && x < w && y < h && img.Length == DataSize(w, h)
    modifies img
    ensures PixelBytes(img, w, h, x, y, rgb)
    ensures forall k :: 0 <= k < img.Length && k != Offset(w, x, y, 0) && k != Offset(w, x, y, 1) && k != Offset(w, x, y, 2)
              ==> img[k] == old(img[k])
  {
    OffsetInRange(w, h, x, y, 0);
    OffsetInRange(w, h, x, y, 1);
    OffsetInRange(w, h, x, y, 2);
    img[Offset(w, x, y, 2)] := Byte(rgb[0]);
    img[Offset(w, x, y, 1)] := Byte(rgb[1]);
    img[Offset(w, x, y, 0)] := Byte(rgb[2]);
  }

  /** PutPixel seen pixel by pixel: (x, y) gets rgb, every other pixel and the padding
      keep their bytes. */
  method PlacePixel(img: array<int>, w: nat, h: nat, x: nat, y: nat, rgb: seq<int>)
    requires |rgb| == 3 && x < w && y < h && img.Length == DataSize(w, h)
    modifies img
    ensures PixelBytes(img, w, h, x, y, rgb)
    ensures forall x', y', c :: 0 <= x' < w && 0 <= y' < h && (x', y') != (x, y) && |c| == 3
              ==> (old(PixelBytes(img, w, h, x', y', c)) ==> PixelBytes(img, w, h, x', y', c))
    ensures old(PaddingClear(img, w, h)) ==> PaddingClear(img, w, h)
  {
    PutPixel(img, w, h, x, y, rgb);
    forall x', y', c | 0 <= x' < w && 0 <= y' < h && (x', y') != (x, y) && |c| == 3
      ensures old(PixelBytes(img, w, h, x', y', c)) ==> PixelBytes(img, w, h, x', y', c)
    {
      PixelsApart(w, x', y', x, y);
      OffsetInRange(w, h, x', y', 0);
      OffsetInRange(w, h, x', y', 1);
      OffsetInRange(w, h, x', y', 2);
      assert img[Offset(w, x', y', 0)] == old(img[Offset(w, x', y', 0)]);
      assert img[Offset(w, x', y', 1)] == old(img[Offset(w, x', y', 1)]);
      assert img[Offset(w, x', y', 2)] == old(img[Offset(w, x', y', 2)]);
    }
    if old(PaddingClear(img, w, h)) {
      forall y', p | 0 <= y' < h && 0 <= p < Padding(w)
        ensures PadOffset(w, y', p) < img.Length && img[PadOffset(w, y', p)] == 0
      {
        PaddingInRange(w, h, y', p);
        assert old(img[PadOffset(w, y', p)]) == 0;
        PixelNotPadding(w, x, y, 0, y', p);
        PixelNotPadding(w, x, y, 1, y', p);
        PixelNotPadding(w, x, y, 2, y', p);
      }
    }
  }

  /** Pixel (x, y) holds colour c, when there is one. */
  ghost predicate PaintedWith(img: array<int>, w: nat, h: nat, x: nat, y: nat, c: Option<seq<int>>)
    reads img
    requires x < w && y < h && img.Length == DataSize(w, h)
  {
    c.Some? ==> |c.value| == 3 && PixelBytes(img, w, h, x, y, c.value)
  }

  /** Pixel (x, j) of the terrain, in the colour the chain gives it if any, is in img at
      row n - 1 - j from the bottom. */
  ghost predicate Painted(img: array<int>, terrain: array2<real>, x: nat, j: nat)
    reads img, terrain
    requires x < terrain.Length0 == terrain.Length1 && j < terrain.Length1
    requires img.Length == DataSize(terrain.Length0, terrain.Length1)
  {
    var n := terrain.Length0;
    PaintedWith(img, n, n, x, n - 1 - j, TerrainColor(terrain[j, x]))
  }

  /** The padding bytes of img are 0. */
  ghost predicate PaddingClear(img: array<int>, w: nat, h: nat)
    reads img
    requires img.Length == DataSize(w, h)
  {
    forall y, p :: 0 <= y < h && 0 <= p < Padding(w) ==>
      (PaddingInRange(w, h, y, p); img[PadOffset(w, y, p)] == 0)
  }

  /** An image of zeroes, as calloc returns it, has clear padding. */
  lemma ZeroPaddingClear(img: array<int>, w: nat, h: nat)
    requires img.Length == DataSize(w, h)
    requires forall k :: 0 <= k < img.Length ==> img[k] == 0
    ensures PaddingClear(img, w, h)
  {
    forall y, p | 0 <= y < h && 0 <= p < Padding(w)
      ensures PadOffset(w, y, p) < img.Length && img[PadOffset(w, y, p)] == 0
    {
      PaddingInRange(w, h, y, p);
    }
  }

  /** One step of writeToBmp's pixel loop: the colour of terrain[j][i], written to its
      bytes when the chain gives one; every other pixel and the padding are left as
      they were. */
  method FillPixel(terrain: array2<real>, img: array<int>, i: nat, j: nat)
    requires i < terrain.Length0 == terrain.Length1 && j < terrain.Length1
    requires img.Length == DataSize(terrain.Length0, terrain.Length1)
    requires PaddingClear(img, terrain.Length0, terrain.Length1)
    modifies img
    ensures Painted(img, terrain, i, j)
    ensures PaddingClear(img, terrain.Length0, terrain.Length1)
    ensures forall x, y, c :: 0 <= x < terrain.Length0 && 0 <= y < terrain.Length1
              && (x, y) != (i, terrain.Length0 - 1 - j) && |c| == 3
              ==> (old(PixelBytes(img, terrain.Length0, terrain.Length1, x, y, c))
              ==> PixelBytes(img, terrain.Length0, terrain.Length1, x, y, c))
  {
    var n := terrain.Length0;
    var rgb := new int[3];
    var found := SelectColor(terrain[j, i], rgb);
    if found {
      PlacePixel(img, n, n, i, n - 1 - j, rgb[..]);
    }
  }

  /** writeToBmp's pixel loop over an S x S terrain: every coloured height lands, as B, G,
      R bytes, in its row counted from the bottom; the padding stays as calloc left it. */
  method FillImage(terrain: array2<real>) returns (img: array<int>)
    requires terrain.Length0 == terrain.Length1
    ensures fresh(img) && img.Length == DataSize(terrain.Length0, terrain.Length1)
    ensures forall x, j :: 0 <= x < terrain.Length0 && 0 <= j < terrain.Length1 ==> Painted(img, terrain, x, j)
    ensures PaddingClear(img, terrain.Length0, terrain.Length1)
  {
    var w, h := terrain.Length0, terrain.Length1;
    img := new int[DataSize(w, h)](_ => 0);
    ZeroPaddingClear(img, w, h);
    for i := 0 to w
      invariant forall x, j :: 0 <= x < i && 0 <= j < h ==> Painted(img, terrain, x, j)
      invariant PaddingClear(img, w, h)
    {
      for j := 0 to h
        invariant forall x, j' :: 0 <= x < i && 0 <= j' < h ==> Painted(img, terrain, x, j')
        invariant forall j' :: 0 <= j' < j ==> Painted(img, terrain, i, j')
        invariant PaddingClear(img, w, h)
      {
        label before:
        FillPixel(terrain, img, i, j);
        forall x, j' | 0 <= x < w && 0 <= j' < h && (x, j') != (i, j)
          ensures old@before(Painted(img, terrain, x, j')) ==> Painted(img, terrain, x, j')
        {
          assert (x, w - 1 - j') != (i, w - 1 - j);
        }
      }
    }
  }

  /** After the corrected normalisation of a non-flat terrain g, every entry of a lies in
      [0, 1]. */
  lemma NormalizedArrayInUnit(a: array2<real>, g: seq<seq<real>>)
    requires |g| == a.Length0 && forall i :: 0 <= i < |g| ==> |g[i]| == a.Length1
    requires ScanRows(g, |g|, false).lo != ScanRows(g, |g|, false).hi
    requires var e := ScanRows(g, |g|, false);
             forall i, j :: 0 <= i < a.Length0 && 0 <= j < a.Length1 ==>
               a[i, j] == (g[i][j] - e.lo) / (e.hi - e.lo)
    ensures forall i, j :: 0 <= i < a.Length0 && 0 <= j < a.Length1 ==> 0.0 <= a[i, j] <= 1.0
  {
    forall i, j | 0 <= i < a.Length0 && 0 <= j < a.Length1
      ensures 0.0 <= a[i, j] <= 1.0
    {
      ScanRowsBounds(g, |g|, false);
      NormalizedInUnit(g, i, j);
    }
  }

  /** writeToBmp's call of the corrected normalizeArray: the terrain is rescaled in place
      and every height then lies in [0, 1]; a flat terrain is left alone. */
  method NormalizeTerrain(terrain: array2<real>) returns (ok: bool)
    requires terrain.Length0 == terrain.Length1
    modifies terrain
    ensures var e := ScanRows(old(Rows(terrain)), terrain.Length0, false);
            && (ok <==> e.hi != e.lo)
            && (ok ==> forall i, j :: 0 <= i < terrain.Length0 && 0 <= j < terrain.Length1 ==>
                         terrain[i, j] == (old(terrain[i, j]) - e.lo) / (e.hi - e.lo))
            && (!ok ==> unchanged(terrain))
    ensures ok ==> forall i, j :: 0 <= i < terrain.Length0 && 0 <= j < terrain.Length1 ==>
                     0.0 <= terrain[i, j] <= 1.0
  {
    ok := NormalizeArray(terrain);
    if ok {
      NormalizedArrayInUnit(terrain, old(Rows(terrain)));
    }
  }

  /** writeToBmp without the file writes: normalise the terrain (with the corrected
      normalizeArray), then build the pixel data and the two headers. ok is false when
      the terrain is flat and normalisation would divide by 0; the terrain is then left
      alone. When ok, every height lies in [0, 1], so the colour chain colours every
      pixel. */
  method WriteToBmp(terrain: array2<real>)
      returns (ok: bool, fileHeader: array<int>, infoHeader: array<int>, img: array<int>)
    requires terrain.Length0 == terrain.Length1
    modifies terrain
    ensures ok <==> ScanRows(old(Rows(terrain)), terrain.Length0, false).lo
                    != ScanRows(old(Rows(terrain)), terrain.Length0, false).hi
    ensures var e := ScanRows(old(Rows(terrain)), terrain.Length0, false);
            ok ==> forall i, j :: 0 <= i < terrain.Length0 && 0 <= j < terrain.Length1 ==>
                     terrain[i, j] == (old(terrain[i, j]) - e.lo) / (e.hi - e.lo)
    ensures !ok ==> unchanged(terrain)
    ensures ok ==> forall i, j :: 0 <= i < terrain.Length0 && 0 <= j < terrain.Length1 ==>
                     0.0 <= terrain[i, j] <= 1.0 && TerrainColor(terrain[i, j]).Some?
    ensures fresh(fileHeader) && fresh(infoHeader) && fresh(img)
    ensures fileHeader[..] == FileHeader(FileSize(terrain.Length0, terrain.Length1))
    ensures infoHeader[..] == InfoHeader(terrain.Length0, terrain.Length1, DataSize(terrain.Length0, terrain.Length1))
    ensures img.Length == DataSize(terrain.Length0, terrain.Length1)
    ensures forall x, j :: 0 <= x < terrain.Length0 && 0 <= j < terrain.Length1 ==> Painted(img, terrain, x, j)
    ensures PaddingClear(img, terrain.Length0, terrain.Length1)
  {
    ok := NormalizeTerrain(terrain);
    img := FillImage(terrain);
    fileHeader, infoHeader := BuildHeaders(terrain.Length0, terrain.Length1);
  }
}
