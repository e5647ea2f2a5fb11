/** numpygen/colorscale.py: a colour scale is a list of height bands, each with two
    end colours; a height is coloured by the first band that holds it, interpolating
    between the band's colours. */
module ColorScales {
  import opened Wrappers

  /** An (r, g, b) colour of the tables, in integers. */
  type Color = (int, int, int)

  /** A colour computed by interpolation, before any truncation. */
  type Rgb = (real, real, real)

  /** One entry of the list given to ColorScale: [name, c1, c2, maxval], or
      [c1, c2, maxval] with no name. */
  datatype BandSpec = BandSpec(name: Option<string>, c1: Color, c2: Color, maxval: real)

  /** The entry [c1, c2, m, M, delta] that __init__ leaves in self.colors. */
  datatype Band = Band(c1: Color, c2: Color, m: real, M: real, delta: real)

  /** `if name:` in __init__: None and the empty string are not stored. */
  predicate Named(s: BandSpec) {
    s.name.Some? && s.name.value != ""
  }

  function ToRgb(c: Color): Rgb {
    (c.0 as real, c.1 as real, c.2 as real)
  }

  // ----------------------------------------------------------------- construction

  /** Band i of ColorScale(specs, minval): it starts where band i-1 ends (at minval
      for band 0) and ends at its own maxval. */
  function BandOf(specs: seq<BandSpec>, minval: real, i: nat): (b: Band)
    requires i < |specs|
  {
    var lo := if i == 0 then minval else specs[i - 1].maxval;
    Band(specs[i].c1, specs[i].c2, lo, specs[i].maxval, specs[i].maxval - lo)
  }

  /** The bands are chained: band 0 starts at minval, every later band starts where
      the band before it ends, and delta is the width of the band. */
  predicate Chained(bands: seq<Band>, minval: real) {
    && (|bands| > 0 ==> bands[0].m == minval)
    && (forall i :: 0 < i < |bands| ==> bands[i].m == bands[i - 1].M)
    && (forall i :: 0 <= i < |bands| ==> bands[i].delta == bands[i].M - bands[i].m)
  }

  /** The index of the last band among the first k whose spec carries the name nm,
      or -1. */
  function LastNamed(specs: seq<BandSpec>, nm: string, k: nat): (r: int)
    requires k <= |specs|
    ensures -1 <= r < k
    ensures r >= 0 ==> Named(specs[r]) && specs[r].name.value == nm
    ensures r >= 0 ==> forall j :: r < j < k ==> !(Named(specs[j]) && specs[j].name.value == nm)
    ensures r < 0 ==> forall j :: 0 <= j < k ==> !(Named(specs[j]) && specs[j].name.value == nm)
  {
    if k == 0 then -1
    else if Named(specs[k - 1]) && specs[k - 1].name.value == nm then k - 1
    else LastNamed(specs, nm, k - 1)
  }

  /** self.materials after the first k passes of __init__'s loop. */
  function MaterialsUpTo(specs: seq<BandSpec>, minval: real, k: nat): map<string, Band>
    requires k <= |specs|
  {
    if k == 0 then map[]
    else
      var mats := MaterialsUpTo(specs, minval, k - 1);
      if Named(specs[k - 1]) then mats[specs[k - 1].name.value := BandOf(specs, minval, k - 1)]
      else mats
  }

  /** The keys of self.materials in the order the dict iterates them: insertion order,
      where assigning an existing key keeps its place. */
  function OrderUpTo(specs: seq<BandSpec>, minval: real, k: nat): seq<string>
    requires k <= |specs|
  {
    if k == 0 then []
    else
      var order := OrderUpTo(specs, minval, k - 1);
      if Named(specs[k - 1]) && specs[k - 1].name.value !in MaterialsUpTo(specs, minval, k - 1)
      then order + [specs[k - 1].name.value]
      else order
  }

  /** materials[nm] is the band of the LAST spec named nm: a later band of the same
      name replaces an earlier one. */
  lemma {:induction false} MaterialIsLastNamedBand(specs: seq<BandSpec>, minval: real, k: nat, nm: string)
    requires k <= |specs|
    ensures nm in MaterialsUpTo(specs, minval, k) <==> LastNamed(specs, nm, k) >= 0
    ensures nm in MaterialsUpTo(specs, minval, k) ==>
              MaterialsUpTo(specs, minval, k)[nm] == BandOf(specs, minval, LastNamed(specs, nm, k))
  {
    if k > 0 {
      MaterialIsLastNamedBand(specs, minval, k - 1, nm);
    }
  }

  /** The iteration order lists every key of materials once. */
  lemma {:induction false} OrderIsKeys(specs: seq<BandSpec>, minval: real, k: nat)
    requires k <= |specs|
    ensures forall nm :: nm in OrderUpTo(specs, minval, k) <==> nm in MaterialsUpTo(specs, minval, k)
    ensures var order := OrderUpTo(specs, minval, k);
            forall a, b :: 0 <= a < b < |order| ==> order[a] != order[b]
  {
    if k > 0 {
      OrderIsKeys(specs, minval, k - 1);
      if Named(specs[k - 1]) {
        var nm := specs[k - 1].name.value;
        assert nm !in MaterialsUpTo(specs, minval, k - 1) ==> nm !in OrderUpTo(specs, minval, k - 1);
      }
    }
  }

  // ---------------------------------------------------------------------- searches

  /** The index of the first of the first k bands that holds v (m <= v < M), or -1. */
  function FirstContaining(bands: seq<Band>, v: real, k: nat): (r: int)
    requires k <= |bands|
    ensures -1 <= r < k
    ensures r >= 0 ==> bands[r].m <= v < bands[r].M
    ensures r >= 0 ==> forall j :: 0 <= j < r ==> !(bands[j].m <= v < bands[j].M)
    ensures r < 0 ==> forall j :: 0 <= j < k ==> !(bands[j].m <= v < bands[j].M)
  {
    if k == 0 then -1
    else
      var r := FirstContaining(bands, v, k - 1);
      if r >= 0 then r
      else if bands[k - 1].m <= v < bands[k - 1].M then k - 1
      else -1
  }

  /** The index of the first of the first k bands whose top lies above v (v < M), or -1:
      the band that `get` paints a value with. */
  function FirstBelow(bands: seq<Band>, v: real, k: nat): (r: int)
    requires k <= |bands|
    ensures -1 <= r < k
    ensures r >= 0 ==> v < bands[r].M && forall j :: 0 <= j < r ==> bands[j].M <= v
    ensures r < 0 ==> forall j :: 0 <= j < k ==> bands[j].M <= v
  {
    if k == 0 then -1
    else
      var r := FirstBelow(bands, v, k - 1);
      if r >= 0 then r
      else if v < bands[k - 1].M then k - 1
      else -1
  }

  /** On chained bands the two searches agree from minval on: the first band whose top
      lies above v also holds v. */
  lemma {:induction false} FirstBelowIsFirstContaining(bands: seq<Band>, minval: real, v: real, k: nat)
    requires Chained(bands, minval) && minval <= v && k <= |bands|
    ensures FirstBelow(bands, v, k) == FirstContaining(bands, v, k)
  {
    if k > 0 {
      FirstBelowIsFirstContaining(bands, minval, v, k - 1);
      if k >= 2 && FirstBelow(bands, v, k - 1) < 0 {
        assert bands[k - 2].M <= v;
      }
    }
  }

  /** The band named nm in mats holds v. */
  predicate Holds(mats: map<string, Band>, nm: string, v: real) {
    nm in mats && mats[nm].m <= v < mats[nm].M
  }

  /** The first entry of `order` whose band in `mats` holds v, as get_material_from_h
      finds it; None (the implicit return) when there is none. */
  function MaterialSearch(order: seq<string>, mats: map<string, Band>, v: real): (r: Option<string>)
    ensures r.Some? ==> r.value in order && r.value in mats
                        && mats[r.value].m <= v < mats[r.value].M
    ensures r.Some? ==> exists i :: 0 <= i < |order| && order[i] == r.value
                          && forall j :: 0 <= j < i ==> !Holds(mats, order[j], v)
    ensures r.None? ==> forall nm :: nm in order && nm in mats ==> !(mats[nm].m <= v < mats[nm].M)
  {
    if |order| == 0 then None
    else if Holds(mats, order[0], v) then Some(order[0])
    else
      var r := MaterialSearch(order[1..], mats, v);
      if r.Some? then
        var i :| 0 <= i < |order[1..]| && order[1..][i] == r.value
                 && forall j :: 0 <= j < i ==> !Holds(mats, order[1..][j], v);
        assert order[i + 1] == r.value;
        assert forall j :: 0 <= j < i + 1 ==> !Holds(mats, order[j], v) by {
          forall j | 0 <= j < i + 1 ensures !Holds(mats, order[j], v) {
            if j > 0 { assert order[j] == order[1..][j - 1]; }
          }
        }
        r
      else r
  }

  // ------------------------------------------------------------------- colouring

  /** c1 + t (c2 - c1), one component. */
  function Mix(a: int, b: int, t: real): real {
    a as real + t * (b - a) as real
  }

  /** The colour of band b at height v: c1 + (v - m) / delta (c2 - c1) component-wise,
      and c1 itself when delta is 0. */
  function Interp(b: Band, v: real): (r: Rgb)
    ensures b.delta == 0.0 || v == b.m ==> r == ToRgb(b.c1)
    ensures b.delta != 0.0 && v == b.m + b.delta ==> r == ToRgb(b.c2)
  {
    if b.delta != 0.0 then
      var t := (v - b.m) / b.delta;
      assert v == b.m ==> t == 0.0;
      assert v == b.m + b.delta ==> t == 1.0 by {
        if v == b.m + b.delta {
          assert v - b.m == b.delta;
          SelfRatio(b.delta);
        }
      }
      (Mix(b.c1.0, b.c2.0, t), Mix(b.c1.1, b.c2.1, t), Mix(b.c1.2, b.c2.2, t))
    else ToRgb(b.c1)
  }

  lemma SelfRatio(d: real)
    requires d != 0.0
    ensures d / d == 1.0
  {
  }

  /** A float converted to int, as numpy's astype and C's conversion do it: truncation
      toward zero. */
  function Trunc(x: real): (r: int)
    ensures x >= 0.0 ==> r >= 0 && r as real <= x < r as real + 1.0
    ensures x < 0.0 ==> r <= 0 && r as real - 1.0 < x <= r as real
  {
    if x >= 0.0 then x.Floor else -((-x).Floor)
  }

  function TruncRgb(c: Rgb): Color {
    (Trunc(c.0), Trunc(c.1), Trunc(c.2))
  }

  /** The pixel `get` leaves for value v after painting with the first k bands: the
      truncated colour of the first of them whose top lies above v, or (0, 0, 0). */
  function PaintedAfter(bands: seq<Band>, v: real, k: nat): Color
    requires k <= |bands|
  {
    var r := FirstBelow(bands, v, k);
    if r < 0 then (0, 0, 0) else TruncRgb(Interp(bands[r], v))
  }

  /** The colour get_color_from_h returns: that of the first band holding v, else the
      end colour of the last band; on an empty scale self.colors[-1] raises. */
  function ColorFromH(bands: seq<Band>, v: real): (r: Option<Rgb>)
    ensures r.None? <==> |bands| == 0
    ensures FirstContaining(bands, v, |bands|) >= 0 ==>
              r == Some(Interp(bands[FirstContaining(bands, v, |bands|)], v))
    ensures |bands| > 0 && FirstContaining(bands, v, |bands|) < 0 ==>
              r == Some(ToRgb(bands[|bands| - 1].c2))
  {
    ColorSearch(bands, v, 0)
  }

  /** The loop of get_color_from_h from band i on. */
  function ColorSearch(bands: seq<Band>, v: real, i: nat): (r: Option<Rgb>)
    requires i <= |bands|
    requires forall j :: 0 <= j < i ==> !(bands[j].m <= v < bands[j].M)
    ensures r.None? <==> |bands| == 0
    ensures FirstContaining(bands, v, |bands|) >= 0 ==>
              r == Some(Interp(bands[FirstContaining(bands, v, |bands|)], v))
    ensures |bands| > 0 && FirstContaining(bands, v, |bands|) < 0 ==>
              r == Some(ToRgb(bands[|bands| - 1].c2))
    decreases |bands| - i
  {
    if i == |bands| then
      if |bands| == 0 then None else Some(ToRgb(bands[|bands| - 1].c2))
    else if bands[i].m <= v < bands[i].M then Some(Interp(bands[i], v))
    else ColorSearch(bands, v, i + 1)
  }

  /** The commented-out alternative of get_color_from_h, get(ones((1,1)) * h)[0,0]: on a
      chained scale and from minval up to the top of the last band, `get` paints a value
      with get_color_from_h's colour, truncated. */
  lemma PaintedIsColorFromH(bands: seq<Band>, minval: real, v: real)
    requires Chained(bands, minval) && |bands| > 0 && minval <= v < bands[|bands| - 1].M
    ensures ColorFromH(bands, v).Some?
    ensures PaintedAfter(bands, v, |bands|) == TruncRgb(ColorFromH(bands, v).value)
  {
    FirstBelowIsFirstContaining(bands, minval, v, |bands|);
  }

  /** The bands of CONTOUR_LINES-style scales: np.linspace(0, 1.000001, n)[1:], the n-1
      thresholds k * 1.000001 / (n-1); linspace raises on a negative n. */
  function ContourThresholds(n: int): (vs: Option<seq<real>>)
    ensures vs.None? <==> n < 0
    ensures vs.Some? ==> |vs.value| == if n >= 2 then n - 1 else 0
    ensures vs.Some? ==> forall a, b :: 0 <= a < b < |vs.value| ==> 0.0 < vs.value[a] < vs.value[b]
    ensures vs.Some? && n >= 2 ==> vs.value[n - 2] == 1.000001
  {
    if n < 0 then None
    else if n < 2 then Some([])
    else
      var step := 1.000001 / (n - 1) as real;
      Some(seq(n - 1, k requires 0 <= k < n - 1 => (k + 1) as real * step))
  }

  /** The specs get_contour_colorscale passes to ColorScale: [c1, c2, v] per threshold. */
  function ContourSpecs(c1: Color, c2: Color, vs: seq<real>): (specs: seq<BandSpec>)
    ensures |specs| == |vs|
    ensures forall k :: 0 <= k < |vs| ==> specs[k] == BandSpec(None, c1, c2, vs[k])
  {
    seq(|vs|, k requires 0 <= k < |vs| => BandSpec(None, c1, c2, vs[k]))
  }

  /** A contour scale has n-1 unnamed bands, the first starting at 0, each ending
      strictly above where it starts, the last ending at 1.000001. */
  lemma ContourBands(c1: Color, c2: Color, n: int)
    requires n >= 2
    ensures var specs := ContourSpecs(c1, c2, ContourThresholds(n).value);
            && |specs| == n - 1
            && BandOf(specs, 0.0, 0).m == 0.0
            && BandOf(specs, 0.0, n - 2).M == 1.000001
            && forall i :: 0 <= i < n - 1 ==>
                 !Named(specs[i]) && BandOf(specs, 0.0, i).m < BandOf(specs, 0.0, i).M
  {
    var vs := ContourThresholds(n).value;
    var specs := ContourSpecs(c1, c2, vs);
    forall i | 0 <= i < n - 1
      ensures BandOf(specs, 0.0, i).m < BandOf(specs, 0.0, i).M
    {
      if i > 0 {
        assert BandOf(specs, 0.0, i).m == vs[i - 1];
      }
    }
  }

  // ------------------------------------------------------------------ the object

  /** A ColorScale object: self.colors and self.materials, with the specs and the
      minval it was built from kept as ghost state. */
  class ColorScale {
    var colors: seq<Band>
    var materials: map<string, Band>
    var materialOrder: seq<string>  // the iteration order of the materials dict
    ghost var specs: seq<BandSpec>
    ghost var minval: real

    ghost predicate Valid()
      reads this
    {
      && |colors| == |specs|
      && (forall i :: 0 <= i < |specs| ==> colors[i] == BandOf(specs, minval, i))
      && materials == MaterialsUpTo(specs, minval, |specs|)
      && materialOrder == OrderUpTo(specs, minval, |specs|)
    }

    /** ColorScale.__init__: rewrites each spec into [c1, c2, minval, maxval, delta],
        minval being the previous band's maxval, and records every named band. */
    constructor (specs: seq<BandSpec>, minval: real)
      ensures Valid() && this.specs == specs && this.minval == minval
      ensures Chained(colors, minval)
    {
      var cols: seq<Band> := [];
      var mats: map<string, Band> := map[];
      var order: seq<string> := [];
      for i := 0 to |specs|
        invariant |cols| == i
        invariant forall j :: 0 <= j < i ==> cols[j] == BandOf(specs, minval, j)
        invariant mats == MaterialsUpTo(specs, minval, i)
        invariant order == OrderUpTo(specs, minval, i)
      {
        var lo := if i > 0 then cols[i - 1].M else minval;
        var band := Band(specs[i].c1, specs[i].c2, lo, specs[i].maxval, specs[i].maxval - lo);
        cols := cols + [band];
        if Named(specs[i]) {
          var nm := specs[i].name.value;
          if nm !in mats {
            order := order + [nm];
          }
          mats := mats[nm := band];
        }
      }
      colors, materials, materialOrder := cols, mats, order;
      this.specs, this.minval := specs, minval;
    }

    /** get_color_from_h. */
    function GetColorFromH(h: real): (r: Option<Rgb>)
      reads this
    {
      ColorFromH(colors, h)
    }

    /** get_color_index_from_h: the index of the first band holding h, or -1. */
    method GetColorIndexFromH(h: real) returns (i: int)
      ensures i == FirstContaining(colors, h, |colors|)
      ensures i >= 0 ==> i < |colors| && colors[i].m <= h < colors[i].M
    {
      i := 0;
      while i < |colors|
        invariant 0 <= i <= |colors|
        invariant forall j :: 0 <= j < i ==> !(colors[j].m <= h < colors[j].M)
      {
        if colors[i].m <= h < colors[i].M {
          return;
        }
        i := i + 1;
      }
      i := -1;
    }

    /** get_material_from_h: a named band holding h, the first in the dict's order;
        None when no named band holds it. */
    function GetMaterialFromH(h: real): (r: Option<string>)
      reads this
      requires Valid()
      ensures r.Some? ==> r.value in materials && materials[r.value].m <= h < materials[r.value].M
      ensures r.Some? ==> exists i :: 0 <= i < |materialOrder| && materialOrder[i] == r.value
                            && forall j :: 0 <= j < i ==> !Holds(materials, materialOrder[j], h)
      ensures r.None? ==> forall nm :: nm in materials ==> !(materials[nm].m <= h < materials[nm].M)
    {
      OrderIsKeys(specs, minval, |specs|);
      MaterialSearch(materialOrder, materials, h)
    }

    /** get_h_material_begin: the start m of the last band named nm; KeyError (None)
        when no band carries that name. */
    function GetHMaterialBegin(nm: string): (r: Option<real>)
      reads this
      requires Valid()
      ensures r.None? <==> LastNamed(specs, nm, |specs|) < 0
      ensures r.Some? ==> r.value == colors[LastNamed(specs, nm, |specs|)].m
    {
      MaterialIsLastNamedBand(specs, minval, |specs|, nm);
      if nm in materials then Some(materials[nm].m) else None
    }

    /** get_h_material_end: the end M of the last band named nm; KeyError (None) when
        no band carries that name. */
    function GetHMaterialEnd(nm: string): (r: Option<real>)
      reads this
      requires Valid()
      ensures r.None? <==> LastNamed(specs, nm, |specs|) < 0
      ensures r.Some? ==> r.value == colors[LastNamed(specs, nm, |specs|)].M
    {
      MaterialIsLastNamedBand(specs, minval, |specs|, nm);
      if nm in materials then Some(materials[nm].M) else None
    }

    /** tot and mask have the shape of data (times 3 colour channels for tot). */
    ghost predicate Shaped(data: array2<real>, tot: array3<int>, mask: array2<bool>) {
      && tot.Length0 == data.Length0 && tot.Length1 == data.Length1 && tot.Length2 == 3
      && mask.Length0 == data.Length0 && mask.Length1 == data.Length1
    }

    /** The colour tot holds at pixel (i, j). */
    ghost function PixelOf(tot: array3<int>, i: int, j: int): Color
      reads tot
      requires 0 <= i < tot.Length0 && 0 <= j < tot.Length1 && tot.Length2 == 3
    {
      (tot[i, j, 0], tot[i, j, 1], tot[i, j, 2])
    }

    /** Pixel (i, j) is as `get` leaves it after painting with the first k bands: its
        colour is PaintedAfter and it is masked iff one of those bands has painted it. */
    ghost predicate AtBand(data: array2<real>, tot: array3<int>, mask: array2<bool>, i: int, j: int, k: nat)
      reads this, data, tot, mask
      requires Shaped(data, tot, mask) && 0 <= i < data.Length0 && 0 <= j < data.Length1
      requires k <= |colors|
    {
      var v := data[i, j];
      PixelOf(tot, i, j) == PaintedAfter(colors, v, k) && mask[i, j] == (FirstBelow(colors, v, k) >= 0)
    }

    /** Pixel (i, j) is as `get` leaves it after painting with the first k + 1 bands. */
    ghost predicate AfterBand(data: array2<real>, tot: array3<int>, mask: array2<bool>, i: int, j: int, k: nat)
      reads this, data, tot, mask
      requires Shaped(data, tot, mask) && 0 <= i < data.Length0 && 0 <= j < data.Length1
      requires k < |colors|
    {
      AtBand(data, tot, mask, i, j, k + 1)
    }

    /** Band k at pixel (i, j): painted if its value lies below the band's top and no
        earlier band has painted it; masked from then on. */
    method PaintPixel(data: array2<real>, tot: array3<int>, mask: array2<bool>, k: nat, i: int, j: int)
      requires Shaped(data, tot, mask) && 0 <= i < data.Length0 && 0 <= j < data.Length1
      requires k < |colors| && colors[k].delta != 0.0
      requires AtBand(data, tot, mask, i, j, k)
      modifies tot, mask
      ensures AfterBand(data, tot, mask, i, j, k)
      ensures forall i', j' :: 0 <= i' < tot.Length0 && 0 <= j' < tot.Length1 && (i', j') != (i, j)
                ==> PixelOf(tot, i', j') == old(PixelOf(tot, i', j'))
      ensures forall i', j' :: 0 <= i' < mask.Length0 && 0 <= j' < mask.Length1 && (i', j') != (i, j)
                ==> mask[i', j'] == old(mask[i', j'])
    {
      var band := colors[k];
      var v := data[i, j];
      if v < band.M && !mask[i, j] {
        var c := TruncRgb(Interp(band, v));
        tot[i, j, 0], tot[i, j, 1], tot[i, j, 2] := c.0, c.1, c.2;
      }
      mask[i, j] := mask[i, j] || v < band.M;
    }

    /** Band k over row i. */
    method PaintRow(data: array2<real>, tot: array3<int>, mask: array2<bool>, k: nat, i: int)
      requires Shaped(data, tot, mask) && 0 <= i < data.Length0
      requires k < |colors| && colors[k].delta != 0.0
      requires forall j :: 0 <= j < data.Length1 ==> AtBand(data, tot, mask, i, j, k)
      modifies tot, mask
      ensures forall j :: 0 <= j < data.Length1 ==> AfterBand(data, tot, mask, i, j, k)
      ensures forall i', j' :: 0 <= i' < tot.Length0 && 0 <= j' < tot.Length1 && i' != i
                ==> PixelOf(tot, i', j') == old(PixelOf(tot, i', j'))
      ensures forall i', j' :: 0 <= i' < mask.Length0 && 0 <= j' < mask.Length1 && i' != i
                ==> mask[i', j'] == old(mask[i', j'])
    {
      for j := 0 to data.Length1
        invariant forall j' :: 0 <= j' < j ==> AfterBand(data, tot, mask, i, j', k)
        invariant forall j' :: j <= j' < data.Length1 ==> AtBand(data, tot, mask, i, j', k)
        invariant forall i', j' :: 0 <= i' < tot.Length0 && 0 <= j' < tot.Length1 && i' != i
                    ==> PixelOf(tot, i', j') == old(PixelOf(tot, i', j'))
        invariant forall i', j' :: 0 <= i' < mask.Length0 && 0 <= j' < mask.Length1 && i' != i
                    ==> mask[i', j'] == old(mask[i', j'])
      {
        label before:
        PaintPixel(data, tot, mask, k, i, j);
        forall j' | 0 <= j' < data.Length1 && j' != j
          ensures old@before(AtBand(data, tot, mask, i, j', k)) ==> AtBand(data, tot, mask, i, j', k)
          ensures old@before(AfterBand(data, tot, mask, i, j', k)) ==> AfterBand(data, tot, mask, i, j', k)
        {
        }
      }
    }

    /** One pass of get's loop, for band k: the pixels not yet masked whose value lies
        below the band's top take the band's colour, then they join the mask. */
    method PaintBand(data: array2<real>, tot: array3<int>, mask: array2<bool>, k: nat)
      requires Shaped(data, tot, mask)
      requires k < |colors| && colors[k].delta != 0.0
      requires forall i, j :: 0 <= i < data.Length0 && 0 <= j < data.Length1 ==>
                 AtBand(data, tot, mask, i, j, k)
      modifies tot, mask
      ensures forall i, j :: 0 <= i < data.Length0 && 0 <= j < data.Length1 ==>
                AfterBand(data, tot, mask, i, j, k)
    {
      for i := 0 to data.Length0
        invariant forall i', j :: 0 <= i' < i && 0 <= j < data.Length1 ==>
                    AfterBand(data, tot, mask, i', j, k)
        invariant forall i', j :: i <= i' < data.Length0 && 0 <= j < data.Length1 ==>
                    AtBand(data, tot, mask, i', j, k)
      {
        label before:
        PaintRow(data, tot, mask, k, i);
        forall i', j | 0 <= i' < data.Length0 && i' != i && 0 <= j < data.Length1
          ensures old@before(AtBand(data, tot, mask, i', j, k)) ==> AtBand(data, tot, mask, i', j, k)
          ensures old@before(AfterBand(data, tot, mask, i', j, k)) ==> AfterBand(data, tot, mask, i', j, k)
        {
        }
      }
    }

    /** ColorScale.get: an array of shape w x h x 3 where each value takes the truncated
        colour of the first band whose top lies above it and (0, 0, 0) when there is
        none. A band with delta 0 makes the painting subscript an int: a TypeError
        (ok false). */
    method Get(data: array2<real>) returns (ok: bool, tot: array3<int>)
      ensures fresh(tot) && tot.Length0 == data.Length0 && tot.Length1 == data.Length1
      ensures tot.Length2 == 3
      ensures ok <==> forall k :: 0 <= k < |colors| ==> colors[k].delta != 0.0
      ensures ok ==> forall i, j :: 0 <= i < data.Length0 && 0 <= j < data.Length1 ==>
                       var c := PaintedAfter(colors, data[i, j], |colors|);
                       tot[i, j, 0] == c.0 && tot[i, j, 1] == c.1 && tot[i, j, 2] == c.2
    {
      tot := new int[data.Length0, data.Length1, 3]((i, j, c) => 0);
      var mask := new bool[data.Length0, data.Length1]((i, j) => false);
      for k := 0 to |colors|
        invariant forall k' :: 0 <= k' < k ==> colors[k'].delta != 0.0
        invariant forall i, j :: 0 <= i < data.Length0 && 0 <= j < data.Length1 ==>
                    AtBand(data, tot, mask, i, j, k)
      {
        if colors[k].delta == 0.0 {
          return false, tot;
        }
        PaintBand(data, tot, mask, k);
        ghost var next := k + 1;
        forall i, j | 0 <= i < data.Length0 && 0 <= j < data.Length1
          ensures AtBand(data, tot, mask, i, j, next)
        {
          assert AfterBand(data, tot, mask, i, j, k);
        }
      }
      ok := true;
      forall i, j | 0 <= i < data.Length0 && 0 <= j < data.Length1
        ensures var c := PaintedAfter(colors, data[i, j], |colors|);
                tot[i, j, 0] == c.0 && tot[i, j, 1] == c.1 && tot[i, j, 2] == c.2
      {
        assert AtBand(data, tot, mask, i, j, |colors|);
      }
    }
  }

  /** get_contour_colorscale(c1, c2, n); None when linspace raises (n < 0). */
  method ContourColorScale(c1: Color, c2: Color, n: int) returns (cs: Option<ColorScale>)
    ensures cs.None? <==> n < 0
    ensures cs.Some? ==> fresh(cs.value) && cs.value.Valid() && cs.value.minval == 0.0
    ensures cs.Some? ==> cs.value.specs == ContourSpecs(c1, c2, ContourThresholds(n).value)
  {
    var vs := ContourThresholds(n);
    if vs.None? {
      return None;
    }
    var scale := new ColorScale(ContourSpecs(c1, c2, vs.value), 0.0);
    cs := Some(scale);
  }
}
