/** The height grid `generate` builds (services/Heightmap.js:24-74): `height`
    rows of `width` raw noise sums, then rescaled so the lowest raw value
    becomes `minHeight` and the highest `maxHeight`. The raw value of each
    cell (the octave sum of simplex noise) is an input. */
module HeightmapGrid {
  import opened JsValues

  type Grid = seq<seq<real>>

  /** `height` rows of `width` cells each. */
  predicate IsGrid(g: Grid, width: nat, height: nat) {
    |g| == height && forall y :: 0 <= y < height ==> |g[y]| == width
  }

  /** Every cell lies in [lo, hi]. */
  predicate AllWithin(g: Grid, lo: real, hi: real) {
    forall y, x :: 0 <= y < |g| && 0 <= x < |g[y]| ==> lo <= g[y][x] <= hi
  }

  /** The first loop of `generate`: cell (x, y) holds `raw(x, y)`. */
  function RawGrid(width: nat, height: nat, raw: (nat, nat) -> real): (g: Grid)
    ensures IsGrid(g, width, height)
    ensures forall y, x :: 0 <= y < height && 0 <= x < width ==> g[y][x] == raw(x, y)
  {
    seq(height, (y: nat) => seq(width, (x: nat) => raw(x, y)))
  }

  /** A position in the grid: row, then column. */
  datatype Cell = Cell(y: nat, x: nat)

  function At(g: Grid, c: Cell): real
    requires c.y < |g| && c.x < |g[c.y]|
  {
    g[c.y][c.x]
  }

  /** Index of a smallest element of a row. */
  function ArgMinRow(s: seq<real>): (i: nat)
    requires |s| > 0
    ensures i < |s|
    ensures forall k :: 0 <= k < |s| ==> s[i] <= s[k]
    decreases |s|
  {
    if |s| == 1 then 0
    else
      var j := ArgMinRow(s[..|s| - 1]);
      if s[|s| - 1] < s[j] then |s| - 1 else j
  }

  /** Index of a largest element of a row. */
  function ArgMaxRow(s: seq<real>): (i: nat)
    requires |s| > 0
    ensures i < |s|
    ensures forall k :: 0 <= k < |s| ==> s[k] <= s[i]
    decreases |s|
  {
    if |s| == 1 then 0
    else
      var j := ArgMaxRow(s[..|s| - 1]);
      if s[|s| - 1] > s[j] then |s| - 1 else j
  }

  /** A cell holding the running `minVal` of `generate` once the first
      loop has finished. */
  function ArgMinCell(g: Grid, width: nat): (c: Cell)
    requires |g| > 0 && width > 0 && IsGrid(g, width, |g|)
    ensures c.y < |g| && c.x < width
    ensures forall y, x :: 0 <= y < |g| && 0 <= x < width ==> At(g, c) <= g[y][x]
    decreases |g|
  {
    var last := |g| - 1;
    var j := ArgMinRow(g[last]);
    if |g| == 1 then Cell(0, j)
    else
      var c := ArgMinCell(g[..last], width);
      if g[last][j] < At(g, c) then Cell(last, j) else c
  }

  /** A cell holding the running `maxVal`. */
  function ArgMaxCell(g: Grid, width: nat): (c: Cell)
    requires |g| > 0 && width > 0 && IsGrid(g, width, |g|)
    ensures c.y < |g| && c.x < width
    ensures forall y, x :: 0 <= y < |g| && 0 <= x < width ==> g[y][x] <= At(g, c)
    decreases |g|
  {
    var last := |g| - 1;
    var j := ArgMaxRow(g[last]);
    if |g| == 1 then Cell(0, j)
    else
      var c := ArgMaxCell(g[..last], width);
      if g[last][j] > At(g, c) then Cell(last, j) else c
  }

  /** The normalised grid, or the grid of NaN that `0 / 0` leaves when
      every raw value is the same. */
  datatype Terrain = Heights(rows: Grid) | Undefined(width: nat, height: nat)

  /** `minHeight + (v - minVal) / (maxVal - minVal) * (maxHeight - minHeight)`. */
  function Rescale(v: real, mn: real, mx: real, lo: real, hi: real): real
    requires mn < mx
  {
    lo + (v - mn) / (mx - mn) * (hi - lo)
  }

  /** A raw value between the extremes lands between the target heights;
      the extremes land exactly on them. */
  lemma RescaleBetween(v: real, mn: real, mx: real, lo: real, hi: real)
    requires mn < mx && mn <= v <= mx
    ensures Between(Rescale(v, mn, mx, lo, hi), lo, hi)
    ensures v == mn ==> Rescale(v, mn, mx, lo, hi) == lo
    ensures v == mx ==> Rescale(v, mn, mx, lo, hi) == hi
  {
    var t := (v - mn) / (mx - mn);
    LowerQuotient(v - mn, mx - mn, 0.0);
    UpperQuotient(v - mn, mx - mn, 1.0);
    ScaleWithin(hi - lo, t);
    assert (v - mn) / (mx - mn) * (hi - lo) == (hi - lo) * t;
  }

  /** With `minHeight <= maxHeight` the rescaling keeps the order of cells. */
  lemma RescaleMonotone(a: real, b: real, mn: real, mx: real, lo: real, hi: real)
    requires mn < mx && a <= b && lo <= hi
    ensures Rescale(a, mn, mx, lo, hi) <= Rescale(b, mn, mx, lo, hi)
  {
    var ta := (a - mn) / (mx - mn);
    var tb := (b - mn) / (mx - mn);
    assert ta <= tb;
    var span := hi - lo;
    assert ta * span <= tb * span;
  }

  /** Every cell rescaled with the given extremes. */
  function RescaleGrid(g: Grid, width: nat, height: nat, mn: real, mx: real, lo: real, hi: real): (r: Grid)
    requires IsGrid(g, width, height) && mn < mx
    ensures IsGrid(r, width, height)
    ensures forall y, x :: 0 <= y < height && 0 <= x < width ==> r[y][x] == Rescale(g[y][x], mn, mx, lo, hi)
  {
    seq(height, (y: nat) requires y < height =>
      seq(width, (x: nat) requires x < width => Rescale(g[y][x], mn, mx, lo, hi)))
  }

  /** The second loop of `generate`. An empty grid has no extremes and is
      returned as it is; a flat grid becomes NaN everywhere. */
  function Normalise(g: Grid, width: nat, height: nat, lo: real, hi: real): (t: Terrain)
    requires IsGrid(g, width, height)
    ensures width == 0 || height == 0 ==> t == Heights(g)
    ensures t.Heights? ==> IsGrid(t.rows, width, height)
    ensures width > 0 && height > 0 ==>
      (t.Undefined? <==> At(g, ArgMinCell(g, width)) == At(g, ArgMaxCell(g, width)))
    ensures width > 0 && height > 0 && t.Heights? ==>
      && (forall y, x :: 0 <= y < height && 0 <= x < width ==> Between(t.rows[y][x], lo, hi))
      && At(t.rows, ArgMinCell(g, width)) == lo
      && At(t.rows, ArgMaxCell(g, width)) == hi
  {
    if width == 0 || height == 0 then Heights(g)
    else
      var lowest := ArgMinCell(g, width);
      var highest := ArgMaxCell(g, width);
      var mn := At(g, lowest);
      var mx := At(g, highest);
      if mn == mx then Undefined(width, height)
      else
        var rows := RescaleGrid(g, width, height, mn, mx, lo, hi);
        NormaliseFacts(g, width, height, lo, hi);
        RescaleBetween(mn, mn, mx, lo, hi);
        RescaleBetween(mx, mn, mx, lo, hi);
        Heights(rows)
  }

  lemma NormaliseFacts(g: Grid, width: nat, height: nat, lo: real, hi: real)
    requires IsGrid(g, width, height) && width > 0 && height > 0
    requires At(g, ArgMinCell(g, width)) < At(g, ArgMaxCell(g, width))
    ensures var mn := At(g, ArgMinCell(g, width));
      var mx := At(g, ArgMaxCell(g, width));
      forall y, x :: 0 <= y < height && 0 <= x < width ==>
        Between(RescaleGrid(g, width, height, mn, mx, lo, hi)[y][x], lo, hi)
  {
    var mn := At(g, ArgMinCell(g, width));
    var mx := At(g, ArgMaxCell(g, width));
    var r := RescaleGrid(g, width, height, mn, mx, lo, hi);
    forall y, x | 0 <= y < height && 0 <= x < width
      ensures Between(r[y][x], lo, hi)
    {
      RescaleBetween(g[y][x], mn, mx, lo, hi);
    }
  }

  /** Every normalised height lies between the two target heights,
      whichever of them is larger. */
  lemma NormaliseWithin(g: Grid, width: nat, height: nat, lo: real, hi: real)
    requires IsGrid(g, width, height) && width > 0 && height > 0
    requires Normalise(g, width, height, lo, hi).Heights?
    ensures AllWithin(Normalise(g, width, height, lo, hi).rows, Min(lo, hi), Max(lo, hi))
  {
    var rows := Normalise(g, width, height, lo, hi).rows;
    forall y, x | 0 <= y < |rows| && 0 <= x < |rows[y]|
      ensures Min(lo, hi) <= rows[y][x] <= Max(lo, hi)
    {
      assert Between(rows[y][x], lo, hi);
    }
  }

  /** Normalisation keeps the order of cells when `minHeight <= maxHeight`:
      a cell that was no higher than another stays no higher. */
  lemma NormalisePreservesOrder(g: Grid, width: nat, height: nat, lo: real, hi: real, a: Cell, b: Cell)
    requires IsGrid(g, width, height) && lo <= hi
    requires a.y < height && a.x < width && b.y < height && b.x < width
    requires At(g, a) <= At(g, b)
    requires Normalise(g, width, height, lo, hi).Heights?
    ensures var t := Normalise(g, width, height, lo, hi).rows; At(t, a) <= At(t, b)
  {
    var mn := At(g, ArgMinCell(g, width));
    var mx := At(g, ArgMaxCell(g, width));
    RescaleMonotone(At(g, a), At(g, b), mn, mx, lo, hi);
  }
}
