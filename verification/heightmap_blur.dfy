/** `_smoothenHeightmap` (services/Heightmap.js:191-216) and the smoothing
    loop of `generate` (services/Heightmap.js:76-81). Each pass replaces a
    cell by the mean of its in-bounds 3x3 neighbourhood, read from the grid
    as it was before the pass. */
module HeightmapBlur {
  import opened JsValues
  import opened HeightmapGrid

  /** The scan covers offsets -1, 0 and 1: everything below this bound. */
  const SCAN_END: int := 2

  predicate InGrid(x: int, y: int, width: nat, height: nat) {
    0 <= x < width && 0 <= y < height
  }

  /** The `sum` the inner `dx` loop adds up in row `y + dy` around column
      `x`, over offsets `-1 <= dx < dxEnd`: in-bounds cells only. */
  function RowSum(g: Grid, width: nat, height: nat, x: nat, y: nat, dy: int, dxEnd: int): real
    requires IsGrid(g, width, height) && -1 <= dxEnd <= SCAN_END
    decreases dxEnd + 1
  {
    if dxEnd == -1 then 0.0
    else
      var nx := x + dxEnd - 1;
      var ny := y + dy;
      RowSum(g, width, height, x, y, dy, dxEnd - 1) + (if InGrid(nx, ny, width, height) then g[ny][nx] else 0.0)
  }

  /** The matching `count`. */
  function RowCount(width: nat, height: nat, x: nat, y: nat, dy: int, dxEnd: int): (n: nat)
    requires -1 <= dxEnd <= SCAN_END
    ensures n <= dxEnd + 1
    ensures x < width && y < height && dy == 0 && dxEnd >= 1 ==> n >= 1
    decreases dxEnd + 1
  {
    if dxEnd == -1 then 0
    else
      var nx := x + dxEnd - 1;
      var ny := y + dy;
      RowCount(width, height, x, y, dy, dxEnd - 1) + (if InGrid(nx, ny, width, height) then 1 else 0)
  }

  /** The sum over the rows at offsets `-1 <= dy < dyEnd`. */
  function AreaSum(g: Grid, width: nat, height: nat, x: nat, y: nat, dyEnd: int): real
    requires IsGrid(g, width, height) && -1 <= dyEnd <= SCAN_END
    decreases dyEnd + 1
  {
    if dyEnd == -1 then 0.0
    else AreaSum(g, width, height, x, y, dyEnd - 1) + RowSum(g, width, height, x, y, dyEnd - 1, SCAN_END)
  }

  function AreaCount(width: nat, height: nat, x: nat, y: nat, dyEnd: int): (n: nat)
    requires -1 <= dyEnd <= SCAN_END
    ensures n <= 3 * (dyEnd + 1)
    ensures x < width && y < height && dyEnd >= 1 ==> n >= 1
    decreases dyEnd + 1
  {
    if dyEnd == -1 then 0
    else AreaCount(width, height, x, y, dyEnd - 1) + RowCount(width, height, x, y, dyEnd - 1, SCAN_END)
  }

  /** How many cells of the 3x3 neighbourhood of (x, y) are in the grid:
      the cell itself always is, so one (in a 1x1 grid) to nine. */
  function NeighbourCount(width: nat, height: nat, x: nat, y: nat): (n: nat)
    requires x < width && y < height
    ensures 1 <= n <= 9
  {
    AreaCount(width, height, x, y, SCAN_END)
  }

  /** The value a pass gives cell (x, y): `sum / count`. */
  function NeighbourMean(g: Grid, width: nat, height: nat, x: nat, y: nat): real
    requires IsGrid(g, width, height) && x < width && y < height
  {
    AreaSum(g, width, height, x, y, SCAN_END) / NeighbourCount(width, height, x, y) as real
  }

  /** One pass, as a definition: every cell is the mean of its neighbours
      in the input. */
  function Blur(g: Grid, width: nat, height: nat): (r: Grid)
    requires IsGrid(g, width, height)
    ensures IsGrid(r, width, height)
  {
    seq(height, (y: nat) requires y < height =>
      seq(width, (x: nat) requires x < width => NeighbourMean(g, width, height, x, y)))
  }

  lemma BlurAt(g: Grid, width: nat, height: nat, x: nat, y: nat)
    requires IsGrid(g, width, height) && x < width && y < height
    ensures Blur(g, width, height)[y][x] == NeighbourMean(g, width, height, x, y)
  {
  }

  /** The inner `dx` loop for one row offset. */
  method ScanRow(g: Grid, width: nat, height: nat, x: nat, y: nat, dy: int) returns (sum: real, count: nat)
    requires IsGrid(g, width, height)
    ensures sum == RowSum(g, width, height, x, y, dy, SCAN_END)
    ensures count == RowCount(width, height, x, y, dy, SCAN_END)
  {
    sum := 0.0;
    count := 0;
    for dx := -1 to SCAN_END
      invariant sum == RowSum(g, width, height, x, y, dy, dx)
      invariant count == RowCount(width, height, x, y, dy, dx)
    {
      var nx := x + dx;
      var ny := y + dy;
      if nx >= 0 && nx < width && ny >= 0 && ny < height {
        sum := sum + g[ny][nx];
        count := count + 1;
      }
    }
  }

  /** The `dy` loop around one cell, ending in `sum / count`. */
  method CellMean(g: Grid, width: nat, height: nat, x: nat, y: nat) returns (m: real)
    requires IsGrid(g, width, height) && x < width && y < height
    ensures m == NeighbourMean(g, width, height, x, y)
  {
    var sum := 0.0;
    var count := 0;
    for dy := -1 to SCAN_END
      invariant sum == AreaSum(g, width, height, x, y, dy)
      invariant count == AreaCount(width, height, x, y, dy)
    {
      var rowSum, rowCount := ScanRow(g, width, height, x, y, dy);
      sum := sum + rowSum;
      count := count + rowCount;
    }
    m := sum / count as real;
  }

  /** One call of `_smoothenHeightmap`, row by row. */
  method BlurPass(g: Grid, width: nat, height: nat) returns (r: Grid)
    requires IsGrid(g, width, height)
    ensures r == Blur(g, width, height)
  {
    ghost var target := Blur(g, width, height);
    r := [];
    for y := 0 to height
      invariant |r| == y
      invariant forall yy :: 0 <= yy < y ==> r[yy] == target[yy]
    {
      var row: seq<real> := [];
      for x := 0 to width
        invariant |row| == x
        invariant forall xx :: 0 <= xx < x ==> row[xx] == target[y][xx]
      {
        var m := CellMean(g, width, height, x, y);
        BlurAt(g, width, height, x, y);
        row := row + [m];
      }
      assert row == target[y];
      r := r + [row];
    }
  }

  /** `c` added `k` times. */
  function Repeat(c: real, k: nat): real {
    if k == 0 then 0.0 else Repeat(c, k - 1) + c
  }

  lemma {:induction false} RepeatAdd(c: real, a: nat, b: nat)
    ensures Repeat(c, a + b) == Repeat(c, a) + Repeat(c, b)
    decreases b
  {
    if b > 0 {
      RepeatAdd(c, a, b - 1);
    }
  }

  lemma {:induction false} RepeatIsProduct(c: real, k: nat)
    ensures Repeat(c, k) == k as real * c
    decreases k
  {
    if k > 0 {
      RepeatIsProduct(c, k - 1);
      assert k as real * c == (k - 1) as real * c + c;
    }
  }

  /** `c` added once for every in-bounds cell the `dx` loop visits, built
      up the way the row's `sum` is. */
  function RowScaled(width: nat, height: nat, x: nat, y: nat, dy: int, dxEnd: int, c: real): real
    requires -1 <= dxEnd <= SCAN_END
    decreases dxEnd + 1
  {
    if dxEnd == -1 then 0.0
    else
      var nx := x + dxEnd - 1;
      var ny := y + dy;
      RowScaled(width, height, x, y, dy, dxEnd - 1, c) + (if InGrid(nx, ny, width, height) then c else 0.0)
  }

  function AreaScaled(width: nat, height: nat, x: nat, y: nat, dyEnd: int, c: real): real
    requires -1 <= dyEnd <= SCAN_END
    decreases dyEnd + 1
  {
    if dyEnd == -1 then 0.0
    else AreaScaled(width, height, x, y, dyEnd - 1, c) + RowScaled(width, height, x, y, dyEnd - 1, SCAN_END, c)
  }

  /** Each in-bounds cell adds between `lo` and `hi` to the row sum. */
  lemma {:induction false} RowSumWithin(g: Grid, width: nat, height: nat, x: nat, y: nat, dy: int, dxEnd: int, lo: real, hi: real)
    requires IsGrid(g, width, height) && -1 <= dxEnd <= SCAN_END && AllWithin(g, lo, hi)
    ensures RowScaled(width, height, x, y, dy, dxEnd, lo) <= RowSum(g, width, height, x, y, dy, dxEnd)
    ensures RowSum(g, width, height, x, y, dy, dxEnd) <= RowScaled(width, height, x, y, dy, dxEnd, hi)
    decreases dxEnd + 1
  {
    if dxEnd > -1 {
      RowSumWithin(g, width, height, x, y, dy, dxEnd - 1, lo, hi);
    }
  }

  lemma {:induction false} AreaSumWithin(g: Grid, width: nat, height: nat, x: nat, y: nat, dyEnd: int, lo: real, hi: real)
    requires IsGrid(g, width, height) && -1 <= dyEnd <= SCAN_END && AllWithin(g, lo, hi)
    ensures AreaScaled(width, height, x, y, dyEnd, lo) <= AreaSum(g, width, height, x, y, dyEnd)
    ensures AreaSum(g, width, height, x, y, dyEnd) <= AreaScaled(width, height, x, y, dyEnd, hi)
    decreases dyEnd + 1
  {
    if dyEnd > -1 {
      AreaSumWithin(g, width, height, x, y, dyEnd - 1, lo, hi);
      RowSumWithin(g, width, height, x, y, dyEnd - 1, SCAN_END, lo, hi);
    }
  }

  /** The scaled row is `c` repeated once per counted cell. */
  lemma {:induction false} RowScaledRepeats(width: nat, height: nat, x: nat, y: nat, dy: int, dxEnd: int, c: real)
    requires -1 <= dxEnd <= SCAN_END
    ensures RowScaled(width, height, x, y, dy, dxEnd, c) == Repeat(c, RowCount(width, height, x, y, dy, dxEnd))
    decreases dxEnd + 1
  {
    if dxEnd > -1 {
      RowScaledRepeats(width, height, x, y, dy, dxEnd - 1, c);
    }
  }

  lemma {:induction false} AreaScaledRepeats(width: nat, height: nat, x: nat, y: nat, dyEnd: int, c: real)
    requires -1 <= dyEnd <= SCAN_END
    ensures AreaScaled(width, height, x, y, dyEnd, c) == Repeat(c, AreaCount(width, height, x, y, dyEnd))
    decreases dyEnd + 1
  {
    if dyEnd > -1 {
      AreaScaledRepeats(width, height, x, y, dyEnd - 1, c);
      RowScaledRepeats(width, height, x, y, dyEnd - 1, SCAN_END, c);
      RepeatSplit(c,
        AreaCount(width, height, x, y, dyEnd - 1), RowCount(width, height, x, y, dyEnd - 1, SCAN_END),
        AreaCount(width, height, x, y, dyEnd),
        AreaScaled(width, height, x, y, dyEnd - 1, c), RowScaled(width, height, x, y, dyEnd - 1, SCAN_END, c),
        AreaScaled(width, height, x, y, dyEnd, c));
    }
  }

  lemma RepeatSplit(c: real, a: nat, b: nat, n: nat, above: real, row: real, total: real)
    requires n == a + b && total == above + row
    requires above == Repeat(c, a) && row == Repeat(c, b)
    ensures total == Repeat(c, n)
  {
    RepeatAdd(c, a, b);
  }

  /** A total of `k` values in [lo, hi], divided by `k`. */
  lemma QuotientWithin(sum: real, k: nat, lo: real, hi: real)
    requires k > 0 && Repeat(lo, k) <= sum <= Repeat(hi, k)
    ensures lo <= sum / k as real <= hi
  {
    RepeatIsProduct(lo, k);
    RepeatIsProduct(hi, k);
    LowerQuotient(sum, k as real, lo);
    UpperQuotient(sum, k as real, hi);
  }

  /** The mean of a neighbourhood lies within any bounds of the grid. */
  lemma MeanWithin(g: Grid, width: nat, height: nat, x: nat, y: nat, lo: real, hi: real)
    requires IsGrid(g, width, height) && x < width && y < height && AllWithin(g, lo, hi)
    ensures lo <= NeighbourMean(g, width, height, x, y) <= hi
  {
    AreaSumWithin(g, width, height, x, y, SCAN_END, lo, hi);
    AreaScaledRepeats(width, height, x, y, SCAN_END, lo);
    AreaScaledRepeats(width, height, x, y, SCAN_END, hi);
    QuotientWithin(AreaSum(g, width, height, x, y, SCAN_END), AreaCount(width, height, x, y, SCAN_END), lo, hi);
  }

  /** A pass never leaves the range of its input. */
  lemma BlurWithin(g: Grid, width: nat, height: nat, lo: real, hi: real)
    requires IsGrid(g, width, height) && AllWithin(g, lo, hi)
    ensures AllWithin(Blur(g, width, height), lo, hi)
  {
    var r := Blur(g, width, height);
    forall y, x | 0 <= y < |r| && 0 <= x < |r[y]|
      ensures lo <= r[y][x] <= hi
    {
      BlurAt(g, width, height, x, y);
      MeanWithin(g, width, height, x, y, lo, hi);
    }
  }

  /** A flat grid is left exactly as it is. */
  lemma BlurConstant(g: Grid, width: nat, height: nat, c: real)
    requires IsGrid(g, width, height)
    requires forall y, x :: 0 <= y < height && 0 <= x < width ==> g[y][x] == c
    ensures Blur(g, width, height) == g
  {
    var r := Blur(g, width, height);
    BlurWithin(g, width, height, c, c);
    forall y | 0 <= y < height
      ensures r[y] == g[y]
    {
      assert forall x :: 0 <= x < width ==> r[y][x] == c;
    }
  }

  /** A pass over the generator's result: NaN stays NaN. */
  function BlurTerrain(t: Terrain, width: nat, height: nat): (r: Terrain)
    requires t.Heights? ==> IsGrid(t.rows, width, height)
    ensures r.Heights? <==> t.Heights?
    ensures r.Heights? ==> IsGrid(r.rows, width, height)
  {
    match t
    case Heights(g) => Heights(Blur(g, width, height))
    case Undefined(_, _) => t
  }

  /** `n` passes. */
  function Smoothen(t: Terrain, width: nat, height: nat, n: nat): (r: Terrain)
    requires t.Heights? ==> IsGrid(t.rows, width, height)
    ensures r.Heights? <==> t.Heights?
    ensures r.Heights? ==> IsGrid(r.rows, width, height)
    ensures n == 0 ==> r == t
  {
    if n == 0 then t else BlurTerrain(Smoothen(t, width, height, n - 1), width, height)
  }

  /** Any number of passes keeps the heights within a range they start in. */
  lemma {:induction false} SmoothenWithin(t: Terrain, width: nat, height: nat, n: nat, lo: real, hi: real)
    requires t.Heights? && IsGrid(t.rows, width, height) && AllWithin(t.rows, lo, hi)
    ensures AllWithin(Smoothen(t, width, height, n).rows, lo, hi)
  {
    if n > 0 {
      SmoothenWithin(t, width, height, n - 1, lo, hi);
      BlurWithin(Smoothen(t, width, height, n - 1).rows, width, height, lo, hi);
    }
  }

  /** `generate`'s options after the defaults are merged in. The noise
      options (scale, octaves, persistence, lacunarity, seed) only shape
      the raw values, which are an input here. */
  datatype Options = Options(
    width: Option<nat>,
    height: Option<nat>,
    maxHeight: Option<real>,
    minHeight: Option<real>,
    smootheningIterations: Option<nat>)

  const DEFAULT_SIZE: nat := 64
  const DEFAULT_MAX_HEIGHT: real := 10.0
  const DEFAULT_MIN_HEIGHT: real := 0.0

  /** `generate`: the raw grid, normalised, then smoothed in place the
      requested number of times. `raw(x, y)` is the noise sum of cell
      (x, y) for the seed and noise options in force. */
  method Generate(o: Options, raw: (nat, nat) -> real) returns (t: Terrain)
    ensures var width := OrDefault(o.width, DEFAULT_SIZE);
      var height := OrDefault(o.height, DEFAULT_SIZE);
      var lo := OrDefault(o.minHeight, DEFAULT_MIN_HEIGHT);
      var hi := OrDefault(o.maxHeight, DEFAULT_MAX_HEIGHT);
      var n := OrDefault(o.smootheningIterations, 0);
      var normalised := Normalise(RawGrid(width, height, raw), width, height, lo, hi);
      && t == Smoothen(normalised, width, height, n)
      && (t.Heights? ==> IsGrid(t.rows, width, height))
      && (n == 0 ==> t == normalised)
      && (t.Heights? && width > 0 && height > 0 ==> AllWithin(t.rows, Min(lo, hi), Max(lo, hi)))
  {
    var width := OrDefault(o.width, DEFAULT_SIZE);
    var height := OrDefault(o.height, DEFAULT_SIZE);
    var lo := OrDefault(o.minHeight, DEFAULT_MIN_HEIGHT);
    var hi := OrDefault(o.maxHeight, DEFAULT_MAX_HEIGHT);
    var n := OrDefault(o.smootheningIterations, 0);
    var g := RawGrid(width, height, raw);
    var normalised := Normalise(g, width, height, lo, hi);
    t := normalised;
    for i := 0 to n
      invariant t == Smoothen(normalised, width, height, i)
    {
      if t.Heights? {
        var rows := BlurPass(t.rows, width, height);
        t := Heights(rows);
      }
    }
    if t.Heights? && width > 0 && height > 0 {
      NormaliseWithin(g, width, height, lo, hi);
      SmoothenWithin(normalised, width, height, n, Min(lo, hi), Max(lo, hi));
    }
  }
}
