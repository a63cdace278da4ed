/** The lookup tables of the terrain generator's simplex noise and the
    index arithmetic of a noise lookup (services/Heightmap.js:89-105,
    118-166). The noise value itself is floating-point and is not
    modelled; only which table slots a lookup reads. */
module HeightmapPerlin {
  import opened HeightmapRandom

  /** A two-dimensional gradient direction. */
  datatype Grad = Grad(gx: int, gy: int)

  /** The eight gradient directions, in table order. */
  const GRAD2D: seq<Grad> := [
    Grad(1, 1), Grad(-1, 1), Grad(1, -1), Grad(-1, -1),
    Grad(1, 0), Grad(-1, 0), Grad(0, 1), Grad(0, -1)]

  const TABLE_SIZE: nat := 256

  /** `p` before the shuffle: 0, 1, ..., n - 1. */
  function Identity(n: nat): (r: seq<int>)
    ensures |r| == n
    ensures forall i :: 0 <= i < n ==> r[i] == i
  {
    seq(n, i => i)
  }

  /** The three tables: `p` and its doubled copy `perm`, and the gradient
      picked for each slot of `perm`. */
  datatype Tables = Tables(p: seq<int>, perm: seq<int>, gradP: seq<Grad>)

  /** The shape the noise lookup relies on. */
  predicate WellBuilt(t: Tables) {
    && |t.p| == TABLE_SIZE && |t.perm| == 2 * TABLE_SIZE && |t.gradP| == 2 * TABLE_SIZE
    && (forall i :: 0 <= i < |t.perm| ==> 0 <= t.perm[i] < TABLE_SIZE)
    && (forall i :: 0 <= i < |t.gradP| ==> t.gradP[i] in GRAD2D)
  }

  /** A sequence with the same elements as 0..255 holds only those values
      and every one of them. */
  lemma PermutationValues(p: seq<int>)
    requires multiset(p) == multiset(Identity(TABLE_SIZE))
    ensures forall i :: 0 <= i < |p| ==> 0 <= p[i] < TABLE_SIZE
    ensures forall v :: 0 <= v < TABLE_SIZE ==> v in p
  {
    var id := Identity(TABLE_SIZE);
    forall i | 0 <= i < |p|
      ensures 0 <= p[i] < TABLE_SIZE
    {
      assert p[i] in multiset(p);
      assert p[i] in id;
    }
    forall v | 0 <= v < TABLE_SIZE
      ensures v in p
    {
      assert id[v] == v;
      assert v in multiset(id);
    }
  }

  /** `for (let i = 0; i < 256; i++) p[i] = i;` */
  method FillIdentity(n: nat) returns (r: seq<int>)
    ensures r == Identity(n)
  {
    var p := new int[n];
    for i := 0 to n
      invariant forall k :: 0 <= k < i ==> p[k] == k
    {
      p[i] := i;
    }
    r := p[..];
  }

  /** The doubling loop: `perm[i] = p[i & 255]` and
      `gradP[i] = grad2d[perm[i] % 8]` for i below 512. */
  method DoubleTables(p: seq<int>) returns (perm: seq<int>, gradP: seq<Grad>)
    requires |p| == TABLE_SIZE
    requires forall i :: 0 <= i < |p| ==> 0 <= p[i] < TABLE_SIZE
    ensures |perm| == 2 * TABLE_SIZE && |gradP| == 2 * TABLE_SIZE
    ensures forall i :: 0 <= i < 2 * TABLE_SIZE ==> perm[i] == p[Low8(i)]
    ensures forall i :: 0 <= i < 2 * TABLE_SIZE ==> 0 <= perm[i] < TABLE_SIZE
    ensures forall i :: 0 <= i < 2 * TABLE_SIZE ==> gradP[i] == GRAD2D[perm[i] % 8]
  {
    var pa := new int[2 * TABLE_SIZE];
    var ga := new Grad[2 * TABLE_SIZE];
    for i := 0 to 2 * TABLE_SIZE
      invariant forall k :: 0 <= k < i ==> pa[k] == p[Low8(k)]
      invariant forall k :: 0 <= k < i ==> 0 <= pa[k] < TABLE_SIZE
      invariant forall k :: 0 <= k < i ==> ga[k] == GRAD2D[pa[k] % 8]
    {
      pa[i] := p[Low8(i)];
      ga[i] := GRAD2D[pa[i] % 8];
    }
    perm, gradP := pa[..], ga[..];
  }

  /** `_createPerlin`'s table construction: fill `p` with 0..255, shuffle it
      with the seeded generator, then double it into `perm` and pick a
      gradient for every slot. */
  method CreateTables(seed: real) returns (t: Tables)
    requires seed >= 0.0
    ensures t.p == ShuffleFrom(Identity(TABLE_SIZE), TABLE_SIZE, seed)
    ensures multiset(t.p) == multiset(Identity(TABLE_SIZE))
    ensures |t.perm| == 2 * TABLE_SIZE && |t.gradP| == 2 * TABLE_SIZE
    ensures forall i :: 0 <= i < 2 * TABLE_SIZE ==> t.perm[i] == t.p[i % TABLE_SIZE]
    ensures forall i :: 0 <= i < 2 * TABLE_SIZE ==> t.gradP[i] == GRAD2D[t.perm[i] % 8]
    ensures WellBuilt(t)
  {
    var p := FillIdentity(TABLE_SIZE);
    var shuffled := Shuffle(p, seed);
    PermutationValues(shuffled);
    var perm, gradP := DoubleTables(shuffled);
    t := Tables(shuffled, perm, gradP);
    DoubledWellBuilt(t);
  }

  /** The output of the doubling loop has the shape the lookup needs. */
  lemma DoubledWellBuilt(t: Tables)
    requires |t.p| == TABLE_SIZE && |t.perm| == 2 * TABLE_SIZE && |t.gradP| == 2 * TABLE_SIZE
    requires forall i :: 0 <= i < 2 * TABLE_SIZE ==> 0 <= t.perm[i] < TABLE_SIZE
    requires forall i :: 0 <= i < 2 * TABLE_SIZE ==> t.gradP[i] == GRAD2D[t.perm[i] % 8]
    ensures WellBuilt(t)
  {
    forall i | 0 <= i < 2 * TABLE_SIZE
      ensures t.gradP[i] in GRAD2D
    {
      var k := t.perm[i] % 8;
      assert t.gradP[i] == GRAD2D[k];
    }
  }

  /** `v & 255` on an integer: the low eight bits, which for the integers a
      JavaScript bitwise operator sees is the non-negative remainder. */
  function Low8(v: int): (r: nat)
    ensures r < TABLE_SIZE
    ensures (v - r) % TABLE_SIZE == 0
  {
    v % TABLE_SIZE
  }

  /** The `gradP` slots a lookup in skewed cell (i, j) reads for its three
      corners; `xAboveY` is the `x0 > y0` test that picks the middle one. */
  datatype CornerSlots = CornerSlots(g0: int, g1: int, g2: int)

  function CornerIndices(t: Tables, i: int, j: int, xAboveY: bool): (r: CornerSlots)
    requires WellBuilt(t)
    ensures 0 <= r.g0 < 2 * TABLE_SIZE
    ensures 0 <= r.g1 < 2 * TABLE_SIZE
    ensures 0 <= r.g2 < 2 * TABLE_SIZE
  {
    var ii := Low8(i);
    var jj := Low8(j);
    var i1 := if xAboveY then 1 else 0;
    var j1 := if xAboveY then 0 else 1;
    CornerSlots(ii + t.perm[jj], ii + i1 + t.perm[jj + j1], ii + 1 + t.perm[jj + 1])
  }

  /** The three gradients a lookup uses; all of them are table directions. */
  function CornerGradients(t: Tables, i: int, j: int, xAboveY: bool): (g: seq<Grad>)
    requires WellBuilt(t)
    ensures |g| == 3
    ensures forall k :: 0 <= k < 3 ==> g[k] in GRAD2D
  {
    var c := CornerIndices(t, i, j, xAboveY);
    [t.gradP[c.g0], t.gradP[c.g1], t.gradP[c.g2]]
  }

  /** The lookup wraps every 256 cells in both directions. */
  lemma CornerIndicesPeriodic(t: Tables, i: int, j: int, xAboveY: bool, a: int, b: int)
    requires WellBuilt(t)
    ensures CornerIndices(t, i + TABLE_SIZE * a, j + TABLE_SIZE * b, xAboveY) ==
            CornerIndices(t, i, j, xAboveY)
  {
    Low8Periodic(i, a);
    Low8Periodic(j, b);
  }

  lemma Low8Periodic(v: int, a: int)
    ensures Low8(v + TABLE_SIZE * a) == Low8(v)
  {
    var r := Low8(v);
    var q := (v - r) / TABLE_SIZE;
    assert v == TABLE_SIZE * q + r;
    assert v + TABLE_SIZE * a == TABLE_SIZE * (q + a) + r;
  }
}
