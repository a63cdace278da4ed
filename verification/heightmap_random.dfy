/** The seeded generator and the Fisher-Yates shuffle of the terrain
    generator (services/Heightmap.js:173-189). The seed is a JavaScript
    number, modelled as a real; `%` is JavaScript's truncating remainder. */
module HeightmapRandom {
  import opened JsValues

  const MULTIPLIER: real := 9301.0
  const INCREMENT: real := 49297.0
  const MODULUS: real := 233280.0

  /** JavaScript `a % 233280`: the remainder has the sign of `a` and
      differs from `a` by a whole multiple of the modulus. */
  function RemModulus(a: real): (r: real)
    ensures a >= 0.0 ==> 0.0 <= r < MODULUS
    ensures a < 0.0 ==> -MODULUS < r <= 0.0
    ensures ((a - r) / MODULUS).Floor as real == (a - r) / MODULUS
  {
    var q := Trunc(a / MODULUS);
    assert (a - (a - MODULUS * q as real)) / MODULUS == q as real;
    a - MODULUS * q as real
  }

  /** The generator's state after one draw. */
  function NextSeed(s: real): (r: real)
    ensures s >= 0.0 ==> 0.0 <= r < MODULUS
  {
    RemModulus(s * MULTIPLIER + INCREMENT)
  }

  /** The value `_rand()` returns: the new state scaled to the unit interval. */
  function Draw(s: real): (d: real)
    ensures s >= 0.0 ==> 0.0 <= d < 1.0
  {
    NextSeed(s) / MODULUS
  }

  /** The same step on integer states, in Dafny's own arithmetic. */
  function NextSeedInt(n: int): (r: int)
    ensures 0 <= r < 233280
  {
    (n * 9301 + 49297) % 233280
  }

  lemma FloorOfQuotient(a: int)
    requires a >= 0
    ensures (a as real / MODULUS).Floor == a / 233280
  {
    var q := a / 233280;
    var r := a % 233280;
    assert a as real / MODULUS == q as real + r as real / MODULUS;
  }

  /** From a non-negative integer state the real-valued generator stays on
      integers and agrees with the integer one, so the state remains an
      integer in [0, 233280) and every draw lies in [0, 1). */
  lemma NextSeedOnIntegers(n: int)
    requires n >= 0
    ensures NextSeed(n as real) == NextSeedInt(n) as real
  {
    var a := n * 9301 + 49297;
    assert n as real * MULTIPLIER + INCREMENT == a as real;
    FloorOfQuotient(a);
  }

  lemma ScaledIndex(d: real, n: nat)
    requires 0.0 <= d < 1.0 && n > 0
    ensures 0 <= Floor(d * n as real) < n
  {
    BelowOneScaled(d, n as real);
    FloorBelow(d * n as real, n);
  }

  lemma FloorBelow(x: real, n: nat)
    requires 0.0 <= x < n as real
    ensures 0 <= Floor(x) < n
  {
    var f := Floor(x);
    assert f as real <= x < f as real + 1.0;
  }

  lemma BelowOneScaled(d: real, k: real)
    requires 0.0 <= d < 1.0 && k > 0.0
    ensures 0.0 <= d * k < k
  {
    var gap := (1.0 - d) * k;
    assert gap > 0.0;
    assert d * k == k - gap;
  }

  /** `Math.floor(this._rand() * currentIndex)` drawn from state `state`:
      always a slot at or below the current one. */
  function RandomIndex(state: real, current: nat): (j: nat)
    requires state >= 0.0 && current > 0
    ensures j < current
    ensures j == Floor(Draw(state) * current as real)
  {
    ScaledIndex(Draw(state), current);
    Floor(Draw(state) * current as real)
  }

  /** Exchanging two slots keeps the same elements. */
  function Swap<T>(a: seq<T>, i: nat, j: nat): (r: seq<T>)
    requires i < |a| && j < |a|
    ensures |r| == |a| && r[i] == a[j] && r[j] == a[i]
    ensures forall k :: 0 <= k < |a| && k != i && k != j ==> r[k] == a[k]
    ensures multiset(r) == multiset(a)
  {
    var ai := a[i];
    var r := a[i := a[j]][j := ai];
    assert multiset(a[i := a[j]]) == multiset(a) - multiset{ai} + multiset{a[j]};
    r
  }

  /** The shuffle as a recursive definition: the slots below `current`
      still to be visited, from generator state `state`. */
  function ShuffleFrom<T>(a: seq<T>, current: nat, state: real): (r: seq<T>)
    requires current <= |a| && state >= 0.0
    ensures |r| == |a|
    ensures multiset(r) == multiset(a)
    ensures r[current..] == a[current..]
    decreases current
  {
    if current == 0 then a
    else
      var j := RandomIndex(state, current);
      var b := Swap(a, current - 1, j);
      var r := ShuffleFrom(b, current - 1, NextSeed(state));
      assert r[current..] == r[current - 1..][1..];
      r
  }

  lemma ShuffleFromStep<T>(a: seq<T>, current: nat, state: real)
    requires 0 < current <= |a| && state >= 0.0
    ensures ShuffleFrom(a, current, state) ==
            ShuffleFrom(Swap(a, current - 1, RandomIndex(state, current)), current - 1, NextSeed(state))
  {
  }

  /** `_shuffleArray`: walk down from the end, swapping each slot with a
      randomly chosen one at or below it. */
  method Shuffle<T>(s: seq<T>, seed: real) returns (r: seq<T>)
    requires seed >= 0.0
    ensures r == ShuffleFrom(s, |s|, seed)
    ensures |r| == |s|
    ensures multiset(r) == multiset(s)
  {
    r := s;
    var current := |s|;
    var after := seed;
    while current != 0
      invariant 0 <= current <= |r| == |s|
      invariant after >= 0.0
      invariant ShuffleFrom(r, current, after) == ShuffleFrom(s, |s|, seed)
      decreases current
    {
      var randomIndex := RandomIndex(after, current);
      ShuffleFromStep(r, current, after);
      after := NextSeed(after);
      current := current - 1;
      r := Swap(r, current, randomIndex);
    }
  }
}
