/** The per-id easing the HUD overlay applies before drawing a target
    (App.tsx:208-214): each smoothing step moves the position 20% and the
    size 15% of the way towards the target's current values, starting from
    the target itself the first time an id is seen. A step is one visit of
    the id by a running render callback; how many callbacks run at once,
    and so how many steps fall in one displayed frame, is not modelled.
    Drawing is not modelled either. */
module Smoothing {
  import opened JsValues
  import opened Targets
  import opened Seqs

  /** Smoothed centre and size, in percent of the frame. */
  datatype Box = Box(x: real, y: real, w: real, h: real)

  /** The smoothed boxes remembered across render passes, by target id. */
  type Cache = map<string, Box>

  const POSITION_RATE: real := 0.2
  const SIZE_RATE: real := 0.15

  /** One easing step from `cur` towards `goal`: the signed gap to the goal
      shrinks by the factor `1 - rate`. */
  function Approach(cur: real, goal: real, rate: real): (r: real)
    requires 0.0 <= rate <= 1.0
    ensures r - goal == (1.0 - rate) * (cur - goal)
    ensures cur == goal ==> r == goal
  {
    cur + (goal - cur) * rate
  }

  /** The eased value never overshoots: it lies between start and goal. */
  lemma ApproachBetween(cur: real, goal: real, rate: real)
    requires 0.0 <= rate <= 1.0
    ensures Between(Approach(cur, goal, rate), cur, goal)
  {
    EaseFacts(cur, goal - cur, rate);
  }

  lemma EaseFacts(cur: real, d: real, rate: real)
    requires 0.0 <= rate <= 1.0
    ensures Between(cur + d * rate, cur, cur + d)
  {
    ScaleWithin(d, rate);
  }

  /** What the box starts from: the remembered one, or the target itself. */
  function Start(cache: Cache, t: Target): Box {
    if t.id in cache then cache[t.id] else Box(t.x, t.y, t.w, t.h)
  }

  /** One smoothing step for one target: the box to draw and the updated cache. */
  function SmoothStep(cache: Cache, t: Target): (r: (Box, Cache))
    ensures r.1 == cache[t.id := r.0]
    ensures t.id !in cache ==> r.0 == Box(t.x, t.y, t.w, t.h)
    ensures t.id in cache ==>
      var c := cache[t.id];
      && r.0.x - t.x == 0.8 * (c.x - t.x)
      && r.0.y - t.y == 0.8 * (c.y - t.y)
      && r.0.w - t.w == 0.85 * (c.w - t.w)
      && r.0.h - t.h == 0.85 * (c.h - t.h)
  {
    var cur := Start(cache, t);
    var next := Box(
      Approach(cur.x, t.x, POSITION_RATE),
      Approach(cur.y, t.y, POSITION_RATE),
      Approach(cur.w, t.w, SIZE_RATE),
      Approach(cur.h, t.h, SIZE_RATE));
    (next, cache[t.id := next])
  }

  /** Each coordinate of the drawn box lies between the remembered one and
      the target's. */
  lemma SmoothStepBetween(cache: Cache, t: Target)
    requires t.id in cache
    ensures var c := cache[t.id];
      var b := SmoothStep(cache, t).0;
      && Between(b.x, c.x, t.x) && Between(b.y, c.y, t.y)
      && Between(b.w, c.w, t.w) && Between(b.h, c.h, t.h)
  {
    var c := cache[t.id];
    ApproachBetween(c.x, t.x, POSITION_RATE);
    ApproachBetween(c.y, t.y, POSITION_RATE);
    ApproachBetween(c.w, t.w, SIZE_RATE);
    ApproachBetween(c.h, t.h, SIZE_RATE);
  }

  /** A box already at the target stays there. */
  lemma AtTargetIsFixed(cache: Cache, t: Target)
    requires t.id in cache && cache[t.id] == Box(t.x, t.y, t.w, t.h)
    ensures SmoothStep(cache, t).0 == cache[t.id]
    ensures SmoothStep(cache, t).1 == cache
  {
  }

  /** One pass of the render callback over the target list, in list order:
      the boxes drawn and the cache left behind. */
  function SmoothAll(cache: Cache, ts: seq<Target>): (r: (seq<Box>, Cache))
    ensures |r.0| == |ts|
    decreases |ts|
  {
    if ts == [] then ([], cache)
    else
      var before := SmoothAll(cache, ts[..|ts| - 1]);
      var step := SmoothStep(before.1, ts[|ts| - 1]);
      (before.0 + [step.0], step.1)
  }

  /** The pass over a non-empty list is the pass over all but its last
      entry, followed by one step for the last entry. */
  lemma SmoothAllSnoc(cache: Cache, ts: seq<Target>)
    requires ts != []
    ensures var before := SmoothAll(cache, ts[..|ts| - 1]);
      var step := SmoothStep(before.1, ts[|ts| - 1]);
      SmoothAll(cache, ts) == (before.0 + [step.0], step.1)
  {
  }

  /** The cache after the pass knows exactly the ids it knew before and the
      listed ones. */
  lemma {:induction false} SmoothAllKeys(cache: Cache, ts: seq<Target>)
    ensures SmoothAll(cache, ts).1.Keys == cache.Keys + Ids(ts)
    decreases |ts|
  {
    if ts != [] {
      SmoothAllKeys(cache, ts[..|ts| - 1]);
      SmoothAllSnoc(cache, ts);
      IdsSnoc(ts);
    }
  }

  /** Entry `i` is drawn from the cache the entries before it left behind. */
  lemma {:induction false} SmoothAllDrawsAt(cache: Cache, ts: seq<Target>, i: nat)
    requires i < |ts|
    ensures SmoothAll(cache, ts).0[i] == SmoothStep(SmoothAll(cache, ts[..i]).1, ts[i]).0
    decreases |ts|
  {
    var init := ts[..|ts| - 1];
    var before := SmoothAll(cache, init);
    var step := SmoothStep(before.1, ts[|ts| - 1]);
    SmoothAllSnoc(cache, ts);
    if i < |init| {
      SmoothAllDrawsAt(cache, init, i);
      PrefixOfPrefix(ts, |ts| - 1, i);
      IndexInFront(before.0, [step.0], i);
    } else {
      assert ts[..i] == init;
    }
  }

  /** The same, for every entry of the list at once. */
  lemma SmoothAllDraws(cache: Cache, ts: seq<Target>)
    ensures forall i :: 0 <= i < |ts| ==>
      SmoothAll(cache, ts).0[i] == SmoothStep(SmoothAll(cache, ts[..i]).1, ts[i]).0
  {
    forall i | 0 <= i < |ts|
      ensures SmoothAll(cache, ts).0[i] == SmoothStep(SmoothAll(cache, ts[..i]).1, ts[i]).0
    {
      SmoothAllDrawsAt(cache, ts, i);
    }
  }

  /** After the pass the cache holds, for every listed id, the box drawn for
      its last entry, and leaves every unlisted id as it was. */
  lemma {:induction false} SmoothAllCache(cache: Cache, ts: seq<Target>)
    ensures var r := SmoothAll(cache, ts);
      && (forall id, i :: IsLastAt(ts, id, i) ==> id in r.1 && r.1[id] == r.0[i])
      && (forall id :: id in cache && id !in Ids(ts) ==> id in r.1 && r.1[id] == cache[id])
    decreases |ts|
  {
    if ts != [] {
      var init := ts[..|ts| - 1];
      var last := ts[|ts| - 1];
      SmoothAllCache(cache, init);
      SmoothAllSnoc(cache, ts);
      IdsSnoc(ts);
      forall id, i | IsLastAt(ts, id, i) && i < |init|
        ensures IsLastAt(init, id, i) && id != last.id
      {
      }
    }
  }

  function Pow(b: real, n: nat): real {
    if n == 0 then 1.0 else b * Pow(b, n - 1)
  }

  /** The gap `g` scaled by `k` once per step, for `n` steps. */
  function Shrunk(g: real, k: real, n: nat): real {
    if n == 0 then g else k * Shrunk(g, k, n - 1)
  }

  /** Scaling `n` times by `k` is scaling once by `k^n`. */
  lemma {:induction false} ShrunkIsPow(g: real, k: real, n: nat)
    ensures Shrunk(g, k, n) == Pow(k, n) * g
  {
    if n > 0 {
      ShrunkIsPow(g, k, n - 1);
      var p := Pow(k, n - 1);
      assert k * (p * g) == (k * p) * g;
    }
  }

  /** The cache after the same target is smoothed `n` times in a row. */
  function Repeat(cache: Cache, t: Target, n: nat): (r: Cache)
    ensures t.id in cache ==> t.id in r
  {
    if n == 0 then cache else SmoothStep(Repeat(cache, t, n - 1), t).1
  }

  /** `n` easing steps of one coordinate towards a fixed goal. */
  function Eased(v: real, goal: real, rate: real, n: nat): real
    requires 0.0 <= rate <= 1.0
  {
    if n == 0 then v else Approach(Eased(v, goal, rate, n - 1), goal, rate)
  }

  /** After `n` steps the signed gap is the first one scaled `n` times by
      `k = 1 - rate`. */
  lemma {:induction false} EasedGap(v: real, goal: real, rate: real, k: real, n: nat)
    requires 0.0 <= rate <= 1.0 && k == 1.0 - rate
    ensures Eased(v, goal, rate, n) - goal == Shrunk(v - goal, k, n)
  {
    if n > 0 {
      EasedGap(v, goal, rate, k, n - 1);
    }
  }

  /** Smoothing a still target `n` times eases each coordinate `n` times. */
  lemma {:induction false} RepeatEases(cache: Cache, t: Target, n: nat)
    requires t.id in cache
    ensures var c0 := cache[t.id];
      Repeat(cache, t, n)[t.id] == Box(
        Eased(c0.x, t.x, POSITION_RATE, n), Eased(c0.y, t.y, POSITION_RATE, n),
        Eased(c0.w, t.w, SIZE_RATE, n), Eased(c0.h, t.h, SIZE_RATE, n))
  {
    if n > 0 {
      RepeatEases(cache, t, n - 1);
      var before := Repeat(cache, t, n - 1);
      assert Repeat(cache, t, n)[t.id] == SmoothStep(before, t).0;
    }
  }

  /** Against a still target the signed gap shrinks geometrically: after
      `n` smoothing steps it is the first gap scaled `n` times by 0.8
      (position) or 0.85 (size), that is 0.8^n or 0.85^n of it
      (`ShrunkIsPow`). */
  lemma {:induction false} GapAfterSteps(cache: Cache, t: Target, n: nat)
    requires t.id in cache
    ensures var c0 := cache[t.id];
      var c := Repeat(cache, t, n)[t.id];
      && c.x - t.x == Shrunk(c0.x - t.x, 0.8, n)
      && c.y - t.y == Shrunk(c0.y - t.y, 0.8, n)
      && c.w - t.w == Shrunk(c0.w - t.w, 0.85, n)
      && c.h - t.h == Shrunk(c0.h - t.h, 0.85, n)
  {
    var c0 := cache[t.id];
    RepeatEases(cache, t, n);
    EasedGap(c0.x, t.x, POSITION_RATE, 0.8, n);
    EasedGap(c0.y, t.y, POSITION_RATE, 0.8, n);
    EasedGap(c0.w, t.w, SIZE_RATE, 0.85, n);
    EasedGap(c0.h, t.h, SIZE_RATE, 0.85, n);
  }
}
