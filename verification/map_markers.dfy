/** The marker layer of the tactical map (components/TacticalMap3D.tsx):
    three maps keyed by target id — the marker sphere, its text label and,
    for AI-marked targets, a glow sphere — brought in line with the current
    target list on every update, and the lookup of the terrain height under
    a marker. Scene objects are opaque handles; the polar placement of a
    marker (`atan2`, `cos`, `sin`) is floating-point and its result is an
    input here. */
module MapMarkers {
  import opened JsValues
  import opened Targets
  import opened Decimal

  datatype Color = Orange | White | Cyan

  /** A sphere, with the attributes the update sets on it. */
  datatype Mesh = Mesh(handle: nat, color: Color, radius: real)

  datatype Label = Label(handle: nat, text: string, color: Color)

  datatype Glow = Glow(handle: nat, radius: real)

  /** The three maps, and the next fresh handle for a created object. */
  datatype Scene = Scene(meshes: map<string, Mesh>, labels: map<string, Label>, glows: map<string, Glow>, next: nat)

  const EmptyScene: Scene := Scene(map[], map[], map[], 0)

  /** Labels and glows only exist next to a marker sphere. */
  predicate WellFormed(s: Scene) {
    s.labels.Keys <= s.meshes.Keys && s.glows.Keys <= s.meshes.Keys
  }

  /** `target.isAiMarked ? ORANGE : (isLocal ? WHITE : CYAN)`. */
  function MarkerColor(t: Target, myId: string): (c: Color)
    ensures c == Orange <==> Flag(t.isAiMarked)
    ensures c == White <==> !Flag(t.isAiMarked) && IsLocal(t, myId)
    ensures c == Cyan <==> !Flag(t.isAiMarked) && !IsLocal(t, myId)
  {
    if Flag(t.isAiMarked) then Orange else if IsLocal(t, myId) then White else Cyan
  }

  /** `target.distance ? Math.max(0.5, 3 - distance / 10) : 1`. */
  function SizeMultiplier(distance: Option<real>): (k: real)
    ensures k >= 0.5
    ensures !TruthyReal(distance) ==> k == 1.0
    ensures TruthyReal(distance) && distance.value <= 0.0 ==> k >= 3.0
  {
    if TruthyReal(distance) then Max(0.5, 3.0 - distance.value / 10.0) else 1.0
  }

  /** Nearer targets get spheres at least as large. */
  lemma SizeAntitone(a: real, b: real)
    requires a != 0.0 && b != 0.0 && a <= b
    ensures SizeMultiplier(Some(b)) <= SizeMultiplier(Some(a))
  {
    assert b / 10.0 >= a / 10.0;
  }

  function Radius(t: Target): real {
    1.5 * SizeMultiplier(t.distance)
  }

  /** `${label} (${Math.round(distance || 5)}m)`. */
  function LabelText(t: Target): (text: string)
    ensures |text| > |t.displayLabel| + 4
    ensures text[..|t.displayLabel|] == t.displayLabel
  {
    t.displayLabel + " (" + IntToString(Round(RealOr(t.distance, 5.0))) + "m)"
  }

  /** The label reads back as the target's label and its rounded distance,
      five metres when the distance is missing or zero. */
  lemma LabelTextReadsBack(t: Target)
    ensures var text := LabelText(t);
      var n := |t.displayLabel|;
      var digits := text[n + 2 .. |text| - 2];
      && text[n .. n + 2] == " ("
      && text[|text| - 2 ..] == "m)"
      && |digits| >= 1 && (IsDigits(digits) || (digits[0] == '-' && IsDigits(digits[1..])))
      && ParseInt(digits) == Round(RealOr(t.distance, 5.0))
  {
    var d := Round(RealOr(t.distance, 5.0));
    var text := LabelText(t);
    var n := |t.displayLabel|;
    assert text[n + 2 .. |text| - 2] == IntToString(d);
    ParseIntToString(d);
  }

  /** The last target in `ts` with this id: the one whose values the maps
      end up holding. */
  function LastOf(ts: seq<Target>, id: string): (r: Option<Target>)
    ensures r.Some? <==> id in Ids(ts)
    ensures r.Some? ==> exists i :: IsLastAt(ts, id, i) && ts[i] == r.value
    decreases |ts|
  {
    if ts == [] then None
    else
      var last := ts[|ts| - 1];
      IdsSnoc(ts);
      if last.id == id then
        assert IsLastAt(ts, id, |ts| - 1);
        Some(last)
      else
        var init := ts[..|ts| - 1];
        var r := LastOf(init, id);
        if r.Some? then LastAtExtends(ts, init, id, r.value); r else r
  }

  /** A last occurrence before a final element with another id is still
      the last occurrence once that element is appended. */
  lemma LastAtExtends(ts: seq<Target>, init: seq<Target>, id: string, v: Target)
    requires ts != [] && init == ts[..|ts| - 1] && ts[|ts| - 1].id != id
    requires exists i :: IsLastAt(init, id, i) && init[i] == v
    ensures exists i :: IsLastAt(ts, id, i) && ts[i] == v
  {
    var i :| IsLastAt(init, id, i) && init[i] == v;
    assert forall j :: 0 <= j < |init| ==> init[j] == ts[j];
    assert IsLastAt(ts, id, i);
  }

  /** The ids that keep a glow after a pass: those whose last occurrence is
      AI-marked. */
  function GlowIds(ts: seq<Target>): (r: set<string>)
    ensures r <= Ids(ts)
  {
    set id | id in Ids(ts) && Flag(LastOf(ts, id).value.isAiMarked)
  }

  /** The removal loop: every marker whose id is gone is dropped, with its
      label and glow. */
  function RemoveAbsent(s: Scene, ids: set<string>): (r: Scene)
    ensures r.meshes.Keys == s.meshes.Keys * ids
    ensures forall id :: id in r.meshes ==> r.meshes[id] == s.meshes[id]
    ensures forall id :: id in r.labels ==> id in s.labels && r.labels[id] == s.labels[id]
    ensures forall id :: id in r.glows ==> id in s.glows && r.glows[id] == s.glows[id]
    ensures WellFormed(s) ==> WellFormed(r) && r.labels.Keys <= ids && r.glows.Keys <= ids
    ensures forall id :: id in ids && id in s.labels ==> id in r.labels
    ensures forall id :: id in ids && id in s.glows ==> id in r.glows
    ensures r.next == s.next
  {
    var gone := s.meshes.Keys - ids;
    Scene(map id | id in s.meshes && id in ids :: s.meshes[id], s.labels - gone, s.glows - gone, s.next)
  }

  /** The body of `targets.forEach` for one target: create or update its
      sphere, create, update or drop its glow, create or update its label. */
  function Apply(s: Scene, t: Target, myId: string): (r: Scene)
    ensures r.meshes.Keys == s.meshes.Keys + {t.id}
    ensures r.labels.Keys == s.labels.Keys + {t.id}
    ensures r.glows.Keys == if Flag(t.isAiMarked) then s.glows.Keys + {t.id} else s.glows.Keys - {t.id}
    ensures r.meshes[t.id].color == MarkerColor(t, myId) && r.meshes[t.id].radius == Radius(t)
    ensures r.labels[t.id].text == LabelText(t) && r.labels[t.id].color == MarkerColor(t, myId)
    ensures t.id in s.meshes ==> r.meshes[t.id].handle == s.meshes[t.id].handle
    ensures t.id in s.labels ==> r.labels[t.id].handle == s.labels[t.id].handle
    ensures r.next >= s.next
  {
    var color := MarkerColor(t, myId);
    var radius := Radius(t);
    var mesh := if t.id in s.meshes then Mesh(s.meshes[t.id].handle, color, radius) else Mesh(s.next, color, radius);
    var n1 := if t.id in s.meshes then s.next else s.next + 1;
    var glows :=
      if !Flag(t.isAiMarked) then s.glows - {t.id}
      else if t.id in s.glows then s.glows[t.id := Glow(s.glows[t.id].handle, radius * 1.5)]
      else s.glows[t.id := Glow(n1, radius * 1.5)];
    var n2 := if Flag(t.isAiMarked) && t.id !in s.glows then n1 + 1 else n1;
    var text := LabelText(t);
    var lbl := if t.id in s.labels then Label(s.labels[t.id].handle, text, color) else Label(n2, text, color);
    var n3 := if t.id in s.labels then n2 else n2 + 1;
    Scene(s.meshes[t.id := mesh], s.labels[t.id := lbl], glows, n3)
  }

  /** The sphere, label and glow of every other id are left alone. */
  lemma ApplyOthers(s: Scene, t: Target, myId: string)
    ensures var r := Apply(s, t, myId);
      && (forall id :: id != t.id && id in s.meshes ==> r.meshes[id] == s.meshes[id])
      && (forall id :: id != t.id && id in s.labels ==> r.labels[id] == s.labels[id])
      && (forall id :: id != t.id && id in s.glows ==> r.glows[id] == s.glows[id])
  {
  }

  /** The forEach loop over the targets, in list order. */
  function ApplyAll(s: Scene, ts: seq<Target>, myId: string): (r: Scene)
    ensures r.next >= s.next
    decreases |ts|
  {
    if ts == [] then s else Apply(ApplyAll(s, ts[..|ts| - 1], myId), ts[|ts| - 1], myId)
  }

  /** Every listed id gets a sphere and a label, and no other id does. */
  lemma {:induction false} ApplyAllKeys(s: Scene, ts: seq<Target>, myId: string)
    ensures var r := ApplyAll(s, ts, myId);
      && r.meshes.Keys == s.meshes.Keys + Ids(ts)
      && r.labels.Keys == s.labels.Keys + Ids(ts)
    decreases |ts|
  {
    if ts == [] {
      assert Ids(ts) == {};
    } else {
      var init := ts[..|ts| - 1];
      assert ApplyAll(s, ts, myId) == Apply(ApplyAll(s, init, myId), ts[|ts| - 1], myId);
      ApplyAllKeys(s, init, myId);
      IdsSnoc(ts);
    }
  }

  /** Spheres and labels that already existed keep their handle, and the
      spheres of unlisted ids are left alone. */
  lemma {:induction false} ApplyAllKeeps(s: Scene, ts: seq<Target>, myId: string)
    ensures var r := ApplyAll(s, ts, myId);
      && (forall id :: id in s.meshes ==> id in r.meshes && r.meshes[id].handle == s.meshes[id].handle)
      && (forall id :: id in s.labels ==> id in r.labels && r.labels[id].handle == s.labels[id].handle)
      && (forall id :: id !in Ids(ts) && id in s.meshes ==> r.meshes[id] == s.meshes[id])
    decreases |ts|
  {
    if ts != [] {
      var init := ts[..|ts| - 1];
      assert ApplyAll(s, ts, myId) == Apply(ApplyAll(s, init, myId), ts[|ts| - 1], myId);
      ApplyAllKeeps(s, init, myId);
      ApplyOthers(ApplyAll(s, init, myId), ts[|ts| - 1], myId);
      IdsSnoc(ts);
    }
  }

  /** A glow exists exactly for the listed ids whose last occurrence is
      AI-marked, plus the unlisted ids that already had one. */
  lemma {:induction false} ApplyAllGlows(s: Scene, ts: seq<Target>, myId: string)
    ensures ApplyAll(s, ts, myId).glows.Keys == (s.glows.Keys - Ids(ts)) + GlowIds(ts)
    decreases |ts|
  {
    if ts == [] {
      assert Ids(ts) == {};
      assert GlowIds(ts) == {};
    } else {
      var init := ts[..|ts| - 1];
      var t := ts[|ts| - 1];
      ApplyAllGlows(s, init, myId);
      ApplyOthers(ApplyAll(s, init, myId), t, myId);
      IdsSnoc(ts);
      GlowIdsSnoc(ts);
    }
  }

  lemma GlowIdsSnoc(ts: seq<Target>)
    requires ts != []
    ensures var t := ts[|ts| - 1];
      GlowIds(ts) == if Flag(t.isAiMarked) then GlowIds(ts[..|ts| - 1]) + {t.id} else GlowIds(ts[..|ts| - 1]) - {t.id}
  {
    var init := ts[..|ts| - 1];
    var t := ts[|ts| - 1];
    var want := if Flag(t.isAiMarked) then GlowIds(init) + {t.id} else GlowIds(init) - {t.id};
    IdsSnoc(ts);
    forall id
      ensures id in GlowIds(ts) <==> id in want
    {
      LastOfSnoc(ts, id);
      if id != t.id {
        assert id in Ids(ts) <==> id in Ids(init);
      }
    }
  }

  /** The sphere and label of `id` show target `t`. */
  predicate Displays(r: Scene, id: string, t: Target, myId: string) {
    && id in r.meshes && id in r.labels
    && r.meshes[id].color == MarkerColor(t, myId)
    && r.meshes[id].radius == Radius(t)
    && r.labels[id].text == LabelText(t)
  }

  /** Appending a target makes it the last occurrence of its id and leaves
      the last occurrence of every other id alone. */
  lemma LastOfSnoc(ts: seq<Target>, id: string)
    requires ts != []
    ensures ts[|ts| - 1].id == id ==> LastOf(ts, id) == Some(ts[|ts| - 1])
    ensures ts[|ts| - 1].id != id ==> LastOf(ts, id) == LastOf(ts[..|ts| - 1], id)
  {
  }

  /** Each listed id's sphere and label carry the values of its last
      occurrence. */
  lemma {:induction false} ApplyAllValues(s: Scene, ts: seq<Target>, myId: string)
    ensures var r := ApplyAll(s, ts, myId);
      forall id :: id in Ids(ts) ==> Displays(r, id, LastOf(ts, id).value, myId)
    decreases |ts|
  {
    if ts != [] {
      var init := ts[..|ts| - 1];
      var t := ts[|ts| - 1];
      var before := ApplyAll(s, init, myId);
      var r := Apply(before, t, myId);
      assert r == ApplyAll(s, ts, myId);
      ApplyAllValues(s, init, myId);
      ApplyOthers(before, t, myId);
      IdsSnoc(ts);
      forall id | id in Ids(ts)
        ensures Displays(r, id, LastOf(ts, id).value, myId)
      {
        LastOfSnoc(ts, id);
        if id != t.id {
          assert Displays(before, id, LastOf(init, id).value, myId);
        }
      }
    }
  }

  /** One run of the update effect: removal, then the loop. The marker
      spheres end up keyed by exactly the listed ids. */
  function Reconcile(s: Scene, ts: seq<Target>, myId: string): (r: Scene)
    ensures r.meshes.Keys == Ids(ts)
  {
    var kept := RemoveAbsent(s, Ids(ts));
    ApplyAllKeys(kept, ts, myId);
    ApplyAll(kept, ts, myId)
  }

  /** From a well-formed scene, labels are keyed by exactly the listed ids
      and glows by exactly those whose last occurrence is AI-marked. */
  lemma ReconcileKeys(s: Scene, ts: seq<Target>, myId: string)
    requires WellFormed(s)
    ensures var r := Reconcile(s, ts, myId);
      && r.labels.Keys == Ids(ts)
      && r.glows.Keys == GlowIds(ts)
      && WellFormed(r)
  {
    var ids := Ids(ts);
    var kept := RemoveAbsent(s, ids);
    var r := ApplyAll(kept, ts, myId);
    assert r == Reconcile(s, ts, myId);
    LabelsFollow(kept, ts, ids, myId);
    GlowsFollow(kept, ts, ids, myId);
  }

  lemma LabelsFollow(kept: Scene, ts: seq<Target>, ids: set<string>, myId: string)
    requires ids == Ids(ts) && kept.labels.Keys <= ids
    ensures ApplyAll(kept, ts, myId).labels.Keys == ids
  {
    ApplyAllKeys(kept, ts, myId);
  }

  lemma GlowsFollow(kept: Scene, ts: seq<Target>, ids: set<string>, myId: string)
    requires ids == Ids(ts) && kept.glows.Keys <= ids
    ensures ApplyAll(kept, ts, myId).glows.Keys == GlowIds(ts)
  {
    ApplyAllGlows(kept, ts, myId);
    assert kept.glows.Keys - ids == {};
  }

  /** After a pass each sphere and label shows its target's last
      occurrence, and a target that already had a sphere keeps it. */
  lemma ReconcileValues(s: Scene, ts: seq<Target>, myId: string, id: string)
    requires id in Ids(ts)
    ensures var r := Reconcile(s, ts, myId);
      && Displays(r, id, LastOf(ts, id).value, myId)
      && (id in s.meshes ==> r.meshes[id].handle == s.meshes[id].handle)
  {
    var kept := RemoveAbsent(s, Ids(ts));
    ApplyAllKeeps(kept, ts, myId);
    ApplyAllValues(kept, ts, myId);
  }

  /** Starting from the empty scene, every pass keeps the maps in step with
      the target list, however the lists change between passes. */
  lemma {:induction false} ReconcileSequence(lists: seq<seq<Target>>, myId: string)
    requires |lists| > 0
    ensures var r := Replay(EmptyScene, lists, myId);
      var ts := lists[|lists| - 1];
      && r.meshes.Keys == Ids(ts) && r.labels.Keys == Ids(ts) && r.glows.Keys == GlowIds(ts)
    decreases |lists|
  {
    var earlier := lists[..|lists| - 1];
    ReplayWellFormed(EmptyScene, earlier, myId);
    ReconcileKeys(Replay(EmptyScene, earlier, myId), lists[|lists| - 1], myId);
    assert Replay(EmptyScene, lists, myId) == Reconcile(Replay(EmptyScene, earlier, myId), lists[|lists| - 1], myId);
  }

  /** The passes one after another. */
  function Replay(s: Scene, lists: seq<seq<Target>>, myId: string): Scene
    decreases |lists|
  {
    if lists == [] then s else Reconcile(Replay(s, lists[..|lists| - 1], myId), lists[|lists| - 1], myId)
  }

  lemma {:induction false} ReplayWellFormed(s: Scene, lists: seq<seq<Target>>, myId: string)
    requires WellFormed(s)
    ensures WellFormed(Replay(s, lists, myId))
    decreases |lists|
  {
    if lists != [] {
      ReplayWellFormed(s, lists[..|lists| - 1], myId);
      ReconcileKeys(Replay(s, lists[..|lists| - 1], myId), lists[|lists| - 1], myId);
    }
  }

  // ---------------------------------------------------------------------
  // Terrain height under a marker.

  const MAP_SIZE: real := 100.0
  const SEGMENTS: nat := 64
  /** Vertices per row of the terrain plane, and rows. */
  const SIDE: nat := 65
  const VERTEX_COUNT: nat := 4225

  /** `Math.max(0, Math.min(64, Math.floor((v / MAP_SIZE + 0.5) * 64)))`:
      the grid column (or row) under map coordinate `v`. */
  function GridIndex(v: real): (r: nat)
    ensures r <= SEGMENTS
    ensures var raw := Floor((v / MAP_SIZE + 0.5) * SEGMENTS as real);
      && (0 <= raw <= SEGMENTS ==> r == raw)
      && (raw < 0 ==> r == 0)
      && (raw > SEGMENTS ==> r == SEGMENTS)
  {
    var raw := Floor((v / MAP_SIZE + 0.5) * SEGMENTS as real);
    MaxInt(0, MinInt(SEGMENTS, raw))
  }

  /** Moving further along an axis never moves to an earlier grid line. */
  lemma GridIndexMonotone(a: real, b: real)
    requires a <= b
    ensures GridIndex(a) <= GridIndex(b)
  {
    var ta := (a / MAP_SIZE + 0.5) * SEGMENTS as real;
    var tb := (b / MAP_SIZE + 0.5) * SEGMENTS as real;
    assert ta <= tb;
    FloorMonotone(ta, tb);
  }

  lemma FloorMonotone(a: real, b: real)
    requires a <= b
    ensures Floor(a) <= Floor(b)
  {
  }

  /** `yIdx * (segments + 1) + xIdx`. */
  function VertexIndex(xIdx: nat, yIdx: nat): (i: nat)
    requires xIdx <= SEGMENTS && yIdx <= SEGMENTS
    ensures i < VERTEX_COUNT
  {
    yIdx * SIDE + xIdx
  }

  /** The heightmap cell vertex `i` takes its height from:
      `(Math.floor(i / 65), i % 65)`. */
  function VertexCell(i: nat): (c: (nat, nat))
    ensures i < VERTEX_COUNT ==> c.0 < SIDE && c.1 < SIDE
  {
    var row := Floor(i as real / SIDE as real);
    QuotientFloor(i);
    (row, i % SIDE)
  }

  lemma QuotientFloor(i: nat)
    ensures Floor(i as real / SIDE as real) == i / SIDE
  {
    var q := i / SIDE;
    var m := i % SIDE;
    assert i as real / SIDE as real == q as real + m as real / SIDE as real;
  }

  /** Vertex numbering and heightmap cells are inverse to each other. */
  lemma VertexRoundTrip(xIdx: nat, yIdx: nat, i: nat)
    requires xIdx <= SEGMENTS && yIdx <= SEGMENTS && i < VERTEX_COUNT
    ensures VertexCell(VertexIndex(xIdx, yIdx)) == (yIdx, xIdx)
    ensures var c := VertexCell(i); VertexIndex(c.1, c.0) == i
  {
    var v := yIdx * SIDE + xIdx;
    assert v / SIDE == yIdx && v % SIDE == xIdx;
    QuotientFloor(v);
    QuotientFloor(i);
  }

  /** The vertex heights the terrain set-up writes: vertex `i` gets the
      height of heightmap cell `VertexCell(i)`. */
  function TerrainHeights(grid: seq<seq<real>>): (zs: seq<real>)
    requires |grid| == SIDE && forall y :: 0 <= y < SIDE ==> |grid[y]| == SIDE
    ensures |zs| == VERTEX_COUNT
  {
    seq(VERTEX_COUNT, (i: nat) requires i < VERTEX_COUNT => grid[VertexCell(i).0][VertexCell(i).1])
  }

  /** The marker's altitude `Math.max(height + 1, 1)`, where `height` is the
      vertex height under the marker when that vertex exists, else 0. */
  function MarkerAltitude(zs: seq<real>, mappedX: real, mappedZ: real): (y: real)
    ensures y >= 1.0
    ensures var i := VertexIndex(GridIndex(mappedX), GridIndex(mappedZ));
      && (i < |zs| ==> y >= zs[i] + 1.0)
      && (i >= |zs| ==> y == 1.0)
  {
    var i := VertexIndex(GridIndex(mappedX), GridIndex(mappedZ));
    var height := if i < |zs| then zs[i] else 0.0;
    Max(height + 1.0, 1.0)
  }

  /** On the generated terrain the lookup reads the heightmap cell in row
      `yIdx`, column `xIdx`, and always finds its vertex. */
  lemma AltitudeFromHeightmap(grid: seq<seq<real>>, mappedX: real, mappedZ: real)
    requires |grid| == SIDE && forall y :: 0 <= y < SIDE ==> |grid[y]| == SIDE
    ensures var x := GridIndex(mappedX);
      var z := GridIndex(mappedZ);
      MarkerAltitude(TerrainHeights(grid), mappedX, mappedZ) == Max(grid[z][x] + 1.0, 1.0)
  {
    var x := GridIndex(mappedX);
    var z := GridIndex(mappedZ);
    VertexRoundTrip(x, z, 0);
  }
}
