/** The updaters the application applies to its `targets` state, each as a
    pure function from the previous list to the next one:
    the per-frame merge of fresh detections (App.tsx:190), the upsert of a
    target received from a peer (App.tsx:131-135) and the creation of an
    AI mark (App.tsx:305-313). The clock and the operator id are inputs. */
module TargetList {
  import opened JsValues
  import opened Targets
  import opened Seqs
  import opened Detection
  import Decimal

  /** How long a peer's target outlives its last update, in milliseconds. */
  const REMOTE_TTL_MS: int := 3500

  /** A previous entry survives a detection frame when another operator
      owns it and it is younger than the time-to-live. */
  predicate SurvivesFrame(t: Target, myId: string, now: int) {
    !IsLocal(t, myId) && now - t.timestamp < REMOTE_TTL_MS
  }

  function Survivor(myId: string, now: int): Target -> bool {
    t => SurvivesFrame(t, myId, now)
  }

  /** The per-frame merge: surviving entries in their old order, then the
      new batch in detector order. */
  function MergeLocal(prev: seq<Target>, batch: seq<Target>, myId: string, now: int): (r: seq<Target>)
    ensures |batch| <= |r| <= |prev| + |batch|
    ensures r[|r| - |batch|..] == batch
    ensures forall i :: 0 <= i < |r| - |batch| ==> SurvivesFrame(r[i], myId, now)
    ensures forall t :: t in prev && SurvivesFrame(t, myId, now) ==> t in r[..|r| - |batch|]
    ensures IsSubsequence(r[..|r| - |batch|], prev)
    ensures forall t :: multiset(r)[t] ==
                        (if SurvivesFrame(t, myId, now) then multiset(prev)[t] else 0) + multiset(batch)[t]
  {
    var kept := Filter(prev, Survivor(myId, now));
    FilterCounts(prev, Survivor(myId, now));
    FilterSubsequence(prev, Survivor(myId, now));
    var r := kept + batch;
    assert r[..|kept|] == kept && r[|kept|..] == batch;
    r
  }

  /** No entry this operator owned before the frame survives it: every
      local entry afterwards comes from the new batch. */
  lemma MergeReplacesAllLocal(prev: seq<Target>, batch: seq<Target>, myId: string, now: int)
    ensures forall t :: t in MergeLocal(prev, batch, myId, now) && IsLocal(t, myId) ==> t in batch
  {
    var r := MergeLocal(prev, batch, myId, now);
    forall t | t in r && IsLocal(t, myId)
      ensures t in batch
    {
      assert multiset(r)[t] == multiset(batch)[t];
    }
  }

  const TARGET_UPDATE: string := "TARGET_UPDATE"

  /** The type tag of any peer message other than a target update. */
  type OtherKind = k: string | k != TARGET_UPDATE witness ""

  /** A message a peer sends over a data channel: a `TARGET_UPDATE`
      carrying a target, or a message of any other type. */
  datatype PeerMessage = TargetUpdate(target: Target) | OtherPeerMessage(kind: OtherKind)

  function OtherId(id: string): Target -> bool {
    (t: Target) => t.id != id
  }

  /** Replace whatever entry has the incoming id by the incoming target,
      stamped with the local clock and moved to the end. */
  function UpsertById(prev: seq<Target>, incoming: Target, now: int): (r: seq<Target>)
    ensures |r| >= 1 && r[|r| - 1] == incoming.(timestamp := now)
    ensures forall i :: 0 <= i < |r| - 1 ==> r[i].id != incoming.id
    ensures IsSubsequence(r[..|r| - 1], prev)
    ensures forall t :: t in prev && t.id != incoming.id ==> t in r
    ensures forall t: Target :: t.id != incoming.id ==> multiset(r)[t] == multiset(prev)[t]
  {
    var kept := Filter(prev, OtherId(incoming.id));
    FilterCounts(prev, OtherId(incoming.id));
    FilterSubsequence(prev, OtherId(incoming.id));
    var r := kept + [incoming.(timestamp := now)];
    assert r[..|r| - 1] == kept;
    r
  }

  /** Receiving the same update twice at the same instant changes nothing
      the second time. */
  lemma UpsertIdempotent(prev: seq<Target>, incoming: Target, now: int)
    ensures UpsertById(UpsertById(prev, incoming, now), incoming, now) == UpsertById(prev, incoming, now)
  {
    var p := OtherId(incoming.id);
    var kept := Filter(prev, p);
    var stamped := incoming.(timestamp := now);
    var once := UpsertById(prev, incoming, now);
    assert once == kept + [stamped];
    assert Filter([stamped], p) == [] by {
      assert !p(stamped);
      assert [stamped][1..] == [];
    }
    calc {
      Filter(once, p);
      { FilterAppend(kept, [stamped], p); }
      Filter(kept, p) + Filter([stamped], p);
      { FilterIdempotent(prev, p); }
      kept;
    }
  }

  /** Any later update for an id leaves exactly one entry with that id. */
  lemma UpsertLeavesOneEntry(prev: seq<Target>, incoming: Target, now: int)
    ensures var r := UpsertById(prev, incoming, now);
      forall i, j :: 0 <= i < |r| && 0 <= j < |r| && r[i].id == incoming.id && r[j].id == incoming.id ==> i == j
  {
  }

  /** Only target updates change the list. */
  function HandlePeerMessage(prev: seq<Target>, msg: PeerMessage, now: int): (r: seq<Target>)
    ensures msg.OtherPeerMessage? ==> r == prev
    ensures msg.TargetUpdate? ==> r == UpsertById(prev, msg.target, now)
  {
    match msg
    case TargetUpdate(t) => UpsertById(prev, t, now)
    case OtherPeerMessage(_) => prev
  }

  /** The arguments of the agent's `markTarget` call; `label`, `x` and `y`
      are required by its declaration, the rest may be absent. */
  datatype MarkArgs = MarkArgs(
    markLabel: string,
    x: real,
    y: real,
    distance: Option<real>,
    threatLevel: Option<Threat>)

  const AI_MARK_SIZE: real := 10.0
  const DEFAULT_AI_DISTANCE: real := 3.0
  const AI_ID_PREFIX: string := "AI-"

  /** The target a `markTarget` call creates. The source reads the clock
      twice: `idClock` is the reading that names the mark, `stampClock` the
      one stored as its timestamp. */
  function AiMark(args: MarkArgs, myId: string, idClock: int, stampClock: int): (t: Target)
    ensures |t.id| > 3 && t.id[..3] == AI_ID_PREFIX
    ensures (Decimal.IntToString(idClock) == t.id[3..]) && Decimal.ParseInt(t.id[3..]) == idClock
    ensures t.displayLabel == ToUpper(args.markLabel)
    ensures t.x == args.x && t.y == args.y && t.w == AI_MARK_SIZE && t.h == AI_MARK_SIZE
    ensures t.kind == AI_MARK && Flag(t.isAiMarked) && IsLocal(t, myId) && t.timestamp == stampClock
    ensures args.threatLevel.None? ==> t.threatLevel == Low
    ensures args.threatLevel.Some? ==> t.threatLevel == args.threatLevel.value
    ensures t.distance.Some? && t.distance.value != 0.0
    ensures TruthyReal(args.distance) ==> t.distance == args.distance
    ensures !TruthyReal(args.distance) ==> t.distance == Some(DEFAULT_AI_DISTANCE)
  {
    var id := AI_ID_PREFIX + Decimal.IntToString(idClock);
    assert id[3..] == Decimal.IntToString(idClock);
    Decimal.ParseIntToString(idClock);
    Target(
      id := id,
      displayLabel := ToUpper(args.markLabel),
      x := args.x,
      y := args.y,
      w := AI_MARK_SIZE,
      h := AI_MARK_SIZE,
      threatLevel := if args.threatLevel.Some? then args.threatLevel.value else Low,
      kind := AI_MARK,
      timestamp := stampClock,
      isAiMarked := Some(true),
      distance := Some(RealOr(args.distance, DEFAULT_AI_DISTANCE)),
      ownerId := Some(myId))
  }

  /** `markTarget` appends; it never replaces an entry. */
  function MarkTarget(prev: seq<Target>, args: MarkArgs, myId: string, idClock: int, stampClock: int): (r: seq<Target>)
    ensures |r| == |prev| + 1
    ensures r[..|prev|] == prev
    ensures r[|prev|] == AiMark(args, myId, idClock, stampClock)
  {
    prev + [AiMark(args, myId, idClock, stampClock)]
  }

  /** Marking the same label twice at two instants yields two entries with
      different ids: there is no update-in-place. */
  lemma RemarkAddsSecondEntry(prev: seq<Target>, args: MarkArgs, myId: string, t1: int, s1: int, t2: int, s2: int)
    requires t1 != t2
    ensures var r := MarkTarget(MarkTarget(prev, args, myId, t1, s1), args, myId, t2, s2);
      |r| == |prev| + 2 && r[|prev|].id != r[|prev| + 1].id
  {
    var a := AiMark(args, myId, t1, s1);
    var b := AiMark(args, myId, t2, s2);
    Decimal.IntToStringInjective(t1, t2);
    assert a.id[3..] != b.id[3..];
  }

  /** Two marks named in the same millisecond (two `markTarget` calls of one
      tool-call batch, say) share their id, whatever they mark: a peer that
      upserts both keeps only the second. */
  lemma SameMillisecondMarksCollide(prev: seq<Target>, a1: MarkArgs, a2: MarkArgs, myId: string,
                                    clock: int, s1: int, s2: int, n1: int, n2: int)
    ensures var m1 := AiMark(a1, myId, clock, s1);
      var m2 := AiMark(a2, myId, clock, s2);
      var r := UpsertById(UpsertById(prev, m1, n1), m2, n2);
      && m1.id == m2.id
      && r[|r| - 1] == m2.(timestamp := n2)
      && forall i :: 0 <= i < |r| - 1 ==> r[i].id != m1.id
  {
    var m1 := AiMark(a1, myId, clock, s1);
    var m2 := AiMark(a2, myId, clock, s2);
    assert m1.id == AI_ID_PREFIX + Decimal.IntToString(clock) == m2.id;
  }

  /** An AI mark is owned by this operator, so the next detection frame
      drops it whatever the detector sees. */
  lemma NextFrameDropsAiMark(prev: seq<Target>, args: MarkArgs, myId: string, idClock: int, stampClock: int,
                             ps: seq<Prediction>, f: Frame, later: int)
    requires ValidFrame(f)
    ensures AiMark(args, myId, idClock, stampClock) !in
      MergeLocal(MarkTarget(prev, args, myId, idClock, stampClock), FromPredictions(ps, f, myId, later), myId, later)
  {
    var batch := FromPredictions(ps, f, myId, later);
    MergeReplacesAllLocal(MarkTarget(prev, args, myId, idClock, stampClock), batch, myId, later);
  }
}
