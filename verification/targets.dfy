/** The `Target` record shared by the HUD, the peer sync and the tactical
    map (types.ts:16-29), and the upper-casing the application applies to
    labels. */
module Targets {
  import opened JsValues

  datatype Threat = Low | Medium | High

  /** One marker. `x`, `y` are the centre and `w`, `h` the size, all as
      percentages of the video frame; `timestamp` is in milliseconds.
      `kind` is the free-form `type` string (`"OBJECT"`, `"AI_MARK"`, or
      whatever a peer sent). */
  datatype Target = Target(
    id: string,
    displayLabel: string,  // the source field `label` (a Dafny keyword)
    x: real,
    y: real,
    w: real,
    h: real,
    threatLevel: Threat,
    kind: string,
    timestamp: int,
    isAiMarked: Option<bool>,
    distance: Option<real>,
    ownerId: Option<string>)

  const OBJECT: string := "OBJECT"
  const AI_MARK: string := "AI_MARK"

  /** Owned by the operator `myId` (an absent owner is never local). */
  predicate IsLocal(t: Target, myId: string) {
    t.ownerId == Some(myId)
  }

  /** The set of ids present in a list of targets. */
  function Ids(ts: seq<Target>): set<string>
  {
    set i | 0 <= i < |ts| :: ts[i].id
  }

  /** The ids of a list are those of its last element and of the rest. */
  lemma IdsSnoc(ts: seq<Target>)
    requires ts != []
    ensures Ids(ts) == Ids(ts[..|ts| - 1]) + {ts[|ts| - 1].id}
  {
    var init := ts[..|ts| - 1];
    assert forall i :: 0 <= i < |init| ==> init[i] == ts[i];
  }

  /** The ids of a list are those of its first element and of the rest. */
  lemma IdsCons(ts: seq<Target>)
    requires ts != []
    ensures Ids(ts) == {ts[0].id} + Ids(ts[1..])
  {
    var rest := ts[1..];
    assert forall i :: 0 <= i < |rest| ==> rest[i] == ts[i + 1];
  }

  /** Slot `i` holds `id` and no later slot does: the entry whose values a
      keyed update over the list leaves behind. */
  predicate IsLastAt(ts: seq<Target>, id: string, i: int) {
    0 <= i < |ts| && ts[i].id == id && forall j :: i < j < |ts| ==> ts[j].id != id
  }

  /** `String.prototype.toUpperCase` on one character, for the ASCII,
      Latin-1 and basic Cyrillic letters. */
  function UpperChar(c: char): char {
    if 'a' <= c <= 'z' then (c as int - 32) as char
    else if '\U{00E0}' <= c <= '\U{00FE}' && c != '\U{00F7}' then (c as int - 32) as char
    else if '\U{0430}' <= c <= '\U{044F}' then (c as int - 32) as char
    else if '\U{0450}' <= c <= '\U{045F}' then (c as int - 80) as char
    else c
  }

  predicate IsLowerLetter(c: char) {
    'a' <= c <= 'z'
    || ('\U{00E0}' <= c <= '\U{00FE}' && c != '\U{00F7}')
    || '\U{0430}' <= c <= '\U{045F}'
  }

  function ToUpper(s: string): (r: string)
    ensures |r| == |s|
    ensures forall i :: 0 <= i < |s| ==> r[i] == UpperChar(s[i])
  {
    seq(|s|, i requires 0 <= i < |s| => UpperChar(s[i]))
  }

  /** Upper-casing changes exactly the lower-case letters, and only once. */
  lemma UpperCharSpec(c: char)
    ensures UpperChar(c) != c <==> IsLowerLetter(c)
    ensures !IsLowerLetter(UpperChar(c))
  {
  }

  lemma ToUpperIdempotent(s: string)
    ensures ToUpper(ToUpper(s)) == ToUpper(s)
  {
    forall i | 0 <= i < |s|
      ensures ToUpper(ToUpper(s))[i] == ToUpper(s)[i]
    {
      UpperCharSpec(s[i]);
    }
  }
}
