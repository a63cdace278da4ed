# Tactical HUD core in Dafny

A model, with proofs, of the deterministic core of a browser "tactical HUD".
The application detects objects in a camera feed, keeps a shared list of
targets, and syncs that list between operators through a small signalling
server. It also draws the targets on a 3D terrain map built from seeded
simplex noise. The model covers four parts:

- **The target-list updaters of `App.tsx`.** Each is a pure function from
  the previous list to the next one:
  - the mapping of a detector prediction to a target (`Detection`);
  - the per-frame merge of fresh detections and the peer upsert by id
    (`TargetList`);
  - the creation of an AI mark;
  - the per-id render smoothing (`Smoothing`);
  - the bounded log (`LogBuffer`).

  Clock readings, the operator id and the frame size are parameters.
- **The terrain generator `services/Heightmap.js`.**
  - `HeightmapRandom`: the seeded linear congruential generator and the
    Fisher–Yates shuffle.
  - `HeightmapPerlin`: the permutation and gradient tables, and the table
    slots a noise lookup reads.
  - `HeightmapGrid`: the min/max normalisation of the raw grid.
  - `HeightmapBlur`: the boundary-aware 3x3 box blur, and `generate` as a
    whole.
- **The signalling server `server.js`** (`Signalling`): the registry from
  room name to joined entries, the per-connection room and user id, and
  the routing of `signal` and `broadcast` messages. Sockets are abstract
  ids, and which sockets are open is an input.
- **The marker layer of `components/TacticalMap3D.tsx`** (`MapMarkers`):
  - the keyed reconciliation of the mesh, label and glow maps against the
    target list, with scene objects as opaque handles;
  - the grid-index clamping, the vertex-to-cell mapping and the marker
    altitude.

Shared pieces are in their own modules:

- `JsValues`: JavaScript `||` fallbacks, `Math.floor`, `Math.round` and
  the truncating `%`.
- `Decimal`: integers rendered in template literals, and the matching
  parser.
- `Seqs`: `Array.prototype.filter`.
- `Targets`: the `Target` record and upper-casing.

JavaScript numbers are modelled as exact reals.

Facts about the code that shape the model:

- The detection merge does no association of detections by proximity or
  label, and has no fade-out: a frame replaces every locally owned entry.
- AI-mark ids are `AI-<Date.now()>`.
- A detection's id is `<class>-<myId>`, so two detections of one class in
  one frame share an id (`Detection.SameClassSameId`).
- An AI mark is owned by the local operator, so the next detection merge
  drops it (`TargetList.NextFrameDropsAiMark`).
- The server does not echo a broadcast to its sender only while a socket
  has joined its room under a single user id (`Signalling.NoSelfBroadcast`
  and `Signalling.RejoinHearsOwnBroadcast`).

## Model

| member | source | states |
|---|---|---|
| Targets.ToUpper | App.tsx:178 | Upper-casing keeps the length, and maps every character independently to its upper-case form. |
| Targets.UpperCharSpec | App.tsx:178 | A character changes under upper-casing exactly when it is a lower-case letter, and the result is never a lower-case letter. |
| Targets.ToUpperIdempotent | App.tsx:178 | Upper-casing an upper-cased label changes nothing. |
| Detection.DistanceFromArea | App.tsx:175 | The distance heuristic is at least 0.5 m, and at most 35 m for a non-negative area. It is exactly 35 m for an empty box, and 0.5 m once the area reaches 45% of 1280x720. |
| Detection.EstimateDistance | App.tsx:173-175 | For a box of non-negative width and height the estimate lies in [0.5, 35]. |
| Detection.DistanceAntitone | App.tsx:175 | A larger area never gives a larger distance. |
| Detection.EstimateDistanceAntitone | App.tsx:173-175 | Of two boxes, the one with the larger area is estimated no farther away. |
| Detection.LabelFor | App.tsx:178 | A class that upper-cases to `PERSON` is labelled `ЧЕЛОВЕК`. Any other class is labelled with its upper-cased name, of the same length. |
| Detection.ThreatFor | App.tsx:183 | The threat is MEDIUM exactly when the class is the string `person`, and is never HIGH. |
| Detection.PercentBounds | App.tsx:179-182 | A pixel value within the frame dimension becomes a percentage in [0, 100]. |
| Detection.InsidePercents | App.tsx:179-182 | For a box inside the frame, the centre and size percentages all lie in [0, 100]. |
| Detection.FromPrediction | App.tsx:172-189 | A prediction becomes a target with: the id `<class>-<myId>`; the translated label; the class's threat; type OBJECT; no AI flag; the local operator as owner; timestamp `now`; the area heuristic's distance for its box, at least 0.5. A box inside the frame gives geometry in [0, 100] and a distance of at most 35. |
| Detection.PixelsRoundTrip | App.tsx:179-182 | Converting the target's percentages back to pixels gives the detector's box exactly, so the geometry loses nothing. |
| Detection.SameClassSameId | App.tsx:177 | Two predictions of one class in one frame get the same id. |
| Detection.CapitalisedPersonIsLowThreat | App.tsx:178-183 | The class `Person` is labelled `ЧЕЛОВЕК` but rated LOW. The label test ignores case; the threat test does not. |
| Detection.FromPredictions | App.tsx:172-189 | One target per prediction, in prediction order. Each is that prediction's mapping and is a locally owned OBJECT. |
| Seqs.Filter | App.tsx:133 | The filtered list is no longer than the input and every element passes the test. An element is in the result exactly when it is in the input and passes. |
| Seqs.FilterCounts | App.tsx:190 | Every passing element keeps its multiplicity, and every failing one disappears. |
| Seqs.FilterSubsequence | App.tsx:190 | The kept elements stay in their original order. |
| Seqs.FilterMembers | App.tsx:133 | An element is kept if and only if it was present and passes. |
| Seqs.FilterIdempotent | App.tsx:133 | Filtering a filtered list with the same test changes nothing. |
| TargetList.MergeLocal | App.tsx:190 | The merged list ends with the new batch in prediction order. Before it come, in their original order, exactly the previous entries that pass the filter (`TargetList.SurvivesFrame`: owned by another operator and younger than 3500 ms), with their multiplicities. |
| TargetList.MergeReplacesAllLocal | App.tsx:190 | After the merge, every locally owned entry comes from the new batch. |
| TargetList.UpsertById | App.tsx:133 | The incoming target is appended last, with its timestamp set to `now`. No earlier entry has its id. The other entries keep their order and their multiplicities. |
| TargetList.UpsertLeavesOneEntry | App.tsx:133 | After an upsert exactly one entry carries the incoming id. |
| TargetList.UpsertIdempotent | App.tsx:133 | Upserting the same target twice at the same time equals upserting it once. |
| TargetList.HandlePeerMessage | App.tsx:131-135 | A `TARGET_UPDATE` message upserts its target. Any other message leaves the list unchanged. |
| TargetList.AiMark | App.tsx:306-311 | An AI mark has: id `AI-` followed by the decimal form of the first clock reading, which parses back to that reading; the second clock reading as its timestamp; the upper-cased label; the given position; a 10x10 size; type AI_MARK; the AI flag set; local ownership. Its threat defaults to LOW. Its distance defaults to 3 when absent or 0, and is never 0. |
| TargetList.MarkTarget | App.tsx:312 | Marking appends exactly one target, the AI mark, and keeps the previous list as a prefix. |
| TargetList.RemarkAddsSecondEntry | App.tsx:306-312 | Marking the same object at two different times adds two entries with different ids; it never replaces. |
| TargetList.SameMillisecondMarksCollide | App.tsx:307 | Two marks named in the same millisecond share their id whatever they mark, so a peer that upserts both keeps one entry, the second mark. |
| TargetList.NextFrameDropsAiMark | App.tsx:190 | An AI mark does not survive the next detection merge, because it is owned by the local operator. |
| LogBuffer.AddLog | App.tsx:55 | The new entry comes first, followed by a prefix of the previous log. The length is the smaller of 15 and the previous length plus one. |
| LogBuffer.AddLogsNewestFirst | App.tsx:48-56 | Logging a sequence of entries leaves the newest 15 of all entries seen, newest first. |
| Decimal.NatToString | App.tsx:307 | A natural number prints as a non-empty string of digits with no leading zero, except for 0 itself. |
| Decimal.IntToString | App.tsx:307 | An integer prints as a non-empty string, which is all digits exactly when the integer is non-negative. |
| Decimal.ParseNatToString | App.tsx:307 | Reading back a printed natural number gives that number. |
| Decimal.ParseIntToString | App.tsx:307 | Reading back a printed integer gives that integer. |
| Decimal.IntToStringInjective | App.tsx:307 | Different times print differently, so AI marks made at different times have different ids. |
| JsValues.RealOr | App.tsx:310 | `a \|\| d` on an optional number gives the value when it is present and non-zero, and `d` otherwise. |
| JsValues.StringOr | server.js:17-18 | `a \|\| d` on an optional string gives the value when it is present and non-empty, and `d` otherwise. |
| JsValues.Floor | services/Heightmap.js:184 | `Math.floor` gives the integer at most the argument and within one of it. |
| JsValues.Round | components/TacticalMap3D.tsx:373 | `Math.round` gives an integer in (x - 0.5, x + 0.5]. |
| JsValues.Trunc | services/Heightmap.js:176 | Truncation toward zero: the floor for non-negative arguments, and minus the floor of the negation otherwise. |
| Smoothing.Approach | App.tsx:210-213 | One easing step scales the signed gap to the goal by `1 - rate`, so a value already at the goal stays there. |
| Smoothing.ApproachBetween | App.tsx:210-213 | An eased value lies between the previous value and the goal; it never overshoots. |
| Smoothing.SmoothStep | App.tsx:209-214 | The cache remembers the drawn box under the target id. A first-seen id draws the target's own values. A known id scales the position gap by 0.8 and the size gap by 0.85. |
| Smoothing.SmoothStepBetween | App.tsx:209-213 | Each drawn coordinate lies between the remembered one and the target's. |
| Smoothing.AtTargetIsFixed | App.tsx:209-214 | A remembered box equal to the target is drawn unchanged and leaves the cache unchanged. |
| Smoothing.SmoothAll | App.tsx:208-214 | A render pass draws one box per target. |
| Smoothing.SmoothAllKeys | App.tsx:208-214 | The cache after a pass knows exactly the ids it knew before plus the ids in the list. |
| Smoothing.SmoothAllDrawsAt | App.tsx:208-214 | The box drawn for entry `i` is one smoothing step of that entry from the cache left by the entries before it, so a repeated id is stepped again within the same pass. |
| Smoothing.SmoothAllCache | App.tsx:208-214 | After a pass the cache holds, for each listed id, the box drawn for its last entry, and the old box for every other id it knew. |
| Smoothing.EasedGap | App.tsx:210-213 | After `n` easing steps towards a fixed goal, the signed gap is the first gap scaled `n` times by `1 - rate`. |
| Smoothing.RepeatEases | App.tsx:208-214 | Smoothing a still target for `n` steps eases each coordinate of its remembered box `n` times. |
| Smoothing.GapAfterSteps | App.tsx:208-214 | For a still target, after `n` smoothing steps the position gaps are the first ones scaled `n` times by 0.8, and the size gaps `n` times by 0.85. |
| Smoothing.ShrunkIsPow | App.tsx:210-213 | Scaling a gap `n` times by `k` is scaling it once by `k^n`. |
| HeightmapRandom.RemModulus | services/Heightmap.js:176 | JavaScript `% 233280` has the sign of the dividend, lies within one modulus of zero, and differs from the dividend by a whole multiple of the modulus. |
| HeightmapRandom.NextSeed | services/Heightmap.js:176 | From a non-negative state the next state lies in [0, 233280). |
| HeightmapRandom.Draw | services/Heightmap.js:175-178 | From a non-negative state every draw lies in [0, 1). |
| HeightmapRandom.NextSeedInt | services/Heightmap.js:176 | The integer generator step stays in [0, 233280). |
| HeightmapRandom.NextSeedOnIntegers | services/Heightmap.js:176 | From a non-negative integer state the real-valued step equals the integer step, so the state stays an integer in [0, 233280). |
| HeightmapRandom.ScaledIndex | services/Heightmap.js:184 | The floor of a draw in [0, 1) times `n` is a slot in [0, n). |
| HeightmapRandom.RandomIndex | services/Heightmap.js:184 | The random index lies below the current index, before the decrement. |
| HeightmapRandom.Swap | services/Heightmap.js:186 | The destructuring swap exchanges the two slots, leaves every other slot alone, and keeps the multiset. |
| HeightmapRandom.ShuffleFrom | services/Heightmap.js:181-189 | Shuffling the slots below `current` keeps the length and the multiset, and leaves the slots from `current` on untouched. |
| HeightmapRandom.Shuffle | services/Heightmap.js:181-189 | The loop computes the recursive shuffle, and its result is a permutation of its input. |
| HeightmapPerlin.Identity | services/Heightmap.js:99 | The identity table has length `n`, with slot `i` holding `i`. |
| HeightmapPerlin.FillIdentity | services/Heightmap.js:99 | The filling loop builds the identity table. |
| HeightmapPerlin.PermutationValues | services/Heightmap.js:99-100 | A permutation of 0..255 holds only values in [0, 256), and holds each of them. |
| HeightmapPerlin.DoubleTables | services/Heightmap.js:102-105 | `perm` and `gradP` have 512 slots. `perm[i]` is `p[i & 255]`, in [0, 256). `gradP[i]` is `grad2d[perm[i] % 8]`. |
| HeightmapPerlin.CreateTables | services/Heightmap.js:94-105 | `p` is the seeded shuffle of 0..255 and a permutation of it. `perm[i]` is `p[i mod 256]` and `gradP[i]` is `grad2d[perm[i] % 8]`, over 512 slots. |
| HeightmapPerlin.Low8 | services/Heightmap.js:142-143 | `v & 255` lies in [0, 256) and differs from `v` by a multiple of 256. |
| HeightmapPerlin.Low8Periodic | services/Heightmap.js:142-143 | Shifting a cell coordinate by a multiple of 256 does not change `& 255`. |
| HeightmapPerlin.CornerIndices | services/Heightmap.js:142-166 | All three `gradP` slots read by a noise lookup lie in [0, 512), for every integer cell and either corner order. |
| HeightmapPerlin.CornerGradients | services/Heightmap.js:150-166 | The three gradients a lookup reads are among the eight gradients. |
| HeightmapPerlin.CornerIndicesPeriodic | services/Heightmap.js:142-166 | The slots read are the same for cells that differ by multiples of 256 in each coordinate. |
| HeightmapGrid.RawGrid | services/Heightmap.js:44-66 | The raw grid has `height` rows of `width` cells, and cell (y, x) holds the raw value at (x, y). |
| HeightmapGrid.ArgMinCell | services/Heightmap.js:41-64 | The minimum search finds a cell holding a value no larger than any cell. |
| HeightmapGrid.ArgMaxCell | services/Heightmap.js:41-64 | The maximum search finds a cell holding a value no smaller than any cell. |
| HeightmapGrid.RescaleBetween | services/Heightmap.js:71-72 | A raw value within [min, max] maps between minHeight and maxHeight, with min going to minHeight and max to maxHeight. |
| HeightmapGrid.RescaleMonotone | services/Heightmap.js:71-72 | For minHeight at most maxHeight, the rescaling preserves the order of raw values. |
| HeightmapGrid.RescaleGrid | services/Heightmap.js:69-74 | The rescaled grid keeps its dimensions and rescales every cell. |
| HeightmapGrid.Normalise | services/Heightmap.js:41-74 | Normalisation keeps the dimensions. On a non-empty grid it is undefined (0/0) exactly when all raw values are equal. Otherwise every cell lies between minHeight and maxHeight, and both extremes are attained. |
| HeightmapGrid.NormaliseWithin | services/Heightmap.js:69-74 | A defined normalised grid lies within [min(minHeight, maxHeight), max(minHeight, maxHeight)]. |
| HeightmapGrid.NormalisePreservesOrder | services/Heightmap.js:69-74 | For minHeight at most maxHeight, normalisation preserves the order of any two cells. |
| HeightmapBlur.NeighbourCount | services/Heightmap.js:195-206 | Every cell has between 1 and 9 in-bounds neighbours, itself included. |
| HeightmapBlur.ScanRow | services/Heightmap.js:198-205 | The inner `dx` loop adds up exactly the in-bounds cells of one neighbour row, and counts them. |
| HeightmapBlur.CellMean | services/Heightmap.js:195-207 | The `dy`/`dx` loops compute the mean of the in-bounds 3x3 neighbourhood. |
| HeightmapBlur.Blur | services/Heightmap.js:191-216 | A blur pass keeps the grid's dimensions. |
| HeightmapBlur.BlurAt | services/Heightmap.js:193-208 | After a pass, each cell holds the mean of its neighbourhood in the grid as it was before the pass. |
| HeightmapBlur.BlurPass | services/Heightmap.js:191-216 | The two nested passes, averaging into a copy and writing it back, compute the blur. |
| HeightmapBlur.MeanWithin | services/Heightmap.js:195-207 | The mean of a neighbourhood lies within any bounds that hold for the whole grid. |
| HeightmapBlur.BlurWithin | services/Heightmap.js:191-216 | A blur pass keeps every cell within the bounds of the input grid. |
| HeightmapBlur.BlurConstant | services/Heightmap.js:191-216 | A constant grid is a fixed point of the blur. |
| HeightmapBlur.Smoothen | services/Heightmap.js:76-79 | Smoothing keeps the dimensions, and with zero iterations returns the map unchanged. |
| HeightmapBlur.SmoothenWithin | services/Heightmap.js:76-79 | Any number of blur passes keeps the map within its bounds. |
| HeightmapBlur.Generate | services/Heightmap.js:24-81 | `generate` applies the option defaults (64x64, heights 0 to 10, no smoothing) and normalises the raw grid, then blurs it the requested number of times. It returns `height` rows of `width` cells, unchanged after normalisation when there is no smoothing, and between minHeight and maxHeight when defined and non-empty. |
| MapMarkers.MarkerColor | components/TacticalMap3D.tsx:318-319 | Orange exactly for AI-marked targets; otherwise white exactly for local ones, and cyan for the rest. |
| MapMarkers.SizeMultiplier | components/TacticalMap3D.tsx:315 | The size multiplier is at least 0.5. It is 1 when the distance is missing or 0, and at least 3 for a negative distance. |
| MapMarkers.SizeAntitone | components/TacticalMap3D.tsx:315 | A nearer target gets a sphere at least as large. |
| MapMarkers.LabelText | components/TacticalMap3D.tsx:373 | The label text starts with the target's label and is longer than it. |
| MapMarkers.LabelTextReadsBack | components/TacticalMap3D.tsx:295-373 | The label text is the label, ` (`, a decimal integer and `m)`. The integer reads back as the rounded distance, which is 5 when the distance is missing or 0. |
| MapMarkers.LastOf | components/TacticalMap3D.tsx:289-395 | The entry that determines an id's markers exists exactly when the id is in the list, and it is the last occurrence of that id. |
| MapMarkers.GlowIds | components/TacticalMap3D.tsx:345-369 | The ids that should glow are among the list's ids. |
| MapMarkers.RemoveAbsent | components/TacticalMap3D.tsx:265-287 | The removal loop keeps exactly the meshes whose id is still listed, leaving them and their labels and glows untouched. A well-formed scene keeps only labels and glows of listed ids. |
| MapMarkers.Apply | components/TacticalMap3D.tsx:290-395 | Updating one target gives its id a mesh and a label with the current colour, radius and label text, re-using existing handles. It has a glow exactly when it is AI-marked. |
| MapMarkers.ApplyAll | components/TacticalMap3D.tsx:290-395 | The forEach applies the per-target update to each target in list order. Its contract states only that the fresh-handle counter never decreases; the key sets, handles, glows and displayed values are stated by the four lemmas below. |
| MapMarkers.ApplyAllKeys | components/TacticalMap3D.tsx:289-395 | The forEach adds every listed id to the mesh map and the label map, and nothing else. |
| MapMarkers.ApplyAllKeeps | components/TacticalMap3D.tsx:321-390 | Existing meshes and labels keep their handles, and meshes of unlisted ids are left as they were. |
| MapMarkers.ApplyAllGlows | components/TacticalMap3D.tsx:345-369 | After the forEach, the glow map holds the earlier glows of unlisted ids, plus the ids whose last entry is AI-marked. |
| MapMarkers.ApplyAllValues | components/TacticalMap3D.tsx:290-395 | After the forEach, every listed id displays its last entry in the list. |
| MapMarkers.Reconcile | components/TacticalMap3D.tsx:265-395 | After a pass, the mesh map's keys are exactly the ids in the target list. |
| MapMarkers.ReconcileKeys | components/TacticalMap3D.tsx:265-395 | After a pass from a well-formed scene, the label keys are exactly the target ids. The glow keys are exactly the ids whose last entry is AI-marked. The scene stays well-formed, with glows a subset of meshes. |
| MapMarkers.ReconcileValues | components/TacticalMap3D.tsx:321-395 | After a pass, a listed id displays its last entry. A marker that already existed keeps its handle. |
| MapMarkers.ReconcileSequence | components/TacticalMap3D.tsx:265-396 | After any sequence of updates from an empty scene, the three key sets follow the latest target list. |
| MapMarkers.ReplayWellFormed | components/TacticalMap3D.tsx:265-395 | Every sequence of passes keeps labels and glows next to a mesh. |
| MapMarkers.GridIndex | components/TacticalMap3D.tsx:303-306 | The grid index is the floor of the scaled position, clamped to [0, 64]. |
| MapMarkers.GridIndexMonotone | components/TacticalMap3D.tsx:305-306 | The clamped grid index never decreases as the position grows. |
| MapMarkers.VertexIndex | components/TacticalMap3D.tsx:308-309 | A vertex index built from clamped grid indices is below the vertex count of the 65x65 plane. |
| MapMarkers.VertexCell | components/TacticalMap3D.tsx:149-152 | Vertex `i` of the plane maps to a row and column inside the 65x65 height grid. |
| MapMarkers.VertexRoundTrip | components/TacticalMap3D.tsx:149-153 | Grid indices to vertex and back give the same cell, and vertex to cell and back gives the same vertex. |
| MapMarkers.TerrainHeights | components/TacticalMap3D.tsx:149-154 | The terrain carries one height per vertex of the plane. |
| MapMarkers.MarkerAltitude | components/TacticalMap3D.tsx:300-314 | A marker floats at least 1 unit up, and at least 1 unit above the terrain height it reads. With no terrain vertex, it floats at exactly 1. |
| MapMarkers.AltitudeFromHeightmap | components/TacticalMap3D.tsx:300-314 | On the generated 65x65 terrain, the altitude is max(height + 1, 1) at the clamped cell under the marker. |
| Signalling.Connect | server.js:8-10 | A new connection starts in room `global` with the generated user id, and nothing else changes. |
| Signalling.JoinRoom | server.js:16-21 | `join` sets the room to `room \|\| 'global'` and the user id to `userId \|\| previous`. It creates the room if absent and appends one entry for this socket. Other rooms and connections are unchanged. |
| Signalling.Relay | server.js:24-54 | A relay to an absent room sends nothing. It never sends more messages than the room has entries, and every message carries the sender's id and the unchanged content. |
| Signalling.Handle | server.js:12-56 | `join` sends nothing. `signal`, `broadcast` and unknown types leave the registry unchanged, and unknown types send nothing. |
| Signalling.Close | server.js:58-66 | Closing removes this socket's entries from its current room only. It deletes that room exactly when nothing else is left, and keeps every other room as it was. |
| Signalling.Step | server.js:8-66 | Opening and closing a connection send nothing. |
| Signalling.StepKeepsRoomsNonEmpty | server.js:8-66 | Every room in the registry stays non-empty across connects, joins, messages and closes. |
| Signalling.SignalRouting | server.js:24-38 | `signal` reaches a socket exactly when it is open, sits in the sender's current room and has the target user id. The payload carries the sender's id and the unchanged signal. |
| Signalling.BroadcastRouting | server.js:40-54 | `broadcast` reaches a socket exactly when it is open, sits in the sender's current room and has a different user id. The payload carries the sender's id and the unchanged data. |
| Signalling.RelayReaches | server.js:24-54 | A relay reaches exactly the entries of the current room that the message's routing rule accepts (`Signalling.Receives`: an open socket with the target id for `signal`, server.js:29; with another id for `broadcast`, server.js:45). |
| Signalling.NoSelfBroadcast | server.js:40-54 | While every entry of the sender's socket in its room carries its current user id, the sender never receives its own broadcast. |
| Signalling.RejoinKeepsBoth | server.js:16-20 | Re-joining a room under a new user id keeps the old entry beside the new one. |
| Signalling.RejoinHearsOwnBroadcast | server.js:16-54 | A socket that re-joined its room under a new user id receives its own broadcast, through the old entry. |
| Signalling.StaleEntryAfterClose | server.js:58-66 | A socket that joined two rooms leaves its entry in the first room after it closes. |

## Left out

- Rendering: canvas and Three.js drawing, materials, CSS2D labels and their styling, the orbiting camera, and the glow's pulsing opacity (driven by `Date.now()`).
- Marker positions (`mesh.position`, label lift). The polar placement through `atan2`, `cos` and `sin` is floating-point, so its results are inputs.
- Geometry re-creation when the radius changes: the model stores the new radius, which yields the same state.
- The Gemini live session, tool-call plumbing, audio conversion and frame capture. Only the `markTarget` target construction is modelled.
- The object detector: its predictions are inputs.
- WebSocket and WebRTC peer connections, SDP/ICE and data-channel sends: a received `TARGET_UPDATE` is an input.
- Timers, animation frames and React state semantics: each updater is a pure function.
- The random ids: log ids, the generated user id of a connection and the default `Math.random()` seed are parameters.
- `console.log`, the server's socket transport and `JSON.parse`, which can throw on malformed input. Messages arrive as parsed records.
- The simplex-noise value (skew, falloff and the octave sum): floating-point. The raw height of each cell is an input to `generate`, and only the table slots a lookup reads are modelled.
- Floating-point rounding, NaN and Infinity, except for the 0/0 of a flat grid, which is the `Undefined` terrain.
- Targets.ToUpper: covers ASCII, Latin-1 and basic Cyrillic letters, whose upper case is one character. Other scripts and special casings such as `ß` are not modelled.
- Detection.FromPrediction: requires a positive video width and height. A zero-sized video makes JavaScript divide by zero, giving Infinity or NaN, which reals cannot represent.
- TargetList.AiMark: the tool arguments' threat level is optional. An empty string or an unknown level given by the tool is not modelled. The two clock readings (id and timestamp) are independent inputs; nothing ties the second to be at or after the first.
- TargetList.MergeLocal: takes one clock reading `now` for the whole filter and the new batch, whereas the source reads `Date.now()` once per prediction and again for every kept entry (App.tsx:185, App.tsx:190). Readings a few milliseconds apart can differ in the 3500 ms cut-off for an entry right at its edge; that is not modelled.
- Smoothing.SmoothAll: describes one pass of one render callback. The render effect (App.tsx:200-261) has no cleanup and re-schedules itself with `requestAnimationFrame`, so every change of `targets` starts one more loop, and the older loops keep running with the list they closed over. All loops share the cache, so an id may take several smoothing steps per displayed frame, some towards stale goals. How many loops run, and so how many steps fall in one frame, is not modelled.
- HeightmapBlur.Generate: the options `width`, `height` and `smootheningIterations` are naturals. JavaScript also accepts fractional values, for which its `<` loops run `ceil(v)` times; that is not modelled.
- HeightmapRandom.Shuffle: works on an immutable sequence and returns the shuffled copy, instead of permuting the JavaScript array in place. It requires a non-negative seed, which `Math.random()` always gives. A negative seed would draw negative values and indices, which the source does not guard against.
- Signalling.NoSelfBroadcast: holds only under its stated precondition. The unconditional promise is false in the source, as `Signalling.RejoinHearsOwnBroadcast` shows, and the application's own client joins once.
