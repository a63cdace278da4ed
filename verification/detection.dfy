/** Turning one frame of object-detector output into locally owned targets
    (App.tsx:172-189): the area-based distance heuristic, the label
    translation, the percentage geometry and the threat level. The
    detector itself is outside the model; its predictions are the input. */
module Detection {
  import opened JsValues
  import opened Targets

  /** A detector bounding box in video pixels: corner, width, height. */
  datatype BBox = BBox(left: real, top: real, width: real, height: real)

  /** One detector output: the class name and its box. */
  datatype Prediction = Prediction(cls: string, bbox: BBox)

  /** The video element's intrinsic size. The detection loop only runs once
      the video has data, so both are positive. */
  datatype Frame = Frame(width: real, height: real)

  predicate ValidFrame(f: Frame) {
    f.width > 0.0 && f.height > 0.0
  }

  /** Area at which the heuristic bottoms out: 45% of a 1280x720 frame. */
  const SATURATION_AREA: real := 1280.0 * 720.0 * 0.45
  const MAX_DISTANCE: real := 35.0
  const MIN_DISTANCE: real := 0.5

  /** The translated label for `person`. */
  const PERSON_LABEL: string := "\U{0427}\U{0415}\U{041B}\U{041E}\U{0412}\U{0415}\U{041A}"

  function Area(b: BBox): real {
    b.width * b.height
  }

  /** Distance in metres from box area: 35 m shrinking linearly to 0 m at
      the saturation area, never below half a metre. */
  function DistanceFromArea(area: real): (d: real)
    ensures d >= MIN_DISTANCE
    ensures area >= 0.0 ==> d <= MAX_DISTANCE
    ensures area == 0.0 ==> d == MAX_DISTANCE
    ensures area >= SATURATION_AREA ==> d == MIN_DISTANCE
  {
    Max(MIN_DISTANCE, MAX_DISTANCE * (1.0 - Min(1.0, area / SATURATION_AREA)))
  }

  function EstimateDistance(b: BBox): (d: real)
    ensures MIN_DISTANCE <= d
    ensures b.width >= 0.0 && b.height >= 0.0 ==> d <= MAX_DISTANCE
  {
    DistanceFromArea(Area(b))
  }

  /** A larger box is never estimated farther away. */
  lemma DistanceAntitone(a: real, b: real)
    requires a <= b
    ensures DistanceFromArea(b) <= DistanceFromArea(a)
  {
  }

  lemma EstimateDistanceAntitone(p: BBox, q: BBox)
    requires Area(p) <= Area(q)
    ensures EstimateDistance(q) <= EstimateDistance(p)
  {
    DistanceAntitone(Area(p), Area(q));
  }

  /** `'ЧЕЛОВЕК'` for any casing of `person`, otherwise the upper-cased class. */
  function LabelFor(cls: string): (r: string)
    ensures ToUpper(cls) == "PERSON" ==> r == PERSON_LABEL
    ensures ToUpper(cls) != "PERSON" ==> r == ToUpper(cls) && |r| == |cls|
  {
    var u := ToUpper(cls);
    if u == "PERSON" then PERSON_LABEL else u
  }

  /** Only the exact class `person` is a medium threat. */
  function ThreatFor(cls: string): (r: Threat)
    ensures r == Medium <==> cls == "person"
    ensures r != High
  {
    if cls == "person" then Medium else Low
  }

  /** `v` as a percentage of `total`. */
  function Percent(v: real, total: real): real
    requires total > 0.0
  {
    v / total * 100.0
  }

  lemma PercentBounds(v: real, total: real)
    requires total > 0.0 && 0.0 <= v <= total
    ensures 0.0 <= Percent(v, total) <= 100.0
  {
  }

  /** The box lies within the frame. */
  predicate InsideFrame(b: BBox, f: Frame) {
    && 0.0 <= b.left && 0.0 <= b.width && b.left + b.width <= f.width
    && 0.0 <= b.top && 0.0 <= b.height && b.top + b.height <= f.height
  }

  /** The target the detection loop builds for one prediction. */
  function FromPrediction(p: Prediction, f: Frame, myId: string, now: int): (t: Target)
    requires ValidFrame(f)
    ensures t.displayLabel == LabelFor(p.cls)
    ensures t.id == p.cls + "-" + myId
    ensures t.threatLevel == ThreatFor(p.cls)
    ensures t.distance == Some(EstimateDistance(p.bbox))
    ensures t.kind == OBJECT && t.isAiMarked == None
    ensures IsLocal(t, myId) && t.timestamp == now
    ensures t.distance.Some? && MIN_DISTANCE <= t.distance.value
    ensures InsideFrame(p.bbox, f) ==>
      && 0.0 <= t.x <= 100.0 && 0.0 <= t.y <= 100.0
      && 0.0 <= t.w <= 100.0 && 0.0 <= t.h <= 100.0
      && t.distance.value <= MAX_DISTANCE
  {
    var b := p.bbox;
    var t := Target(
      id := p.cls + "-" + myId,
      displayLabel := LabelFor(p.cls),
      x := Percent(b.left + b.width / 2.0, f.width),
      y := Percent(b.top + b.height / 2.0, f.height),
      w := Percent(b.width, f.width),
      h := Percent(b.height, f.height),
      threatLevel := ThreatFor(p.cls),
      kind := OBJECT,
      timestamp := now,
      isAiMarked := None,
      distance := Some(EstimateDistance(b)),
      ownerId := Some(myId));
    InsidePercents(b, f);
    t
  }

  lemma InsidePercents(b: BBox, f: Frame)
    requires ValidFrame(f)
    ensures InsideFrame(b, f) ==>
      && 0.0 <= Percent(b.left + b.width / 2.0, f.width) <= 100.0
      && 0.0 <= Percent(b.top + b.height / 2.0, f.height) <= 100.0
      && 0.0 <= Percent(b.width, f.width) <= 100.0
      && 0.0 <= Percent(b.height, f.height) <= 100.0
  {
    if InsideFrame(b, f) {
      PercentBounds(b.left + b.width / 2.0, f.width);
      PercentBounds(b.top + b.height / 2.0, f.height);
      PercentBounds(b.width, f.width);
      PercentBounds(b.height, f.height);
    }
  }

  /** The pixel box a target's percentages describe; inverts the mapping. */
  function ToPixels(t: Target, f: Frame): BBox {
    var width := t.w / 100.0 * f.width;
    var height := t.h / 100.0 * f.height;
    BBox(t.x / 100.0 * f.width - width / 2.0, t.y / 100.0 * f.height - height / 2.0, width, height)
  }

  /** The percentage geometry loses nothing: centre and size in percent
      determine the original pixel box. */
  lemma PixelsRoundTrip(p: Prediction, f: Frame, myId: string, now: int)
    requires ValidFrame(f)
    ensures ToPixels(FromPrediction(p, f, myId, now), f) == p.bbox
  {
    var t := FromPrediction(p, f, myId, now);
    var b := p.bbox;
    CancelPercent(b.width, f.width);
    CancelPercent(b.height, f.height);
    CancelPercent(b.left + b.width / 2.0, f.width);
    CancelPercent(b.top + b.height / 2.0, f.height);
  }

  lemma CancelPercent(v: real, total: real)
    requires total > 0.0
    ensures Percent(v, total) / 100.0 * total == v
  {
  }

  /** The id depends on the class and operator only, so two detections of
      one class in a frame share an id. */
  lemma SameClassSameId(p: Prediction, q: Prediction, f: Frame, myId: string, now: int)
    requires ValidFrame(f) && p.cls == q.cls
    ensures FromPrediction(p, f, myId, now).id == FromPrediction(q, f, myId, now).id
  {
  }

  /** A capitalised `Person` is labelled as a person but rated a low threat. */
  lemma CapitalisedPersonIsLowThreat()
    ensures LabelFor("Person") == PERSON_LABEL
    ensures ThreatFor("Person") == Low
  {
    assert ToUpper("Person") == "PERSON";
  }

  /** One whole frame of predictions, in detector order. */
  function FromPredictions(ps: seq<Prediction>, f: Frame, myId: string, now: int): (ts: seq<Target>)
    requires ValidFrame(f)
    ensures |ts| == |ps|
    ensures forall i :: 0 <= i < |ts| ==> ts[i] == FromPrediction(ps[i], f, myId, now)
    ensures forall i :: 0 <= i < |ts| ==> IsLocal(ts[i], myId) && ts[i].kind == OBJECT
  {
    seq(|ps|, i requires 0 <= i < |ps| => FromPrediction(ps[i], f, myId, now))
  }
}
