// The stand-alone p5.js sketch (sketch.js): its module globals become the fields of
// one `Sketch` object. `OnResults` is the MediaPipe callback (hand placement, the
// legacy pinch point and the five-frame gesture smoothing, sketch.js:347-437);
// `DrawGrab` is the grab/lock block of `draw` (sketch.js:172-215).

module P5Sketch {
  import opened HandTypes
  import opened HandSlots
  import GestureDetection

  /** Length of the smoothing window (sketch.js:409). */
  const HistoryLength: nat := 5

  /** Occurrences needed before the window overrides the frame's gesture (sketch.js:423). */
  const MajorityCount: nat := 3

  function Classify(h: seq<Landmark>): GestureDetection.GestureResult
    requires IsHand(h)
  {
    GestureDetection.AllGestures(GestureDetection.P5Sketch, h)
  }

  // ---------------------------------------------------------------- legacy pinch point

  /** `compareD`: squared planar distance between index tip and thumb tip. */
  function LegacyDistance(h: seq<Landmark>): (d: real)
    requires IsHand(h)
    ensures d >= 0.0
  {
    GestureDetection.Distance(h[8].x, h[8].y, h[4].x, h[4].y)
  }

  /** `xy` after an update: the thumb/index midpoint and the thumb's depth. */
  function LegacyPoint(h: seq<Landmark>): seq<real>
    requires IsHand(h)
  {
    [(h[4].x + h[8].x) / 2.0, (h[4].y + h[8].y) / 2.0, h[4].z]
  }

  /** Threshold on the squared distance for the legacy pinch point (sketch.js:383). */
  const LegacyPinch: real := 0.01

  // ---------------------------------------------------------------- five-frame smoothing

  /** `gestureHistory.push(g)` followed by one `shift()` when longer than five. */
  function PushHistory(h: seq<Gesture>, g: Gesture): (r: seq<Gesture>)
    requires |h| <= HistoryLength
    ensures |r| == if |h| < HistoryLength then |h| + 1 else HistoryLength
    ensures r[|r| - 1] == g
    ensures r == (h + [g])[|h| + 1 - |r|..]
  {
    if |h| + 1 > HistoryLength then (h + [g])[1..] else h + [g]
  }

  /** How often `g` occurs in the window. */
  function Count(h: seq<Gesture>, g: Gesture): (n: nat)
    ensures n <= |h|
  {
    if h == [] then 0
    else Count(h[..|h| - 1], g) + (if h[|h| - 1] == g then 1 else 0)
  }

  /** A gesture is counted exactly when it is in the window. */
  lemma {:induction false} CountPositive(h: seq<Gesture>, g: Gesture)
    ensures Count(h, g) > 0 <==> g in h
  {
    if h != [] {
      CountPositive(h[..|h| - 1], g);
      assert h == h[..|h| - 1] + [h[|h| - 1]];
    }
  }

  /** Two different gestures together occur at most as often as the window is long. */
  lemma {:induction false} CountPair(h: seq<Gesture>, a: Gesture, b: Gesture)
    requires a != b
    ensures Count(h, a) + Count(h, b) <= |h|
  {
    if h != [] {
      CountPair(h[..|h| - 1], a, b);
    }
  }

  /** `Object.keys(gestureCounts)`: the gestures of the window in order of first occurrence. */
  function Keys(h: seq<Gesture>): (ks: seq<Gesture>)
  {
    if h == [] then []
    else
      var ks := Keys(h[..|h| - 1]);
      if h[|h| - 1] in ks then ks else ks + [h[|h| - 1]]
  }

  /** The keys are exactly the gestures of the window, each once. */
  lemma {:induction false} KeysMembers(h: seq<Gesture>)
    ensures forall g :: g in Keys(h) <==> g in h
    ensures forall i, j :: 0 <= i < j < |Keys(h)| ==> Keys(h)[i] != Keys(h)[j]
  {
    if h != [] {
      KeysMembers(h[..|h| - 1]);
      assert h == h[..|h| - 1] + [h[|h| - 1]];
    }
  }

  /** `keys.reduce((a, b) => counts[a] > counts[b] ? a : b)`; ties go to the later key. */
  function Reduce(ks: seq<Gesture>, h: seq<Gesture>): (g: Gesture)
    requires |ks| > 0
    ensures g in ks
  {
    if |ks| == 1 then ks[0]
    else
      var a := Reduce(ks[..|ks| - 1], h);
      var b := ks[|ks| - 1];
      if Count(h, a) > Count(h, b) then a else b
  }

  /** The reduce keeps a key whose count is at least that of every key. */
  lemma {:induction false} ReduceIsMaximal(ks: seq<Gesture>, h: seq<Gesture>)
    requires |ks| > 0
    ensures forall k :: k in ks ==> Count(h, k) <= Count(h, Reduce(ks, h))
  {
    if |ks| > 1 {
      ReduceIsMaximal(ks[..|ks| - 1], h);
      assert ks == ks[..|ks| - 1] + [ks[|ks| - 1]];
    }
  }

  /** `mostCommonGesture`. */
  function MostCommon(h: seq<Gesture>): (g: Gesture)
    requires |h| > 0
    ensures g in h
  {
    KeysMembers(h);
    Reduce(Keys(h), h)
  }

  /** The most common gesture occurs at least as often as any gesture. */
  lemma MostCommonIsMaximal(h: seq<Gesture>, k: Gesture)
    requires |h| > 0
    ensures Count(h, k) <= Count(h, MostCommon(h))
  {
    KeysMembers(h);
    ReduceIsMaximal(Keys(h), h);
    CountPositive(h, k);
  }

  /** `currentGesture` after smoothing: the window's most common gesture if it occurs three times. */
  function Smoothed(h: seq<Gesture>, current: Gesture): Gesture
    requires |h| > 0
  {
    var m := MostCommon(h);
    if Count(h, m) >= MajorityCount then m else current
  }

  /**
   * In a window of at most five, a gesture seen three times is the only one that can be,
   * so it is the smoothed gesture whatever the tie-break; with none, the frame's gesture stays.
   */
  lemma SmoothingPicksMajority(h: seq<Gesture>, current: Gesture, g: Gesture)
    requires 0 < |h| <= HistoryLength
    ensures Count(h, g) >= MajorityCount ==> Smoothed(h, current) == g
    ensures (forall k :: Count(h, k) < MajorityCount) ==> Smoothed(h, current) == current
  {
    var m := MostCommon(h);
    MostCommonIsMaximal(h, g);
    if Count(h, g) >= MajorityCount && m != g {
      CountPair(h, m, g);
    }
  }

  lemma CountSnoc(h: seq<Gesture>, x: Gesture, k: Gesture)
    ensures Count(h + [x], k) == Count(h, k) + (if x == k then 1 else 0)
  {
    assert (h + [x])[..|h|] == h;
  }

  /** The map the counting loop keeps after one more gesture `x`. */
  function Tallied(counts: map<Gesture, nat>, x: Gesture): map<Gesture, nat>
  {
    if x in counts then counts[x := counts[x] + 1] else counts[x := 1]
  }

  /** The keys and counts of the prefix `pre`, as the counting loop keeps them. */
  predicate TallyOf(pre: seq<Gesture>, counts: map<Gesture, nat>, keys: seq<Gesture>)
  {
    && keys == Keys(pre)
    && (forall k :: k in counts <==> k in pre)
    && (forall k :: k in counts ==> counts[k] == Count(pre, k))
  }

  /** One pass of the counting loop keeps the keys and counts in step with the prefix read. */
  lemma TallyStep(h: seq<Gesture>, i: nat, counts: map<Gesture, nat>, keys: seq<Gesture>)
    requires i < |h| && TallyOf(h[..i], counts, keys)
    ensures TallyOf(h[..i + 1], Tallied(counts, h[i]), if h[i] in counts then keys else keys + [h[i]])
  {
    var pre, x := h[..i], h[i];
    assert h[..i + 1] == pre + [x];
    assert (pre + [x])[..|pre|] == pre;
    KeysMembers(pre);
    forall k | k in Tallied(counts, x)
      ensures Tallied(counts, x)[k] == Count(pre + [x], k)
    {
      CountSnoc(pre, x, k);
      CountPositive(pre, k);
    }
  }

  /** The `forEach` of sketch.js:414-417: a count per gesture, keys in first-occurrence order. */
  method Tally(h: seq<Gesture>) returns (counts: map<Gesture, nat>, keys: seq<Gesture>)
    ensures keys == Keys(h)
    ensures forall k :: k in counts <==> k in h
    ensures forall k :: k in keys <==> k in counts
    ensures forall k :: k in counts ==> counts[k] == Count(h, k)
  {
    counts := map[];
    keys := [];
    var i := 0;
    while i < |h|
      invariant 0 <= i <= |h|
      invariant TallyOf(h[..i], counts, keys)
    {
      TallyStep(h, i, counts, keys);
      if h[i] !in counts {
        keys := keys + [h[i]];
      }
      counts := Tallied(counts, h[i]);
      i := i + 1;
    }
    assert h[..i] == h;
    KeysMembers(h);
  }

  /** The tally and reduce of sketch.js:414-421: the most common gesture and its count. */
  method MostCommonGesture(h: seq<Gesture>) returns (g: Gesture, n: nat)
    requires |h| > 0
    ensures g == MostCommon(h) && n == Count(h, g)
  {
    var counts, keys := Tally(h);
    assert h[0] in counts;
    g := keys[0];
    var j := 1;
    while j < |keys|
      invariant 1 <= j <= |keys|
      invariant g == Reduce(keys[..j], h) && g in counts
    {
      assert keys[..j + 1][..j] == keys[..j];
      assert Reduce(keys[..j + 1], h) == if Count(h, g) > Count(h, keys[j]) then g else keys[j];
      if counts[g] > counts[keys[j]] {
      } else {
        g := keys[j];
      }
      j := j + 1;
    }
    assert keys[..j] == keys;
    n := counts[g];
  }

  /**
   * What `onResults` makes of a frame: without landmarks every hand global is cleared and
   * the gesture becomes None, the window untouched; otherwise the slots are reset, the
   * placement loop runs, the frame's gesture enters the five-frame window, and the
   * window's majority, if any, replaces it. The result is the new hand globals and window.
   */
  function Received(r: Results, before: Placement, history: seq<Gesture>): (Placement, seq<Gesture>)
    requires r.multiHandLandmarks.Some? ==> AllHands(r.multiHandLandmarks.value)
    requires |history| <= HistoryLength
  {
    if r.multiHandLandmarks.None? then
      (Reset(before).(currentGesture := NoGesture, gestureConfidence := 0.0), history)
    else
      var hs := r.multiHandLandmarks.value;
      var p := PlaceAll(Reset(before), hs, LabelsOf(r, |hs|));
      var window := PushHistory(history, p.currentGesture);
      (p.(currentGesture := Smoothed(window, p.currentGesture)), window)
  }

  /** The body of `onResults`, over values. */
  method ReceiveFrame(r: Results, before: Placement, history: seq<Gesture>)
    returns (after: Placement, window: seq<Gesture>)
    requires r.multiHandLandmarks.Some? ==> AllHands(r.multiHandLandmarks.value)
    requires WellPlaced(before) && |history| <= HistoryLength
    ensures (after, window) == Received(r, before, history)
    ensures WellPlaced(after) && |window| <= HistoryLength
  {
    if r.multiHandLandmarks.None? {
      after := Reset(before).(currentGesture := NoGesture, gestureConfidence := 0.0);
      window := history;
      return;
    }
    var p := PlaceHands(r, Reset(before));
    var g;
    window, g := Smooth(history, p.currentGesture);
    after := p.(currentGesture := g);
  }

  // ---------------------------------------------------------------- grab and lock

  /** The pinch midpoint mapped onto the 800 x 640 canvas (sketch.js:50), centred on the origin. */
  function PinchPoint(h: seq<Landmark>): Vec3
    requires IsHand(h)
  {
    Vec3((h[4].x + h[8].x) / 2.0 * 800.0 - 400.0,
         (h[4].y + h[8].y) / 2.0 * 640.0 - 320.0,
         (h[4].z + h[8].z) / 2.0)
  }

  /** `dist(p.x, p.y, o.x, o.y) < 50`, compared on squares. */
  predicate Within50(p: Vec3, o: Vec3)
  {
    Sq(p.x - o.x) + Sq(p.y - o.y) < 2500.0
  }

  /** `objectSize * 0.5 + lastObjectSize * 0.5`: lies between the two sizes. */
  function SmoothSize(size: real, last: real): (r: real)
    ensures Min(size, last) <= r <= Max(size, last)
    ensures size == last ==> r == size
    ensures r - last == (size - last) / 2.0
  {
    size * 0.5 + last * 0.5
  }

  /** The gesture stored for a slot: the detector's verdict on its hand, None when empty. */
  function GestureOf(hand: Option<seq<Landmark>>): (g: Gesture)
    requires hand.Some? ==> IsHand(hand.value)
    ensures hand.None? ==> g == NoGesture
  {
    if hand.Some? then Classify(hand.value).gesture else NoGesture
  }

  /** The confidence stored for a slot, in [0, 1]; 0 exactly when the slot has no gesture. */
  function ConfidenceOf(hand: Option<seq<Landmark>>): (c: real)
    requires hand.Some? ==> IsHand(hand.value)
    ensures 0.0 <= c <= 1.0
    ensures c == 0.0 <==> GestureOf(hand) == NoGesture
  {
    if hand.Some? then
      GestureDetection.AllGesturesConfidence(GestureDetection.P5Sketch, hand.value);
      Classify(hand.value).confidence
    else 0.0
  }

  // ---------------------------------------------------------------- hand placement

  /** The globals written by the placement loop of `onResults`. */
  datatype Placement = Placement(
    leftHand: Option<seq<Landmark>>, rightHand: Option<seq<Landmark>>,
    leftHandGesture: Gesture, leftHandConfidence: real,
    rightHandGesture: Gesture, rightHandConfidence: real,
    currentGesture: Gesture, gestureConfidence: real,
    lm: seq<Landmark>, compareD: real, xy: seq<real>)

  /** Stored hands are full hands, and `lm` is empty or a full hand. */
  predicate WellPlaced(p: Placement)
  {
    (p.leftHand.Some? ==> IsHand(p.leftHand.value))
    && (p.rightHand.Some? ==> IsHand(p.rightHand.value))
    && (p.lm == [] || IsHand(p.lm))
  }

  /** Each slot's gesture and confidence are the detector's verdict on the hand in it. */
  predicate Classified(p: Placement)
    requires WellPlaced(p)
  {
    p.leftHandGesture == GestureOf(p.leftHand) && p.leftHandConfidence == ConfidenceOf(p.leftHand)
    && p.rightHandGesture == GestureOf(p.rightHand) && p.rightHandConfidence == ConfidenceOf(p.rightHand)
  }

  /** The reset at sketch.js:352-358: both slots empty, their gestures None and confidences 0. */
  function Reset(p: Placement): (q: Placement)
    ensures WellPlaced(p) ==> WellPlaced(q) && Classified(q)
  {
    p.(leftHand := None, rightHand := None, leftHandGesture := NoGesture, leftHandConfidence := 0.0,
       rightHandGesture := NoGesture, rightHandConfidence := 0.0)
  }

  /** The left-slot branch (sketch.js:369-395). */
  function TakeLeftHand(p: Placement, h: seq<Landmark>): Placement
    requires IsHand(h)
  {
    var g := Classify(h);
    var d := LegacyDistance(h);
    p.(leftHand := Some(h), lm := h, leftHandGesture := g.gesture, leftHandConfidence := g.confidence,
       currentGesture := g.gesture, gestureConfidence := g.confidence, compareD := d,
       xy := if d <= LegacyPinch then LegacyPoint(h) else p.xy)
  }

  /** The right-slot branch (sketch.js:397-404). */
  function TakeRightHand(p: Placement, h: seq<Landmark>): Placement
    requires IsHand(h)
  {
    var g := Classify(h);
    p.(rightHand := Some(h), rightHandGesture := g.gesture, rightHandConfidence := g.confidence)
  }

  /** One iteration of the placement loop for a hand labelled `l`. */
  function PlaceStep(p: Placement, h: seq<Landmark>, l: Option<Label>): Placement
    requires IsHand(h)
  {
    var p1 := if TakesLeft(p.leftHand.Some?, l) then TakeLeftHand(p, h) else p;
    if TakesRight(p.rightHand.Some?, l) then TakeRightHand(p1, h) else p1
  }

  /** The placement loop run over all hands in order. */
  function PlaceAll(p0: Placement, hs: seq<seq<Landmark>>, ls: seq<Option<Label>>): Placement
    requires |hs| == |ls| && AllHands(hs)
  {
    if hs == [] then p0
    else PlaceStep(PlaceAll(p0, hs[..|hs| - 1], ls[..|ls| - 1]), hs[|hs| - 1], ls[|ls| - 1])
  }

  /** From empty slots, the loop fills them by the label-or-first-free rule. */
  lemma {:induction false} PlaceAllSlots(p0: Placement, hs: seq<seq<Landmark>>, ls: seq<Option<Label>>)
    requires |hs| == |ls| && AllHands(hs) && p0.leftHand == None && p0.rightHand == None
    ensures PlaceAll(p0, hs, ls).leftHand == At(hs, FirstFree(ls).left)
    ensures PlaceAll(p0, hs, ls).rightHand == At(hs, FirstFree(ls).right)
  {
    if hs != [] {
      var n := |hs| - 1;
      PlaceAllSlots(p0, hs[..n], ls[..n]);
    }
  }

  /** The loop keeps every slot's gesture and confidence equal to the detector's verdict. */
  lemma {:induction false} PlaceAllClassified(p0: Placement, hs: seq<seq<Landmark>>, ls: seq<Option<Label>>)
    requires |hs| == |ls| && AllHands(hs) && WellPlaced(p0) && Classified(p0)
    ensures WellPlaced(PlaceAll(p0, hs, ls)) && Classified(PlaceAll(p0, hs, ls))
  {
    if hs != [] {
      var n := |hs| - 1;
      PlaceAllClassified(p0, hs[..n], ls[..n]);
      PlaceStepClassified(PlaceAll(p0, hs[..n], ls[..n]), hs[n], ls[n]);
    }
  }

  lemma PlaceStepClassified(p: Placement, h: seq<Landmark>, l: Option<Label>)
    requires IsHand(h) && WellPlaced(p) && Classified(p)
    ensures WellPlaced(PlaceStep(p, h, l)) && Classified(PlaceStep(p, h, l))
  {
  }

  /**
   * Only the hand left in the left slot decides the frame's gesture, confidence, `lm` and
   * `compareD`; with the left slot empty they keep their previous values.
   */
  lemma {:induction false} PlaceAllPrimary(p0: Placement, hs: seq<seq<Landmark>>, ls: seq<Option<Label>>)
    requires |hs| == |ls| && AllHands(hs) && p0.leftHand == None
    ensures var p := PlaceAll(p0, hs, ls);
      && (p.leftHand.Some? ==> IsHand(p.leftHand.value))
      && p.currentGesture == (if p.leftHand.Some? then Classify(p.leftHand.value).gesture else p0.currentGesture)
      && p.gestureConfidence == (if p.leftHand.Some? then Classify(p.leftHand.value).confidence else p0.gestureConfidence)
      && p.lm == (if p.leftHand.Some? then p.leftHand.value else p0.lm)
      && p.compareD == (if p.leftHand.Some? then LegacyDistance(p.leftHand.value) else p0.compareD)
  {
    if hs != [] {
      var n := |hs| - 1;
      PlaceAllPrimary(p0, hs[..n], ls[..n]);
    }
  }

  /** `xy` only ever moves to the pinch point of a reported hand whose squared distance is at most 0.01. */
  lemma {:induction false} PlaceAllLegacyPoint(p0: Placement, hs: seq<seq<Landmark>>, ls: seq<Option<Label>>)
    requires |hs| == |ls| && AllHands(hs)
    ensures var p := PlaceAll(p0, hs, ls);
      p.xy == p0.xy
      || exists k :: 0 <= k < |hs| && LegacyDistance(hs[k]) <= LegacyPinch && p.xy == LegacyPoint(hs[k])
  {
    if hs != [] {
      var n := |hs| - 1;
      PlaceAllLegacyPoint(p0, hs[..n], ls[..n]);
      var p := PlaceAll(p0, hs[..n], ls[..n]);
      if p.xy != p0.xy && PlaceAll(p0, hs, ls).xy == p.xy {
        var k :| 0 <= k < n && LegacyDistance(hs[..n][k]) <= LegacyPinch && p.xy == LegacyPoint(hs[..n][k]);
        assert hs[..n][k] == hs[k];
      }
    }
  }

  /** One pass of the placement loop's body (sketch.js:366-404), over values. */
  method PlaceHand(p: Placement, landmarks: seq<Landmark>, handedness: Option<Label>) returns (q: Placement)
    requires IsHand(landmarks) && WellPlaced(p)
    ensures q == PlaceStep(p, landmarks, handedness)
    ensures WellPlaced(q)
  {
    var isLeftHand := handedness == Some(Left);
    var isRightHand := handedness == Some(Right);
    q := p;
    if isLeftHand || (!isRightHand && q.leftHand == None) {
      var gestureResult := GestureDetection.DetectAllGestures(GestureDetection.P5Sketch, landmarks);
      var compareD := GestureDetection.Distance(landmarks[8].x, landmarks[8].y, landmarks[4].x, landmarks[4].y);
      q := q.(leftHand := Some(landmarks), lm := landmarks,
              leftHandGesture := gestureResult.gesture, leftHandConfidence := gestureResult.confidence,
              currentGesture := gestureResult.gesture, gestureConfidence := gestureResult.confidence,
              compareD := compareD);
      if compareD <= LegacyPinch {
        q := q.(xy := [(landmarks[4].x + landmarks[8].x) / 2.0, (landmarks[4].y + landmarks[8].y) / 2.0, landmarks[4].z]);
      }
    }
    if isRightHand || (!isLeftHand && p.rightHand == None) {
      var gestureResult := GestureDetection.DetectAllGestures(GestureDetection.P5Sketch, landmarks);
      q := q.(rightHand := Some(landmarks),
              rightHandGesture := gestureResult.gesture, rightHandConfidence := gestureResult.confidence);
    }
  }

  /** The placement loop of sketch.js:364-405, over values. */
  method PlaceHands(r: Results, start: Placement) returns (p: Placement)
    requires r.multiHandLandmarks.Some? && AllHands(r.multiHandLandmarks.value) && WellPlaced(start)
    ensures p == PlaceAll(start, r.multiHandLandmarks.value, LabelsOf(r, |r.multiHandLandmarks.value|))
    ensures WellPlaced(p)
  {
    var hs := r.multiHandLandmarks.value;
    ghost var ls := LabelsOf(r, |hs|);
    p := start;
    var i := 0;
    while i < |hs|
      invariant 0 <= i <= |hs|
      invariant p == PlaceAll(start, hs[..i], ls[..i])
      invariant WellPlaced(p)
    {
      assert hs[..i + 1][..i] == hs[..i] && ls[..i + 1][..i] == ls[..i];
      p := PlaceHand(p, hs[i], LabelAt(r, i));
      i := i + 1;
    }
    assert hs[..i] == hs && ls[..i] == ls;
  }

  /**
   * The smoothing of sketch.js:407-426 over values: push the frame's gesture into the
   * window, tally it, and let a gesture seen three times replace the frame's gesture.
   */
  method Smooth(history: seq<Gesture>, frame: Gesture) returns (window: seq<Gesture>, g: Gesture)
    requires |history| <= HistoryLength
    ensures window == PushHistory(history, frame)
    ensures g == Smoothed(window, frame)
  {
    window := history + [frame];
    if |window| > HistoryLength {
      window := window[1..];
    }
    var mostCommonGesture, count := MostCommonGesture(window);
    g := frame;
    if count >= MajorityCount {
      g := mostCommonGesture;
    }
  }

  // ---------------------------------------------------------------- the sketch's globals

  /**
   * The sketch's module globals. The eleven globals the placement loop writes
   * (`leftHand`, `rightHand`, their gestures and confidences, `currentGesture`,
   * `gestureConfidence`, `lm`, `compareD`, `xy`) are held together as one `Placement`.
   */
  class Sketch {
    var lmResults: bool
    var hands: Placement
    var gestureHistory: seq<Gesture>
    var grabbing: bool
    var locked: bool
    var objectSize: real
    var lastObjectSize: real
    var objectSizeSmooth: real
    var objectVector: Vec3

    /**
     * The window never outgrows five frames, stored hands are full hands, the object is
     * enlarged exactly while locked, and the smoothed size stays between 1 and 2.
     */
    predicate Valid()
      reads this
    {
      |gestureHistory| <= HistoryLength
      && WellPlaced(hands)
      && objectSize == (if locked then 2.0 else 1.0)
      && 1.0 <= lastObjectSize <= 2.0
    }

    /** The globals' initial values (sketch.js:16-35, 49, 339-345). */
    constructor ()
      ensures Valid() && Classified(hands)
      ensures !lmResults && hands.lm == [] && hands.leftHand == None && hands.rightHand == None
      ensures hands.currentGesture == NoGesture && hands.gestureConfidence == 0.0 && gestureHistory == []
      ensures hands.xy == [250.0, 250.0] && !grabbing && !locked
      ensures objectSize == 1.0 && lastObjectSize == 1.0 && objectSizeSmooth == 0.0
      ensures objectVector == Vec3(100.0, 0.0, 0.0)
    {
      lmResults := false;
      hands := Placement(None, None, NoGesture, 0.0, NoGesture, 0.0, NoGesture, 0.0, [], 0.0, [250.0, 250.0]);
      gestureHistory := [];
      grabbing := false;
      locked := false;
      objectSize := 1.0;
      lastObjectSize := 1.0;
      objectSizeSmooth := 0.0;
      objectVector := Vec3(100.0, 0.0, 0.0);
    }

    /**
     * `onResults`: `lmResults` records whether landmarks came, and the hand globals and
     * the window become what `Received` makes of the frame.
     */
    method OnResults(r: Results)
      requires Valid()
      requires r.multiHandLandmarks.Some? ==> AllHands(r.multiHandLandmarks.value)
      modifies this`lmResults, this`hands, this`gestureHistory
      ensures Valid()
      ensures lmResults == r.multiHandLandmarks.Some?
      ensures (hands, gestureHistory) == Received(r, old(hands), old(gestureHistory))
    {
      var after, window := ReceiveFrame(r, hands, gestureHistory);
      lmResults := r.multiHandLandmarks.Some?;
      hands := after;
      gestureHistory := window;
    }

    /**
     * The grab/lock block of `draw`: grabbing iff the gesture is a pinch; the object locks
     * only when unlocked and within 50 px of the pinch, follows the pinch while locked, and
     * is released at size 1 when not grabbing; the drawn size moves halfway to the target.
     */
    method DrawGrab()
      requires Valid()
      modifies this`grabbing, this`locked, this`objectSize, this`objectVector
      modifies this`objectSizeSmooth, this`lastObjectSize
      ensures Valid()
      ensures grabbing == (hands.currentGesture == Pinch)
      ensures locked == (grabbing && lmResults && |hands.lm| > 0
                         && (old(locked) || Within50(PinchPoint(hands.lm), old(objectVector))))
      ensures objectVector == (if locked then PinchPoint(hands.lm) else old(objectVector))
      ensures objectSize == (if locked then 2.0 else 1.0)
      ensures objectSizeSmooth == SmoothSize(objectSize, old(lastObjectSize))
      ensures lastObjectSize == objectSizeSmooth && 1.0 <= objectSizeSmooth <= 2.0
    {
      grabbing := hands.currentGesture == Pinch;
      var lm := hands.lm;
      if grabbing && lmResults && |lm| > 0 {
        var pinchVector := PinchPoint(lm);
        if Within50(pinchVector, objectVector) && !locked {
          locked := true;
          objectSize := 2.0;
        }
        if locked {
          objectVector := pinchVector;
        }
      } else {
        locked := false;
        objectSize := 1.0;
      }
      objectSizeSmooth := SmoothSize(objectSize, lastObjectSize);
      lastObjectSize := objectSizeSmooth;
    }
  }
}
