// Static gesture classifier of src/lib/gestureDetection.ts, and its copy in
// sketch.js (lines 642-811), which differs only in the pinch threshold.
// Distances are the squared planar distances the source compares.

module GestureDetection {
  import opened HandTypes

  /** The library and the p5 sketch carry the same detectors with different `PINCH`. */
  datatype Copy = Library | P5Sketch

  function PinchThreshold(c: Copy): (t: real)
    ensures t > 0.0
  {
    if c == Library then 0.15 else 0.015
  }

  const FistThreshold: real := 0.08
  const OpenHandThreshold: real := 0.06
  const PointingThreshold: real := 0.06
  /** Declared by both copies and read by no detector. */
  const VictoryThreshold: real := 0.04

  /** Finger tips and their bases, index to pinky. */
  const Tips: seq<nat> := [8, 12, 16, 20]
  const Bases: seq<nat> := [5, 9, 13, 17]

  datatype GestureResult = GestureResult(gesture: Gesture, detected: bool, confidence: real)

  const NoneResult := GestureResult(NoGesture, false, 0.0)

  /** `distance`: squared planar distance from (x1, y1) to (x2, y2); no square root. */
  function Distance(x1: real, y1: real, x2: real, y2: real): (d: real)
    ensures d >= 0.0
    ensures d == 0.0 <== x1 == x2 && y1 == y2
  {
    Sq(x2 - x1) + Sq(y2 - y1)
  }

  lemma SqNeg(a: real)
    ensures Sq(-a) == Sq(a)
  {
    assert (-a) * (-a) == a * a;
  }

  /** `distance` does not depend on the order of its two points. */
  lemma DistanceSymmetric(x1: real, y1: real, x2: real, y2: real)
    ensures Distance(x1, y1, x2, y2) == Distance(x2, y2, x1, y1)
  {
    SqNeg(x2 - x1);
    SqNeg(y2 - y1);
    assert x1 - x2 == -(x2 - x1);
    assert y1 - y2 == -(y2 - y1);
  }

  /** Tip-to-base distance of finger `i` (0 = index .. 3 = pinky). */
  function FingerDistance(h: seq<Landmark>, i: nat): (d: real)
    requires IsHand(h) && i < 4
    ensures d >= 0.0
  {
    Distance(h[Tips[i]].x, h[Tips[i]].y, h[Bases[i]].x, h[Bases[i]].y)
  }

  /** Thumb tip (4) to index tip (8). */
  function PinchDistance(h: seq<Landmark>): (d: real)
    requires IsHand(h)
    ensures d >= 0.0
  {
    Distance(h[4].x, h[4].y, h[8].x, h[8].y)
  }

  // ---------------------------------------------------------------- pinch

  /** `detectPinch`. */
  function DetectPinch(c: Copy, h: seq<Landmark>): (r: GestureResult)
    requires IsHand(h)
    ensures r.gesture == Pinch
    ensures r.detected <==> PinchDistance(h) < PinchThreshold(c)
    ensures r.detected <==> r.confidence > 0.0
    ensures r.confidence <= 1.0
  {
    var d := PinchDistance(h);
    GestureResult(Pinch, d < PinchThreshold(c), 1.0 - d / PinchThreshold(c))
  }

  // ---------------------------------------------------------------- fist

  /** Sum of the first `n` tip-to-base distances. */
  function FingerSum(h: seq<Landmark>, n: nat): (s: real)
    requires IsHand(h) && n <= 4
    ensures s >= 0.0
  {
    if n == 0 then 0.0 else FingerSum(h, n - 1) + FingerDistance(h, n - 1)
  }

  /** Mean tip-to-base distance of the four fingers; the thumb plays no part. */
  function MeanFingerDistance(h: seq<Landmark>): (m: real)
    requires IsHand(h)
    ensures m >= 0.0
    ensures m == (FingerDistance(h, 0) + FingerDistance(h, 1) + FingerDistance(h, 2) + FingerDistance(h, 3)) / 4.0
  {
    assert FingerSum(h, 4) == FingerSum(h, 3) + FingerDistance(h, 3);
    assert FingerSum(h, 3) == FingerSum(h, 2) + FingerDistance(h, 2);
    assert FingerSum(h, 2) == FingerSum(h, 1) + FingerDistance(h, 1);
    assert FingerSum(h, 1) == FingerDistance(h, 0);
    FingerSum(h, 4) / 4.0
  }

  /** Result `detectFist` computes. */
  function FistResult(h: seq<Landmark>): (r: GestureResult)
    requires IsHand(h)
    ensures r.gesture == Fist
    ensures r.detected <==> MeanFingerDistance(h) < FistThreshold
    ensures r.detected <==> r.confidence > 0.0
    ensures r.confidence <= 1.0
  {
    var avg := MeanFingerDistance(h);
    GestureResult(Fist, avg < FistThreshold, 1.0 - avg / FistThreshold)
  }

  /** `detectFist`: accumulates the four distances in a loop. */
  method DetectFist(h: seq<Landmark>) returns (r: GestureResult)
    requires IsHand(h)
    ensures r == FistResult(h)
  {
    var totalDistance := 0.0;
    var validFingers := 0;
    var i := 0;
    while i < |Tips|
      invariant 0 <= i <= 4
      invariant validFingers == i
      invariant totalDistance == FingerSum(h, i)
    {
      var tip := h[Tips[i]];
      var base := h[Bases[i]];
      totalDistance := totalDistance + Distance(tip.x, tip.y, base.x, base.y);
      validFingers := validFingers + 1;
      i := i + 1;
    }
    var avgDistance := totalDistance / validFingers as real;
    r := GestureResult(Fist, avgDistance < FistThreshold, 1.0 - avgDistance / FistThreshold);
  }

  // ---------------------------------------------------------------- open hand

  /** Number of the first `n` fingers whose tip-to-base distance exceeds 0.8 * OPEN_HAND. */
  function ExtendedCount(h: seq<Landmark>, n: nat): (k: nat)
    requires IsHand(h) && n <= 4
    ensures k <= n
  {
    if n == 0 then 0
    else ExtendedCount(h, n - 1) + (if FingerDistance(h, n - 1) > OpenHandThreshold * 0.8 then 1 else 0)
  }

  /** Result `detectOpenHand` computes. */
  function OpenHandResult(h: seq<Landmark>): (r: GestureResult)
    requires IsHand(h)
    ensures r.gesture == OpenHand
    ensures r.detected <==> ExtendedCount(h, 4) >= 1 && MeanFingerDistance(h) > 0.042
    ensures r.detected ==> r.confidence > 0.7
    ensures 0.0 <= r.confidence <= 1.0
  {
    var avg := MeanFingerDistance(h);
    GestureResult(OpenHand, ExtendedCount(h, 4) >= 1 && avg > OpenHandThreshold * 0.7,
                  Min(avg / OpenHandThreshold, 1.0))
  }

  /** `detectOpenHand`; also returns its `extendedFingers` count. */
  method DetectOpenHand(h: seq<Landmark>) returns (r: GestureResult, extendedFingers: nat)
    requires IsHand(h)
    ensures r == OpenHandResult(h)
    ensures extendedFingers == ExtendedCount(h, 4) && extendedFingers <= 4
  {
    var totalDistance := 0.0;
    var validFingers := 0;
    extendedFingers := 0;
    var i := 0;
    while i < |Tips|
      invariant 0 <= i <= 4
      invariant validFingers == i
      invariant totalDistance == FingerSum(h, i)
      invariant extendedFingers == ExtendedCount(h, i)
    {
      var tip := h[Tips[i]];
      var base := h[Bases[i]];
      var dist := Distance(tip.x, tip.y, base.x, base.y);
      totalDistance := totalDistance + dist;
      validFingers := validFingers + 1;
      if dist > OpenHandThreshold * 0.8 {
        extendedFingers := extendedFingers + 1;
      }
      i := i + 1;
    }
    var avgDistance := totalDistance / validFingers as real;
    var isOpenHand := extendedFingers >= 1 && avgDistance > OpenHandThreshold * 0.7;
    r := GestureResult(OpenHand, isOpenHand, Min(avgDistance / OpenHandThreshold, 1.0));
  }

  // ---------------------------------------------------------------- pointing

  function IndexDistance(h: seq<Landmark>): (d: real)
    requires IsHand(h)
    ensures d >= 0.0
  {
    Distance(h[8].x, h[8].y, h[5].x, h[5].y)
  }

  /** Middle, ring and pinky are all within POINTING of their bases. */
  predicate OthersCurled(h: seq<Landmark>)
    requires IsHand(h)
  {
    FingerDistance(h, 1) <= PointingThreshold &&
    FingerDistance(h, 2) <= PointingThreshold &&
    FingerDistance(h, 3) <= PointingThreshold
  }

  /** Result `detectPointing` computes. */
  function PointingResult(h: seq<Landmark>): (r: GestureResult)
    requires IsHand(h)
    ensures r.gesture == Pointing
    ensures r.detected <==> IndexDistance(h) > OpenHandThreshold && OthersCurled(h)
    ensures r.detected ==> r.confidence == 1.0
    ensures 0.0 <= r.confidence <= 1.0
  {
    var index := IndexDistance(h);
    GestureResult(Pointing, index > OpenHandThreshold && OthersCurled(h), Min(index / OpenHandThreshold, 1.0))
  }

  /** `detectPointing`: the loop stops at the first finger found extended. */
  method DetectPointing(h: seq<Landmark>) returns (r: GestureResult)
    requires IsHand(h)
    ensures r == PointingResult(h)
  {
    var indexDistance := Distance(h[8].x, h[8].y, h[5].x, h[5].y);
    var otherFingersCurled := true;
    var i := 1;
    while i < |Tips|
      invariant 1 <= i <= 4
      invariant otherFingersCurled <==> forall k :: 1 <= k < i ==> FingerDistance(h, k) <= PointingThreshold
    {
      var dist := Distance(h[Tips[i]].x, h[Tips[i]].y, h[Bases[i]].x, h[Bases[i]].y);
      if dist > PointingThreshold {
        otherFingersCurled := false;
        break;
      }
      i := i + 1;
    }
    r := GestureResult(Pointing, indexDistance > OpenHandThreshold && otherFingersCurled,
                       Min(indexDistance / OpenHandThreshold, 1.0));
  }

  // ---------------------------------------------------------------- victory

  /** `detectVictory`. */
  function DetectVictory(h: seq<Landmark>): (r: GestureResult)
    requires IsHand(h)
    ensures r.gesture == Victory
    ensures r.detected <==> IndexDistance(h) > OpenHandThreshold && FingerDistance(h, 1) > OpenHandThreshold
                            && FingerDistance(h, 2) < PointingThreshold && FingerDistance(h, 3) < PointingThreshold
    ensures r.detected ==> r.confidence == 1.0
    ensures 0.0 <= r.confidence <= 1.0
  {
    var index := IndexDistance(h);
    var middle := FingerDistance(h, 1);
    var ring := FingerDistance(h, 2);
    var pinky := FingerDistance(h, 3);
    var indexMiddleExtended := index > OpenHandThreshold && middle > OpenHandThreshold;
    var othersCurled := ring < PointingThreshold && pinky < PointingThreshold;
    GestureResult(Victory, indexMiddleExtended && othersCurled,
                  Min((index + middle) / (2.0 * OpenHandThreshold), 1.0))
  }

  /** Pointing needs the middle finger curled, victory needs it extended. */
  lemma PointingExcludesVictory(h: seq<Landmark>)
    requires IsHand(h)
    ensures !(PointingResult(h).detected && DetectVictory(h).detected)
  {
  }

  // ---------------------------------------------------------------- selection

  /** The five detector results, in the order `detectAllGestures` visits them. */
  function Candidates(c: Copy, h: seq<Landmark>): (cs: seq<GestureResult>)
    requires IsHand(h)
    ensures |cs| == 5
  {
    [DetectPinch(c, h), FistResult(h), OpenHandResult(h), PointingResult(h), DetectVictory(h)]
  }

  /** One step of the selection loop: a firing detector replaces the best only on strictly higher confidence. */
  function Pick(best: GestureResult, g: GestureResult): GestureResult
  {
    if g.detected && g.confidence > best.confidence then Promote(g)
    else best
  }

  /** The selection loop run over `cs` from the start. */
  function Best(cs: seq<GestureResult>): GestureResult
  {
    if cs == [] then NoneResult else Pick(Best(cs[..|cs| - 1]), cs[|cs| - 1])
  }

  /** Result `detectAllGestures` computes. */
  function AllGestures(c: Copy, h: seq<Landmark>): GestureResult
    requires IsHand(h)
  {
    Best(Candidates(c, h))
  }

  /** `detectAllGestures`: runs the detectors, then keeps the strictly best firing one. */
  method DetectAllGestures(c: Copy, h: seq<Landmark>) returns (r: GestureResult)
    requires IsHand(h)
    ensures r == AllGestures(c, h)
  {
    var pinch := DetectPinch(c, h);
    var fist := DetectFist(h);
    var openHand, _ := DetectOpenHand(h);
    var pointing := DetectPointing(h);
    var victory := DetectVictory(h);
    var gestures := [pinch, fist, openHand, pointing, victory];
    assert gestures == Candidates(c, h);
    r := NoneResult;
    var i := 0;
    while i < |gestures|
      invariant 0 <= i <= |gestures|
      invariant r == Best(gestures[..i])
    {
      assert gestures[..i + 1][..i] == gestures[..i];
      var g := gestures[i];
      if g.detected && g.confidence > r.confidence {
        r := GestureResult(g.gesture, true, g.confidence);
      }
      i := i + 1;
    }
    assert gestures[..|gestures|] == gestures;
  }

  // ---------------------------------------------------------------- selection properties

  /** Every detector that fires has positive confidence, and no detector is named 'None'. */
  predicate WellFormed(cs: seq<GestureResult>)
  {
    forall i :: 0 <= i < |cs| ==> cs[i].gesture != NoGesture && (cs[i].detected ==> cs[i].confidence > 0.0)
  }

  /** The result reported for a winning detector. */
  function Promote(g: GestureResult): GestureResult
  {
    GestureResult(g.gesture, true, g.confidence)
  }

  /** `k` fires, no firing detector beats it, and every earlier firing detector is strictly worse. */
  predicate IsWinner(cs: seq<GestureResult>, k: int)
  {
    0 <= k < |cs| && cs[k].detected &&
    (forall j :: 0 <= j < |cs| && cs[j].detected ==> cs[j].confidence <= cs[k].confidence) &&
    (forall j :: 0 <= j < k && cs[j].detected ==> cs[j].confidence < cs[k].confidence)
  }

  lemma {:induction false} BestIsNoneOrCandidate(cs: seq<GestureResult>)
    requires WellFormed(cs)
    ensures Best(cs) == NoneResult || exists j :: 0 <= j < |cs| && cs[j].detected && Best(cs) == Promote(cs[j])
  {
    if cs != [] {
      var init := cs[..|cs| - 1];
      assert WellFormed(init) by {
        forall i | 0 <= i < |init| ensures init[i] == cs[i] { }
      }
      BestIsNoneOrCandidate(init);
      if Best(init) != NoneResult && Best(cs) == Best(init) {
        var j :| 0 <= j < |init| && init[j].detected && Best(init) == Promote(init[j]);
        assert cs[j] == init[j];
      }
    }
  }

  /** `detectAllGestures` reports 'None' with confidence 0 exactly when no detector fires. */
  lemma {:induction false} BestIsNoneIff(cs: seq<GestureResult>)
    requires WellFormed(cs)
    ensures Best(cs) == NoneResult <==> forall i :: 0 <= i < |cs| ==> !cs[i].detected
    ensures Best(cs).gesture == NoGesture <==> Best(cs) == NoneResult
    ensures Best(cs).detected <==> Best(cs) != NoneResult
  {
    if cs != [] {
      var init := cs[..|cs| - 1];
      var last := cs[|cs| - 1];
      assert WellFormed(init) by {
        forall i | 0 <= i < |init| ensures init[i] == cs[i] { }
      }
      BestIsNoneIff(init);
      BestIsNoneOrCandidate(init);
      if forall i :: 0 <= i < |cs| ==> !cs[i].detected {
        assert forall i :: 0 <= i < |init| ==> !init[i].detected by {
          forall i | 0 <= i < |init| ensures !init[i].detected { assert init[i] == cs[i]; }
        }
      } else {
        var i :| 0 <= i < |cs| && cs[i].detected;
        if i < |init| {
          assert init[i] == cs[i];
        }
      }
    }
  }

  /** The winner is a firing detector of maximal confidence; ties go to the earliest one. */
  lemma {:induction false} BestIsFirstMaximum(cs: seq<GestureResult>, k: int)
    requires WellFormed(cs) && IsWinner(cs, k)
    ensures Best(cs) == Promote(cs[k])
  {
    var init := cs[..|cs| - 1];
    var last := cs[|cs| - 1];
    assert WellFormed(init) by {
      forall i | 0 <= i < |init| ensures init[i] == cs[i] { }
    }
    if k == |cs| - 1 {
      BestIsNoneOrCandidate(init);
      if Best(init) != NoneResult {
        var j :| 0 <= j < |init| && init[j].detected && Best(init) == Promote(init[j]);
        assert cs[j] == init[j];
      }
    } else {
      assert IsWinner(init, k) by {
        forall j | 0 <= j < |init| ensures init[j] == cs[j] { }
      }
      BestIsFirstMaximum(init, k);
    }
  }

  /** Whenever some detector fires, a winner in the sense of `IsWinner` exists. */
  lemma {:induction false} WinnerExists(cs: seq<GestureResult>)
    requires exists i :: 0 <= i < |cs| && cs[i].detected
    ensures exists k :: IsWinner(cs, k)
  {
    var init := cs[..|cs| - 1];
    var last := cs[|cs| - 1];
    if exists i :: 0 <= i < |init| && init[i].detected {
      WinnerExists(init);
      var k :| IsWinner(init, k);
      assert forall j :: 0 <= j < |init| ==> init[j] == cs[j];
      if last.detected && last.confidence > cs[k].confidence {
        assert IsWinner(cs, |cs| - 1);
      } else {
        assert IsWinner(cs, k);
      }
    } else {
      assert forall j :: 0 <= j < |init| ==> init[j] == cs[j] && !init[j].detected;
      assert IsWinner(cs, |cs| - 1);
    }
  }

  lemma CandidatesWellFormed(c: Copy, h: seq<Landmark>)
    requires IsHand(h)
    ensures WellFormed(Candidates(c, h))
    ensures forall i :: 0 <= i < 5 ==> Candidates(c, h)[i].confidence <= 1.0
  {
  }

  /** The returned confidence always lies in [0, 1], and it is 0 exactly for 'None'. */
  lemma AllGesturesConfidence(c: Copy, h: seq<Landmark>)
    requires IsHand(h)
    ensures 0.0 <= AllGestures(c, h).confidence <= 1.0
    ensures AllGestures(c, h).confidence == 0.0 <==> AllGestures(c, h).gesture == NoGesture
  {
    var cs := Candidates(c, h);
    CandidatesWellFormed(c, h);
    BestIsNoneIff(cs);
    BestIsNoneOrCandidate(cs);
  }

  /** `detectAllGestures` picks exactly the first detector of maximal confidence among those that fire. */
  lemma AllGesturesIsFirstMaximum(c: Copy, h: seq<Landmark>, k: int)
    requires IsHand(h) && IsWinner(Candidates(c, h), k)
    ensures AllGestures(c, h) == Promote(Candidates(c, h)[k])
  {
    CandidatesWellFormed(c, h);
    BestIsFirstMaximum(Candidates(c, h), k);
  }
}
