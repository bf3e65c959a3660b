// Shared value types of the hand-tracking toolkit: MediaPipe landmarks, per-hand
// data and the small numeric helpers every controller uses.
// Mirrors src/types/index.ts.

module HandTypes {

  datatype Option<T> = None | Some(value: T)

  /** One MediaPipe landmark in normalised image coordinates. */
  datatype Landmark = Landmark(x: real, y: real, z: real)

  /** A three.js / p5 vector. */
  datatype Vec3 = Vec3(x: real, y: real, z: real)

  /** A 2-D screen point. */
  datatype Point2 = Point2(x: real, y: real)

  /** The DOM mouse event types the toolkit sends or listens for. */
  datatype MouseEventType = MouseDown | MouseMove | MouseUp | Click

  /** One dispatched `MouseEvent`, at window coordinates. */
  datatype MouseEvent = MouseEvent(kind: MouseEventType, x: real, y: real)

  /** MediaPipe's hand topology has 21 landmarks. */
  const LandmarkCount: nat := 21

  predicate IsHand(h: seq<Landmark>) { |h| >= LandmarkCount }

  /** Every landmark set MediaPipe reports has the full hand topology. */
  predicate AllHands(hs: seq<seq<Landmark>>)
  {
    forall i :: 0 <= i < |hs| ==> IsHand(hs[i])
  }

  /** Handedness label reported by MediaPipe. */
  datatype Label = Left | Right

  /** `label` is a Dafny keyword, so the label field is called `side`. */
  datatype Handedness = Handedness(side: Label, score: real)

  /** `MediaPipeResults`: either list may be absent. */
  datatype Results = Results(multiHandLandmarks: Option<seq<seq<Landmark>>>,
                             multiHandedness: Option<seq<Handedness>>)

  /** `GestureType`. */
  datatype Gesture = Pinch | Fist | OpenHand | Pointing | Victory | NoGesture

  datatype HandData = HandData(landmarks: seq<Landmark>, gesture: Gesture, confidence: real)

  datatype MultiHandData = MultiHandData(leftHand: Option<HandData>, rightHand: Option<HandData>, totalHands: nat)

  const NoHands := MultiHandData(None, None, 0)

  /** Every hand placed in a slot has the full 21 landmarks. */
  predicate HandsWellFormed(d: MultiHandData)
  {
    (d.leftHand.Some? ==> IsHand(d.leftHand.value.landmarks))
    && (d.rightHand.Some? ==> IsHand(d.rightHand.value.landmarks))
  }

  function Sq(a: real): (r: real)
    ensures r >= 0.0
  {
    a * a
  }

  /**
   * `Math.sqrt`, which the model takes as a parameter: any function that maps 0 to 0
   * and every non-negative number to its non-negative square root.
   */
  ghost predicate IsSqrt(root: real -> real)
  {
    && root(0.0) == 0.0
    && forall x :: 0.0 <= x ==> 0.0 <= root(x) && Sq(root(x)) == x
  }

  /** Squared 3-D distance between two landmarks. */
  function SqDist3(a: Landmark, b: Landmark): (r: real)
    ensures r >= 0.0
  {
    Sq(a.x - b.x) + Sq(a.y - b.y) + Sq(a.z - b.z)
  }

  /** Squared planar distance between two landmarks. */
  function SqDist2(a: Landmark, b: Landmark): (r: real)
    ensures r >= 0.0
  {
    Sq(a.x - b.x) + Sq(a.y - b.y)
  }

  function Min(a: real, b: real): (r: real)
    ensures r <= a && r <= b && (r == a || r == b)
  {
    if a <= b then a else b
  }

  function Max(a: real, b: real): (r: real)
    ensures r >= a && r >= b && (r == a || r == b)
  {
    if a >= b then a else b
  }

  function Abs(a: real): (r: real)
    ensures r >= 0.0 && (r == a || r == -a)
  {
    if a < 0.0 then -a else a
  }

  /** `Math.max(lo, Math.min(hi, v))`. */
  function Clamp(lo: real, hi: real, v: real): (r: real)
    requires lo <= hi
    ensures lo <= r <= hi
    ensures lo <= v <= hi ==> r == v
    ensures v < lo ==> r == lo
    ensures v > hi ==> r == hi
  {
    Max(lo, Min(hi, v))
  }

  /** A product of two positive reals is positive. */
  lemma MulPos(a: real, b: real)
    requires a > 0.0 && b > 0.0
    ensures a * b > 0.0
  {
  }

  /** For non-negative lengths, comparing lengths and comparing their squares agree. */
  lemma LessIffSquaresLess(d: real, t: real)
    requires d >= 0.0 && t >= 0.0
    ensures d < t <==> d * d < t * t
    ensures d == t <==> d * d == t * t
  {
    if d < t {
      MulPos(t + d, t - d);
      assert t * t - d * d == (t + d) * (t - d);
    } else if d > t {
      MulPos(d + t, d - t);
      assert d * d - t * t == (d + t) * (d - t);
    }
  }
}
