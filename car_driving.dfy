// The steering-wheel driving controller (src/components/CarDrivingController.tsx): the
// two-fist wheel grab at the calibrated depth, accelerate and brake by hand depth, the
// circular steering percentage, the grab latch, the calibration steps, the keyboard
// mapping and the recorded-positions list.

module CarDriving {
  import opened HandTypes
  import opened Fingers

  // ---------------------------------------------------------------- average depth

  /** The sum of the z coordinates of `h`. */
  function SumZ(h: seq<Landmark>): real
  {
    if |h| == 0 then 0.0 else SumZ(h[..|h| - 1]) + h[|h| - 1].z
  }

  /** The mean z of the landmarks, 0 for an empty list. */
  function AverageZ(h: seq<Landmark>): real
  {
    if |h| > 0 then SumZ(h) / (|h| as real) else 0.0
  }

  /** `calculateAverageZ`: the loop that sums and counts the z coordinates. */
  method CalculateAverageZ(landmarks: seq<Landmark>) returns (avg: real)
    ensures avg == AverageZ(landmarks)
  {
    var sum := 0.0;
    var count := 0;
    while count < |landmarks|
      invariant 0 <= count <= |landmarks|
      invariant sum == SumZ(landmarks[..count])
    {
      assert landmarks[..count + 1][..count] == landmarks[..count];
      sum := sum + landmarks[count].z;
      count := count + 1;
    }
    assert landmarks[..count] == landmarks;
    avg := if count > 0 then sum / (count as real) else 0.0;
  }

  lemma {:induction false} SumZBounds(h: seq<Landmark>, lo: real, hi: real)
    requires forall i :: 0 <= i < |h| ==> lo <= h[i].z <= hi
    ensures (|h| as real) * lo <= SumZ(h) <= (|h| as real) * hi
  {
    if |h| > 0 {
      SumZBounds(h[..|h| - 1], lo, hi);
    }
  }

  /** The mean of depths that all lie in [lo, hi] lies in [lo, hi] too. */
  lemma AverageZBounds(h: seq<Landmark>, lo: real, hi: real)
    requires |h| > 0 && forall i :: 0 <= i < |h| ==> lo <= h[i].z <= hi
    ensures lo <= AverageZ(h) <= hi
  {
    SumZBounds(h, lo, hi);
    var n := |h| as real;
    var a := SumZ(h) / n;
    assert a * n == SumZ(h);
    if a < lo {
      MulPos(lo - a, n);
    }
    if a > hi {
      MulPos(a - hi, n);
    }
  }

  // ---------------------------------------------------------------- steering

  datatype SteeringDirection = SteerLeft | SteerRight | Center

  const Pi: real := 3.141592653589793

  /** Minimum rotation, in radians, that registers as steering. */
  const SteeringThreshold: real := 0.1

  datatype Steering = Steering(direction: SteeringDirection, isSteering: bool, angle: real, percentage: real)

  /**
   * The circular steering of CarDrivingController.tsx:250-298 for a rotation
   * `angleDifference` since the grab: a percentage of half a turn clamped to ±100,
   * reported only beyond 0.1 rad and only while the wheel is grabbed.
   */
  function SteeringFor(grabbing: bool, angleDifference: real): (s: Steering)
    ensures -100.0 <= s.percentage <= 100.0 && 0.0 <= s.angle <= 1.0
    ensures s.isSteering <==> grabbing && Abs(angleDifference) > SteeringThreshold
    ensures s.direction == Center <==> !s.isSteering
    ensures s.direction == SteerRight <==> grabbing && angleDifference > SteeringThreshold
    ensures s.direction == SteerLeft <==> grabbing && angleDifference < -SteeringThreshold
    ensures !s.isSteering ==> s.angle == 0.0 && s.percentage == 0.0
    ensures s.direction == SteerRight ==> s.percentage > 0.0
    ensures s.direction == SteerLeft ==> s.percentage < 0.0
    ensures s.angle == Abs(s.percentage) / 100.0
  {
    if !grabbing || Abs(angleDifference) <= SteeringThreshold then Steering(Center, false, 0.0, 0.0)
    else
      var percentage := Clamp(-100.0, 100.0, angleDifference / Pi * 100.0);
      Steering(if angleDifference > 0.0 then SteerRight else SteerLeft, true, Abs(percentage) / 100.0, percentage)
  }

  // ---------------------------------------------------------------- wheel grab latch

  /** The wheel-grab state (`isWheelGrabbed` and the values captured when the grab began). */
  datatype Wheel = Wheel(grabbed: bool, startDistance: real, startCenter: Vec3, startAngle: real)

  const InitialWheel := Wheel(false, 0.0, Vec3(0.0, 0.0, 0.0), 0.0)

  /**
   * The latch of CarDrivingController.tsx:207-223 as intended, with `w` the latch's
   * current state: a new grab captures the hands' distance, centre and angle; a release
   * clears the flag and keeps the captured values. (The sketch itself reads a frozen
   * copy of the latch; see `AnalyzeGesturesAsWritten`.)
   */
  function NextWheel(w: Wheel, grabbing: bool, distance: real, center: Vec3, angle: real): (v: Wheel)
    ensures v.grabbed == grabbing
    ensures grabbing && !w.grabbed ==> v.startDistance == distance && v.startCenter == center && v.startAngle == angle
    ensures !(grabbing && !w.grabbed) ==>
      v.startDistance == w.startDistance && v.startCenter == w.startCenter && v.startAngle == w.startAngle
  {
    if grabbing && !w.grabbed then Wheel(true, distance, center, angle)
    else if !grabbing && w.grabbed then w.(grabbed := false)
    else w
  }

  /** Intended: holding the grab keeps the captured start values, however the hands move. */
  lemma HeldGrabKeepsStart(w: Wheel, d1: real, c1: Vec3, a1: real, d2: real, c2: Vec3, a2: real)
    ensures var v := NextWheel(NextWheel(w, true, d1, c1, a1), true, d2, c2, a2);
      v.grabbed && v.startAngle == (if w.grabbed then w.startAngle else a1)
      && v.startDistance == (if w.grabbed then w.startDistance else d1)
  {
  }

  // ---------------------------------------------------------------- one frame

  datatype DrivingState = DrivingState(
    isSteering: bool, steeringDirection: SteeringDirection, isAccelerating: bool, isBrabbing: bool,
    isBraking: bool, steeringAngle: real, steeringPercentage: real, depthLevel: real,
    leftHandFist: bool, rightHandFist: bool, handsGrabbingWheel: bool,
    wheelGrabDistance: real, wheelGrabCenter: Vec3, wheelGrabAngle: real)

  /** The state returned when either hand is missing (CarDrivingController.tsx:157-175). */
  const NeutralState := DrivingState(false, Center, false, false, false, 0.0, 0.0, 0.0, false, false, false,
                                     0.0, Vec3(0.0, 0.0, 0.0), 0.0)

  /** How far, in z, the hands may be from the calibrated wheel depth and still grab it. */
  const GrabTolerance: real := 0.03

  /** Depth below which the hands accelerate, and above which they brake. */
  const AccelerateDepth: real := 0.2
  const BrakeDepth: real := 0.4

  function Midpoint(a: Landmark, b: Landmark): Vec3
  {
    Vec3((a.x + b.x) / 2.0, (a.y + b.y) / 2.0, (a.z + b.z) / 2.0)
  }

  /** The mean of the two hands' mean depths. */
  function DepthOf(left: seq<Landmark>, right: seq<Landmark>): real
  {
    (AverageZ(left) + AverageZ(right)) / 2.0
  }

  /** Both fists, wrists closer than the threshold, at the calibrated wheel depth. */
  predicate GrabsWheel(left: seq<Landmark>, right: seq<Landmark>, handsDistance: real,
                       togetherThreshold: real, wheelDepth: real)
  {
    CurledFist(left) && CurledFist(right) && handsDistance < togetherThreshold
    && Abs(DepthOf(left, right) - wheelDepth) < GrabTolerance
  }

  /**
   * `analyzeGestures` for one frame, as intended: `w` is the current wheel latch and
   * `wheelDepth` the calibrated wheel depth (the sketch as written reads frozen copies of
   * both; see `AnalyzeGesturesAsWritten`). `handsDistance` is the `Math.sqrt` wrist
   * distance; `leftAngle` and `rightAngle` are the `Math.atan2` angles of each wrist about
   * the midpoint and `grabAngle` that of the right wrist seen from the left.
   */
  method AnalyzeGestures(w: Wheel, wheelDepth: real, togetherThreshold: real,
                         left: seq<Landmark>, right: seq<Landmark>,
                         handsDistance: real, leftAngle: real, rightAngle: real, grabAngle: real)
    returns (s: DrivingState, next: Wheel)
    requires IsHand(left) && IsHand(right) ==>
      handsDistance >= 0.0 && handsDistance * handsDistance == SqDist3(left[0], right[0])
    ensures !IsHand(left) || !IsHand(right) ==> s == NeutralState && next == w
    ensures IsHand(left) && IsHand(right) && togetherThreshold >= 0.0 ==>
      (s.handsGrabbingWheel <==>
        CurledFist(left) && CurledFist(right)
        && SqDist3(left[0], right[0]) < togetherThreshold * togetherThreshold
        && Abs(DepthOf(left, right) - wheelDepth) < GrabTolerance)
    ensures IsHand(left) && IsHand(right) ==>
      var grabbing := GrabsWheel(left, right, handsDistance, togetherThreshold, wheelDepth);
      var depth := DepthOf(left, right);
      && s.handsGrabbingWheel == grabbing
      && s.leftHandFist == CurledFist(left) && s.rightHandFist == CurledFist(right)
      && s.depthLevel == depth
      && s.isAccelerating == (!grabbing && depth < AccelerateDepth)
      && s.isBraking == (!grabbing && depth > BrakeDepth)
      && s.isBrabbing == (s.isAccelerating || s.isBraking)
      && Steering(s.steeringDirection, s.isSteering, s.steeringAngle, s.steeringPercentage)
         == SteeringFor(grabbing, (leftAngle + rightAngle) / 2.0 - w.startAngle)
      && s.wheelGrabAngle == (if grabbing then (leftAngle + rightAngle) / 2.0 else 0.0)
      && s.wheelGrabDistance == handsDistance && s.wheelGrabCenter == Midpoint(left[0], right[0])
      && next == NextWheel(w, grabbing, handsDistance, Midpoint(left[0], right[0]), grabAngle)
    ensures !(s.isAccelerating && s.isBraking)
    ensures s.handsGrabbingWheel ==> !s.isAccelerating && !s.isBraking && !s.isBrabbing
  {
    if !IsHand(left) || !IsHand(right) {
      return NeutralState, w;
    }
    var leftHandFist := CurledFist(left);
    var rightHandFist := CurledFist(right);
    var leftAvgZ := CalculateAverageZ(left);
    var rightAvgZ := CalculateAverageZ(right);
    var avgDepth := (leftAvgZ + rightAvgZ) / 2.0;
    var isHandsTogether := handsDistance < togetherThreshold;
    if togetherThreshold >= 0.0 {
      LessIffSquaresLess(handsDistance, togetherThreshold);
    }
    var handsAtWheelDepth := Abs(avgDepth - wheelDepth) < GrabTolerance;
    var handsGrabbingWheel := leftHandFist && rightHandFist && isHandsTogether && handsAtWheelDepth;
    var center := Midpoint(left[0], right[0]);
    next := NextWheel(w, handsGrabbingWheel, handsDistance, center, grabAngle);
    var isAccelerating := !handsGrabbingWheel && avgDepth < AccelerateDepth;
    var isBraking := !handsGrabbingWheel && avgDepth > BrakeDepth;
    var avgAngle := (leftAngle + rightAngle) / 2.0;
    var steering := SteeringFor(handsGrabbingWheel, avgAngle - w.startAngle);
    s := DrivingState(steering.isSteering, steering.direction, isAccelerating,
                      !handsGrabbingWheel && (isAccelerating || isBraking), isBraking,
                      steering.angle, steering.percentage, avgDepth, leftHandFist, rightHandFist,
                      handsGrabbingWheel, handsDistance, center, if handsGrabbingWheel then avgAngle else 0.0);
  }

  /**
   * `analyzeGestures` as written. The sketch is built in an effect whose dependencies
   * (CarDrivingController.tsx:809) leave out `isWheelGrabbed`, `wheelGrabStartAngle` and
   * `calibratedSteeringWheelDepth`, so every frame reads the values of the render that
   * built it: a latch that is never set and the initial wheel depth 0.35. Every grabbing
   * frame is then a new grab, and steering is measured from angle 0.
   */
  method AnalyzeGesturesAsWritten(togetherThreshold: real, left: seq<Landmark>, right: seq<Landmark>,
                                  handsDistance: real, leftAngle: real, rightAngle: real, grabAngle: real)
    returns (s: DrivingState)
    requires IsHand(left) && IsHand(right) ==>
      handsDistance >= 0.0 && handsDistance * handsDistance == SqDist3(left[0], right[0])
    ensures IsHand(left) && IsHand(right) ==>
      && s.handsGrabbingWheel
         == GrabsWheel(left, right, handsDistance, togetherThreshold, InitialCalibration.wheelDepth)
      && Steering(s.steeringDirection, s.isSteering, s.steeringAngle, s.steeringPercentage)
         == SteeringFor(s.handsGrabbingWheel, (leftAngle + rightAngle) / 2.0)
  {
    var next;
    s, next := AnalyzeGestures(InitialWheel, InitialCalibration.wheelDepth, togetherThreshold,
                               left, right, handsDistance, leftAngle, rightAngle, grabAngle);
  }

  /**
   * The frozen latch against the intended one: a grab started at angle 0.5 and held while
   * the wheel turns to 0.55 is still centred as intended, but steers right as written,
   * because the written sketch subtracts the frozen start angle 0.
   */
  lemma FrozenLatchSteersFromZero()
    ensures var held := NextWheel(InitialWheel, true, 0.1, Vec3(0.5, 0.5, 0.35), 0.5);
      && SteeringFor(true, 0.55 - held.startAngle).direction == Center
      && SteeringFor(true, 0.55 - InitialWheel.startAngle).direction == SteerRight
  {
  }

  // ---------------------------------------------------------------- keyboard

  /**
   * The keys the keyboard simulation presses for one gesture state
   * (CarDrivingController.tsx:857-871): 'a' or 'd' while steering, then 'w' when
   * accelerating or else 's' when braking; nothing when the simulation is off.
   */
  function KeysFor(enabled: bool, s: DrivingState): (keys: seq<char>)
    ensures |keys| <= 2
    ensures !enabled ==> keys == []
    ensures enabled ==> (('a' in keys) <==> s.isSteering && s.steeringDirection == SteerLeft)
    ensures enabled ==> (('d' in keys) <==> s.isSteering && s.steeringDirection == SteerRight)
    ensures enabled ==> (('w' in keys) <==> s.isAccelerating)
    ensures enabled ==> (('s' in keys) <==> !s.isAccelerating && s.isBraking)
    ensures forall k :: 0 <= k < |keys| ==> keys[k] in "adws"
  {
    if !enabled then []
    else
      (if s.isSteering && s.steeringDirection == SteerLeft then "a"
       else if s.isSteering && s.steeringDirection == SteerRight then "d" else "")
      + (if s.isAccelerating then "w" else if s.isBraking then "s" else "")
  }

  /** The `code` of a simulated key event: "Key" and the upper-case letter. */
  function KeyCode(key: char): (code: string)
    requires 'a' <= key <= 'z'
    ensures |code| == 4 && code[..3] == "Key" && 'A' <= code[3] <= 'Z'
    ensures code[3] as int - 'A' as int == key as int - 'a' as int
  {
    "Key" + [(key as int - 'a' as int + 'A' as int) as char]
  }

  // ---------------------------------------------------------------- calibration

  datatype CalibrationStep = Idle | MinDepth | MaxDepth | SteeringWheel

  datatype Calibration = Calibration(isCalibrating: bool, step: CalibrationStep,
                                     minDepth: real, maxDepth: real, wheelDepth: real)

  /** The initial calibration (CarDrivingController.tsx:70-75). */
  const InitialCalibration := Calibration(false, Idle, 0.1, 0.6, 0.35)

  /** Calibrating exactly while a step other than idle is shown. */
  predicate CalibrationValid(c: Calibration)
  {
    c.isCalibrating <==> c.step != Idle
  }

  /** "Start Calibration", shown only while not calibrating. */
  function StartCalibration(c: Calibration): (d: Calibration)
    requires !c.isCalibrating
    ensures CalibrationValid(d) && d.step == MinDepth
    ensures d.minDepth == c.minDepth && d.maxDepth == c.maxDepth && d.wheelDepth == c.wheelDepth
  {
    c.(isCalibrating := true, step := MinDepth)
  }

  /**
   * "Set Position", shown only while calibrating: store the current depth for the step
   * and move on; the wheel step finishes the calibration.
   */
  function SetPosition(c: Calibration, depth: real): (d: Calibration)
    requires CalibrationValid(c) && c.isCalibrating
    ensures CalibrationValid(d)
    ensures c.step == MinDepth ==> d == c.(minDepth := depth, step := MaxDepth)
    ensures c.step == MaxDepth ==> d == c.(maxDepth := depth, step := SteeringWheel)
    ensures c.step == SteeringWheel ==> d == c.(wheelDepth := depth, isCalibrating := false, step := Idle)
  {
    match c.step
    case MinDepth => c.(minDepth := depth, step := MaxDepth)
    case MaxDepth => c.(maxDepth := depth, step := SteeringWheel)
    case SteeringWheel => c.(wheelDepth := depth, isCalibrating := false, step := Idle)
  }

  /** "Cancel": back to idle, nothing stored. */
  function CancelCalibration(c: Calibration): (d: Calibration)
    ensures CalibrationValid(d) && !d.isCalibrating
    ensures d.minDepth == c.minDepth && d.maxDepth == c.maxDepth && d.wheelDepth == c.wheelDepth
  {
    c.(isCalibrating := false, step := Idle)
  }

  /** A full run stores the three depths in order and ends idle. */
  lemma CalibrationCycle(c: Calibration, near: real, far: real, wheel: real)
    requires !c.isCalibrating
    ensures var d := SetPosition(SetPosition(SetPosition(StartCalibration(c), near), far), wheel);
      d == Calibration(false, Idle, near, far, wheel)
  {
  }

  // ---------------------------------------------------------------- recorded positions

  datatype RecordedPosition = RecordedPosition(name: string, leftHand: Vec3, rightHand: Vec3, timestamp: int)

  datatype Recorder = Recorder(positions: seq<RecordedPosition>, positionName: string, isRecordingPosition: bool)

  /** What "Record" does: record, alert that no hand data exists, or throw on an empty landmark list. */
  datatype RecordOutcome = Recorded(recorder: Recorder) | NoHandData | Thrown

  function DigitChar(d: nat): (c: char)
    requires d < 10
    ensures '0' <= c <= '9'
  {
    ('0' as int + d) as char
  }

  /** The decimal text of `n`, as template-literal interpolation writes it. */
  function Decimal(n: nat): (s: string)
    ensures |s| > 0 && forall k :: 0 <= k < |s| ==> '0' <= s[k] <= '9'
  {
    if n < 10 then [DigitChar(n)] else Decimal(n / 10) + [DigitChar(n % 10)]
  }

  function Wrist(h: seq<Landmark>): Vec3
    requires |h| > 0
  {
    Vec3(h[0].x, h[0].y, h[0].z)
  }

  /**
   * `recordCurrentPosition` at time `now`: both hands' wrists are appended under the typed
   * name, or `Position_<now>` when none is typed; the name field is cleared.
   */
  function RecordCurrentPosition(r: Recorder, left: Option<seq<Landmark>>, right: Option<seq<Landmark>>, now: nat)
    : (o: RecordOutcome)
    ensures o.NoHandData? <==> left.None? || right.None?
    ensures o.Thrown? <==> left.Some? && right.Some? && (|left.value| == 0 || |right.value| == 0)
    ensures o.Recorded? ==>
      && |o.recorder.positions| == |r.positions| + 1
      && o.recorder.positions[..|r.positions|] == r.positions
      && o.recorder.positions[|r.positions|].leftHand == Wrist(left.value)
      && o.recorder.positions[|r.positions|].rightHand == Wrist(right.value)
      && o.recorder.positions[|r.positions|].name == (if r.positionName == "" then "Position_" + Decimal(now) else r.positionName)
      && o.recorder.positionName == "" && !o.recorder.isRecordingPosition
  {
    if left.None? || right.None? then NoHandData
    else if |left.value| == 0 || |right.value| == 0 then Thrown
    else
      var name := if r.positionName != "" then r.positionName else "Position_" + Decimal(now);
      var p := RecordedPosition(name, Wrist(left.value), Wrist(right.value), now);
      Recorded(Recorder(r.positions + [p], "", false))
  }

  /** `prev.filter((_, i) => i !== index)` over the first `n` entries. */
  function FilterIndex(ps: seq<RecordedPosition>, index: int, n: nat): (r: seq<RecordedPosition>)
    requires n <= |ps|
    ensures |r| <= n
  {
    if n == 0 then []
    else FilterIndex(ps, index, n - 1) + (if n - 1 == index then [] else [ps[n - 1]])
  }

  /** `deletePosition`. */
  function DeletePosition(ps: seq<RecordedPosition>, index: int): seq<RecordedPosition>
  {
    FilterIndex(ps, index, |ps|)
  }

  lemma {:induction false} FilterIndexIsRemoval(ps: seq<RecordedPosition>, index: int, n: nat)
    requires n <= |ps|
    ensures 0 <= index < n ==> FilterIndex(ps, index, n) == ps[..index] + ps[index + 1..n]
    ensures !(0 <= index < n) ==> FilterIndex(ps, index, n) == ps[..n]
  {
    if n > 0 {
      FilterIndexIsRemoval(ps, index, n - 1);
      if n - 1 == index {
        assert ps[..n - 1] == ps[..index];
      } else if 0 <= index < n - 1 {
        assert ps[index + 1..n] == ps[index + 1..n - 1] + [ps[n - 1]];
      } else {
        assert ps[..n] == ps[..n - 1] + [ps[n - 1]];
      }
    }
  }

  /** Deleting removes exactly entry `index`, keeps the rest in order, and ignores a bad index. */
  lemma DeletePositionRemovesOnlyIndex(ps: seq<RecordedPosition>, index: int)
    ensures 0 <= index < |ps| ==> DeletePosition(ps, index) == ps[..index] + ps[index + 1..]
    ensures !(0 <= index < |ps|) ==> DeletePosition(ps, index) == ps
  {
    FilterIndexIsRemoval(ps, index, |ps|);
    assert ps[..|ps|] == ps;
  }
}
