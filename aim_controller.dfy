// The aim-and-shoot background controller (src/components/AimBackgroundController.tsx):
// the simulated mouse (down / move / up with drag and click detection), the rising-edge
// fist shot, the fist percentage, hand stability, the aim direction of
// `analyzeHandGestures`, and the target list with its hit check.

module AimController {
  import opened HandTypes
  import opened Fingers

  // ---------------------------------------------------------------- simulated mouse

  /** `mouseSimulatorRef.current` (AimBackgroundController.tsx:34-63). */
  class MouseSimulator {
    var isMouseDown: bool
    var lastMousePosition: Point2
    var lastClickTime: int
    var isDragging: bool

    /** Pixels the cursor must travel while down before it counts as a drag. */
    const dragThreshold: real := 10.0

    /** Milliseconds that must pass between two clicks. */
    const clickThreshold: int := 200

    /** A drag only ever happens with the button down. */
    predicate Valid()
      reads this
    {
      isDragging ==> isMouseDown
    }

    constructor ()
      ensures Valid()
      ensures !isMouseDown && !isDragging && lastMousePosition == Point2(0.0, 0.0) && lastClickTime == 0
    {
      isMouseDown := false;
      lastMousePosition := Point2(0.0, 0.0);
      lastClickTime := 0;
      isDragging := false;
    }

    /**
     * `handleMouseMovement`: always one 'mousemove'; while down, a move of more than 10 px
     * from the last position starts a drag, and nothing here ends one.
     */
    method HandleMouseMovement(x: real, y: real) returns (events: seq<MouseEvent>)
      requires Valid()
      modifies this`isDragging, this`lastMousePosition
      ensures Valid()
      ensures events == [MouseEvent(MouseMove, x, y)]
      ensures lastMousePosition == Point2(x, y)
      ensures isDragging == (old(isDragging) || (isMouseDown
        && Sq(x - old(lastMousePosition).x) + Sq(y - old(lastMousePosition).y) > Sq(dragThreshold)))
    {
      events := [MouseEvent(MouseMove, x, y)];
      if isMouseDown {
        if Sq(x - lastMousePosition.x) + Sq(y - lastMousePosition.y) > Sq(dragThreshold) {
          isDragging := true;
        }
      }
      lastMousePosition := Point2(x, y);
    }

    /** `handleMouseDown`: ignored while down; otherwise presses, forgets any drag, one 'mousedown'. */
    method HandleMouseDown(x: real, y: real) returns (events: seq<MouseEvent>)
      requires Valid()
      modifies this`isMouseDown, this`isDragging, this`lastMousePosition
      ensures Valid()
      ensures old(isMouseDown) ==> events == [] && isMouseDown && isDragging == old(isDragging)
                                   && lastMousePosition == old(lastMousePosition)
      ensures !old(isMouseDown) ==> events == [MouseEvent(MouseDown, x, y)] && isMouseDown && !isDragging
                                    && lastMousePosition == Point2(x, y)
    {
      events := [];
      if !isMouseDown {
        isMouseDown := true;
        isDragging := false;
        lastMousePosition := Point2(x, y);
        events := [MouseEvent(MouseDown, x, y)];
      }
    }

    /**
     * `handleMouseUp` at time `now`: ignored while up; otherwise one 'mouseup', then a
     * 'click' only when this was no drag and more than 200 ms passed since the last
     * release; the button, the drag and the release time are then reset.
     */
    method HandleMouseUp(x: real, y: real, now: int) returns (events: seq<MouseEvent>)
      requires Valid()
      modifies this`isMouseDown, this`isDragging, this`lastClickTime
      ensures Valid()
      ensures !old(isMouseDown) ==> events == [] && !isMouseDown && !isDragging && lastClickTime == old(lastClickTime)
      ensures old(isMouseDown) ==>
        events == [MouseEvent(MouseUp, x, y)]
                  + (if !old(isDragging) && now - old(lastClickTime) > clickThreshold then [MouseEvent(Click, x, y)] else [])
        && !isMouseDown && !isDragging && lastClickTime == now
    {
      events := [];
      if isMouseDown {
        events := [MouseEvent(MouseUp, x, y)];
        if !isDragging {
          var timeSinceLastClick := now - lastClickTime;
          if timeSinceLastClick > clickThreshold {
            events := events + [MouseEvent(Click, x, y)];
          }
        }
        isMouseDown := false;
        isDragging := false;
        lastClickTime := now;
      }
    }
  }

  // ---------------------------------------------------------------- fist and shooting

  /** `calculateFistPercentage`: 20 per closed finger; 0 for fewer than 21 landmarks. */
  function FistPercentage(landmarks: seq<Landmark>): (p: nat)
    ensures !IsHand(landmarks) ==> p == 0
    ensures IsHand(landmarks) ==> p == 20 * ClosedCount(landmarks, ShotLimit, FingerCount)
  {
    if !IsHand(landmarks) then 0 else ClosedCount(landmarks, ShotLimit, FingerCount) * 20
  }

  /** The percentage is one of 0, 20, …, 100, and 100 exactly for a full fist. */
  lemma FistPercentageSteps(landmarks: seq<Landmark>)
    ensures FistPercentage(landmarks) % 20 == 0 && FistPercentage(landmarks) <= 100
    ensures FistPercentage(landmarks) == 100 <==> IsHand(landmarks) && FullFist(landmarks, ShotLimit)
  {
    if IsHand(landmarks) {
      FullFistIsFiveClosed(landmarks, ShotLimit);
    }
  }

  /**
   * `analyzeHandGestures`, its no-hand path and aim clamp: with no 21-landmark hand
   * nothing is analysed, so no shot and no state change; otherwise each present hand
   * is checked for a shot and the aim comes from the left hand if present.
   */
  method AnalyzeHandGestures(latch: FistLatch, left: Option<seq<Landmark>>, right: Option<seq<Landmark>>,
                             aimLength: real)
    returns (a: Analysis)
    requires AimLengthOf(left, right, aimLength)
    modifies latch
    ensures !Present(left) && !Present(right) ==>
      a == NoHandAnalysis && latch.leftWasFist == old(latch.leftWasFist) && latch.rightWasFist == old(latch.rightWasFist)
    ensures -1.0 <= a.aimX <= 1.0 && -1.0 <= a.aimY <= 1.0
    ensures (a.aimX, a.aimY, a.isAiming) == Aim(left, right, aimLength)
    ensures Present(left) || Present(right) ==>
      a.isShooting == ((Present(left) && FullFist(left.value, ShotLimit) && !old(latch.leftWasFist))
                       || (Present(right) && FullFist(right.value, ShotLimit) && !old(latch.rightWasFist)))
  {
    if !Present(left) && !Present(right) {
      return NoHandAnalysis;
    }
    var leftShooting := false;
    if Present(left) {
      leftShooting := latch.DetectShooting(left.value, Left);
    }
    var rightShooting := false;
    if Present(right) {
      rightShooting := latch.DetectShooting(right.value, Right);
    }
    var (aimX, aimY, isAiming) := Aim(left, right, aimLength);
    a := Analysis(aimX, aimY, isAiming, leftShooting || rightShooting);
  }

  // ---------------------------------------------------------------- aim

  datatype Analysis = Analysis(aimX: real, aimY: real, isAiming: bool, isShooting: bool)

  const NoHandAnalysis := Analysis(0.0, 0.0, false, false)

  /** `landmarks && landmarks.length >= 21`. */
  predicate Present(h: Option<seq<Landmark>>)
  {
    h.Some? && IsHand(h.value)
  }

  /** The aiming hand: the left one when present, else the right one. */
  function AimHand(left: Option<seq<Landmark>>, right: Option<seq<Landmark>>): (h: Option<seq<Landmark>>)
    ensures h.Some? <==> Present(left) || Present(right)
    ensures h.Some? ==> IsHand(h.value) && (h == left || h == right)
    ensures Present(left) ==> h == left
  {
    if Present(left) then left else if Present(right) then right else None
  }

  /** `aimLength` is `Math.sqrt` of the aiming hand's squared wrist-to-index-knuckle distance. */
  predicate AimLengthOf(left: Option<seq<Landmark>>, right: Option<seq<Landmark>>, aimLength: real)
  {
    var h := AimHand(left, right);
    h.Some? ==> aimLength >= 0.0 && aimLength * aimLength == SqDist3(h.value[5], h.value[0])
  }

  /** Sensitivity 2.0 times smoothing 0.9 (AimBackgroundController.tsx:367-372). */
  const AimGain: real := 1.8

  /**
   * The aim of AimBackgroundController.tsx:333-379: the normalised wrist-to-knuckle
   * direction, scaled and clamped to [-1, 1]; no aim without a hand or for a zero-length line.
   */
  function Aim(left: Option<seq<Landmark>>, right: Option<seq<Landmark>>, aimLength: real): (r: (real, real, bool))
    requires AimLengthOf(left, right, aimLength)
    ensures -1.0 <= r.0 <= 1.0 && -1.0 <= r.1 <= 1.0
    ensures !r.2 ==> r.0 == 0.0 && r.1 == 0.0
    ensures r.2 <==> AimHand(left, right).Some? && aimLength > 0.0
  {
    var h := AimHand(left, right);
    if h.None? || aimLength <= 0.0 then (0.0, 0.0, false)
    else
      var dx := h.value[5].x - h.value[0].x;
      var dy := h.value[5].y - h.value[0].y;
      (Clamp(-1.0, 1.0, dx / aimLength * AimGain), Clamp(-1.0, 1.0, dy / aimLength * AimGain), true)
  }

  /**
   * `calculateHandStability`: 1 at a wrist-to-index-tip distance of 0.15, falling to 0
   * at 0.1 either side; `distance` is the `Math.sqrt` of the squared distance.
   */
  function HandStability(landmarks: seq<Landmark>, distance: real): (s: real)
    requires IsHand(landmarks) ==> distance >= 0.0 && distance * distance == SqDist3(landmarks[0], landmarks[8])
    ensures 0.0 <= s <= 1.0
    ensures !IsHand(landmarks) ==> s == 0.0
    ensures IsHand(landmarks) ==> (s == 1.0 <==> distance == 0.15)
    ensures IsHand(landmarks) ==> (s == 0.0 <==> Abs(distance - 0.15) >= 0.1)
  {
    if !IsHand(landmarks) then 0.0
    else Min(1.0, Max(0.0, 1.0 - Abs(distance - 0.15) / 0.1))
  }

  // ---------------------------------------------------------------- targets

  datatype Target = Target(id: nat, x: real, y: real, size: real, color: seq<nat>, hit: bool, hitTime: int)

  /** The eight colours of AimBackgroundController.tsx:277-286. */
  const Colors: seq<seq<nat>> := [[255, 0, 0], [0, 255, 0], [0, 0, 255], [255, 255, 0],
                                  [255, 0, 255], [0, 255, 255], [255, 128, 0], [128, 0, 255]]

  const TargetCount: nat := 8

  /** `p.random(lo, hi)` for a uniform draw `u` in [0, 1). */
  function Random(u: real, lo: real, hi: real): (r: real)
    requires 0.0 <= u < 1.0 && lo < hi
    ensures lo <= r < hi
  {
    Between(u, lo, hi);
    lo + u * (hi - lo)
  }

  lemma Between(u: real, lo: real, hi: real)
    requires 0.0 <= u < 1.0 && lo < hi
    ensures lo <= lo + u * (hi - lo) < hi
  {
    var d := hi - lo;
    var x := u * d;
    MulPos(1.0 - u, d);
    assert (1.0 - u) * d == d - x;
    if u > 0.0 {
      MulPos(u, d);
    }
  }

  /** Three uniform draws per target. */
  predicate Draws(us: seq<real>)
  {
    |us| == 3 * TargetCount && forall i :: 0 <= i < |us| ==> 0.0 <= us[i] < 1.0
  }

  /**
   * `initializeTargets`: eight unhit targets with ids 0..7 and the eight colours in order,
   * placed in [-2000, 2000) x [-1500, 1500) with sizes in [30, 80).
   */
  method InitializeTargets(us: seq<real>) returns (newTargets: seq<Target>)
    requires Draws(us)
    ensures |newTargets| == TargetCount
    ensures forall i :: 0 <= i < TargetCount ==>
      && newTargets[i].id == i && !newTargets[i].hit && newTargets[i].hitTime == 0
      && newTargets[i].color == Colors[i % |Colors|]
      && -2000.0 <= newTargets[i].x < 2000.0 && -1500.0 <= newTargets[i].y < 1500.0
      && 30.0 <= newTargets[i].size < 80.0
  {
    newTargets := [];
    var i := 0;
    while i < TargetCount
      invariant 0 <= i <= TargetCount && |newTargets| == i
      invariant forall j :: 0 <= j < i ==>
        && newTargets[j].id == j && !newTargets[j].hit && newTargets[j].hitTime == 0
        && newTargets[j].color == Colors[j % |Colors|]
        && -2000.0 <= newTargets[j].x < 2000.0 && -1500.0 <= newTargets[j].y < 1500.0
        && 30.0 <= newTargets[j].size < 80.0
    {
      newTargets := newTargets + [Target(i, Random(us[3 * i], -2000.0, 2000.0), Random(us[3 * i + 1], -1500.0, 1500.0),
                                         Random(us[3 * i + 2], 30.0, 80.0), Colors[i % |Colors|], false, 0)];
      i := i + 1;
    }
  }

  /** `p.dist(...) < size * 0.5` for a target seen from camera offset (cx, cy), compared on squares. */
  predicate InSight(t: Target, cx: real, cy: real, centerX: real, centerY: real)
  {
    var hitRadius := t.size * 0.5;
    hitRadius > 0.0 && Sq(t.x + cx - centerX) + Sq(t.y + cy - centerY) < Sq(hitRadius)
  }

  /** A target the check scores: not yet hit and in sight. */
  predicate Scores(t: Target, cx: real, cy: real, centerX: real, centerY: real)
  {
    !t.hit && InSight(t, cx, cy, centerX, centerY)
  }

  /** How many of the first `n` targets score. */
  function HitCount(ts: seq<Target>, n: nat, cx: real, cy: real, centerX: real, centerY: real): (k: nat)
    requires n <= |ts|
    ensures k <= n
  {
    if n == 0 then 0
    else HitCount(ts, n - 1, cx, cy, centerX, centerY) + (if Scores(ts[n - 1], cx, cy, centerX, centerY) then 1 else 0)
  }

  /** Index of the last scoring target among the first `n`, if any. */
  function LastHit(ts: seq<Target>, n: nat, cx: real, cy: real, centerX: real, centerY: real): (k: Option<nat>)
    requires n <= |ts|
    ensures k.Some? ==> k.value < n && Scores(ts[k.value], cx, cy, centerX, centerY)
    ensures k.None? <==> HitCount(ts, n, cx, cy, centerX, centerY) == 0
  {
    if n == 0 then None
    else if Scores(ts[n - 1], cx, cy, centerX, centerY) then Some(n - 1)
    else LastHit(ts, n - 1, cx, cy, centerX, centerY)
  }

  /** `{ ...target, hit: true, hitTime: now }`. */
  function MarkHit(t: Target, now: int): (u: Target)
    ensures u.hit && u.hitTime == now && u.id == t.id && u.x == t.x && u.y == t.y && u.size == t.size
  {
    t.(hit := true, hitTime := now)
  }

  /**
   * `checkForHits` as written (AimBackgroundController.tsx:1347-1376): every scoring
   * target adds 10, but each hit publishes a copy of the ORIGINAL list with only that
   * target marked, so the last published list (the one React keeps) marks only the last hit.
   */
  method CheckForHitsAsWritten(targets: seq<Target>, cx: real, cy: real, centerX: real, centerY: real, now: int)
    returns (published: Option<seq<Target>>, scoreGain: nat)
    ensures scoreGain == 10 * HitCount(targets, |targets|, cx, cy, centerX, centerY)
    ensures var last := LastHit(targets, |targets|, cx, cy, centerX, centerY);
      published == if last.None? then None else Some(targets[last.value := MarkHit(targets[last.value], now)])
  {
    published := None;
    scoreGain := 0;
    var index := 0;
    while index < |targets|
      invariant 0 <= index <= |targets|
      invariant scoreGain == 10 * HitCount(targets, index, cx, cy, centerX, centerY)
      invariant var last := LastHit(targets, index, cx, cy, centerX, centerY);
        published == if last.None? then None else Some(targets[last.value := MarkHit(targets[last.value], now)])
    {
      var target := targets[index];
      if !target.hit && InSight(target, cx, cy, centerX, centerY) {
        var newTargets := targets[index := MarkHit(target, now)];
        published := Some(newTargets);
        scoreGain := scoreGain + 10;
      }
      index := index + 1;
    }
  }

  /** Two targets in sight in the same frame: 20 points, but only the second is marked hit. */
  lemma DoubleHitMarksOnlyOne(now: int)
    ensures var ts := [Target(0, 0.0, 0.0, 40.0, Colors[0], false, 0), Target(1, 1.0, 0.0, 40.0, Colors[1], false, 0)];
      && 10 * HitCount(ts, 2, 0.0, 0.0, 0.0, 0.0) == 20
      && LastHit(ts, 2, 0.0, 0.0, 0.0, 0.0) == Some(1)
      && !ts[LastHit(ts, 2, 0.0, 0.0, 0.0, 0.0).value := MarkHit(ts[1], now)][0].hit
  {
    var ts := [Target(0, 0.0, 0.0, 40.0, Colors[0], false, 0), Target(1, 1.0, 0.0, 40.0, Colors[1], false, 0)];
    assert Scores(ts[0], 0.0, 0.0, 0.0, 0.0);
    assert Scores(ts[1], 0.0, 0.0, 0.0, 0.0);
  }

  /** The intended check: every scoring target is marked, every other target is left as it was. */
  function CheckForHits(targets: seq<Target>, cx: real, cy: real, centerX: real, centerY: real, now: int)
    : (r: seq<Target>)
    ensures |r| == |targets|
    ensures forall i :: 0 <= i < |targets| ==>
      r[i] == if Scores(targets[i], cx, cy, centerX, centerY) then MarkHit(targets[i], now) else targets[i]
  {
    seq(|targets|, i requires 0 <= i < |targets| =>
      if Scores(targets[i], cx, cy, centerX, centerY) then MarkHit(targets[i], now) else targets[i])
  }

  /** After the intended check no target is left in sight unhit, and hits are never undone. */
  lemma CheckForHitsMarksAll(targets: seq<Target>, cx: real, cy: real, centerX: real, centerY: real, now: int)
    ensures var r := CheckForHits(targets, cx, cy, centerX, centerY, now);
      && HitCount(r, |r|, cx, cy, centerX, centerY) == 0
      && forall i :: 0 <= i < |targets| && targets[i].hit ==> r[i] == targets[i]
  {
    var r := CheckForHits(targets, cx, cy, centerX, centerY, now);
    NoneScoreNoHits(r, |r|, cx, cy, centerX, centerY);
  }

  lemma {:induction false} NoneScoreNoHits(ts: seq<Target>, n: nat, cx: real, cy: real, centerX: real, centerY: real)
    requires n <= |ts| && forall i :: 0 <= i < n ==> !Scores(ts[i], cx, cy, centerX, centerY)
    ensures HitCount(ts, n, cx, cy, centerX, centerY) == 0
  {
    if n > 0 {
      NoneScoreNoHits(ts, n - 1, cx, cy, centerX, centerY);
    }
  }
}
