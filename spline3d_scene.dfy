// The Spline scene (src/components/Spline3DScene.tsx): each frame of hand data becomes
// synthetic mouse events on the Spline viewer. A planar thumb/index pinch presses the
// mouse, a held pinch drags, and letting go releases it where the hand was last tracked;
// a hand that moved more than two pixels also moves the cursor.

module Spline3DScene {
  import opened HandTypes

  /** The React state `processGestures` reads and sets. */
  datatype SceneState = SceneState(isPinching: bool, lastHandPosition: Point2, lastPinchTime: int)

  const InitialScene := SceneState(false, Point2(0.0, 0.0), 0)

  /**
   * A hand pinches when its thumb and index tips are closer than 0.05 in the image plane
   * (compared on squares); an absent hand has distance 1 and never pinches.
   */
  predicate Pinching(hand: Option<HandData>)
    requires hand.Some? ==> IsHand(hand.value.landmarks)
  {
    hand.Some? && SqDist2(hand.value.landmarks[4], hand.value.landmarks[8]) < 0.0025
  }

  /** The wrist of a present hand in screen pixels. */
  function WristOnScreen(hand: HandData, width: real, height: real): Point2
    requires IsHand(hand.landmarks)
  {
    Point2(hand.landmarks[0].x * width, hand.landmarks[0].y * height)
  }

  /**
   * The pinch part of a frame. Starting a pinch presses at the pinching hand, holding it
   * drags there, and releasing it lets go at the last tracked position; with no pinch
   * before or now nothing is sent.
   */
  function PinchStep(wasPinching: bool, pinching: bool, at: Point2, last: Point2): (e: Option<MouseEvent>)
    ensures e.Some? <==> pinching || wasPinching
    ensures e.Some? && e.value.kind == MouseDown <==> pinching && !wasPinching
    ensures e.Some? && e.value.kind == MouseUp <==> wasPinching && !pinching
    ensures e.Some? && e.value.kind == MouseUp ==> e.value.x == last.x && e.value.y == last.y
    ensures e.Some? && e.value.kind != MouseUp ==> e.value.x == at.x && e.value.y == at.y
  {
    if pinching then
      Some(MouseEvent(if wasPinching then MouseMove else MouseDown, at.x, at.y))
    else if wasPinching then
      Some(MouseEvent(MouseUp, last.x, last.y))
    else
      None
  }

  function AsSeq(e: Option<MouseEvent>): seq<MouseEvent>
  {
    if e.Some? then [e.value] else []
  }

  /**
   * One run of `processGestures` from state `s`. Nothing happens until the scene has
   * loaded and the viewer exists. Otherwise the cursor follows the left hand, or else the
   * right one, with a `mousemove` when it moved more than 2 px along either axis, and the
   * pinch events follow, from the left hand if it pinches and else the right one.
   */
  method ProcessGestures(s: SceneState, data: MultiHandData, isSplineLoaded: bool, viewerPresent: bool,
                         width: real, height: real, now: int)
    returns (events: seq<MouseEvent>, next: SceneState)
    requires HandsWellFormed(data)
    ensures !isSplineLoaded || !viewerPresent ==> events == [] && next == s
    ensures isSplineLoaded && viewerPresent ==>
      var pinching := Pinching(data.leftHand) || Pinching(data.rightHand);
      var tracked := if data.leftHand.Some? then Some(WristOnScreen(data.leftHand.value, width, height))
                     else if data.rightHand.Some? then Some(WristOnScreen(data.rightHand.value, width, height))
                     else None;
      var active := if Pinching(data.leftHand) then WristOnScreen(data.leftHand.value, width, height)
                    else if Pinching(data.rightHand) then WristOnScreen(data.rightHand.value, width, height)
                    else Point2(0.0, 0.0);
      var moved := tracked.Some? &&
        (Abs(tracked.value.x - s.lastHandPosition.x) > 2.0 || Abs(tracked.value.y - s.lastHandPosition.y) > 2.0);
      && next.isPinching == pinching
      && next.lastHandPosition == (if tracked.Some? then tracked.value else s.lastHandPosition)
      && next.lastPinchTime == (if pinching && !s.isPinching then now else s.lastPinchTime)
      && events == (if moved then [MouseEvent(MouseMove, tracked.value.x, tracked.value.y)] else [])
                   + AsSeq(PinchStep(s.isPinching, pinching, active, s.lastHandPosition))
  {
    if !isSplineLoaded || !viewerPresent {
      return [], s;
    }
    events := [];
    next := s;
    var leftPinching := Pinching(data.leftHand);
    var rightPinching := Pinching(data.rightHand);
    var activeHand := if leftPinching then data.leftHand else if rightPinching then data.rightHand else None;

    if data.leftHand.Some? || data.rightHand.Some? {
      var currentHand := if data.leftHand.Some? then data.leftHand.value else data.rightHand.value;
      var current := WristOnScreen(currentHand, width, height);
      next := next.(lastHandPosition := current);
      if Abs(current.x - s.lastHandPosition.x) > 2.0 || Abs(current.y - s.lastHandPosition.y) > 2.0 {
        events := events + [MouseEvent(MouseMove, current.x, current.y)];
      }
    }

    if activeHand.Some? && (leftPinching || rightPinching) {
      var screen := WristOnScreen(activeHand.value, width, height);
      if !s.isPinching {
        events := events + [MouseEvent(MouseDown, screen.x, screen.y)];
        next := next.(isPinching := true, lastPinchTime := now);
      } else {
        events := events + [MouseEvent(MouseMove, screen.x, screen.y)];
      }
    } else if s.isPinching {
      events := events + [MouseEvent(MouseUp, s.lastHandPosition.x, s.lastHandPosition.y)];
      next := next.(isPinching := false);
    }
  }

  /** The kinds of pinch events a run of frames sends, from the pinch state before the first. */
  function PinchKinds(wasPinching: bool, pinches: seq<bool>): seq<MouseEventType>
    decreases |pinches|
  {
    if |pinches| == 0 then []
    else
      var e := PinchStep(wasPinching, pinches[0], Point2(0.0, 0.0), Point2(0.0, 0.0));
      (if e.Some? then [e.value.kind] else []) + PinchKinds(pinches[0], pinches[1..])
  }

  function Count(k: MouseEventType, ks: seq<MouseEventType>): nat
  {
    if |ks| == 0 then 0 else (if ks[0] == k then 1 else 0) + Count(k, ks[1..])
  }

  lemma {:induction false} CountAppend(k: MouseEventType, a: seq<MouseEventType>, b: seq<MouseEventType>)
    ensures Count(k, a + b) == Count(k, a) + Count(k, b)
  {
    if |a| == 0 {
      assert a + b == b;
    } else {
      assert (a + b)[1..] == a[1..] + b;
      CountAppend(k, a[1..], b);
    }
  }

  function PinchedAfter(wasPinching: bool, pinches: seq<bool>): bool
  {
    if |pinches| == 0 then wasPinching else pinches[|pinches| - 1]
  }

  function B(b: bool): int { if b then 1 else 0 }

  /**
   * Presses and releases pair up: over any run of frames the presses minus the releases
   * is the change in the pinch state, so from rest the mouse ends up pressed exactly when
   * the last frame pinches.
   */
  lemma {:induction false} PressesPairWithReleases(wasPinching: bool, pinches: seq<bool>)
    ensures Count(MouseDown, PinchKinds(wasPinching, pinches)) - Count(MouseUp, PinchKinds(wasPinching, pinches))
            == B(PinchedAfter(wasPinching, pinches)) - B(wasPinching)
    decreases |pinches|
  {
    if |pinches| > 0 {
      var e := PinchStep(wasPinching, pinches[0], Point2(0.0, 0.0), Point2(0.0, 0.0));
      var head := if e.Some? then [e.value.kind] else [];
      CountAppend(MouseDown, head, PinchKinds(pinches[0], pinches[1..]));
      CountAppend(MouseUp, head, PinchKinds(pinches[0], pinches[1..]));
      PressesPairWithReleases(pinches[0], pinches[1..]);
      if |pinches| > 1 {
        assert pinches[1..][|pinches[1..]| - 1] == pinches[|pinches| - 1];
      }
    }
  }

  /** A held pinch only drags: no second press comes before a release. */
  lemma {:induction false} HeldPinchOnlyDrags(n: nat)
    ensures PinchKinds(true, seq(n, i => true)) == seq(n, i => MouseMove)
  {
    if n > 0 {
      assert seq(n, i => true)[1..] == seq(n - 1, i => true);
      HeldPinchOnlyDrags(n - 1);
      assert seq(n, i => MouseMove) == [MouseMove] + seq(n - 1, i => MouseMove);
    }
  }

  /** The `MouseEvent` `simulateMouseEvent` dispatches, against the viewer's bounding box. */
  datatype MouseEventInit = MouseEventInit(kind: MouseEventType, clientX: real, clientY: real,
                                           screenX: real, screenY: real, detail: nat, button: nat, buttons: nat)

  /**
   * The client coordinates are relative to the viewer's top-left corner and the screen
   * coordinates are the ones passed in; `detail` and `buttons` are 1 for a press and 0
   * otherwise, and the button is always the primary one.
   */
  function ToMouseEvent(e: MouseEvent, rectLeft: real, rectTop: real): (m: MouseEventInit)
    ensures m.kind == e.kind
    ensures m.clientX + rectLeft == e.x && m.clientY + rectTop == e.y
    ensures m.screenX == e.x && m.screenY == e.y
    ensures (m.buttons == 1 <==> e.kind == MouseDown) && m.buttons <= 1
    ensures m.detail == m.buttons && m.button == 0
  {
    var pressed := if e.kind == MouseDown then 1 else 0;
    MouseEventInit(e.kind, e.x - rectLeft, e.y - rectTop, e.x, e.y, pressed, 0, pressed)
  }
}
