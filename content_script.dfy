// The browser extension's content script (gesture-mouse-extension/content.js): a
// controller that turns the first detected hand into mouse events on the page, the
// start/stop lifecycle around the camera, and the popup's message handler.

module ContentScript {
  import opened HandTypes
  import Spline3DScene

  /** `gestureThreshold`: a pinch is a thumb-to-index distance below 0.05. */
  const GestureThreshold: real := 0.05

  /**
   * The pinch test of `onResults`, on squared distances: `calculateDistance` is the
   * square root of `SqDist3`, and a root below 0.05 is a square below 0.0025.
   */
  predicate Pinches(h: seq<Landmark>)
    requires IsHand(h)
  {
    SqDist3(h[4], h[8]) < GestureThreshold * GestureThreshold
  }

  /**
   * The event of one processed frame: a new pinch presses, a held pinch drags, a released
   * pinch lets go, and an open hand simply moves the cursor.
   */
  function StepKind(wasPinching: bool, pinching: bool): (k: MouseEventType)
    ensures k == MouseDown <==> pinching && !wasPinching
    ensures k == MouseUp <==> wasPinching && !pinching
    ensures k != Click
  {
    if pinching then (if wasPinching then MouseMove else MouseDown)
    else if wasPinching then MouseUp
    else MouseMove
  }

  /**
   * The extension and the Spline scene run the same press/drag/release machine; they
   * differ only on frames with no pinch before or now, where the extension still moves
   * the cursor and the scene's pinch machine stays silent.
   */
  lemma SameMachineAsSplineScene(wasPinching: bool, pinching: bool, at: Point2, last: Point2)
    ensures var e := Spline3DScene.PinchStep(wasPinching, pinching, at, last);
      && (e.Some? <==> wasPinching || pinching)
      && (e.Some? ==> e.value.kind == StepKind(wasPinching, pinching))
      && (e.None? ==> StepKind(wasPinching, pinching) == MouseMove)
  {
  }

  /** A value read from a message object: a missing field reads as `undefined`. */
  datatype JsValue = Undefined | Number(n: real) | Text(s: string)

  function Field(request: map<string, JsValue>, name: string): (v: JsValue)
    ensures name !in request ==> v == Undefined
    ensures name in request ==> v == request[name]
  {
    if name in request then request[name] else Undefined
  }

  /** The message the popup's slider sends: the action and the slider's value as `sensitivity`. */
  function SliderMessage(value: string): map<string, JsValue>
  {
    map["action" := Text("setSensitivity"), "sensitivity" := Text(value)]
  }

  /** `GestureMouseController`. */
  class GestureMouseController {
    var isActive: bool
    var isPinching: bool
    var lastHandPosition: Point2
    var sensitivity: JsValue

    constructor ()
      ensures !isActive && !isPinching && lastHandPosition == Point2(0.0, 0.0) && sensitivity == Number(1.0)
    {
      isActive := false;
      isPinching := false;
      lastHandPosition := Point2(0.0, 0.0);
      sensitivity := Number(1.0);
    }

    /**
     * `init`, which ends in `startCamera`: the controller becomes active only once the
     * camera has started; a failure anywhere on the way leaves it as it was.
     */
    method Init(cameraStarts: bool) returns (success: bool)
      modifies this`isActive
      ensures success == cameraStarts
      ensures isActive == (old(isActive) || cameraStarts)
    {
      if cameraStarts {
        isActive := true;
      }
      success := cameraStarts;
    }

    /** `stop`: the controller goes inactive. */
    method Stop()
      modifies this`isActive
      ensures !isActive
    {
      isActive := false;
    }

    /**
     * `onResults` for the page of size `width` by `height`. An inactive controller, or a
     * frame without landmarks, does nothing. Otherwise exactly one event is sent at the
     * first hand's wrist in screen pixels, chosen by `StepKind`, and the pinch state and
     * last position follow the frame.
     */
    method OnResults(results: Results, width: real, height: real) returns (event: Option<MouseEvent>)
      requires results.multiHandLandmarks.Some? ==> AllHands(results.multiHandLandmarks.value)
      modifies this`isPinching, this`lastHandPosition
      ensures !isActive || results.multiHandLandmarks.None? || |results.multiHandLandmarks.value| == 0 ==>
        event.None? && isPinching == old(isPinching) && lastHandPosition == old(lastHandPosition)
      ensures isActive && results.multiHandLandmarks.Some? && |results.multiHandLandmarks.value| > 0 ==>
        var h := results.multiHandLandmarks.value[0];
        var at := Point2(h[0].x * width, h[0].y * height);
        && event.Some? && event.value.kind == StepKind(old(isPinching), Pinches(h))
        && event.value.x == at.x && event.value.y == at.y
        && isPinching == Pinches(h)
        && lastHandPosition == at
    {
      if !isActive || results.multiHandLandmarks.None? || |results.multiHandLandmarks.value| == 0 {
        return None;
      }
      var landmarks := results.multiHandLandmarks.value[0];
      var currentX := landmarks[0].x * width;
      var currentY := landmarks[0].y * height;
      var pinching := Pinches(landmarks);
      if pinching {
        if !isPinching {
          event := Some(MouseEvent(MouseDown, currentX, currentY));
          isPinching := true;
        } else {
          event := Some(MouseEvent(MouseMove, currentX, currentY));
        }
      } else if isPinching {
        event := Some(MouseEvent(MouseUp, currentX, currentY));
        isPinching := false;
      } else {
        event := Some(MouseEvent(MouseMove, currentX, currentY));
      }
      lastHandPosition := Point2(currentX, currentY);
    }

    /** The `setSensitivity` branch as written: it stores the request's `value` field. */
    method SetSensitivityAsWritten(request: map<string, JsValue>)
      modifies this`sensitivity
      ensures sensitivity == Field(request, "value")
    {
      sensitivity := Field(request, "value");
    }

    /** The `setSensitivity` branch reading the field the popup sends. */
    method SetSensitivity(request: map<string, JsValue>)
      modifies this`sensitivity
      ensures sensitivity == Field(request, "sensitivity")
    {
      sensitivity := Field(request, "sensitivity");
    }
  }

  /** What the as-written handler stores for a slider message: always `undefined`. */
  function StoredAsWritten(request: map<string, JsValue>): JsValue
  {
    Field(request, "value")
  }

  /** What the corrected handler stores for a message. */
  function Stored(request: map<string, JsValue>): JsValue
  {
    Field(request, "sensitivity")
  }

  /** The slider's value never reaches the controller as written: it reads as `undefined`. */
  lemma SliderValueLost(value: string)
    ensures StoredAsWritten(SliderMessage(value)) == Undefined
  {
    assert "value" !in SliderMessage(value);
  }

  /** Read from the field the popup fills, the slider's value arrives. */
  lemma SliderValueArrives(value: string)
    ensures Stored(SliderMessage(value)) == Text(value)
  {
    assert "sensitivity" in SliderMessage(value);
  }

  /** The popup's requests, by their `action` field. */
  datatype Action = Start | StopAction | SetSensitivityAction | Ping | Unknown

  datatype Response = Response(success: bool, active: Option<bool>)

  /** The script's `gestureController` and its message listener. */
  class Listener {
    var controller: GestureMouseController?

    constructor ()
      ensures controller == null
    {
      controller := null;
    }

    /**
     * One message. 'start' creates the controller when there is none and initialises it,
     * answering with the outcome; 'stop' stops and drops it; 'setSensitivity' updates an
     * existing controller through the intended `SetSensitivity`, which reads the field the
     * popup fills (as written the branch reads `value`, see `SetSensitivityAsWritten`);
     * 'ping' reports whether a controller exists and is active; any other action gets no
     * answer. `cameraStarts` is how initialisation turns out.
     */
    method OnMessage(action: Action, request: map<string, JsValue>, cameraStarts: bool)
      returns (response: Option<Response>)
      modifies this, controller
      ensures action == Start ==>
        && controller != null && (old(controller) != null ==> controller == old(controller))
        && controller.isActive == ((old(controller) != null && old(controller.isActive)) || cameraStarts)
        && response == Some(Response(cameraStarts, None))
      ensures action == StopAction ==>
        controller == null && (old(controller) != null ==> !old(controller).isActive)
        && response == Some(Response(true, None))
      ensures action == SetSensitivityAction ==>
        controller == old(controller) && (controller != null ==> controller.sensitivity == Field(request, "sensitivity"))
        && response == Some(Response(true, None))
      ensures action == Ping ==>
        controller == old(controller) && (controller != null ==> unchanged(controller))
        && response == Some(Response(true, Some(controller != null && controller.isActive)))
      ensures action == Unknown ==> controller == old(controller) && response.None?
    {
      match action {
        case Start =>
          if controller == null {
            controller := new GestureMouseController();
          }
          var success := controller.Init(cameraStarts);
          response := Some(Response(success, None));
        case StopAction =>
          if controller != null {
            controller.Stop();
            controller := null;
          }
          response := Some(Response(true, None));
        case SetSensitivityAction =>
          if controller != null {
            controller.SetSensitivity(request);
          }
          response := Some(Response(true, None));
        case Ping =>
          response := Some(Response(true, Some(controller != null && controller.isActive)));
        case Unknown =>
          response := None;
      }
    }
  }

  /** The event kinds of a run of frames, by pinch flag, from the pinch state `wasPinching`. */
  function Kinds(wasPinching: bool, pinches: seq<bool>): seq<MouseEventType>
    decreases |pinches|
  {
    if |pinches| == 0 then [] else [StepKind(wasPinching, pinches[0])] + Kinds(pinches[0], pinches[1..])
  }

  /** A frame `onResults` acts on: it has landmarks, the first of them a full hand. */
  predicate Processed(r: Results)
  {
    r.multiHandLandmarks.Some? && |r.multiHandLandmarks.value| > 0 && AllHands(r.multiHandLandmarks.value)
  }

  /** Whether a processed frame's first hand pinches. */
  predicate FramePinches(r: Results)
    requires Processed(r)
  {
    assert IsHand(r.multiHandLandmarks.value[0]);
    Pinches(r.multiHandLandmarks.value[0])
  }

  /** The pinch flag of each processed frame's first hand. */
  function PinchFlags(frames: seq<Results>): (ps: seq<bool>)
    requires forall i :: 0 <= i < |frames| ==> Processed(frames[i])
    ensures |ps| == |frames|
    ensures forall i :: 0 <= i < |frames| ==> ps[i] == FramePinches(frames[i])
  {
    if |frames| == 0 then []
    else
      assert Processed(frames[0]);
      [FramePinches(frames[0])] + PinchFlags(frames[1..])
  }

  /** A run's kinds so far, `done`, extended by the event of frame `i`. */
  lemma KindsFrom(wasPinching: bool, pinches: seq<bool>, done: seq<MouseEventType>, pinching: bool, i: nat)
    requires i < |pinches|
    requires Kinds(wasPinching, pinches) == done + Kinds(pinching, pinches[i..])
    ensures Kinds(wasPinching, pinches) == (done + [StepKind(pinching, pinches[i])]) + Kinds(pinches[i], pinches[i + 1..])
  {
    assert pinches[i..][1..] == pinches[i + 1..];
  }

  /** One `onResults` call on a processed frame, seen through the kind of its event. */
  method ProcessFrame(c: GestureMouseController, r: Results, width: real, height: real)
    returns (kind: MouseEventType)
    requires c.isActive && Processed(r)
    modifies c`isPinching, c`lastHandPosition
    ensures kind == StepKind(old(c.isPinching), FramePinches(r))
    ensures c.isPinching == FramePinches(r)
  {
    var event := c.OnResults(r, width, height);
    kind := event.value.kind;
  }

  /**
   * MediaPipe calling `onResults` once per frame on an active controller: the events sent
   * are exactly `Kinds` of the frames' pinch flags from the controller's pinch state, and the
   * controller ends pinching iff the last frame pinches.
   */
  method RunFrames(c: GestureMouseController, frames: seq<Results>, width: real, height: real)
    returns (kinds: seq<MouseEventType>)
    requires c.isActive
    requires forall i :: 0 <= i < |frames| ==> Processed(frames[i])
    modifies c`isPinching, c`lastHandPosition
    ensures kinds == Kinds(old(c.isPinching), PinchFlags(frames))
    ensures c.isPinching == Spline3DScene.PinchedAfter(old(c.isPinching), PinchFlags(frames))
  {
    var flags := PinchFlags(frames);
    kinds := [];
    var i := 0;
    while i < |frames|
      invariant 0 <= i <= |frames|
      invariant c.isActive
      invariant Kinds(old(c.isPinching), flags) == kinds + Kinds(c.isPinching, flags[i..])
      invariant c.isPinching == if i == 0 then old(c.isPinching) else flags[i - 1]
    {
      KindsFrom(old(c.isPinching), flags, kinds, c.isPinching, i);
      var kind := ProcessFrame(c, frames[i], width, height);
      kinds := kinds + [kind];
      i := i + 1;
    }
    assert flags[|frames|..] == [];
  }

  /**
   * Over any run of frames there is one event per frame, never a click, and presses and
   * releases pair up as in the Spline scene: the presses minus the releases equal the change
   * in the pinch state, so a release is never sent without a press before it.
   */
  lemma {:induction false} PressesPairWithReleases(wasPinching: bool, pinches: seq<bool>)
    ensures |Kinds(wasPinching, pinches)| == |pinches|
    ensures Click !in Kinds(wasPinching, pinches)
    ensures Spline3DScene.Count(MouseDown, Kinds(wasPinching, pinches))
            - Spline3DScene.Count(MouseUp, Kinds(wasPinching, pinches))
            == Spline3DScene.B(Spline3DScene.PinchedAfter(wasPinching, pinches)) - Spline3DScene.B(wasPinching)
    decreases |pinches|
  {
    if |pinches| > 0 {
      var head := [StepKind(wasPinching, pinches[0])];
      var tail := Kinds(pinches[0], pinches[1..]);
      Spline3DScene.CountAppend(MouseDown, head, tail);
      Spline3DScene.CountAppend(MouseUp, head, tail);
      PressesPairWithReleases(pinches[0], pinches[1..]);
      if |pinches| > 1 {
        assert pinches[1..][|pinches[1..]| - 1] == pinches[|pinches| - 1];
      }
    }
  }
}
