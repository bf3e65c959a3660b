// The home page (src/app/page.tsx): the MediaPipe callback that places hands into
// the left and right slots by the label-or-first-free rule, the open-hand indicator,
// the camera error messages and the bounded script-loading retry.

module HomePage {
  import opened HandTypes
  import opened HandSlots
  import GestureDetection

  /** The `HandData` built for one landmark set: the library detector's verdict on it. */
  function HandDataOf(h: seq<Landmark>): (d: HandData)
    requires IsHand(h)
    ensures d.landmarks == h
    ensures 0.0 <= d.confidence <= 1.0
    ensures d.confidence == 0.0 <==> d.gesture == NoGesture
  {
    GestureDetection.AllGesturesConfidence(GestureDetection.Library, h);
    var g := GestureDetection.AllGestures(GestureDetection.Library, h);
    HandData(h, g.gesture, g.confidence)
  }

  /** The hand data held by a slot that refers to hand `k`. */
  function SlotHand(hs: seq<seq<Landmark>>, k: Option<nat>): (d: Option<HandData>)
    requires AllHands(hs) && (k.Some? ==> k.value < |hs|)
    ensures d.Some? <==> k.Some?
    ensures d.Some? ==> d.value == HandDataOf(hs[k.value])
  {
    if k.Some? then Some(HandDataOf(hs[k.value])) else None
  }

  /** `(leftHand ? 1 : 0) + (rightHand ? 1 : 0)`. */
  function FilledSlots(l: Option<HandData>, r: Option<HandData>): (n: nat)
    ensures n <= 2
    ensures n == 0 <==> l.None? && r.None?
    ensures n == 2 <==> l.Some? && r.Some?
  {
    (if l.Some? then 1 else 0) + (if r.Some? then 1 else 0)
  }

  /** The `multiHandData` the callback publishes for one MediaPipe result. */
  function Received(r: Results): MultiHandData
    requires r.multiHandLandmarks.Some? ==> AllHands(r.multiHandLandmarks.value)
  {
    match r.multiHandLandmarks
    case None => NoHands
    case Some(hs) =>
      var s := FirstFree(LabelsOf(r, |hs|));
      var l := SlotHand(hs, s.left);
      var rt := SlotHand(hs, s.right);
      MultiHandData(l, rt, FilledSlots(l, rt))
  }

  /** `leftHand?.gesture === 'openHand' || rightHand?.gesture === 'openHand'`. */
  predicate OpenHandShown(d: MultiHandData)
  {
    (d.leftHand.Some? && d.leftHand.value.gesture == OpenHand)
    || (d.rightHand.Some? && d.rightHand.value.gesture == OpenHand)
  }

  /**
   * `onResults` (page.tsx:163-225): the loop reassigns `leftHand` and `rightHand` hand by
   * hand, then one setter publishes them with their count and the indicator follows.
   */
  method OnResults(r: Results) returns (data: MultiHandData, showOpenHandIndicator: bool)
    requires r.multiHandLandmarks.Some? ==> AllHands(r.multiHandLandmarks.value)
    ensures data == Received(r)
    ensures showOpenHandIndicator == OpenHandShown(data)
  {
    if r.multiHandLandmarks.None? {
      data := MultiHandData(None, None, 0);
      showOpenHandIndicator := false;
      return;
    }
    var hs := r.multiHandLandmarks.value;
    ghost var ls := LabelsOf(r, |hs|);
    var leftHand: Option<HandData> := None;
    var rightHand: Option<HandData> := None;
    var i := 0;
    while i < |hs|
      invariant 0 <= i <= |hs|
      invariant leftHand == SlotHand(hs, FirstFree(ls[..i]).left)
      invariant rightHand == SlotHand(hs, FirstFree(ls[..i]).right)
    {
      assert ls[..i + 1][..i] == ls[..i];
      var landmarks := hs[i];
      var handedness := LabelAt(r, i);
      var isLeftHand := handedness == Some(Left);
      var isRightHand := handedness == Some(Right);
      var gestureResult := GestureDetection.DetectAllGestures(GestureDetection.Library, landmarks);
      var handData := HandData(landmarks, gestureResult.gesture, gestureResult.confidence);
      if isLeftHand || (!isRightHand && leftHand == None) {
        leftHand := Some(handData);
      }
      if isRightHand || (!isLeftHand && rightHand == None) {
        rightHand := Some(handData);
      }
      i := i + 1;
    }
    assert ls[..i] == ls;
    var totalHands := (if leftHand.Some? then 1 else 0) + (if rightHand.Some? then 1 else 0);
    data := MultiHandData(leftHand, rightHand, totalHands);
    showOpenHandIndicator := (leftHand.Some? && leftHand.value.gesture == OpenHand)
                             || (rightHand.Some? && rightHand.value.gesture == OpenHand);
  }

  /**
   * Each slot holds the last hand carrying its label, else the first unlabelled hand;
   * a hand labelled for one side never fills the other.
   */
  lemma ReceivedSlots(r: Results, i: nat)
    requires r.multiHandLandmarks.Some? && AllHands(r.multiHandLandmarks.value)
    requires i < |r.multiHandLandmarks.value|
    ensures var hs := r.multiHandLandmarks.value;
      var ls := LabelsOf(r, |hs|);
      && Received(r).leftHand == SlotHand(hs, LabelOrFirstFree(ls, Left))
      && Received(r).rightHand == SlotHand(hs, LabelOrFirstFree(ls, Right))
      && (LabelAt(r, i) == Some(Left) ==> FirstFree(ls).right != Some(i))
      && (LabelAt(r, i) == Some(Right) ==> FirstFree(ls).left != Some(i))
  {
    var hs := r.multiHandLandmarks.value;
    var ls := LabelsOf(r, |hs|);
    FirstFreeIsReference(ls);
    LabelledHandStaysOnItsSide(ls, i);
  }

  /** `totalHands` counts the filled slots, not the landmark sets, so it is at most 2. */
  lemma TotalHandsCountsSlots(r: Results)
    requires r.multiHandLandmarks.Some? ==> AllHands(r.multiHandLandmarks.value)
    ensures Received(r).totalHands <= 2
    ensures Received(r).totalHands
            == (if Received(r).leftHand.Some? then 1 else 0) + (if Received(r).rightHand.Some? then 1 else 0)
  {
  }

  /** One hand without handedness occupies both slots, so `totalHands` is 2. */
  lemma SingleUnlabelledHandCountsTwice(r: Results)
    requires r.multiHandLandmarks.Some? && AllHands(r.multiHandLandmarks.value)
    requires |r.multiHandLandmarks.value| == 1 && r.multiHandedness.None?
    ensures Received(r).leftHand == Some(HandDataOf(r.multiHandLandmarks.value[0]))
    ensures Received(r).rightHand == Received(r).leftHand
    ensures Received(r).totalHands == 2
  {
    var ls := LabelsOf(r, 1);
    UnlabelledHandFillsBoth(ls);
  }

  /** Without landmarks both slots are empty, nothing is counted and the indicator is off. */
  lemma NoLandmarksNoHands(r: Results)
    requires r.multiHandLandmarks.None?
    ensures Received(r) == NoHands && !OpenHandShown(Received(r))
  {
  }

  // ---------------------------------------------------------------- camera errors

  /** Does `s` contain `t` as a contiguous substring? (`String.prototype.includes`) */
  predicate Contains(s: string, t: string)
  {
    t <= s || (|s| > 0 && Contains(s[1..], t))
  }

  const PermissionDenied: string := "Camera permission denied. Please allow camera access in your browser settings."
  const NoCamera: string := "No camera found. Please connect a camera and try again."
  const CameraBusy: string := "Camera is in use by another application. Please close other camera apps."
  const CameraFailed: string := "Camera access failed"

  /** The user-facing message for an error with `name` and `message` (page.tsx:365-374). */
  function CameraErrorMessage(name: string, message: string): (m: string)
    ensures name == "NotAllowedError" ==> m == PermissionDenied
    ensures name == "NotFoundError" ==> m == NoCamera
    ensures name == "NotReadableError" ==> m == CameraBusy
    ensures name !in {"NotAllowedError", "NotFoundError", "NotReadableError"} ==>
      m == (if Contains(message, "MediaPipe") then message else CameraFailed)
  {
    if name == "NotAllowedError" then PermissionDenied
    else if name == "NotFoundError" then NoCamera
    else if name == "NotReadableError" then CameraBusy
    else if Contains(message, "MediaPipe") then message
    else CameraFailed
  }

  /**
   * The message is one of the four fixed texts, or the raw error message, and the raw
   * message is passed on only when it mentions MediaPipe.
   */
  lemma CameraErrorMessageIsKnownOrMediaPipe(name: string, message: string)
    ensures var m := CameraErrorMessage(name, message);
      m in {PermissionDenied, NoCamera, CameraBusy, CameraFailed} || (m == message && Contains(message, "MediaPipe"))
  {
  }

  // ---------------------------------------------------------------- script loading

  /** `maxRetries` (page.tsx:37). */
  const MaxRetries: nat := 3

  datatype LoadStatus = Loading | LoadError

  /** The closure state of the loader: `retryCount` and the camera status it may set. */
  class Loader {
    var retryCount: nat
    var status: LoadStatus

    predicate Valid()
      reads this
    {
      retryCount <= MaxRetries && (status == LoadError ==> retryCount == MaxRetries)
    }

    constructor ()
      ensures Valid() && retryCount == 0 && status == Loading
    {
      retryCount := 0;
      status := Loading;
    }

    /**
     * The catch path of `loadMediaPipeScripts` (page.tsx:105-119): below the bound the
     * count goes up and another attempt is scheduled; at the bound the error status is set.
     */
    method AttemptFailed() returns (retry: bool)
      requires Valid() && status == Loading
      modifies this
      ensures Valid()
      ensures retry <==> old(retryCount) < MaxRetries
      ensures retry ==> retryCount == old(retryCount) + 1 && status == Loading
      ensures !retry ==> retryCount == old(retryCount) && status == LoadError
    {
      if retryCount < MaxRetries {
        retryCount := retryCount + 1;
        retry := true;
      } else {
        status := LoadError;
        retry := false;
      }
    }

    /**
     * The `setTimeout(loadMediaPipeScripts, 2000)` chain when every load fails: the catch
     * path runs once per attempt until it sets the error status.
     */
    method FailEveryAttempt() returns (attempts: nat)
      requires Valid() && status == Loading
      modifies this
      ensures Valid() && status == LoadError && retryCount == MaxRetries
      ensures attempts == AttemptsUntilError(old(retryCount))
    {
      ghost var start := retryCount;
      attempts := 0;
      var retry := true;
      while retry
        invariant Valid() && start <= retryCount <= MaxRetries
        invariant retry ==> status == Loading && attempts == retryCount - start
        invariant !retry ==> status == LoadError && retryCount == MaxRetries && attempts == retryCount - start + 1
        decreases MaxRetries - retryCount, retry
      {
        attempts := attempts + 1;
        retry := AttemptFailed();
      }
    }
  }

  /** A freshly mounted page whose script loads all fail makes four attempts: the first and 3 retries. */
  method FreshLoaderAttempts() returns (attempts: nat)
    ensures attempts == MaxRetries + 1
  {
    var loader := new Loader();
    attempts := loader.FailEveryAttempt();
  }

  /** Attempts made, from `retryCount`, when every attempt fails: one plus the retries left. */
  function AttemptsUntilError(retryCount: nat): (n: nat)
    requires retryCount <= MaxRetries
    ensures n == MaxRetries - retryCount + 1
    decreases MaxRetries - retryCount
  {
    if retryCount < MaxRetries then 1 + AttemptsUntilError(retryCount + 1) else 1
  }
}
