// The ETH 3-D page (src/app/eth-3d/page.tsx): the MediaPipe callback that places hands
// strictly by their handedness label, the open-hand indicator with its confidence bar,
// the script-loading retry, and the camera request guard and stop.

module Eth3DPage {
  import opened HandTypes
  import opened HandSlots
  import HomePage
  import GestureDetection

  /** The indicator needs an open hand detected with confidence above 0.7 (eth-3d/page.tsx:212). */
  const OpenHandConfidence: real := 0.7

  /** Does hand `i` count towards the indicator: it has handedness, and an open hand above 0.7? */
  predicate OpenHandAt(r: Results, i: nat)
    requires r.multiHandLandmarks.Some? && AllHands(r.multiHandLandmarks.value)
    requires i < |r.multiHandLandmarks.value|
  {
    var d := HomePage.HandDataOf(r.multiHandLandmarks.value[i]);
    LabelAt(r, i).Some? && d.gesture == OpenHand && d.confidence > OpenHandConfidence
  }

  /** `hasOpenHand` after the first `n` hands of the `forEach`. */
  predicate AnyOpenHand(r: Results, n: nat)
    requires r.multiHandLandmarks.Some? && AllHands(r.multiHandLandmarks.value)
    requires n <= |r.multiHandLandmarks.value|
  {
    n > 0 && (AnyOpenHand(r, n - 1) || OpenHandAt(r, n - 1))
  }

  /** The indicator is on iff some hand with handedness is an open hand above 0.7. */
  lemma {:induction false} AnyOpenHandIsSome(r: Results, n: nat)
    requires r.multiHandLandmarks.Some? && AllHands(r.multiHandLandmarks.value)
    requires n <= |r.multiHandLandmarks.value|
    ensures AnyOpenHand(r, n) <==> exists i :: 0 <= i < n && OpenHandAt(r, i)
  {
    if n > 0 {
      AnyOpenHandIsSome(r, n - 1);
    }
  }

  /** Both lists must be present; otherwise the frame counts as no hands. */
  predicate Complete(r: Results)
  {
    r.multiHandLandmarks.Some? && r.multiHandedness.Some?
  }

  /** The `multiHandData` published for one MediaPipe result. */
  function Received(r: Results): MultiHandData
    requires r.multiHandLandmarks.Some? ==> AllHands(r.multiHandLandmarks.value)
  {
    if !Complete(r) then NoHands
    else
      var hs := r.multiHandLandmarks.value;
      var s := ByLabel(LabelsOf(r, |hs|));
      MultiHandData(HomePage.SlotHand(hs, s.left), HomePage.SlotHand(hs, s.right), |hs|)
  }

  /** The indicator published for one MediaPipe result. */
  predicate Indicator(r: Results)
    requires r.multiHandLandmarks.Some? ==> AllHands(r.multiHandLandmarks.value)
  {
    Complete(r) && AnyOpenHand(r, |r.multiHandLandmarks.value|)
  }

  /**
   * `onResults` (eth-3d/page.tsx:161-225): entries without handedness are skipped, a
   * labelled hand overwrites its own slot, and `hasOpenHand` is raised along the way.
   */
  method OnResults(r: Results) returns (data: MultiHandData, showOpenHandIndicator: bool)
    requires r.multiHandLandmarks.Some? ==> AllHands(r.multiHandLandmarks.value)
    ensures data == Received(r)
    ensures showOpenHandIndicator == Indicator(r)
  {
    if r.multiHandLandmarks.None? || r.multiHandedness.None? {
      data := MultiHandData(None, None, 0);
      showOpenHandIndicator := false;
      return;
    }
    var hs := r.multiHandLandmarks.value;
    ghost var ls := LabelsOf(r, |hs|);
    var leftHand: Option<HandData> := None;
    var rightHand: Option<HandData> := None;
    var hasOpenHand := false;
    var index := 0;
    while index < |hs|
      invariant 0 <= index <= |hs|
      invariant leftHand == HomePage.SlotHand(hs, ByLabel(ls[..index]).left)
      invariant rightHand == HomePage.SlotHand(hs, ByLabel(ls[..index]).right)
      invariant hasOpenHand == AnyOpenHand(r, index)
    {
      assert ls[..index + 1][..index] == ls[..index];
      var handedness := LabelAt(r, index);
      if handedness.Some? {
        var landmarks := hs[index];
        var gestureResult := GestureDetection.DetectAllGestures(GestureDetection.Library, landmarks);
        var handData := HandData(landmarks, gestureResult.gesture, gestureResult.confidence);
        if handedness.value == Right {
          rightHand := Some(handData);
        } else if handedness.value == Left {
          leftHand := Some(handData);
        }
        if gestureResult.gesture == OpenHand && gestureResult.confidence > OpenHandConfidence {
          hasOpenHand := true;
        }
      }
      index := index + 1;
    }
    assert ls[..index] == ls;
    data := MultiHandData(leftHand, rightHand, |hs|);
    showOpenHandIndicator := hasOpenHand;
  }

  /**
   * Each slot holds the last hand with its label, unlabelled hands go nowhere, and
   * `totalHands` is the number of landmark sets however many slots are filled.
   */
  lemma ReceivedByLabel(r: Results)
    requires Complete(r) && AllHands(r.multiHandLandmarks.value)
    ensures var hs := r.multiHandLandmarks.value;
      var ls := LabelsOf(r, |hs|);
      && Received(r).leftHand == HomePage.SlotHand(hs, LastLabelled(ls, Left))
      && Received(r).rightHand == HomePage.SlotHand(hs, LastLabelled(ls, Right))
      && Received(r).totalHands == |hs|
  {
    ByLabelIsLastLabelled(LabelsOf(r, |r.multiHandLandmarks.value|));
  }

  /** Two hands that share a label fill one slot between them, yet count as two hands. */
  lemma SameLabelTwiceLeavesSlotEmpty(r: Results)
    requires Complete(r) && AllHands(r.multiHandLandmarks.value)
    requires |r.multiHandLandmarks.value| == 2 && |r.multiHandedness.value| >= 2
    requires r.multiHandedness.value[0].side == Left && r.multiHandedness.value[1].side == Left
    ensures Received(r).leftHand == Some(HomePage.HandDataOf(r.multiHandLandmarks.value[1]))
    ensures Received(r).rightHand.None?
    ensures Received(r).totalHands == 2
  {
    ReceivedByLabel(r);
  }

  // ---------------------------------------------------------------- page state

  const MaxRetries: nat := 3

  datatype CameraStatus = Loading | Waiting | Requesting | Active | Failed

  /**
   * The page's loader and camera state: `retryCount` (a closure variable of the loading
   * effect), whether `handsRef` and `cameraRef` are set, and the camera status.
   */
  class Page {
    var retryCount: nat
    var handsReady: bool
    var cameraRunning: bool
    var status: CameraStatus

    constructor ()
      ensures retryCount == 0 && !handsReady && !cameraRunning && status == Loading
    {
      retryCount := 0;
      handsReady := false;
      cameraRunning := false;
      status := Loading;
    }

    /**
     * The catch path of `loadMediaPipeScripts` (eth-3d/page.tsx:99-113): the count goes
     * up first and only then is compared, so a retry follows only while it is below 3.
     */
    method AttemptFailed() returns (retry: bool)
      requires retryCount < MaxRetries
      modifies this`retryCount, this`status
      ensures retryCount == old(retryCount) + 1
      ensures retry <==> retryCount < MaxRetries
      ensures status == (if retry then old(status) else Failed)
    {
      retryCount := retryCount + 1;
      if retryCount < MaxRetries {
        retry := true;
      } else {
        retry := false;
        status := Failed;
      }
    }

    /**
     * The guard of `handleCameraRequest` (eth-3d/page.tsx:227-240): without a Hands
     * instance the status becomes an error and the camera is never requested.
     */
    method HandleCameraRequest() returns (cameraRequested: bool)
      modifies this`status
      ensures cameraRequested == handsReady
      ensures status == (if handsReady then Requesting else Failed)
    {
      if !handsReady {
        status := Failed;
        cameraRequested := false;
        return;
      }
      status := Requesting;
      cameraRequested := true;
    }

    /** `stopCamera`: a running camera is stopped, the reference cleared, the status back to waiting. */
    method StopCamera() returns (stopped: bool)
      modifies this`cameraRunning, this`status
      ensures stopped == old(cameraRunning)
      ensures !cameraRunning && status == Waiting
    {
      stopped := cameraRunning;
      if cameraRunning {
        cameraRunning := false;
      }
      status := Waiting;
    }

    /**
     * The `setTimeout(loadMediaPipeScripts, 2000)` chain when every load fails: the catch
     * path runs once per attempt until the incremented count reaches the bound.
     */
    method FailEveryAttempt() returns (attempts: nat)
      requires retryCount < MaxRetries
      modifies this`retryCount, this`status
      ensures retryCount == MaxRetries && status == Failed
      ensures attempts == AttemptsUntilError(old(retryCount))
    {
      ghost var start := retryCount;
      attempts := 0;
      var retry := true;
      while retry
        invariant start <= retryCount <= MaxRetries
        invariant attempts == retryCount - start
        invariant retry ==> retryCount < MaxRetries
        invariant !retry ==> retryCount == MaxRetries && status == Failed
        decreases MaxRetries - retryCount
      {
        attempts := attempts + 1;
        retry := AttemptFailed();
      }
    }
  }

  /** A freshly mounted page whose script loads all fail makes only three attempts: the first and 2 retries. */
  method FreshPageAttempts() returns (attempts: nat)
    ensures attempts == MaxRetries
  {
    var page := new Page();
    attempts := page.FailEveryAttempt();
  }

  /** Attempts made, from `retryCount`, when every attempt fails. */
  function AttemptsUntilError(retryCount: nat): (n: nat)
    requires retryCount < MaxRetries
    ensures n == MaxRetries - retryCount
    decreases MaxRetries - retryCount
  {
    if retryCount + 1 < MaxRetries then 1 + AttemptsUntilError(retryCount + 1) else 1
  }
}
