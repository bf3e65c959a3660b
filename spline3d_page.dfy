// The Spline 3-D page (src/app/spline-3d/page.tsx): the MediaPipe callback that places
// hands strictly by handedness, the loading-attempt counter (as written, where the retried
// closure tests the attempt it captured, and as intended, bounded at 3) and the component
// check that gates initialisation.

module Spline3DPage {
  import opened HandTypes
  import opened HandSlots

  /** `{ landmarks, handedness }`: the landmarks are `undefined` when the lists differ in length. */
  datatype TrackedHand = TrackedHand(landmarks: Option<seq<Landmark>>, handedness: Handedness)

  datatype SplineHands = SplineHands(leftHand: Option<TrackedHand>, rightHand: Option<TrackedHand>, totalHands: nat)

  /** What the callback does with one result: publish new hand data, or throw. */
  datatype Outcome = Published(data: SplineHands) | Thrown

  /** The labels of the handedness list, every entry labelled. */
  function Labels(hds: seq<Handedness>): (ls: seq<Option<Label>>)
    ensures |ls| == |hds|
    ensures forall i :: 0 <= i < |hds| ==> ls[i] == Some(hds[i].side)
  {
    seq(|hds|, i requires 0 <= i < |hds| => Some(hds[i].side))
  }

  /** `results.multiHandLandmarks[index]`, `undefined` past the end. */
  function LandmarksAt(hs: seq<seq<Landmark>>, i: nat): (l: Option<seq<Landmark>>)
    ensures l.Some? <==> i < |hs|
  {
    if i < |hs| then Some(hs[i]) else None
  }

  /** The slot entry for handedness entry `k`. */
  function Entry(hs: seq<seq<Landmark>>, hds: seq<Handedness>, k: Option<nat>): (e: Option<TrackedHand>)
    requires k.Some? ==> k.value < |hds|
    ensures e.Some? <==> k.Some?
  {
    if k.Some? then Some(TrackedHand(LandmarksAt(hs, k.value), hds[k.value])) else None
  }

  /** The reference outcome of the callback (spline-3d/page.tsx:112-137). */
  function Received(r: Results): Outcome
  {
    var total := if r.multiHandLandmarks.Some? then |r.multiHandLandmarks.value| else 0;
    match r.multiHandedness
    case None => Published(SplineHands(None, None, total))
    case Some(hds) =>
      if |hds| > 0 && r.multiHandLandmarks.None? then Thrown
      else
        var hs := if r.multiHandLandmarks.Some? then r.multiHandLandmarks.value else [];
        var s := ByLabel(Labels(hds));
        Published(SplineHands(Entry(hs, hds, s.left), Entry(hs, hds, s.right), total))
  }

  /**
   * The callback: the `forEach` runs over the handedness list and a later hand with the
   * same label overwrites the earlier one. Reading `multiHandLandmarks[index]` while the
   * landmark list is absent throws.
   */
  method OnResults(r: Results) returns (outcome: Outcome)
    ensures outcome == Received(r)
  {
    var finalLeftHand: Option<TrackedHand> := None;
    var finalRightHand: Option<TrackedHand> := None;
    if r.multiHandedness.Some? {
      var hds := r.multiHandedness.value;
      ghost var ls := Labels(hds);
      var index := 0;
      while index < |hds|
        invariant 0 <= index <= |hds|
        invariant index > 0 ==> r.multiHandLandmarks.Some?
        invariant index == 0 ==> finalLeftHand.None? && finalRightHand.None?
        invariant r.multiHandLandmarks.Some? ==>
          finalLeftHand == Entry(r.multiHandLandmarks.value, hds, ByLabel(ls[..index]).left)
          && finalRightHand == Entry(r.multiHandLandmarks.value, hds, ByLabel(ls[..index]).right)
      {
        if r.multiHandLandmarks.None? {
          return Thrown;
        }
        assert ls[..index + 1][..index] == ls[..index];
        var handedness := hds[index];
        var landmarks := LandmarksAt(r.multiHandLandmarks.value, index);
        if handedness.side == Left {
          finalLeftHand := Some(TrackedHand(landmarks, handedness));
        } else if handedness.side == Right {
          finalRightHand := Some(TrackedHand(landmarks, handedness));
        }
        index := index + 1;
      }
      assert ls[..index] == ls;
      if r.multiHandLandmarks.None? {
        assert ls == [];
      }
    }
    var totalHands := if r.multiHandLandmarks.Some? then |r.multiHandLandmarks.value| else 0;
    outcome := Published(SplineHands(finalLeftHand, finalRightHand, totalHands));
  }

  /**
   * Each slot holds the last entry with its label; without handedness both slots stay
   * empty; `totalHands` is the number of landmark sets, 0 when absent.
   */
  lemma ReceivedByLabel(r: Results)
    requires Received(r).Published?
    ensures r.multiHandedness.None? ==> Received(r).data.leftHand.None? && Received(r).data.rightHand.None?
    ensures r.multiHandedness.Some? ==>
      var hds := r.multiHandedness.value;
      && (Received(r).data.leftHand.Some? <==> LastLabelled(Labels(hds), Left).Some?)
      && (Received(r).data.leftHand.Some? ==>
            Received(r).data.leftHand.value.handedness == hds[LastLabelled(Labels(hds), Left).value])
      && (Received(r).data.rightHand.Some? <==> LastLabelled(Labels(hds), Right).Some?)
      && (Received(r).data.rightHand.Some? ==>
            Received(r).data.rightHand.value.handedness == hds[LastLabelled(Labels(hds), Right).value])
    ensures Received(r).data.totalHands == if r.multiHandLandmarks.Some? then |r.multiHandLandmarks.value| else 0
  {
    if r.multiHandedness.Some? {
      ByLabelIsLastLabelled(Labels(r.multiHandedness.value));
    }
  }

  // ---------------------------------------------------------------- loading

  /** `maxLoadingAttempts` (spline-3d/page.tsx:21). */
  const MaxLoadingAttempts: nat := 3

  /** The `loadingAttempt` state, which starts at 1. */
  class Loader {
    var loadingAttempt: nat

    predicate Valid()
      reads this
    {
      1 <= loadingAttempt
    }

    constructor ()
      ensures Valid() && loadingAttempt == 1
    {
      loadingAttempt := 1;
    }

    /**
     * The catch path as written (spline-3d/page.tsx:57-64). The test reads `captured`, the
     * `loadingAttempt` of the render whose effect built the closure; `setTimeout` re-runs
     * that same closure, so its test never changes, while the functional update moves the
     * state on from its current value.
     */
    method AttemptFailedAsWritten(captured: nat) returns (retry: bool)
      requires Valid()
      modifies this
      ensures Valid()
      ensures retry <==> captured < MaxLoadingAttempts
      ensures loadingAttempt == if retry then old(loadingAttempt) + 1 else old(loadingAttempt)
    {
      if captured < MaxLoadingAttempts {
        loadingAttempt := loadingAttempt + 1;
        retry := true;
      } else {
        retry := false;
      }
    }

    /**
     * The catch path as intended: the test reads the current attempt, so the attempt
     * moves on only while below 3 and a counter within 3 stays within 3.
     */
    method AttemptFailed() returns (retry: bool)
      requires Valid()
      modifies this
      ensures Valid()
      ensures retry <==> old(loadingAttempt) < MaxLoadingAttempts
      ensures loadingAttempt == if retry then old(loadingAttempt) + 1 else old(loadingAttempt)
      ensures old(loadingAttempt) <= MaxLoadingAttempts ==> loadingAttempt <= MaxLoadingAttempts
    {
      if loadingAttempt < MaxLoadingAttempts {
        loadingAttempt := loadingAttempt + 1;
        retry := true;
      } else {
        retry := false;
      }
    }
  }

  /**
   * As written, when every script load fails: the first effect's closure, which captured
   * attempt 1, is re-run after each failure and retries every time, so after `failures`
   * failures the counter stands at `1 + failures`, past 3 once three have failed.
   */
  method FirstClosureNeverStops(failures: nat) returns (attempt: nat, retries: nat)
    ensures attempt == 1 + failures
    ensures retries == failures
  {
    var loader := new Loader();
    retries := 0;
    var i := 0;
    while i < failures
      invariant 0 <= i <= failures
      invariant loader.Valid() && loader.loadingAttempt == 1 + i
      invariant retries == i
    {
      var retry := loader.AttemptFailedAsWritten(1);
      if retry {
        retries := retries + 1;
      }
      i := i + 1;
    }
    attempt := loader.loadingAttempt;
  }

  /**
   * As intended, under the same failures: the attempt stops at 3, after two retries.
   */
  method IntendedAttemptsStopAtThree(failures: nat) returns (attempt: nat, retries: nat)
    ensures attempt == if failures < MaxLoadingAttempts then 1 + failures else MaxLoadingAttempts
    ensures retries == if failures < MaxLoadingAttempts then failures else MaxLoadingAttempts - 1
  {
    var loader := new Loader();
    retries := 0;
    var i := 0;
    while i < failures
      invariant 0 <= i <= failures
      invariant loader.Valid()
      invariant loader.loadingAttempt == if i < MaxLoadingAttempts then 1 + i else MaxLoadingAttempts
      invariant retries == loader.loadingAttempt - 1
    {
      var retry := loader.AttemptFailed();
      if retry {
        retries := retries + 1;
      }
      i := i + 1;
    }
    attempt := loader.loadingAttempt;
  }

  datatype CheckAction = Idle | Initialize | CheckAgain

  /**
   * The component check of spline-3d/page.tsx:72-93: nothing before the scripts are
   * loaded; then initialisation exactly when both Hands and Camera exist, else another
   * check after 500 ms.
   */
  function CheckComponents(loaded: bool, hasHands: bool, hasCamera: bool): (a: CheckAction)
    ensures a == Initialize <==> loaded && hasHands && hasCamera
    ensures a == Idle <==> !loaded
  {
    if !loaded then Idle
    else if hasHands && hasCamera then Initialize
    else CheckAgain
  }
}
