// Finger-closure tests shared by the shooter controllers: a finger is closed when its
// tip lies within a limit of its MCP joint in 3-D (AimBackgroundController.tsx:711-767,
// 832-867; PointShootController.tsx:530-598). Distances are compared on squares. Both
// controllers also keep the same rising-edge fist latch per hand.

module Fingers {
  import opened HandTypes

  /** Tip landmarks of thumb, index, middle, ring and pinky. */
  const Tips: seq<nat> := [4, 8, 12, 16, 20]

  /** The matching MCP joints (the thumb's is landmark 2). */
  const Mcps: seq<nat> := [2, 5, 9, 13, 17]

  const FingerCount: nat := 5

  /** `calculateDistance(tip, mcp) < limit` for finger `f` (0 = thumb … 4 = pinky). */
  predicate Closed(h: seq<Landmark>, f: nat, limit: real)
    requires IsHand(h) && f < FingerCount
  {
    SqDist3(h[Tips[f]], h[Mcps[f]]) < limit * limit
  }

  /** How many of the first `n` fingers are closed: `[...].filter(Boolean).length`. */
  function ClosedCount(h: seq<Landmark>, limit: real, n: nat): (k: nat)
    requires IsHand(h) && n <= FingerCount
    ensures k <= n
  {
    if n == 0 then 0 else ClosedCount(h, limit, n - 1) + (if Closed(h, n - 1, limit) then 1 else 0)
  }

  /** All five fingers closed. */
  predicate FullFist(h: seq<Landmark>, limit: real)
    requires IsHand(h)
  {
    forall f :: 0 <= f < FingerCount ==> Closed(h, f, limit)
  }

  /** The count reaches `n` exactly when each of the first `n` fingers is closed. */
  lemma {:induction false} ClosedCountAll(h: seq<Landmark>, limit: real, n: nat)
    requires IsHand(h) && n <= FingerCount
    ensures ClosedCount(h, limit, n) == n <==> forall f :: 0 <= f < n ==> Closed(h, f, limit)
  {
    if n > 0 {
      ClosedCountAll(h, limit, n - 1);
    }
  }

  /** Five closed fingers is a full fist. */
  lemma FullFistIsFiveClosed(h: seq<Landmark>, limit: real)
    requires IsHand(h)
    ensures ClosedCount(h, limit, FingerCount) == FingerCount <==> FullFist(h, limit)
  {
    ClosedCountAll(h, limit, FingerCount);
  }

  /** `detectFist` of the point-and-shoot and driving controllers: all five fingers below 0.08. */
  const CurlLimit: real := 0.08

  predicate CurledFist(h: seq<Landmark>)
  {
    IsHand(h) && FullFist(h, CurlLimit)
  }

  /** A finger counts as closed for a shot below 0.12 (both controllers' `detectShooting`). */
  const ShotLimit: real := 0.12

  /**
   * The per-hand fist flags of `handsDataRef.current` (`leftThumbWasUp`,
   * `rightThumbWasUp`): whether the previous analysed frame of that hand was a full fist.
   */
  class FistLatch {
    var leftWasFist: bool
    var rightWasFist: bool

    constructor ()
      ensures !leftWasFist && !rightWasFist
    {
      leftWasFist := false;
      rightWasFist := false;
    }

    function WasFist(side: Label): bool
      reads this
    {
      if side == Left then leftWasFist else rightWasFist
    }

    /**
     * `detectShooting` for the hand on `side`: a shot fires only on the first full-fist
     * frame after a frame without one, and the hand's flag records this frame. Short
     * landmark lists are ignored and change nothing.
     */
    method DetectShooting(landmarks: seq<Landmark>, side: Label) returns (shooting: bool)
      modifies this
      ensures !IsHand(landmarks) ==> !shooting && leftWasFist == old(leftWasFist) && rightWasFist == old(rightWasFist)
      ensures IsHand(landmarks) ==>
        && shooting == (FullFist(landmarks, ShotLimit) && !old(WasFist(side)))
        && WasFist(side) == FullFist(landmarks, ShotLimit)
        && (side == Left ==> rightWasFist == old(rightWasFist))
        && (side == Right ==> leftWasFist == old(leftWasFist))
    {
      if !IsHand(landmarks) {
        return false;
      }
      var isFullFist := Closed(landmarks, 0, ShotLimit) && Closed(landmarks, 1, ShotLimit)
                        && Closed(landmarks, 2, ShotLimit) && Closed(landmarks, 3, ShotLimit)
                        && Closed(landmarks, 4, ShotLimit);
      var wasFist := WasFist(side);
      shooting := !wasFist && isFullFist;
      if side == Left {
        leftWasFist := isFullFist;
      } else {
        rightWasFist := isFullFist;
      }
    }
  }
}
