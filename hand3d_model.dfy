// The textured 3-D hand (src/components/Hand3DModel.tsx): per-hand velocity smoothing of
// the landmarks, which keeps a velocity per landmark and the last smoothed frame, and the
// scale the hand is drawn at.

module Hand3DModel {
  import opened HandTypes

  /** The smoothing factor `draw` passes for both hands. */
  const DrawSmoothing: real := 0.25

  /** The velocity after one frame: 0.8 of the old one plus 0.2 of the frame's movement. */
  function NextVelocity(v: Vec3, current: Landmark, previous: Landmark): Vec3
  {
    Vec3(v.x * 0.8 + (current.x - previous.x) * 0.2,
         v.y * 0.8 + (current.y - previous.y) * 0.2,
         v.z * 0.8 + (current.z - previous.z) * 0.2)
  }

  /** The previous point moved along the new velocity and clamped to x, y in [0, 1], z in [-1, 1]. */
  function SmoothedPoint(previous: Landmark, v: Vec3, factor: real): (r: Landmark)
    ensures 0.0 <= r.x <= 1.0 && 0.0 <= r.y <= 1.0 && -1.0 <= r.z <= 1.0
  {
    Landmark(Clamp(0.0, 1.0, previous.x + v.x * factor),
             Clamp(0.0, 1.0, previous.y + v.y * factor),
             Clamp(-1.0, 1.0, previous.z + v.z * factor))
  }

  const Still := Vec3(0.0, 0.0, 0.0)

  predicate InRange(p: Landmark)
  {
    0.0 <= p.x <= 1.0 && 0.0 <= p.y <= 1.0 && -1.0 <= p.z <= 1.0
  }

  /** A hand at rest inside the range, with no velocity, stays where it is. */
  lemma StillPointStaysPut(p: Landmark, factor: real)
    requires InRange(p)
    ensures NextVelocity(Still, p, p) == Still
    ensures SmoothedPoint(p, Still, factor) == p
  {
  }

  /** Once a hand stops moving its velocity shrinks by a fifth every frame. */
  lemma VelocityDecaysWhenStill(v: Vec3, p: Landmark)
    ensures NextVelocity(v, p, p) == Vec3(v.x * 0.8, v.y * 0.8, v.z * 0.8)
  {
  }

  /**
   * One hand's `previousLeftHand`/`previousRightHand` ref and its velocity array. The
   * velocity array always matches the stored frame in length.
   */
  class HandTrack {
    var previous: Option<seq<Landmark>>
    var velocities: seq<Vec3>

    predicate Valid()
      reads this
    {
      previous.Some? ==> |velocities| == |previous.value|
    }

    constructor ()
      ensures Valid() && previous.None? && velocities == []
    {
      previous := None;
      velocities := [];
    }

    /**
     * `smoothLandmarks` with this hand's stored frame and velocities: an empty frame gives
     * back the stored one; without a stored frame of the same length the velocities are
     * reset to zero and the frame is returned as it is; otherwise every velocity is updated
     * in place and each point is smoothed and clamped.
     */
    method SmoothLandmarks(current: seq<Landmark>, factor: real) returns (r: Option<seq<Landmark>>)
      requires Valid()
      modifies this`velocities
      ensures |current| == 0 ==> r == previous && velocities == old(velocities)
      ensures |current| > 0 && (previous.None? || |previous.value| != |current|) ==>
        r == Some(current) && velocities == seq(|current|, i => Still)
      ensures |current| > 0 && previous.Some? && |previous.value| == |current| ==>
        && r.Some? && |r.value| == |current| && |velocities| == |current|
        && (forall i :: 0 <= i < |current| ==>
              && velocities[i] == NextVelocity(old(velocities)[i], current[i], previous.value[i])
              && r.value[i] == SmoothedPoint(previous.value[i], velocities[i], factor))
    {
      if |current| == 0 {
        return previous;
      }
      if previous.None? || |previous.value| != |current| {
        velocities := seq(|current|, i => Still);
        return Some(current);
      }
      var prev := previous.value;
      var smoothedLandmarks := [];
      var i := 0;
      while i < |current|
        invariant 0 <= i <= |current| && |smoothedLandmarks| == i && |velocities| == |current|
        invariant forall j :: 0 <= j < |current| ==>
          velocities[j] == if j < i then NextVelocity(old(velocities)[j], current[j], prev[j]) else old(velocities)[j]
        invariant forall j :: 0 <= j < i ==> smoothedLandmarks[j] == SmoothedPoint(prev[j], velocities[j], factor)
      {
        var velocity := NextVelocity(velocities[i], current[i], prev[i]);
        velocities := velocities[i := velocity];
        smoothedLandmarks := smoothedLandmarks + [SmoothedPoint(prev[i], velocity, factor)];
        i := i + 1;
      }
      r := Some(smoothedLandmarks);
    }

    /**
     * One frame with this hand present (Hand3DModel.tsx:74-82): the frame is smoothed at
     * factor 0.25, drawn, and stored as the previous frame; the velocities are updated as
     * `SmoothLandmarks` says.
     */
    method Frame(landmarks: seq<Landmark>) returns (drawn: Option<seq<Landmark>>)
      requires Valid()
      modifies this
      ensures Valid() && previous == drawn
      ensures |landmarks| == 0 ==> drawn == old(previous) && velocities == old(velocities)
      ensures |landmarks| > 0 && (old(previous).None? || |old(previous).value| != |landmarks|) ==>
        drawn == Some(landmarks) && velocities == seq(|landmarks|, i => Still)
      ensures |landmarks| > 0 && old(previous).Some? && |old(previous).value| == |landmarks| ==>
        && drawn.Some? && |drawn.value| == |landmarks| && |velocities| == |landmarks|
        && (forall i :: 0 <= i < |landmarks| ==>
              && velocities[i] == NextVelocity(old(velocities)[i], landmarks[i], old(previous).value[i])
              && drawn.value[i] == SmoothedPoint(old(previous).value[i], velocities[i], DrawSmoothing))
    {
      drawn := SmoothLandmarks(landmarks, DrawSmoothing);
      previous := drawn;
    }
  }

  /** `calculateHandScale`: ten times the thumb-to-pinky width across x, kept within [0.5, 2]. */
  function HandScale(h: seq<Landmark>): (s: real)
    requires IsHand(h)
    ensures 0.5 <= s <= 2.0
    ensures 0.05 <= Abs(h[17].x - h[4].x) <= 0.2 ==> s == Abs(h[17].x - h[4].x) * 10.0
  {
    Max(0.5, Min(2.0, Abs(h[17].x - h[4].x) * 10.0))
  }
}
