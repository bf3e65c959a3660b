// The rigged-model hand renderer (src/components/GLBHandRenderer.tsx): each hand's
// landmarks are blended with the previous frame, and the first fifteen bones of the
// model, in traversal order, are turned to follow the finger segments of FINGER_BONES.

module GLBHandRenderer {
  import opened HandTypes

  /** The fifteen finger segments, three per finger from the thumb to the pinky. */
  const FingerBones: seq<(nat, nat)> := [
    (1, 2), (2, 3), (3, 4),
    (5, 6), (6, 7), (7, 8),
    (9, 10), (10, 11), (11, 12),
    (13, 14), (14, 15), (15, 16),
    (17, 18), (18, 19), (19, 20)
  ]

  /**
   * Bone `k` is segment `k % 3` of finger `k / 3`: it joins two consecutive landmarks of
   * that finger, whose chain starts at landmark `4 * (k / 3) + 1`.
   */
  lemma FingerBonesLayout()
    ensures |FingerBones| == 15
    ensures forall k :: 0 <= k < 15 ==>
      FingerBones[k] == (4 * (k / 3) + 1 + k % 3, 4 * (k / 3) + 2 + k % 3)
    ensures forall k :: 0 <= k < 15 ==> FingerBones[k].1 == FingerBones[k].0 + 1 && FingerBones[k].1 < LandmarkCount
  {
    forall k | 0 <= k < 15
      ensures FingerBones[k] == (4 * (k / 3) + 1 + k % 3, 4 * (k / 3) + 2 + k % 3)
    {
      if k < 3 {
      } else if k < 6 {
      } else if k < 9 {
      } else if k < 12 {
      } else {
      }
    }
  }

  /** The smoothing factor `updateHandModel` uses (the parameter's default). */
  const Factor: real := 0.3

  /** `previous * (1 - factor) + current * factor` on each coordinate. */
  function Mix(previous: Landmark, current: Landmark, factor: real): Landmark
  {
    Landmark(previous.x * (1.0 - factor) + current.x * factor,
             previous.y * (1.0 - factor) + current.y * factor,
             previous.z * (1.0 - factor) + current.z * factor)
  }

  /**
   * The frame `smoothLandmarks` returns: the current one without a previous frame;
   * otherwise every index both frames have is mixed and the others are copied.
   */
  function Smoothed(current: seq<Landmark>, previous: Option<seq<Landmark>>, factor: real): (r: seq<Landmark>)
    ensures |r| == |current|
  {
    if previous.None? then current
    else seq(|current|, i requires 0 <= i < |current| =>
           if i < |previous.value| then Mix(previous.value[i], current[i], factor) else current[i])
  }

  /** Between 0 and 1, mixing lands each coordinate between the previous and current values. */
  lemma MixBetween(previous: Landmark, current: Landmark, factor: real)
    requires 0.0 <= factor <= 1.0
    ensures var m := Mix(previous, current, factor);
      && Min(previous.x, current.x) <= m.x <= Max(previous.x, current.x)
      && Min(previous.y, current.y) <= m.y <= Max(previous.y, current.y)
      && Min(previous.z, current.z) <= m.z <= Max(previous.z, current.z)
  {
    Between(previous.x, current.x, factor);
    Between(previous.y, current.y, factor);
    Between(previous.z, current.z, factor);
  }

  lemma Between(a: real, b: real, t: real)
    requires 0.0 <= t <= 1.0
    ensures Min(a, b) <= a * (1.0 - t) + b * t <= Max(a, b)
  {
    var m := a * (1.0 - t) + b * t;
    assert m == a + (b - a) * t;
    if b > a && t > 0.0 {
      MulPos(b - a, t);
    }
    if b > a && t < 1.0 {
      MulPos(b - a, 1.0 - t);
      assert b - m == (b - a) * (1.0 - t);
    }
    if a > b && t > 0.0 {
      MulPos(a - b, t);
    }
    if a > b && t < 1.0 {
      MulPos(a - b, 1.0 - t);
      assert m - b == (a - b) * (1.0 - t);
    }
  }

  /**
   * With the renderer's factor, every point both frames have lands between its previous
   * and current positions, and every point only the current frame has is copied.
   */
  lemma SmoothedStaysBetween(current: seq<Landmark>, previous: seq<Landmark>)
    ensures var r := Smoothed(current, Some(previous), Factor);
      forall i :: 0 <= i < |current| ==>
        if i < |previous| then
          && Min(previous[i].x, current[i].x) <= r[i].x <= Max(previous[i].x, current[i].x)
          && Min(previous[i].y, current[i].y) <= r[i].y <= Max(previous[i].y, current[i].y)
          && Min(previous[i].z, current[i].z) <= r[i].z <= Max(previous[i].z, current[i].z)
        else r[i] == current[i]
  {
    var r := Smoothed(current, Some(previous), Factor);
    forall i | 0 <= i < |current| && i < |previous|
      ensures Min(previous[i].x, current[i].x) <= r[i].x <= Max(previous[i].x, current[i].x)
      ensures Min(previous[i].y, current[i].y) <= r[i].y <= Max(previous[i].y, current[i].y)
      ensures Min(previous[i].z, current[i].z) <= r[i].z <= Max(previous[i].z, current[i].z)
    {
      MixBetween(previous[i], current[i], Factor);
    }
  }

  /** The loop of `smoothLandmarks` over a spread copy of the current frame. */
  method SmoothLandmarks(current: seq<Landmark>, previous: Option<seq<Landmark>>, factor: real)
    returns (smoothed: seq<Landmark>)
    ensures smoothed == Smoothed(current, previous, factor)
  {
    if previous.None? {
      return current;
    }
    smoothed := current;
    var i := 0;
    while i < |current|
      invariant 0 <= i <= |current| && |smoothed| == |current|
      invariant forall j :: 0 <= j < |current| ==>
        smoothed[j] == if j < i && j < |previous.value| then Mix(previous.value[j], current[j], factor) else current[j]
    {
      if i < |previous.value| {
        smoothed := smoothed[i := Mix(previous.value[i], current[i], factor)];
      }
      i := i + 1;
    }
  }

  /** A three.js Euler rotation. */
  datatype Euler = Euler(x: real, y: real, z: real)

  const Unrotated := Euler(0.0, 0.0, 0.0)

  /**
   * `calculateBoneRotation`: no rotation when an endpoint is missing or the segment is
   * shorter than 0.001 (compared on squares), otherwise a turn about z by the segment's
   * angle in the y-flipped, z-halved frame. `atan2` is `Math.atan2`; normalising the
   * direction first scales both arguments by the same positive length, which `atan2`
   * ignores.
   */
  function BoneRotation(start: Option<Landmark>, end: Option<Landmark>, atan2: (real, real) -> real): (e: Euler)
    ensures start.None? || end.None? ==> e == Unrotated
    ensures start.Some? && end.Some? && SegmentSq(start.value, end.value) < 0.000001 ==> e == Unrotated
    ensures e.x == 0.0 && e.y == 0.0
  {
    if start.None? || end.None? then Unrotated
    else if SegmentSq(start.value, end.value) < 0.000001 then Unrotated
    else
      var dx := end.value.x - start.value.x;
      var dy := -(end.value.y - 0.5) + (start.value.y - 0.5);
      Euler(0.0, 0.0, atan2(dy, dx))
  }

  /** The squared segment length after centring, flipping y and halving z. */
  function SegmentSq(start: Landmark, end: Landmark): real
  {
    Sq(end.x - start.x) + Sq(-(end.y - 0.5) + (start.y - 0.5)) + Sq(end.z * 0.5 - start.z * 0.5)
  }

  /** The landmark at index `i` of a frame, if the frame has one. */
  function At(frame: seq<Landmark>, i: nat): Option<Landmark>
  {
    if i < |frame| then Some(frame[i]) else None
  }

  /** The two hands' `previousLeftHandRef` and `previousRightHandRef`. */
  class PreviousFrames {
    var left: Option<seq<Landmark>>
    var right: Option<seq<Landmark>>

    constructor ()
      ensures left.None? && right.None?
    {
      left := None;
      right := None;
    }

    function Of(side: Label): Option<seq<Landmark>>
      reads this
    {
      if side == Left then left else right
    }

    /**
     * `updateHandModel` for one hand, whose model's bones in traversal order carry the
     * rotations in `bones`. An empty frame changes nothing. Otherwise the smoothed frame
     * is stored for that side, and each of the first fifteen bones whose two landmarks
     * the frame has is turned; the others, and every bone past the fifteenth, keep
     * their rotation.
     */
    method UpdateHandModel(bones: array<Euler>, landmarks: seq<Landmark>, side: Label,
                           atan2: (real, real) -> real)
      modifies this, bones
      ensures |landmarks| == 0 ==> left == old(left) && right == old(right) && bones[..] == old(bones[..])
      ensures |landmarks| > 0 ==>
        var s := Smoothed(landmarks, old(Of(side)), Factor);
        && Of(side) == Some(s)
        && (side == Left ==> right == old(right)) && (side == Right ==> left == old(left))
        && forall k :: 0 <= k < bones.Length ==>
             bones[k] == if k < |FingerBones| && FingerBones[k].0 < |s| && FingerBones[k].1 < |s|
                         then BoneRotation(At(s, FingerBones[k].0), At(s, FingerBones[k].1), atan2)
                         else old(bones[k])
    {
      if |landmarks| == 0 {
        return;
      }
      var smoothedLandmarks := SmoothLandmarks(landmarks, Of(side), Factor);
      if side == Left {
        left := Some(smoothedLandmarks);
      } else {
        right := Some(smoothedLandmarks);
      }
      TurnBones(bones, smoothedLandmarks, atan2);
    }
  }

  /** The `bones.forEach` of `updateHandModel`. */
  method TurnBones(bones: array<Euler>, s: seq<Landmark>, atan2: (real, real) -> real)
    modifies bones
    ensures forall k :: 0 <= k < bones.Length ==>
      bones[k] == if k < |FingerBones| && FingerBones[k].0 < |s| && FingerBones[k].1 < |s|
                  then BoneRotation(At(s, FingerBones[k].0), At(s, FingerBones[k].1), atan2)
                  else old(bones[k])
  {
    var index := 0;
    while index < bones.Length
      invariant 0 <= index <= bones.Length
      invariant forall k :: 0 <= k < bones.Length ==>
        bones[k] == if k < index && k < |FingerBones| && FingerBones[k].0 < |s| && FingerBones[k].1 < |s|
                    then BoneRotation(At(s, FingerBones[k].0), At(s, FingerBones[k].1), atan2)
                    else old(bones[k])
    {
      if index < |FingerBones| {
        var boneMapping := FingerBones[index];
        if boneMapping.0 < |s| && boneMapping.1 < |s| {
          bones[index] := BoneRotation(Some(s[boneMapping.0]), Some(s[boneMapping.1]), atan2);
        }
      }
      index := index + 1;
    }
  }
}
