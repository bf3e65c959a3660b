// The point-and-shoot controller (src/components/PointShootController.tsx): the
// pointing test that aims, the shared rising-edge fist shot, the two-fist reload, the
// recoil with its 100 ms cooldown, and the aim accuracy.

module PointShoot {
  import opened HandTypes
  import opened Fingers

  /** Tip-to-MCP limits of `detectPointing` (PointShootController.tsx:461-469), on squares. */
  const IndexExtendedSq: real := 0.0144  // 0.12 squared
  const FingerClosedSq: real := 0.0064   // 0.08 squared
  const ThumbExtendedSq: real := 0.01    // 0.10 squared

  /**
   * `normalizedThumb.y > 0.3`: the unit thumb direction points up by more than 0.3,
   * written without the square root as `dy > 0` and `dy^2 > 0.09 |d|^2`; a zero-length
   * thumb normalises to the zero vector and so never points up.
   */
  predicate ThumbPointsUp(h: seq<Landmark>)
    requires IsHand(h)
  {
    var dy := h[4].y - h[2].y;
    dy > 0.0 && dy * dy > 0.09 * SqDist3(h[4], h[2])
  }

  /**
   * `detectPointing`: index extended beyond 0.12, middle, ring and pinky closed below
   * 0.08, thumb extended beyond 0.10 and pointing up.
   */
  predicate GunPointing(h: seq<Landmark>)
  {
    && IsHand(h)
    && SqDist3(h[8], h[5]) > IndexExtendedSq
    && SqDist3(h[12], h[9]) < FingerClosedSq
    && SqDist3(h[16], h[13]) < FingerClosedSq
    && SqDist3(h[20], h[17]) < FingerClosedSq
    && SqDist3(h[4], h[2]) > ThumbExtendedSq
    && ThumbPointsUp(h)
  }

  /** The aiming hand: the left one if it points, else the right one if it points. */
  function AimHandOf(left: seq<Landmark>, right: seq<Landmark>): (h: Option<seq<Landmark>>)
    ensures h.Some? <==> GunPointing(left) || GunPointing(right)
    ensures h.Some? ==> GunPointing(h.value) && (h.value == left || h.value == right)
    ensures GunPointing(left) ==> h == Some(left)
  {
    if GunPointing(left) then Some(left) else if GunPointing(right) then Some(right) else None
  }

  /** A pointing hand has its index finger extended, so it is never a shooting fist. */
  lemma PointingHandCannotFire(h: seq<Landmark>)
    requires GunPointing(h)
    ensures !FullFist(h, ShotLimit) && !CurledFist(h)
  {
    assert !Closed(h, 1, ShotLimit);
    assert !Closed(h, 1, CurlLimit);
  }

  /** Sensitivity 2.0 times smoothing 0.9 (PointShootController.tsx:336-342). */
  const AimGain: real := 1.8

  /**
   * The aim direction of PointShootController.tsx:318-359: the unit wrist-to-knuckle
   * vector, x and y scaled and clamped to [-1, 1], z forced forward and clamped to
   * [-1, 0]. `length` is the `Math.sqrt` of the squared segment length.
   */
  function GunAim(aimHand: Option<seq<Landmark>>, length: real): (r: (Vec3, bool))
    requires aimHand.Some? ==> IsHand(aimHand.value) && length >= 0.0
                               && length * length == SqDist3(aimHand.value[5], aimHand.value[0])
    ensures r.1 <==> aimHand.Some? && length > 0.0
    ensures !r.1 ==> r.0 == Vec3(0.0, 0.0, 0.0)
    ensures -1.0 <= r.0.x <= 1.0 && -1.0 <= r.0.y <= 1.0 && -1.0 <= r.0.z <= 0.0
  {
    if aimHand.None? || length <= 0.0 then (Vec3(0.0, 0.0, 0.0), false)
    else
      var h := aimHand.value;
      var z := (h[5].z - h[0].z) / length;
      var forward := if z > 0.0 then -Abs(z) else z;
      (Vec3(Clamp(-1.0, 1.0, (h[5].x - h[0].x) / length * AimGain),
            Clamp(-1.0, 1.0, (h[5].y - h[0].y) / length * AimGain),
            Clamp(-1.0, 0.0, forward)), true)
  }

  /**
   * `calculateAimAccuracy`: 0 without an aiming hand, else 100 times how close the
   * wrist-to-index-tip `distance` is to 0.15, reaching 0 at 0.1 away.
   */
  function AimAccuracy(aimHand: Option<seq<Landmark>>, distance: real): (a: real)
    ensures aimHand.None? ==> a == 0.0
    ensures 0.0 <= a <= 100.0
    ensures aimHand.Some? ==> (a == 100.0 <==> distance == 0.15)
    ensures aimHand.Some? ==> (a == 0.0 <==> Abs(distance - 0.15) >= 0.1)
  {
    if aimHand.None? then 0.0
    else
      var stability := Max(0.0, 1.0 - Abs(distance - 0.15) / 0.1);
      Min(100.0, stability * 100.0)
  }

  /** Milliseconds that must pass since the stored last shot for a shot to fire. */
  const CooldownMs: int := 100

  const RecoilKick: real := 0.3

  /** A full magazine. */
  const MagazineSize: int := 30

  /**
   * The recoil after one frame (PointShootController.tsx:374-393): a fired shot kicks it
   * up by 0.3, capped at 1; otherwise it decays by the recovery factor.
   */
  function Recoil(recoil: real, fired: bool, recovery: real): (r: real)
    ensures fired ==> r <= 1.0 && (recoil <= 0.7 ==> r == recoil + RecoilKick)
    ensures fired && recoil <= 1.0 ==> r >= recoil
    ensures !fired && recoil >= 0.0 && 0.0 <= recovery <= 1.0 ==> 0.0 <= r <= recoil
  {
    if fired then Min(recoil + RecoilKick, 1.0)
    else
      DecayBelow(recoil, recovery);
      recoil * recovery
  }

  lemma DecayBelow(recoil: real, recovery: real)
    ensures recoil >= 0.0 && 0.0 <= recovery <= 1.0 ==> 0.0 <= recoil * recovery <= recoil
  {
    if recoil >= 0.0 && 0.0 <= recovery <= 1.0 {
      assert recoil - recoil * recovery == recoil * (1.0 - recovery);
      if recoil > 0.0 && recovery < 1.0 {
        MulPos(recoil, 1.0 - recovery);
      }
      if recoil > 0.0 && recovery > 0.0 {
        MulPos(recoil, recovery);
      }
    }
  }

  /** Recoil never leaves [0, 1] whatever the frames do, for a recovery factor in [0, 1]. */
  lemma RecoilStaysInUnitRange(recoil: real, fired: bool, recovery: real)
    requires 0.0 <= recoil <= 1.0 && 0.0 <= recovery <= 1.0
    ensures 0.0 <= Recoil(recoil, fired, recovery) <= 1.0
  {
  }

  datatype GunState = GunState(isAiming: bool, isShooting: bool, aimDirection: Vec3, aimAccuracy: real,
                               recoil: real, ammoCount: int, reloading: bool, targetHit: bool, lastShotTime: int)

  /** The initial `gunState` (PointShootController.tsx:51-61). */
  const InitialGunState := GunState(false, false, Vec3(0.0, 0.0, 0.0), 0.0, 0.0, MagazineSize, false, false, 0)

  /** A rising-edge shot for one hand, from the latch's previous flag. */
  predicate ShotEdge(h: seq<Landmark>, wasFist: bool)
  {
    IsHand(h) && FullFist(h, ShotLimit) && !wasFist
  }

  /**
   * `analyzeGunGestures` for one frame at time `now`, from the state `prior` the closure
   * holds. Absent hands arrive as empty lists. `aimLength` and `wristTipDistance` are the
   * square-root lengths the source computes for the aiming hand. `shotFired` says whether
   * the cooldown let the shot through, which also counts it in `shotsFired`.
   */
  method AnalyzeGunGestures(latch: FistLatch, prior: GunState, left: seq<Landmark>, right: seq<Landmark>,
                            now: int, recoilRecovery: real, aimLength: real, wristTipDistance: real)
    returns (g: GunState, shotFired: bool)
    requires var h := AimHandOf(left, right);
      h.Some? ==> aimLength >= 0.0 && aimLength * aimLength == SqDist3(h.value[5], h.value[0])
                  && wristTipDistance >= 0.0
                  && wristTipDistance * wristTipDistance == SqDist3(h.value[0], h.value[8])
    modifies latch
    ensures !IsHand(left) && !IsHand(right) ==>
      && g == prior.(isAiming := false, isShooting := false) && !shotFired
      && latch.leftWasFist == old(latch.leftWasFist) && latch.rightWasFist == old(latch.rightWasFist)
    ensures IsHand(left) || IsHand(right) ==>
      && g.isShooting == (ShotEdge(left, old(latch.leftWasFist)) || ShotEdge(right, old(latch.rightWasFist)))
      && (g.aimDirection, g.isAiming) == GunAim(AimHandOf(left, right), aimLength)
      && g.aimAccuracy == AimAccuracy(AimHandOf(left, right), wristTipDistance)
      && (var h := AimHandOf(left, right);
          h.Some? ==> (g.aimAccuracy == 100.0 <==> SqDist3(h.value[0], h.value[8]) == 0.15 * 0.15))
      && shotFired == (g.isShooting && now - prior.lastShotTime > CooldownMs)
      && g.recoil == Recoil(prior.recoil, shotFired, recoilRecovery)
      && g.reloading == (CurledFist(left) && CurledFist(right))
      && g.ammoCount == (if g.reloading then MagazineSize else prior.ammoCount)
      && g.lastShotTime == (if g.isShooting then now else prior.lastShotTime)
      && !g.targetHit
  {
    if !IsHand(left) && !IsHand(right) {
      return prior.(isAiming := false, isShooting := false), false;
    }
    var leftShooting := latch.DetectShooting(left, Left);
    var rightShooting := latch.DetectShooting(right, Right);
    var aimHand := AimHandOf(left, right);
    var (aimDirection, isAiming) := GunAim(aimHand, aimLength);
    var isShooting := leftShooting || rightShooting;
    var aimAccuracy := AimAccuracy(aimHand, wristTipDistance);
    if aimHand.Some? {
      LessIffSquaresLess(wristTipDistance, 0.15);
    }
    shotFired := isShooting && now - prior.lastShotTime > CooldownMs;
    var recoil := Recoil(prior.recoil, shotFired, recoilRecovery);
    var reloading := CurledFist(left) && CurledFist(right);
    g := GunState(isAiming, isShooting, aimDirection, aimAccuracy, recoil,
                  if reloading then MagazineSize else prior.ammoCount, reloading, false,
                  if isShooting then now else prior.lastShotTime);
  }

  /**
   * `analyzeGunGestures` as written. The sketch is built in an effect whose dependencies
   * (PointShootController.tsx:1432) leave out `gunState`, so every frame starts from the
   * initial state: recoil never builds up past one kick, the 100 ms cooldown never holds
   * a shot back once the clock is past 100, and the magazine always reads full.
   */
  method AnalyzeGunGesturesAsWritten(latch: FistLatch, left: seq<Landmark>, right: seq<Landmark>,
                                     now: int, recoilRecovery: real, aimLength: real, wristTipDistance: real)
    returns (g: GunState, shotFired: bool)
    requires var h := AimHandOf(left, right);
      h.Some? ==> aimLength >= 0.0 && aimLength * aimLength == SqDist3(h.value[5], h.value[0])
                  && wristTipDistance >= 0.0
                  && wristTipDistance * wristTipDistance == SqDist3(h.value[0], h.value[8])
    modifies latch
    ensures g.recoil == (if shotFired then RecoilKick else 0.0)
    ensures g.ammoCount == MagazineSize
    ensures now > CooldownMs ==> shotFired == g.isShooting
  {
    g, shotFired := AnalyzeGunGestures(latch, InitialGunState, left, right, now, recoilRecovery,
                                       aimLength, wristTipDistance);
  }

  /**
   * Intended: when each frame starts from the state the previous one returned, two shots
   * in a row build recoil up to 0.6, while the frozen initial state gives 0.3 each time.
   */
  lemma ThreadedRecoilBuildsUp(recovery: real)
    ensures Recoil(Recoil(InitialGunState.recoil, true, recovery), true, recovery) == 2.0 * RecoilKick
    ensures Recoil(InitialGunState.recoil, true, recovery) == RecoilKick
  {
  }
}
