// The ETH logo scene (src/components/Eth3DLogo.tsx): the diamond list with its create,
// delete, hit test and clear-all, the depth scaling of a hand, and the per-frame gesture
// step that classifies each hand as pinch, fist or neither, creates diamonds from a
// single hand's extended fingers, clears them on a fist and drives the pinch mode.

module Eth3DLogo {
  import opened HandTypes
  import CarDriving

  // ---------------------------------------------------------------- diamonds

  /** A diamond of the scene; its three.js group and random rotation are not modelled. */
  datatype Diamond = Diamond(id: string, position: Vec3, isSelected: bool, createdAt: int)

  predicate UniqueIds(ds: seq<Diamond>)
  {
    forall i, j :: 0 <= i < j < |ds| ==> ds[i].id != ds[j].id
  }

  /** `findIndex(d => d.id === id)`: the first diamond with that id. */
  function IndexOf(ds: seq<Diamond>, id: string): (k: Option<nat>)
    ensures k.Some? ==> k.value < |ds| && ds[k.value].id == id
                        && forall j :: 0 <= j < k.value ==> ds[j].id != id
    ensures k.None? <==> forall j :: 0 <= j < |ds| ==> ds[j].id != id
  {
    if |ds| == 0 then None
    else if ds[0].id == id then Some(0)
    else
      var k := IndexOf(ds[1..], id);
      if k.Some? then Some(k.value + 1) else None
  }

  /** With distinct ids, the diamond at `k` is the one `findIndex` finds for its id. */
  lemma IndexOfUnique(ds: seq<Diamond>, k: nat)
    requires UniqueIds(ds) && k < |ds|
    ensures IndexOf(ds, ds[k].id) == Some(k)
  {
  }

  /** A scene point read as a landmark, so that distances are measured by `SqDist3`. */
  function AsLandmark(v: Vec3): Landmark
  {
    Landmark(v.x, v.y, v.z)
  }

  /** A hand selects a diamond closer than 0.5 (Eth3DLogo.tsx:161). */
  predicate Near(d: Diamond, p: Vec3)
  {
    SqDist3(AsLandmark(p), AsLandmark(d.position)) < 0.25
  }

  /** The first diamond, in list order, near `p`. */
  function FirstNear(ds: seq<Diamond>, p: Vec3): (r: Option<nat>)
    ensures r.Some? ==> r.value < |ds| && Near(ds[r.value], p)
                        && forall j :: 0 <= j < r.value ==> !Near(ds[j], p)
    ensures r.None? <==> forall j :: 0 <= j < |ds| ==> !Near(ds[j], p)
  {
    if |ds| == 0 then None
    else if Near(ds[0], p) then Some(0)
    else
      var r := FirstNear(ds[1..], p);
      if r.Some? then Some(r.value + 1) else None
  }

  /** The elements of `s` at odd positions, in order. */
  function OddIndexed(s: seq<Diamond>): (r: seq<Diamond>)
    ensures |r| == |s| / 2
  {
    if |s| == 0 then []
    else OddIndexed(s[..|s| - 1]) + (if (|s| - 1) % 2 == 1 then [s[|s| - 1]] else [])
  }

  /**
   * `diamondsRef` with the count shown on screen (`diamondCount`) and whether the ETH
   * model to clone has loaded (`ethModelRef`). Ids are `diamond-<time>-<random>` in the
   * source; here each new id is an input, and distinct.
   */
  class DiamondStore {
    var diamonds: seq<Diamond>
    var diamondCount: nat
    var modelLoaded: bool

    predicate Valid()
      reads this
    {
      diamondCount == |diamonds| && UniqueIds(diamonds)
    }

    constructor ()
      ensures Valid() && diamonds == [] && !modelLoaded
    {
      diamonds := [];
      diamondCount := 0;
      modelLoaded := false;
    }

    /**
     * `createDiamond`: nothing before the model has loaded; then one diamond at `position`
     * is appended and the count follows the list.
     */
    method CreateDiamond(position: Vec3, id: string, now: int)
      requires Valid() && IndexOf(diamonds, id).None?
      modifies this`diamonds, this`diamondCount
      ensures Valid()
      ensures diamonds == if modelLoaded then old(diamonds) + [Diamond(id, position, false, now)] else old(diamonds)
    {
      if !modelLoaded {
        return;
      }
      diamonds := diamonds + [Diamond(id, position, false, now)];
      diamondCount := |diamonds|;
    }

    /** `deleteDiamond`: an unknown id changes nothing; otherwise that one entry is spliced out. */
    method DeleteDiamond(id: string)
      requires Valid()
      modifies this`diamonds, this`diamondCount
      ensures Valid()
      ensures IndexOf(old(diamonds), id).None? ==> diamonds == old(diamonds)
      ensures IndexOf(old(diamonds), id).Some? ==>
        var k := IndexOf(old(diamonds), id).value;
        diamonds == old(diamonds)[..k] + old(diamonds)[k + 1..]
    {
      var diamondIndex := IndexOf(diamonds, id);
      if diamondIndex.None? {
        return;
      }
      var k := diamondIndex.value;
      diamonds := diamonds[..k] + diamonds[k + 1..];
      diamondCount := |diamonds|;
    }

    /** `checkDiamondIntersection`: the first diamond within 0.5 of the hand, if any. */
    method CheckDiamondIntersection(handPosition: Vec3) returns (hit: Option<Diamond>)
      ensures var k := FirstNear(diamonds, handPosition);
        hit == if k.Some? then Some(diamonds[k.value]) else None
    {
      var i := 0;
      while i < |diamonds|
        invariant 0 <= i <= |diamonds|
        invariant forall j :: 0 <= j < i ==> !Near(diamonds[j], handPosition)
      {
        if Near(diamonds[i], handPosition) {
          assert FirstNear(diamonds, handPosition) == Some(i) by {
            FirstNearIsFirst(diamonds, handPosition, i);
          }
          return Some(diamonds[i]);
        }
        i := i + 1;
      }
      return None;
    }

    /**
     * The fist path (Eth3DLogo.tsx:629-635): each diamond of a copy of the list is
     * deleted, so the list ends empty.
     */
    method ClearAll()
      requires Valid()
      modifies this`diamonds, this`diamondCount
      ensures Valid() && diamonds == []
    {
      var diamondsToDelete := diamonds;
      var i := 0;
      while i < |diamondsToDelete|
        invariant 0 <= i <= |diamondsToDelete|
        invariant Valid() && diamonds == diamondsToDelete[i..]
      {
        IndexOfUnique(diamonds, 0);
        DeleteDiamond(diamondsToDelete[i].id);
        assert diamonds == diamondsToDelete[i + 1..];
        i := i + 1;
      }
    }

    /**
     * The "Clear All" button as written (Eth3DLogo.tsx:1074-1077): `forEach` walks the
     * live list while `deleteDiamond` splices it, so each deletion shifts the next
     * diamond under the index just visited and only every other diamond goes.
     */
    method ClearAllAsWritten()
      requires Valid()
      modifies this`diamonds, this`diamondCount
      ensures Valid() && diamonds == OddIndexed(old(diamonds))
    {
      ghost var original := diamonds;
      var length := |diamonds|;
      var k := 0;
      while k < length
        invariant 0 <= k <= length && length == |original|
        invariant Valid()
        invariant diamonds == ClearedPrefix(original, k)
      {
        ClearAllStep(original, k);
        k := k + 1;
      }
      assert original[..length] == original;
    }

    /** One `forEach` callback: delete the entry now at index `k`, if the list still reaches it. */
    method ClearAllStep(ghost original: seq<Diamond>, k: nat)
      requires Valid() && k < |original| && diamonds == ClearedPrefix(original, k)
      modifies this`diamonds, this`diamondCount
      ensures Valid() && diamonds == ClearedPrefix(original, k + 1)
    {
      if k < |diamonds| {
        ClearStep(original, k);
        IndexOfUnique(diamonds, k);
        DeleteDiamond(diamonds[k].id);
      } else {
        ClearDone(original, k);
      }
    }
  }

  /**
   * The list after `k` steps of the live `forEach`: the odd-indexed survivors of the
   * first `min(2k, n)` original entries, then the untouched rest.
   */
  function ClearedPrefix(original: seq<Diamond>, k: nat): seq<Diamond>
  {
    var m := if 2 * k <= |original| then 2 * k else |original|;
    OddIndexed(original[..m]) + original[m..]
  }

  /** While index `k` is still inside the list, splicing it out is two steps of `OddIndexed`. */
  lemma ClearStep(original: seq<Diamond>, k: nat)
    requires k < |ClearedPrefix(original, k)|
    ensures 2 * k < |original|
    ensures var c := ClearedPrefix(original, k); c[..k] + c[k + 1..] == ClearedPrefix(original, k + 1)
  {
    var n := |original|;
    var kept := OddIndexed(original[..2 * k]);
    var c := ClearedPrefix(original, k);
    assert c == kept + original[2 * k..];
    assert |kept| == k;
    assert c[..k] + c[k + 1..] == kept + original[2 * k + 1..];
    OddIndexedStep(original, 2 * k);
    if 2 * k + 1 == n {
      ClearStepLast(original, k, kept);
    } else {
      ClearStepPair(original, k, kept);
    }
  }

  lemma ClearStepLast(original: seq<Diamond>, k: nat, kept: seq<Diamond>)
    requires 2 * k + 1 == |original| && kept == OddIndexed(original[..2 * k])
    requires OddIndexed(original[..2 * k + 1]) == kept
    ensures kept + original[2 * k + 1..] == ClearedPrefix(original, k + 1)
  {
    assert original[..2 * k + 1] == original;
    assert original[2 * k + 1..] == [];
    assert ClearedPrefix(original, k + 1) == OddIndexed(original) + [];
  }

  lemma ClearStepPair(original: seq<Diamond>, k: nat, kept: seq<Diamond>)
    requires 2 * k + 2 <= |original| && kept == OddIndexed(original[..2 * k])
    requires OddIndexed(original[..2 * k + 1]) == kept
    ensures kept + original[2 * k + 1..] == ClearedPrefix(original, k + 1)
  {
    OddIndexedStep(original, 2 * k + 1);
    var next := OddIndexed(original[..2 * k + 2]);
    assert next == kept + [original[2 * k + 1]];
    assert ClearedPrefix(original, k + 1) == next + original[2 * k + 2..];
    assert original[2 * k + 1..] == [original[2 * k + 1]] + original[2 * k + 2..];
  }

  /** Once index `k` has run past the list, later steps change nothing. */
  lemma ClearDone(original: seq<Diamond>, k: nat)
    requires k < |original| && k >= |ClearedPrefix(original, k)|
    ensures ClearedPrefix(original, k) == ClearedPrefix(original, k + 1)
  {
    assert |ClearedPrefix(original, k)| == (if 2 * k <= |original| then |original| - k else |original| / 2);
  }

  lemma {:induction false} FirstNearIsFirst(ds: seq<Diamond>, p: Vec3, i: nat)
    requires i < |ds| && Near(ds[i], p) && forall j :: 0 <= j < i ==> !Near(ds[j], p)
    ensures FirstNear(ds, p) == Some(i)
  {
    if i > 0 {
      FirstNearIsFirst(ds[1..], p, i - 1);
    }
  }

  lemma OddIndexedStep(s: seq<Diamond>, n: nat)
    requires n < |s|
    ensures OddIndexed(s[..n + 1]) == OddIndexed(s[..n]) + (if n % 2 == 1 then [s[n]] else [])
  {
    assert s[..n + 1][..n] == s[..n];
  }

  /** As written, "Clear All" on two diamonds leaves the second one in place. */
  lemma ClearAllAsWrittenKeepsHalf(a: Diamond, b: Diamond)
    ensures OddIndexed([a, b]) == [b]
  {
    assert [a, b][..1] == [a];
    assert [a][..0] == [];
  }

  // ---------------------------------------------------------------- depth scaling

  /**
   * `calculateDepthScaling` with the component's `restingDepth` and `depthSensitivity`:
   * the mean z's offset from rest, scaled and clamped to ±100, and a perspective scale
   * that maps that range onto [0.3, 1.5]; an empty hand gives (0, 1).
   */
  method CalculateDepthScaling(landmarks: seq<Landmark>, restingDepth: real, depthSensitivity: real)
    returns (depthFactor: real, perspectiveScale: real)
    ensures |landmarks| == 0 ==> depthFactor == 0.0 && perspectiveScale == 1.0
    ensures |landmarks| > 0 ==>
      depthFactor == Clamp(-100.0, 100.0, (CarDriving.AverageZ(landmarks) - restingDepth) * depthSensitivity)
    ensures -100.0 <= depthFactor <= 100.0 && 0.3 <= perspectiveScale <= 1.5
    ensures |landmarks| > 0 ==> perspectiveScale == 0.3 + 1.2 * (depthFactor + 100.0) / 200.0
  {
    if |landmarks| == 0 {
      return 0.0, 1.0;
    }
    var avgZ := CarDriving.CalculateAverageZ(landmarks);
    var depthOffset := avgZ - restingDepth;
    depthFactor := Max(-100.0, Min(100.0, depthOffset * depthSensitivity));
    perspectiveScale := 0.3 + (1.2 * (depthFactor + 100.0) / 200.0);
  }

  // ---------------------------------------------------------------- hand classification

  /** Thumb tip and index tip closer than 0.05 (squared 0.0025) is a pinch. */
  predicate Pinching(h: seq<Landmark>)
    requires IsHand(h)
  {
    SqDist3(h[4], h[8]) < 0.0025
  }

  /** Tips and MCP joints of index, middle, ring and pinky. */
  const FingerTips: seq<nat> := [8, 12, 16, 20]
  const FingerMcps: seq<nat> := [5, 9, 13, 17]

  /** Fist test of Eth3DLogo.tsx:402-410: no fingertip lies below (larger y than) its MCP. */
  predicate FistClosed(h: seq<Landmark>)
    requires IsHand(h)
  {
    forall i :: 0 <= i < 4 ==> h[FingerTips[i]].y <= h[FingerMcps[i]].y
  }

  /** The loop with `break` that decides `FistClosed`. */
  method FingersClosed(h: seq<Landmark>) returns (closed: bool)
    requires IsHand(h)
    ensures closed == FistClosed(h)
  {
    closed := true;
    var i := 0;
    while i < 4
      invariant 0 <= i <= 4
      invariant forall j :: 0 <= j < i ==> h[FingerTips[j]].y <= h[FingerMcps[j]].y
    {
      if h[FingerTips[i]].y > h[FingerMcps[i]].y {
        closed := false;
        break;
      }
      i := i + 1;
    }
  }

  /** How many of the first `n` fingers have the tip above (smaller y than) the MCP. */
  function ExtendedUpTo(h: seq<Landmark>, n: nat): (k: nat)
    requires IsHand(h) && n <= 4
    ensures k <= n
  {
    if n == 0 then 0 else ExtendedUpTo(h, n - 1) + (if h[FingerTips[n - 1]].y < h[FingerMcps[n - 1]].y then 1 else 0)
  }

  function ExtendedCount(h: seq<Landmark>): nat
    requires IsHand(h)
  {
    ExtendedUpTo(h, 4)
  }

  /** The counting loop of Eth3DLogo.tsx:587-594. */
  method CountExtended(h: seq<Landmark>) returns (extendedCount: nat)
    requires IsHand(h)
    ensures extendedCount == ExtendedCount(h) && extendedCount <= 4
  {
    extendedCount := 0;
    var i := 0;
    while i < 4
      invariant 0 <= i <= 4 && extendedCount == ExtendedUpTo(h, i)
    {
      if h[FingerTips[i]].y < h[FingerMcps[i]].y {
        extendedCount := extendedCount + 1;
      }
      i := i + 1;
    }
  }

  /**
   * The two finger tests read y in opposite senses: a hand whose four fingertips all sit
   * above their joints counts four extended fingers and is also taken for a fist.
   */
  lemma {:induction false} AllExtendedIsFist(h: seq<Landmark>)
    requires IsHand(h) && ExtendedCount(h) == 4
    ensures FistClosed(h)
  {
    assert ExtendedUpTo(h, 3) <= 3 && ExtendedUpTo(h, 2) <= 2 && ExtendedUpTo(h, 1) <= 1;
  }

  datatype HandKind = Pinched | Fisted | Neither

  /** A pinch is checked first, so it takes priority over a fist on the same hand. */
  function KindOf(h: seq<Landmark>): (k: HandKind)
    requires IsHand(h)
    ensures k == Pinched <==> Pinching(h)
    ensures k == Fisted <==> !Pinching(h) && FistClosed(h)
  {
    if Pinching(h) then Pinched else if FistClosed(h) then Fisted else Neither
  }

  /** The scene position of a normalised point: centred, scaled by 20, 20 and 10, y flipped. */
  function ScenePoint(x: real, y: real, z: real): Vec3
  {
    Vec3((x - 0.5) * 20.0, -(y - 0.5) * 20.0, (z - 0.5) * 10.0)
  }

  /** The thumb-index midpoint, in normalised coordinates. */
  function PinchMid(h: seq<Landmark>): Vec3
    requires IsHand(h)
  {
    Vec3((h[4].x + h[8].x) / 2.0, (h[4].y + h[8].y) / 2.0, (h[4].z + h[8].z) / 2.0)
  }

  function WristPoint(h: seq<Landmark>): Vec3
    requires IsHand(h)
  {
    ScenePoint(h[0].x, h[0].y, h[0].z)
  }

  // ---------------------------------------------------------------- gesture state

  datatype GestureState = GestureState(
    isPinching: bool, isGrabbing: bool, isRotating: bool, isSelecting: bool, pinchDistance: real,
    handPosition: Vec3, previousHandPosition: Vec3,
    leftPinchPoint: Option<Vec3>, rightPinchPoint: Option<Vec3>,
    leftWristPosition: Option<Vec3>, rightWristPosition: Option<Vec3>)

  /** The first-render `gestureState` (Eth3DLogo.tsx:59-71). */
  const InitialGestureState := GestureState(false, false, false, false, 0.0, Vec3(0.0, 0.0, 0.0),
                                            Vec3(0.0, 0.0, 0.0), None, None, None, None)

  /**
   * One hand's pinch point and wrist position: a pinch sets the point, a fist keeps the
   * prior one, an open hand clears it; an absent hand clears both.
   */
  function SidePoints(prior: Option<Vec3>, hand: Option<HandData>): (r: (Option<Vec3>, Option<Vec3>))
    requires hand.Some? ==> IsHand(hand.value.landmarks)
    ensures r.1.Some? <==> hand.Some?
    ensures r.0.Some? ==> hand.Some?
    ensures hand.Some? && KindOf(hand.value.landmarks) == Pinched ==>
      var m := PinchMid(hand.value.landmarks); r.0 == Some(ScenePoint(m.x, m.y, m.z))
    ensures hand.Some? && KindOf(hand.value.landmarks) == Fisted ==> r.0 == prior
  {
    match hand
    case None => (None, None)
    case Some(d) =>
      var h := d.landmarks;
      var m := PinchMid(h);
      var point := match KindOf(h)
        case Pinched => Some(ScenePoint(m.x, m.y, m.z))
        case Fisted => prior
        case Neither => None;
      (point, Some(WristPoint(h)))
  }

  function KindAt(hand: Option<HandData>): Option<HandKind>
    requires hand.Some? ==> IsHand(hand.value.landmarks)
  {
    if hand.Some? then Some(KindOf(hand.value.landmarks)) else None
  }

  predicate AnyFist(data: MultiHandData)
    requires HandsWellFormed(data)
  {
    KindAt(data.leftHand) == Some(Fisted) || KindAt(data.rightHand) == Some(Fisted)
  }

  /** The hand diamonds are made with: one hand in view, the left slot first. */
  function ActiveHand(data: MultiHandData): (h: Option<HandData>)
    ensures h.Some? ==> data.totalHands == 1 && (h == data.leftHand || h == data.rightHand)
  {
    if data.totalHands != 1 then None
    else if data.leftHand.Some? then data.leftHand else data.rightHand
  }

  /**
   * Whether this frame creates a diamond (Eth3DLogo.tsx:568-621): two extended fingers
   * always do, three only while `isSelecting` was false.
   */
  predicate Creates(prior: GestureState, data: MultiHandData)
    requires HandsWellFormed(data)
  {
    var a := ActiveHand(data);
    a.Some? && (ExtendedCount(a.value.landmarks) == 2 || (ExtendedCount(a.value.landmarks) == 3 && !prior.isSelecting))
  }

  /** The next `isSelecting`: set by three fingers, cleared by anything else but a vanished slot. */
  function NextSelecting(prior: GestureState, data: MultiHandData): bool
    requires HandsWellFormed(data)
  {
    if data.totalHands != 1 then false
    else
      var a := ActiveHand(data);
      if a.None? then prior.isSelecting
      else ExtendedCount(a.value.landmarks) == 3
  }

  /** The gesture state `processGestures` returns, copied from `prior` and then updated. */
  function NextGestureState(prior: GestureState, data: MultiHandData): (g: GestureState)
    requires HandsWellFormed(data)
    ensures g.isPinching == prior.isPinching && g.isGrabbing == prior.isGrabbing && g.isRotating == prior.isRotating
  {
    var l := SidePoints(prior.leftPinchPoint, data.leftHand);
    var r := SidePoints(prior.rightPinchPoint, data.rightHand);
    prior.(isSelecting := NextSelecting(prior, data), leftPinchPoint := l.0, leftWristPosition := l.1,
           rightPinchPoint := r.0, rightWristPosition := r.1)
  }

  /** Three fingers held over two frames, threading the state, create one diamond, not two. */
  lemma ThreeFingerCreatesOnce(prior: GestureState, data: MultiHandData)
    requires HandsWellFormed(data) && !prior.isSelecting
    requires ActiveHand(data).Some? && ExtendedCount(ActiveHand(data).value.landmarks) == 3
    ensures Creates(prior, data)
    ensures !Creates(NextGestureState(prior, data), data)
  {
  }

  /**
   * As written the animation loop keeps calling the first-render `processGestures`, whose
   * `gestureState` is the initial one on every frame, so a held three-finger hand creates
   * a diamond on each frame.
   */
  lemma StaleSelectionCreatesEveryFrame(data: MultiHandData)
    requires HandsWellFormed(data)
    requires ActiveHand(data).Some? && ExtendedCount(ActiveHand(data).value.landmarks) == 3
    ensures Creates(InitialGestureState, data)
    ensures NextGestureState(InitialGestureState, data).isSelecting
  {
  }

  // ---------------------------------------------------------------- pinch mode

  /** `isPinchingRef`, `pinchPositionRef` and `previousPinchPositionRef`. */
  datatype PinchRefs = PinchRefs(isPinching: bool, position: Point2, previous: Point2)

  /**
   * The pinch mode of Eth3DLogo.tsx:637-667: with no fist, both hands pinching track
   * their midpoint (zoom) and one hand pinching tracks that hand (move); a new pinch
   * also records its start. Anything else ends the pinch and keeps the positions.
   */
  function NextPinch(p: PinchRefs, data: MultiHandData): (q: PinchRefs)
    requires HandsWellFormed(data)
    ensures var lp := KindAt(data.leftHand) == Some(Pinched);
      var rp := KindAt(data.rightHand) == Some(Pinched);
      && (q.isPinching <==> (lp || rp) && !AnyFist(data))
      && (!q.isPinching ==> q.position == p.position && q.previous == p.previous)
      && (q.isPinching && !p.isPinching ==> q.previous == q.position)
      && (q.isPinching && p.isPinching ==> q.previous == p.previous)
      && (q.isPinching && lp && rp ==> q.position == Point2(
            (PinchMid(data.leftHand.value.landmarks).x + PinchMid(data.rightHand.value.landmarks).x) / 2.0,
            (PinchMid(data.leftHand.value.landmarks).y + PinchMid(data.rightHand.value.landmarks).y) / 2.0))
      && (q.isPinching && lp && !rp ==>
            q.position == Point2(PinchMid(data.leftHand.value.landmarks).x, PinchMid(data.leftHand.value.landmarks).y))
      && (q.isPinching && rp && !lp ==>
            q.position == Point2(PinchMid(data.rightHand.value.landmarks).x, PinchMid(data.rightHand.value.landmarks).y))
  {
    var lp := KindAt(data.leftHand) == Some(Pinched);
    var rp := KindAt(data.rightHand) == Some(Pinched);
    if !(lp || rp) || AnyFist(data) then p.(isPinching := false)
    else
      var point :=
        if lp && rp then
          var a := PinchMid(data.leftHand.value.landmarks);
          var b := PinchMid(data.rightHand.value.landmarks);
          Point2((a.x + b.x) / 2.0, (a.y + b.y) / 2.0)
        else
          var m := PinchMid(if lp then data.leftHand.value.landmarks else data.rightHand.value.landmarks);
          Point2(m.x, m.y);
      PinchRefs(true, point, if p.isPinching then p.previous else point)
  }

  // ---------------------------------------------------------------- duplication

  /** Two pinches within 500 ms of each other count as a double pinch. */
  const DoublePinchMs: int := 500

  /**
   * The double-pinch counter of Eth3DLogo.tsx:429-442 for a pinch at `now`: the new
   * count and whether the logo is duplicated.
   */
  function PinchCounter(count: nat, lastPinchTime: int, now: int): (r: (nat, bool))
    ensures r.1 ==> r.0 == 0
    ensures r.1 <==> now - lastPinchTime < DoublePinchMs && count >= 1
  {
    if now - lastPinchTime < DoublePinchMs then
      if count + 1 >= 2 then (0, true) else (count + 1, false)
    else (1, false)
  }

  /**
   * The counters are locals set to 0 on every call (Eth3DLogo.tsx:369-373), so the
   * double-pinch duplication never fires.
   */
  lemma DoublePinchUnreachable(now: int)
    ensures !PinchCounter(0, 0, now).1
  {
  }

  /** A right-hand pinch with the wrist in the top-right corner duplicates the logo. */
  predicate CornerPinch(data: MultiHandData)
    requires HandsWellFormed(data)
  {
    data.rightHand.Some? && KindOf(data.rightHand.value.landmarks) == Pinched
    && data.rightHand.value.landmarks[0].x > 0.7 && data.rightHand.value.landmarks[0].y < 0.3
  }

  // ---------------------------------------------------------------- one frame

  /**
   * The selection part of `processGestures` (Eth3DLogo.tsx:568-621): with one hand in
   * view, two extended fingers create a diamond at its wrist and three do so only when
   * not already selecting; the result is the next `isSelecting`.
   */
  method Select(store: DiamondStore, prior: GestureState, data: MultiHandData, now: int, newId: string)
    returns (isSelecting: bool)
    requires HandsWellFormed(data) && store.Valid() && IndexOf(store.diamonds, newId).None?
    modifies store`diamonds, store`diamondCount
    ensures store.Valid() && isSelecting == NextSelecting(prior, data)
    ensures store.diamonds == old(store.diamonds)
      + (if Creates(prior, data) && store.modelLoaded
         then [Diamond(newId, WristPoint(ActiveHand(data).value.landmarks), false, now)] else [])
  {
    isSelecting := false;
    if data.totalHands == 1 {
      var activeHand := if data.leftHand.Some? then data.leftHand else data.rightHand;
      isSelecting := prior.isSelecting;
      if activeHand.Some? {
        var extendedCount := CountExtended(activeHand.value.landmarks);
        var handPosition := WristPoint(activeHand.value.landmarks);
        if extendedCount == 2 {
          store.CreateDiamond(handPosition, newId, now);
        }
        if extendedCount == 3 {
          if !prior.isSelecting {
            store.CreateDiamond(handPosition, newId, now);
            isSelecting := true;
          }
        } else {
          isSelecting := false;
        }
      }
    }
  }

  /**
   * `processGestures` for one frame from the state `prior` it copies, at time `now`. A
   * diamond created this frame gets the id `newId`. `logoClones` counts the logo
   * duplications (`duplicateETHLogo` needs the logo to be loaded).
   */
  method ProcessGestures(store: DiamondStore, prior: GestureState, pinch: PinchRefs, data: MultiHandData,
                         now: int, newId: string, logoLoaded: bool)
    returns (g: GestureState, nextPinch: PinchRefs, logoClones: nat)
    requires HandsWellFormed(data) && store.Valid() && IndexOf(store.diamonds, newId).None?
    modifies store`diamonds, store`diamondCount
    ensures store.Valid()
    ensures g == NextGestureState(prior, data)
    ensures nextPinch == NextPinch(pinch, data)
    ensures logoClones == if logoLoaded && CornerPinch(data) then 1 else 0
    ensures AnyFist(data) ==> store.diamonds == []
    ensures !AnyFist(data) ==>
      (store.diamonds == old(store.diamonds)
        + (if Creates(prior, data) && store.modelLoaded
           then [Diamond(newId, WristPoint(ActiveHand(data).value.landmarks), false, now)] else []))
  {
    var leftKind: Option<HandKind> := None;
    if data.leftHand.Some? {
      var closed := FingersClosed(data.leftHand.value.landmarks);
      leftKind := Some(if Pinching(data.leftHand.value.landmarks) then Pinched else if closed then Fisted else Neither);
    }
    var rightKind: Option<HandKind> := None;
    if data.rightHand.Some? {
      var closed := FingersClosed(data.rightHand.value.landmarks);
      rightKind := Some(if Pinching(data.rightHand.value.landmarks) then Pinched else if closed then Fisted else Neither);
    }
    logoClones := if logoLoaded && CornerPinch(data) then 1 else 0;
    var isSelecting := Select(store, prior, data, now, newId);
    if leftKind == Some(Fisted) || rightKind == Some(Fisted) {
      store.ClearAll();
    }
    var l := SidePoints(prior.leftPinchPoint, data.leftHand);
    var r := SidePoints(prior.rightPinchPoint, data.rightHand);
    g := prior.(isSelecting := isSelecting, leftPinchPoint := l.0, leftWristPosition := l.1,
                rightPinchPoint := r.0, rightWristPosition := r.1);
    nextPinch := NextPinch(pinch, data);
  }
}
