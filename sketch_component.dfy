// The React p5 component (src/components/Sketch.tsx). Each p5 instance closes over
// one `multiHandData` value and its own grab state; the component tears the instance
// down and builds a fresh one whenever `multiHandData` changes (Sketch.tsx:308-316).

module SketchComponent {
  import opened HandTypes
  import P5Sketch

  /** `multiHandData.leftHand || multiHandData.rightHand` (Sketch.tsx:55). */
  function PrimaryHand(d: MultiHandData): (h: Option<HandData>)
    ensures h.Some? <==> d.leftHand.Some? || d.rightHand.Some?
    ensures d.leftHand.Some? ==> h == d.leftHand
    ensures d.leftHand.None? ==> h == d.rightHand
  {
    if d.leftHand.Some? then d.leftHand else d.rightHand
  }

  /** The primary hand's gesture; None without a hand. */
  function PrimaryGesture(d: MultiHandData): (g: Gesture)
    ensures PrimaryHand(d).None? ==> g == NoGesture
  {
    match PrimaryHand(d)
    case None => NoGesture
    case Some(h) => h.gesture
  }

  /** `processLandmarks`: null for an empty list, otherwise an x/y/z copy of the same length. */
  function ProcessLandmarks(landmarks: seq<Landmark>): (r: Option<seq<Landmark>>)
    ensures r.None? <==> |landmarks| == 0
    ensures r.Some? ==> |r.value| == |landmarks|
    ensures r.Some? ==> forall i :: 0 <= i < |landmarks| ==>
      r.value[i].x == landmarks[i].x && r.value[i].y == landmarks[i].y && r.value[i].z == landmarks[i].z
  {
    if |landmarks| == 0 then None
    else Some(seq(|landmarks|, i requires 0 <= i < |landmarks| => Landmark(landmarks[i].x, landmarks[i].y, landmarks[i].z)))
  }

  /** One p5 instance: the closure variables of Sketch.tsx:21-26. */
  class Instance {
    const multiHandData: MultiHandData
    var objectVector: Vec3
    var objectSize: real
    var lastObjectSize: real
    var objectSizeSmooth: real
    var grabbing: bool
    var locked: bool

    /** The object is enlarged exactly while locked, and the smoothed size stays in [1, 2]. */
    predicate Valid()
      reads this
    {
      HandsWellFormed(multiHandData)
      && objectSize == (if locked then 2.0 else 1.0)
      && 1.0 <= lastObjectSize <= 2.0
    }

    /** `sketch` plus `setup`: the initial values of Sketch.tsx:21-29. */
    constructor (data: MultiHandData)
      requires HandsWellFormed(data)
      ensures Valid() && multiHandData == data
      ensures objectVector == Vec3(100.0, 0.0, 0.0)
      ensures objectSize == 1.0 && lastObjectSize == 1.0 && objectSizeSmooth == 0.0
      ensures !grabbing && !locked
    {
      multiHandData := data;
      objectVector := Vec3(100.0, 0.0, 0.0);
      objectSize := 1.0;
      lastObjectSize := 1.0;
      objectSizeSmooth := 0.0;
      grabbing := false;
      locked := false;
    }

    /**
     * The grab/lock block of `draw` (Sketch.tsx:103-147): grabbing iff the primary hand
     * pinches; the lock is taken only when unlocked and within 50 px, persists while
     * grabbing whatever the distance, and then the object sits at the pinch point; not
     * grabbing releases it at size 1. The drawn size moves halfway to the target and
     * stays in [1, 2].
     */
    method Draw()
      requires Valid()
      modifies this`objectVector, this`objectSize, this`lastObjectSize, this`objectSizeSmooth
      modifies this`grabbing, this`locked
      ensures Valid()
      ensures grabbing == (PrimaryGesture(multiHandData) == Pinch)
      ensures locked == (grabbing && (old(locked)
        || Within50Of(PrimaryHand(multiHandData).value.landmarks, old(objectVector))))
      ensures objectSize == (if locked then 2.0 else 1.0)
      ensures objectVector == (if locked then P5Sketch.PinchPoint(PrimaryHand(multiHandData).value.landmarks)
                               else old(objectVector))
      ensures objectSizeSmooth == P5Sketch.SmoothSize(objectSize, old(lastObjectSize))
      ensures lastObjectSize == objectSizeSmooth && 1.0 <= objectSizeSmooth <= 2.0
    {
      var primaryHand := PrimaryHand(multiHandData);
      grabbing := primaryHand.Some? && primaryHand.value.gesture == Pinch;
      if grabbing && primaryHand.Some? {
        var pinchVector := P5Sketch.PinchPoint(primaryHand.value.landmarks);
        if P5Sketch.Within50(pinchVector, objectVector) && !locked {
          locked := true;
          objectSize := 2.0;
        }
        if locked {
          objectVector := pinchVector;
        }
      } else {
        locked := false;
        objectSize := 1.0;
      }
      objectSizeSmooth := P5Sketch.SmoothSize(objectSize, lastObjectSize);
      lastObjectSize := objectSizeSmooth;
    }
  }

  /** Is the pinch of a full hand within 50 px of `o`? */
  predicate Within50Of(landmarks: seq<Landmark>, o: Vec3)
  {
    IsHand(landmarks) && P5Sketch.Within50(P5Sketch.PinchPoint(landmarks), o)
  }

  /** The component: the p5 instance currently mounted. */
  class Component {
    var instance: Instance

    constructor (data: MultiHandData)
      requires HandsWellFormed(data)
      ensures fresh(instance) && instance.multiHandData == data
    {
      instance := new Instance(data);
    }

    /**
     * The effect keyed on `multiHandData`: the old instance is removed and a fresh one
     * starts from the initial state, so grab, lock and size never survive a data change.
     */
    method DataChanged(data: MultiHandData)
      requires HandsWellFormed(data)
      modifies this
      ensures fresh(instance) && instance.Valid() && instance.multiHandData == data
      ensures instance.objectVector == Vec3(100.0, 0.0, 0.0) && !instance.grabbing && !instance.locked
      ensures instance.objectSize == 1.0 && instance.lastObjectSize == 1.0 && instance.objectSizeSmooth == 0.0
    {
      instance := new Instance(data);
    }
  }
}
