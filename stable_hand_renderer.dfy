// The stable hand renderer (src/components/StableHandRenderer.tsx): each hand keeps a
// buffer of the landmark objects it draws. The first frame's objects are taken over by a
// shallow copy, and later frames blend into those same objects in place, 0.7 old to 0.3
// new, so the buffer aliases whatever array filled it.

module StableHandRenderer {
  import opened HandTypes

  /** A MediaPipe landmark object, whose coordinates the renderer overwrites. */
  class LandmarkObject {
    var x: real
    var y: real
    var z: real

    constructor (x0: real, y0: real, z0: real)
      ensures x == x0 && y == y0 && z == z0
    {
      x, y, z := x0, y0, z0;
    }
  }

  /** `old * 0.7 + current * 0.3`. */
  function Blend(old_: real, current: real): (r: real)
    ensures old_ <= current ==> old_ <= r <= current
    ensures current <= old_ ==> current <= r <= old_
    ensures r == old_ <==> old_ == current
  {
    old_ * 0.7 + current * 0.3
  }

  /** Blending a value with itself keeps it. */
  lemma BlendSelf(v: real)
    ensures Blend(v, v) == v
  {
  }

  /** Distinct landmark objects, as every MediaPipe result delivers them. */
  predicate Distinct(ps: seq<LandmarkObject>)
  {
    forall i, j :: 0 <= i < j < |ps| ==> ps[i] != ps[j]
  }

  /**
   * A frame shares objects with the buffer at most index for index: either it is the
   * array that filled the buffer, or its objects are new.
   */
  predicate AlignedWith(frame: seq<LandmarkObject>, buffer: seq<LandmarkObject>)
  {
    forall i, j :: 0 <= i < |buffer| && 0 <= j < |frame| && buffer[i] == frame[j] ==> i == j
  }

  /** One coordinate triple of `previous[i]` blended towards `current[i]`, reading `current` first. */
  method BlendInto(p: LandmarkObject, c: LandmarkObject)
    modifies p
    ensures p.x == Blend(old(p.x), old(c.x)) && p.y == Blend(old(p.y), old(c.y)) && p.z == Blend(old(p.z), old(c.z))
  {
    p.x := p.x * 0.7 + c.x * 0.3;
    p.y := p.y * 0.7 + c.y * 0.3;
    p.z := p.z * 0.7 + c.z * 0.3;
  }

  /** One hand's `previousLeftLandmarks` or `previousRightLandmarks`. */
  class HandBuffer {
    var previous: Option<seq<LandmarkObject>>

    constructor ()
      ensures previous.None?
    {
      previous := None;
    }

    /**
     * One `draw` for this hand. An absent or empty frame clears the buffer; the first
     * frame after that is copied, sharing its objects; every later frame blends each
     * index both arrays have into the buffered object, and skips the rest.
     */
    method Smooth(frame: Option<seq<LandmarkObject>>)
      requires frame.Some? ==> Distinct(frame.value)
      requires previous.Some? ==> Distinct(previous.value)
      requires previous.Some? && frame.Some? ==> AlignedWith(frame.value, previous.value)
      modifies this, if previous.Some? then set o | o in previous.value else {}
      ensures frame.None? || |frame.value| == 0 ==> previous.None?
      ensures frame.Some? && |frame.value| > 0 && old(previous).None? ==> previous == frame
      ensures frame.Some? && |frame.value| > 0 && old(previous).Some? ==>
        var buffer := old(previous).value;
        var f := frame.value;
        && previous == old(previous)
        && forall i :: 0 <= i < |buffer| ==>
             if i < |f| then
               && buffer[i].x == Blend(old(buffer[i].x), old(f[i].x))
               && buffer[i].y == Blend(old(buffer[i].y), old(f[i].y))
               && buffer[i].z == Blend(old(buffer[i].z), old(f[i].z))
             else
               buffer[i].x == old(buffer[i].x) && buffer[i].y == old(buffer[i].y) && buffer[i].z == old(buffer[i].z)
    {
      if frame.None? || |frame.value| == 0 {
        previous := None;
        return;
      }
      if previous.None? {
        previous := frame;
        return;
      }
      var buffer := previous.value;
      var f := frame.value;
      var i := 0;
      while i < |f|
        invariant 0 <= i <= |f| && previous == old(previous)
        invariant forall j :: 0 <= j < |buffer| ==>
          if j < i then
            && buffer[j].x == Blend(old(buffer[j].x), old(f[j].x))
            && buffer[j].y == Blend(old(buffer[j].y), old(f[j].y))
            && buffer[j].z == Blend(old(buffer[j].z), old(f[j].z))
          else
            buffer[j].x == old(buffer[j].x) && buffer[j].y == old(buffer[j].y) && buffer[j].z == old(buffer[j].z)
        invariant forall j :: i <= j < |f| ==> f[j].x == old(f[j].x) && f[j].y == old(f[j].y) && f[j].z == old(f[j].z)
      {
        if i < |buffer| {
          BlendInto(buffer[i], f[i]);
        }
        i := i + 1;
      }
    }

    /**
     * Drawing again from the array that filled the buffer blends each object with itself,
     * so no buffered value moves.
     */
    method SmoothSameFrameKeepsValues()
      requires previous.Some? && |previous.value| > 0 && Distinct(previous.value)
      modifies this, set o | o in previous.value
      ensures previous == old(previous)
      ensures forall i :: 0 <= i < |previous.value| ==>
        previous.value[i].x == old(previous.value[i].x) && previous.value[i].y == old(previous.value[i].y)
        && previous.value[i].z == old(previous.value[i].z)
    {
      Smooth(previous);
    }
  }

  /** No landmark object appears in both lists. */
  predicate SharesNothing(a: seq<LandmarkObject>, b: seq<LandmarkObject>)
  {
    forall i, j :: 0 <= i < |a| && 0 <= j < |b| ==> a[i] != b[j]
  }

  /**
   * Every buffered object that the frame also has an index for moved from its old value
   * 0.3 of the way to the frame's old value; the buffered objects past the frame kept theirs.
   */
  twostate predicate BlendedInPlace(buffer: seq<LandmarkObject>, f: seq<LandmarkObject>)
    reads set o | o in buffer
  {
    forall i :: 0 <= i < |buffer| ==>
      if i < |f| then
        && buffer[i].x == Blend(old(buffer[i].x), old(f[i].x))
        && buffer[i].y == Blend(old(buffer[i].y), old(f[i].y))
        && buffer[i].z == Blend(old(buffer[i].z), old(f[i].z))
      else
        buffer[i].x == old(buffer[i].x) && buffer[i].y == old(buffer[i].y) && buffer[i].z == old(buffer[i].z)
  }

  /**
   * `draw` for both hands: the two buffers follow their own frames by the same rule. A
   * landmark list that is absent or empty arrives as `None` or `[]`. The left buffer
   * shares no object with the right hand's buffer or frame, so the left blend leaves the
   * right hand's values as they were.
   */
  method Draw(left: HandBuffer, right: HandBuffer,
              leftFrame: Option<seq<LandmarkObject>>, rightFrame: Option<seq<LandmarkObject>>)
    requires left != right
    requires leftFrame.Some? ==> Distinct(leftFrame.value)
    requires rightFrame.Some? ==> Distinct(rightFrame.value)
    requires left.previous.Some? ==> Distinct(left.previous.value)
    requires right.previous.Some? ==> Distinct(right.previous.value)
    requires left.previous.Some? && leftFrame.Some? ==> AlignedWith(leftFrame.value, left.previous.value)
    requires right.previous.Some? && rightFrame.Some? ==> AlignedWith(rightFrame.value, right.previous.value)
    requires left.previous.Some? && right.previous.Some? ==> SharesNothing(left.previous.value, right.previous.value)
    requires left.previous.Some? && rightFrame.Some? ==> SharesNothing(left.previous.value, rightFrame.value)
    modifies left, right
    modifies if left.previous.Some? then set o | o in left.previous.value else {}
    modifies if right.previous.Some? then set o | o in right.previous.value else {}
    ensures leftFrame.None? || |leftFrame.value| == 0 ==> left.previous.None?
    ensures rightFrame.None? || |rightFrame.value| == 0 ==> right.previous.None?
    ensures leftFrame.Some? && |leftFrame.value| > 0 && old(left.previous).None? ==> left.previous == leftFrame
    ensures rightFrame.Some? && |rightFrame.value| > 0 && old(right.previous).None? ==> right.previous == rightFrame
    ensures leftFrame.Some? && |leftFrame.value| > 0 && old(left.previous).Some? ==>
      left.previous == old(left.previous) && BlendedInPlace(old(left.previous).value, leftFrame.value)
    ensures rightFrame.Some? && |rightFrame.value| > 0 && old(right.previous).Some? ==>
      right.previous == old(right.previous) && BlendedInPlace(old(right.previous).value, rightFrame.value)
  {
    left.Smooth(leftFrame);
    right.Smooth(rightFrame);
  }
}
