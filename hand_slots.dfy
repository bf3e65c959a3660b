// The two rules by which the pages place detected hands into a left and a right
// slot. sketch.js:369-404 and src/app/page.tsx:201-207 use "label, or first free
// slot when unlabelled"; src/app/eth-3d/page.tsx:204-209 and
// src/app/spline-3d/page.tsx:121-127 place strictly by label. Slots hold the
// index of the hand that fills them.

module HandSlots {
  import opened HandTypes

  datatype Slots = Slots(left: Option<nat>, right: Option<nat>)

  const Empty := Slots(None, None)

  /** What a slot holding index `k` of `xs` refers to. */
  function At<T>(xs: seq<T>, k: Option<nat>): (r: Option<T>)
    requires k.Some? ==> k.value < |xs|
    ensures r.Some? <==> k.Some?
    ensures r.Some? ==> r.value == xs[k.value]
  {
    if k.Some? then Some(xs[k.value]) else None
  }

  /** `results.multiHandedness ? results.multiHandedness[i] : null`, reduced to its label. */
  function LabelAt(r: Results, i: nat): (l: Option<Label>)
    ensures l.Some? <==> r.multiHandedness.Some? && i < |r.multiHandedness.value|
  {
    match r.multiHandedness
    case None => None
    case Some(hs) => if i < |hs| then Some(hs[i].side) else None
  }

  /** The labels of the first `n` hands. */
  function LabelsOf(r: Results, n: nat): (ls: seq<Option<Label>>)
    ensures |ls| == n
    ensures forall i :: 0 <= i < n ==> ls[i] == LabelAt(r, i)
  {
    seq(n, i requires 0 <= i => LabelAt(r, i))
  }

  // ---------------------------------------------------------------- label, or first free slot

  /** `isLeft || (!isRight && leftHand === null)`: does a hand labelled `l` write the left slot? */
  predicate TakesLeft(leftFilled: bool, l: Option<Label>)
  {
    l == Some(Left) || (l != Some(Right) && !leftFilled)
  }

  /** `isRight || (!isLeft && rightHand === null)`, the mirror image. */
  predicate TakesRight(rightFilled: bool, l: Option<Label>)
  {
    l == Some(Right) || (l != Some(Left) && !rightFilled)
  }

  /** One loop iteration over hand `i`. */
  function FirstFreeStep(s: Slots, i: nat, l: Option<Label>): Slots
  {
    Slots(if TakesLeft(s.left.Some?, l) then Some(i) else s.left,
          if TakesRight(s.right.Some?, l) then Some(i) else s.right)
  }

  /** The loop run over all hands in order; a slot only ever holds the index of a hand. */
  function FirstFree(ls: seq<Option<Label>>): (s: Slots)
    ensures s.left.Some? ==> s.left.value < |ls|
    ensures s.right.Some? ==> s.right.value < |ls|
  {
    if ls == [] then Empty else FirstFreeStep(FirstFree(ls[..|ls| - 1]), |ls| - 1, ls[|ls| - 1])
  }

  /** Reference: the last hand labelled `l`, if any. */
  function LastLabelled(ls: seq<Option<Label>>, l: Label): (k: Option<nat>)
    ensures k.Some? ==> k.value < |ls| && ls[k.value] == Some(l)
    ensures k.Some? ==> forall j :: k.value < j < |ls| ==> ls[j] != Some(l)
    ensures k.None? ==> forall j :: 0 <= j < |ls| ==> ls[j] != Some(l)
  {
    if ls == [] then None
    else if ls[|ls| - 1] == Some(l) then Some(|ls| - 1)
    else LastLabelled(ls[..|ls| - 1], l)
  }

  /** Reference: the first unlabelled hand, if any. */
  function FirstUnlabelled(ls: seq<Option<Label>>): (k: Option<nat>)
    ensures k.Some? ==> k.value < |ls| && ls[k.value] == None
    ensures k.Some? ==> forall j :: 0 <= j < k.value ==> ls[j].Some?
    ensures k.None? ==> forall j :: 0 <= j < |ls| ==> ls[j].Some?
  {
    if ls == [] then None
    else if FirstUnlabelled(ls[..|ls| - 1]).Some? then FirstUnlabelled(ls[..|ls| - 1])
    else if ls[|ls| - 1] == None then Some(|ls| - 1)
    else None
  }

  /** The reference value of a slot: the last hand with its label, else the first unlabelled hand. */
  function LabelOrFirstFree(ls: seq<Option<Label>>, l: Label): Option<nat>
  {
    if LastLabelled(ls, l).Some? then LastLabelled(ls, l) else FirstUnlabelled(ls)
  }

  /**
   * The label-or-first-free loop fills each slot with the last hand carrying that
   * label, or, when there is none, with the first unlabelled hand.
   */
  lemma {:induction false} FirstFreeIsReference(ls: seq<Option<Label>>)
    ensures FirstFree(ls).left == LabelOrFirstFree(ls, Left)
    ensures FirstFree(ls).right == LabelOrFirstFree(ls, Right)
  {
    if ls != [] {
      var init := ls[..|ls| - 1];
      var last := ls[|ls| - 1];
      FirstFreeIsReference(init);
      assert FirstFree(ls) == FirstFreeStep(FirstFree(init), |ls| - 1, last);
      assert LastLabelled(ls, Left) == if last == Some(Left) then Some(|ls| - 1) else LastLabelled(init, Left);
      assert LastLabelled(ls, Right) == if last == Some(Right) then Some(|ls| - 1) else LastLabelled(init, Right);
      assert FirstUnlabelled(ls) == if FirstUnlabelled(init).Some? then FirstUnlabelled(init)
                                    else if last == None then Some(|ls| - 1) else None;
      match last
      case Some(Left) =>
      case Some(Right) =>
      case None =>
        assert LastLabelled(ls, Left) == LastLabelled(init, Left);
    }
  }

  /** A hand labelled 'Left' never fills the right slot, and vice versa. */
  lemma LabelledHandStaysOnItsSide(ls: seq<Option<Label>>, i: nat)
    requires i < |ls|
    ensures ls[i] == Some(Left) ==> FirstFree(ls).right != Some(i)
    ensures ls[i] == Some(Right) ==> FirstFree(ls).left != Some(i)
  {
    FirstFreeIsReference(ls);
  }

  /** With no hand labelled at all, the first hand occupies both slots. */
  lemma UnlabelledHandFillsBoth(ls: seq<Option<Label>>)
    requires ls != [] && forall i :: 0 <= i < |ls| ==> ls[i] == None
    ensures FirstFree(ls) == Slots(Some(0), Some(0))
  {
    FirstFreeIsReference(ls);
  }

  // ---------------------------------------------------------------- strictly by label

  /** One iteration of a label-only loop: a labelled hand overwrites its own slot, others are skipped. */
  function ByLabelStep(s: Slots, i: nat, l: Option<Label>): Slots
  {
    match l
    case None => s
    case Some(Left) => s.(left := Some(i))
    case Some(Right) => s.(right := Some(i))
  }

  function ByLabel(ls: seq<Option<Label>>): (s: Slots)
    ensures s.left.Some? ==> s.left.value < |ls|
    ensures s.right.Some? ==> s.right.value < |ls|
  {
    if ls == [] then Empty else ByLabelStep(ByLabel(ls[..|ls| - 1]), |ls| - 1, ls[|ls| - 1])
  }

  /** Label-only placement: each slot holds the last hand with that label; unlabelled hands go nowhere. */
  lemma {:induction false} ByLabelIsLastLabelled(ls: seq<Option<Label>>)
    ensures ByLabel(ls) == Slots(LastLabelled(ls, Left), LastLabelled(ls, Right))
  {
    if ls != [] {
      ByLabelIsLastLabelled(ls[..|ls| - 1]);
    }
  }
}
