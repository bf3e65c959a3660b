// The standalone gesture recorder page (gesture-recorder.js): the latest hand from
// MediaPipe, a recording that gathers one landmark sample per drawn frame, and the list
// of saved gestures with its statistics. Dialog answers and clock readings are inputs.

module GestureRecorderScript {
  import opened HandTypes

  // ---------------------------------------------------------------- text

  /** The whitespace `String.prototype.trim` removes, restricted to ASCII. */
  predicate IsSpace(c: char)
  {
    c == ' ' || c == '\t' || c == '\n' || c == '\r' || c == '\U{000B}' || c == '\U{000C}'
  }

  function TrimStart(s: string): (r: string)
    ensures |r| <= |s| && r == s[|s| - |r|..]
    ensures |r| > 0 ==> !IsSpace(r[0])
    ensures forall i :: 0 <= i < |s| - |r| ==> IsSpace(s[i])
  {
    if |s| > 0 && IsSpace(s[0]) then TrimStart(s[1..]) else s
  }

  function TrimEnd(s: string): (r: string)
    ensures |r| <= |s| && r == s[..|r|]
    ensures |r| > 0 ==> !IsSpace(r[|r| - 1])
    ensures forall i :: |r| <= i < |s| ==> IsSpace(s[i])
  {
    if |s| > 0 && IsSpace(s[|s| - 1]) then TrimEnd(s[..|s| - 1]) else s
  }

  /** `trim()`: the text without leading and trailing whitespace. */
  function Trim(s: string): (r: string)
    ensures |r| > 0 ==> !IsSpace(r[0]) && !IsSpace(r[|r| - 1])
  {
    TrimEnd(TrimStart(s))
  }

  /** A field holding only whitespace trims to the empty name. */
  lemma TrimEmptyIffBlank(s: string)
    ensures Trim(s) == [] <==> forall i :: 0 <= i < |s| ==> IsSpace(s[i])
  {
    var t := TrimStart(s);
    assert TrimEnd(t) == [] ==> |t| == 0;
  }

  /** Trimming twice is trimming once. */
  lemma TrimIdempotent(s: string)
    ensures Trim(Trim(s)) == Trim(s)
  {
    var r := Trim(s);
    if |r| > 0 {
      assert TrimStart(r) == r;
      assert TrimEnd(r) == r;
    }
  }

  function LowerChar(c: char): char
  {
    if 'A' <= c <= 'Z' then (c as int + 32) as char else c
  }

  /** `toLowerCase()` on ASCII letters. */
  function Lower(s: string): (r: string)
    ensures |r| == |s| && forall i :: 0 <= i < |s| ==> r[i] == LowerChar(s[i])
  {
    seq(|s|, i requires 0 <= i < |s| => LowerChar(s[i]))
  }

  /** The case-insensitive name test of `startRecording`. */
  predicate SameName(a: string, b: string)
  {
    Lower(a) == Lower(b)
  }

  // ---------------------------------------------------------------- saved gestures

  /** One recorded frame: the time and the landmark positions. */
  datatype Sample = Sample(timestamp: int, landmarks: seq<Landmark>)

  datatype SavedGesture = SavedGesture(id: int, name: string, category: string, description: string,
                                       samples: seq<Sample>, sampleCount: nat, createdAt: int)

  /** The gestures whose name differs from `name` ignoring case, in their order. */
  function WithoutName(gs: seq<SavedGesture>, name: string): (r: seq<SavedGesture>)
    ensures |r| <= |gs|
  {
    if |gs| == 0 then []
    else WithoutName(gs[..|gs| - 1], name)
         + (if SameName(gs[|gs| - 1].name, name) then [] else [gs[|gs| - 1]])
  }

  /** Exactly the gestures of another name survive. */
  lemma {:induction false} WithoutNameMembers(gs: seq<SavedGesture>, name: string)
    ensures forall g :: g in WithoutName(gs, name) <==> g in gs && !SameName(g.name, name)
  {
    if |gs| > 0 {
      var init := gs[..|gs| - 1];
      WithoutNameMembers(init, name);
      assert gs == init + [gs[|gs| - 1]];
    }
  }

  /** The gestures whose id is not `id`, in their order. */
  function WithoutId(gs: seq<SavedGesture>, id: int): (r: seq<SavedGesture>)
    ensures |r| <= |gs|
  {
    if |gs| == 0 then []
    else WithoutId(gs[..|gs| - 1], id) + (if gs[|gs| - 1].id == id then [] else [gs[|gs| - 1]])
  }

  /** Exactly the gestures with another id survive. */
  lemma {:induction false} WithoutIdMembers(gs: seq<SavedGesture>, id: int)
    ensures forall g :: g in WithoutId(gs, id) <==> g in gs && g.id != id
  {
    if |gs| > 0 {
      var init := gs[..|gs| - 1];
      WithoutIdMembers(init, id);
      assert gs == init + [gs[|gs| - 1]];
    }
  }

  /** Removing by id works piecewise, so the gestures kept stay in their order. */
  lemma {:induction false} WithoutIdAppend(a: seq<SavedGesture>, b: seq<SavedGesture>, id: int)
    ensures WithoutId(a + b, id) == WithoutId(a, id) + WithoutId(b, id)
  {
    if |b| > 0 {
      var b' := b[..|b| - 1];
      assert (a + b)[..|a + b| - 1] == a + b';
      WithoutIdAppend(a, b', id);
    } else {
      assert a + b == a;
    }
  }

  /** An id no gesture has leaves the list as it is. */
  lemma {:induction false} WithoutAbsentId(gs: seq<SavedGesture>, id: int)
    requires forall i :: 0 <= i < |gs| ==> gs[i].id != id
    ensures WithoutId(gs, id) == gs
  {
    if |gs| > 0 {
      WithoutAbsentId(gs[..|gs| - 1], id);
    }
  }

  /** `savedGestures.reduce((sum, g) => sum + g.sampleCount, 0)`. */
  function TotalSamples(gs: seq<SavedGesture>): nat
  {
    if |gs| == 0 then 0 else TotalSamples(gs[..|gs| - 1]) + gs[|gs| - 1].sampleCount
  }

  /** Removing gestures never raises the sample total. */
  lemma {:induction false} WithoutIdLowersTotal(gs: seq<SavedGesture>, id: int)
    ensures TotalSamples(WithoutId(gs, id)) <= TotalSamples(gs)
  {
    if |gs| > 0 {
      WithoutIdLowersTotal(gs[..|gs| - 1], id);
      var last := gs[|gs| - 1];
      var kept := WithoutId(gs[..|gs| - 1], id);
      if last.id != id {
        assert (kept + [last])[..|kept|] == kept;
      } else {
        assert kept + [] == kept;
      }
    }
  }

  /** Every saved gesture counts its own samples and has at least one. */
  predicate Counted(gs: seq<SavedGesture>)
  {
    forall i :: 0 <= i < |gs| ==> gs[i].sampleCount == |gs[i].samples| > 0
  }

  /** Statistics of `updateStats`: gestures saved, samples saved, samples in the recording. */
  datatype Stats = Stats(totalGestures: nat, totalSamples: nat, currentSamples: nat)

  /** With counted gestures the sample total is at least the number of gestures. */
  lemma {:induction false} TotalAtLeastCount(gs: seq<SavedGesture>)
    requires Counted(gs)
    ensures TotalSamples(gs) >= |gs|
  {
    if |gs| > 0 {
      TotalAtLeastCount(gs[..|gs| - 1]);
    }
  }

  // ---------------------------------------------------------------- the page

  /** What a click on "Start Recording" led to. */
  datatype StartOutcome = NameMissing | WaitingForHand | Declined | Started

  /**
   * The page's globals: the last hand seen (`lm`, `lmResults`), the recording in
   * progress and the saved gestures. Loading them from `localStorage` is not modelled,
   * so the page starts with none.
   */
  class Recorder {
    var lm: seq<Landmark>
    var lmResults: bool
    var isRecording: bool
    var recordingData: seq<Sample>
    var savedGestures: seq<SavedGesture>
    var currentGestureName: string
    var currentGestureCategory: string
    var currentGestureDescription: string

    predicate Valid()
      reads this
    {
      Counted(savedGestures)
    }

    constructor ()
      ensures Valid() && !lmResults && !isRecording && recordingData == [] && savedGestures == []
    {
      lm := [];
      lmResults := false;
      isRecording := false;
      recordingData := [];
      savedGestures := [];
      currentGestureName := "";
      currentGestureCategory := "";
      currentGestureDescription := "";
    }

    /** `updateStats`. */
    function CurrentStats(): (s: Stats)
      reads this
      ensures s.totalGestures == |savedGestures| && s.currentSamples == |recordingData|
      ensures Valid() ==> s.totalSamples >= s.totalGestures
    {
      if Valid() then TotalAtLeastCount(savedGestures); Stats(|savedGestures|, TotalSamples(savedGestures), |recordingData|)
      else Stats(|savedGestures|, TotalSamples(savedGestures), |recordingData|)
    }

    /**
     * `onResults`: with a hand list the last hand becomes `lm` (an empty list keeps the
     * previous one); without a list the hand is marked missing.
     */
    method OnResults(multiHandLandmarks: Option<seq<seq<Landmark>>>)
      modifies this`lm, this`lmResults
      ensures lmResults == multiHandLandmarks.Some?
      ensures lm == if multiHandLandmarks.Some? && |multiHandLandmarks.value| > 0
                    then multiHandLandmarks.value[|multiHandLandmarks.value| - 1] else old(lm)
    {
      if multiHandLandmarks.Some? {
        lmResults := true;
        var i := 0;
        while i < |multiHandLandmarks.value|
          invariant 0 <= i <= |multiHandLandmarks.value| && lmResults
          invariant lm == if i > 0 then multiHandLandmarks.value[i - 1] else old(lm)
        {
          lm := multiHandLandmarks.value[i];
          i := i + 1;
        }
      } else {
        lmResults := false;
      }
    }

    /** `collectGestureData`: one x/y/z sample of the current hand, if there is one. */
    method CollectGestureData(now: int)
      modifies this`recordingData
      ensures recordingData == if lmResults && |lm| > 0 then old(recordingData) + [Sample(now, lm)] else old(recordingData)
    {
      if lmResults && |lm| > 0 {
        var hand := lm;
        var landmarks := seq(|hand|, i requires 0 <= i < |hand| => Landmark(hand[i].x, hand[i].y, hand[i].z));
        assert landmarks == hand;
        recordingData := recordingData + [Sample(now, landmarks)];
      }
    }

    /** The data-gathering part of `draw`: a sample per frame while recording with a hand in view. */
    method Draw(now: int)
      modifies this`recordingData
      ensures recordingData == if isRecording && lmResults && |lm| > 0
                               then old(recordingData) + [Sample(now, lm)] else old(recordingData)
    {
      if lmResults && |lm| > 0 {
        if isRecording {
          CollectGestureData(now);
        }
      }
    }

    /**
     * `startRecording` with the three form fields and the answer to the overwrite
     * question. A blank name or no hand yet stops it; a name already saved, ignoring
     * case, needs the overwrite to be confirmed, which then drops every gesture of that
     * name. A start empties the recording.
     */
    method StartRecording(nameField: string, category: string, descriptionField: string, confirmOverwrite: bool)
      returns (outcome: StartOutcome)
      requires Valid()
      modifies this`savedGestures, this`isRecording, this`recordingData,
               this`currentGestureName, this`currentGestureCategory, this`currentGestureDescription
      ensures Valid()
      ensures var name := Trim(nameField);
        outcome == (if name == [] then NameMissing else if !lmResults then WaitingForHand
                    else if NameTaken(old(savedGestures), name) && !confirmOverwrite then Declined else Started)
      ensures outcome != Started ==> unchanged(this)
      ensures outcome == Started ==>
        && savedGestures == WithoutName(old(savedGestures), Trim(nameField))
        && isRecording && recordingData == []
        && currentGestureName == Trim(nameField) && currentGestureCategory == category
        && currentGestureDescription == Trim(descriptionField)
    {
      var gestureName := Trim(nameField);
      if gestureName == [] {
        return NameMissing;
      }
      if !lmResults {
        return WaitingForHand;
      }
      var found := FindName(savedGestures, gestureName);
      if found && !confirmOverwrite {
        return Declined;
      }
      BeginRecording(gestureName, category, Trim(descriptionField), found);
      outcome := Started;
    }

    /** The accepted start: drop the clashing gestures, take the form, empty the recording. */
    method BeginRecording(name: string, category: string, description: string, found: bool)
      requires Valid() && found == NameTaken(savedGestures, name)
      modifies this`savedGestures, this`isRecording, this`recordingData,
               this`currentGestureName, this`currentGestureCategory, this`currentGestureDescription
      ensures Valid() && savedGestures == WithoutName(old(savedGestures), name)
      ensures isRecording && recordingData == []
      ensures currentGestureName == name && currentGestureCategory == category
      ensures currentGestureDescription == description
    {
      if found {
        WithoutNameCounted(savedGestures, name);
        savedGestures := WithoutName(savedGestures, name);
      } else {
        WithoutAbsentName(savedGestures, name);
      }
      currentGestureName := name;
      currentGestureCategory := category;
      currentGestureDescription := description;
      isRecording := true;
      recordingData := [];
    }

    /** `stopRecording`: ends the recording and keeps what it gathered. */
    method StopRecording()
      modifies this`isRecording
      ensures !isRecording
    {
      isRecording := false;
    }

    /**
     * `saveGesture` at time `now`, which is also the new gesture's id: an empty recording
     * is refused; otherwise the recording is saved under the current name and emptied.
     */
    method SaveGesture(now: int) returns (saved: bool)
      requires Valid()
      modifies this`savedGestures, this`recordingData
      ensures Valid()
      ensures saved <==> |old(recordingData)| > 0
      ensures !saved ==> savedGestures == old(savedGestures) && recordingData == old(recordingData)
      ensures saved ==>
        && savedGestures == old(savedGestures) + [SavedGesture(now, currentGestureName, currentGestureCategory,
             currentGestureDescription, old(recordingData), |old(recordingData)|, now)]
        && recordingData == []
        && TotalSamples(savedGestures) == TotalSamples(old(savedGestures)) + |old(recordingData)|
    {
      if |recordingData| == 0 {
        return false;
      }
      var gesture := SavedGesture(now, currentGestureName, currentGestureCategory, currentGestureDescription,
                                  recordingData, |recordingData|, now);
      savedGestures := savedGestures + [gesture];
      assert savedGestures[..|savedGestures| - 1] == old(savedGestures);
      recordingData := [];
      saved := true;
    }

    /** `deleteGesture`: once confirmed, every gesture with that id goes and the rest keep their order. */
    method DeleteGesture(gestureId: int, confirmed: bool)
      requires Valid()
      modifies this`savedGestures
      ensures Valid()
      ensures savedGestures == if confirmed then WithoutId(old(savedGestures), gestureId) else old(savedGestures)
    {
      if confirmed {
        savedGestures := WithoutId(savedGestures, gestureId);
        WithoutIdCounted(old(savedGestures), gestureId);
      }
    }
  }

  /** Some saved gesture has this name, ignoring case. */
  predicate NameTaken(gs: seq<SavedGesture>, name: string)
  {
    exists j :: 0 <= j < |gs| && SameName(gs[j].name, name)
  }

  /** `savedGestures.find(g => g.name.toLowerCase() === name.toLowerCase())` found one. */
  method FindName(gs: seq<SavedGesture>, name: string) returns (found: bool)
    ensures found <==> NameTaken(gs, name)
  {
    var i := 0;
    while i < |gs|
      invariant 0 <= i <= |gs|
      invariant forall j :: 0 <= j < i ==> !SameName(gs[j].name, name)
    {
      if SameName(gs[i].name, name) {
        return true;
      }
      i := i + 1;
    }
    return false;
  }

  /** Without a clash, dropping the name keeps the list. */
  lemma {:induction false} WithoutAbsentName(gs: seq<SavedGesture>, name: string)
    requires !NameTaken(gs, name)
    ensures WithoutName(gs, name) == gs
  {
    if |gs| > 0 {
      assert !NameTaken(gs[..|gs| - 1], name) by {
        var init := gs[..|gs| - 1];
        forall j | 0 <= j < |init|
          ensures !SameName(init[j].name, name)
        {
          assert init[j] == gs[j];
        }
      }
      WithoutAbsentName(gs[..|gs| - 1], name);
    }
  }

  lemma WithoutNameCounted(gs: seq<SavedGesture>, name: string)
    requires Counted(gs)
    ensures Counted(WithoutName(gs, name))
  {
    var r := WithoutName(gs, name);
    WithoutNameMembers(gs, name);
    forall i | 0 <= i < |r|
      ensures r[i].sampleCount == |r[i].samples| > 0
    {
      assert r[i] in gs;
    }
  }

  lemma WithoutIdCounted(gs: seq<SavedGesture>, id: int)
    requires Counted(gs)
    ensures Counted(WithoutId(gs, id))
  {
    var r := WithoutId(gs, id);
    WithoutIdMembers(gs, id);
    forall i | 0 <= i < |r|
      ensures r[i].sampleCount == |r[i].samples| > 0
    {
      assert r[i] in gs;
    }
  }
}
