// The driving test page (src/app/test-driving/page.tsx): it logs the keys the car
// controller simulates and feeds that controller two mock hands, the right one the left
// one moved a tenth of the frame to the right.

module TestDrivingPage {
  import opened HandTypes
  import EventLog

  /** "Key Down: <key> (<code>)". */
  function KeyDownEntry(key: string, code: string): (s: string)
    ensures |s| == 13 + |key| + |code|
    ensures s[..10] == "Key Down: " && s[10..10 + |key|] == key
    ensures s[10 + |key|..12 + |key|] == " (" && s[12 + |key|..|s| - 1] == code && s[|s| - 1] == ')'
  {
    "Key Down: " + key + " (" + code + ")"
  }

  /** "Key Up: <key> (<code>)". */
  function KeyUpEntry(key: string, code: string): (s: string)
    ensures |s| == 11 + |key| + |code|
    ensures s[..8] == "Key Up: " && s[8..8 + |key|] == key
    ensures s[8 + |key|..10 + |key|] == " (" && s[10 + |key|..|s| - 1] == code && s[|s| - 1] == ')'
  {
    "Key Up: " + key + " (" + code + ")"
  }

  /** The two entries never coincide, whatever the keys: their fifth characters differ. */
  lemma DownAndUpEntriesDiffer(k1: string, c1: string, k2: string, c2: string)
    ensures KeyDownEntry(k1, c1) != KeyUpEntry(k2, c2)
  {
    assert KeyDownEntry(k1, c1)[4] == 'D';
    assert KeyUpEntry(k2, c2)[4] == 'U';
  }

  /** `handleKeyDown`: the entry goes in front of the log, which keeps ten. */
  method HandleKeyDown(log: EventLog.Log<string>, key: string, code: string)
    modifies log
    ensures log.entries == EventLog.Logged(old(log.entries), KeyDownEntry(key, code))
  {
    log.Add(KeyDownEntry(key, code));
  }

  /** `handleKeyUp`. */
  method HandleKeyUp(log: EventLog.Log<string>, key: string, code: string)
    modifies log
    ensures log.entries == EventLog.Logged(old(log.entries), KeyUpEntry(key, code))
  {
    log.Add(KeyUpEntry(key, code));
  }

  /** The Clear Log button. */
  method ClearLog(log: EventLog.Log<string>)
    modifies log
    ensures log.entries == []
  {
    log.Clear();
  }

  /** `Math.sin` and `Math.cos`, given as parameters, stay within [-1, 1]. */
  ghost predicate UnitWave(wave: real -> real)
  {
    forall t :: -1.0 <= wave(t) <= 1.0
  }

  /**
   * The mock left hand at time `now` (in milliseconds): landmark `i` circles the centre
   * with phase `now / 1000 + i / 10`, and its depth bobs with `now / 500`.
   */
  function MockLandmarks(sin: real -> real, cos: real -> real, now: real): (ls: seq<Landmark>)
    requires UnitWave(sin) && UnitWave(cos)
    ensures |ls| == LandmarkCount
    ensures forall i :: 0 <= i < |ls| ==>
      0.4 <= ls[i].x <= 0.6 && 0.4 <= ls[i].y <= 0.6 && 0.05 <= ls[i].z <= 0.15
  {
    seq(LandmarkCount, i requires 0 <= i < LandmarkCount =>
      Landmark(0.5 + sin(now * 0.001 + (i as real) * 0.1) * 0.1,
               0.5 + cos(now * 0.001 + (i as real) * 0.1) * 0.1,
               0.1 + sin(now * 0.002) * 0.05))
  }

  /** The mock right hand: every landmark of the left one shifted +0.1 in x. */
  function Shifted(ls: seq<Landmark>): (rs: seq<Landmark>)
    ensures |rs| == |ls|
    ensures forall i :: 0 <= i < |ls| ==> rs[i].x == ls[i].x + 0.1 && rs[i].y == ls[i].y && rs[i].z == ls[i].z
  {
    seq(|ls|, i requires 0 <= i < |ls| => Landmark(ls[i].x + 0.1, ls[i].y, ls[i].z))
  }

  /**
   * One tick of `simulateHands`: both hands are open with confidence 0.9 and 21
   * landmarks, and the right hand is the left one shifted +0.1 in x, so it sits
   * within [0.5, 0.7] across.
   */
  function MockHands(sin: real -> real, cos: real -> real, now: real): (d: (HandData, HandData))
    requires UnitWave(sin) && UnitWave(cos)
    ensures d.0.gesture == OpenHand && d.1.gesture == OpenHand
    ensures d.0.confidence == 0.9 && d.1.confidence == 0.9
    ensures |d.0.landmarks| == LandmarkCount && |d.1.landmarks| == LandmarkCount
    ensures forall i :: 0 <= i < LandmarkCount ==>
      && d.1.landmarks[i] == Landmark(d.0.landmarks[i].x + 0.1, d.0.landmarks[i].y, d.0.landmarks[i].z)
      && 0.5 <= d.1.landmarks[i].x <= 0.7
  {
    var left := MockLandmarks(sin, cos, now);
    (HandData(left, OpenHand, 0.9), HandData(Shifted(left), OpenHand, 0.9))
  }
}
