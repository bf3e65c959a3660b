// The mouse test page (src/app/mouse-test/page.tsx): it logs the mouse events the aim
// controller dispatches and feeds that controller a jittering mock left hand.

module MouseTestPage {
  import opened HandTypes
  import EventLog

  /** One logged event: its type, client coordinates and the time it arrived. */
  datatype LoggedEvent = LoggedEvent(kind: MouseEventType, x: real, y: real, time: int)

  /** The DOM event types the page listens for, by name. */
  function Listened(eventType: string): (k: Option<MouseEventType>)
    ensures k.Some? <==> eventType in {"mousedown", "mouseup", "click", "mousemove"}
    ensures eventType == "mousedown" ==> k == Some(MouseDown)
    ensures eventType == "mouseup" ==> k == Some(MouseUp)
    ensures eventType == "click" ==> k == Some(Click)
    ensures eventType == "mousemove" ==> k == Some(MouseMove)
  {
    if eventType == "mousedown" then Some(MouseDown)
    else if eventType == "mouseup" then Some(MouseUp)
    else if eventType == "click" then Some(Click)
    else if eventType == "mousemove" then Some(MouseMove)
    else None
  }

  /**
   * `handleMouseEvent` for a DOM event of type `eventType` at client (x, y) arriving at
   * `now`: only the four listened types reach the log, newest first.
   */
  method HandleMouseEvent(log: EventLog.Log<LoggedEvent>, eventType: string, x: real, y: real, now: int)
    modifies log
    ensures Listened(eventType).None? ==> log.entries == old(log.entries)
    ensures Listened(eventType).Some? ==>
      log.entries == EventLog.Logged(old(log.entries), LoggedEvent(Listened(eventType).value, x, y, now))
  {
    var kind := Listened(eventType);
    if kind.Some? {
      log.Add(LoggedEvent(kind.value, x, y, now));
    }
  }

  /** `Math.random()` returns values in [0, 1). */
  predicate RandomDraws(draws: seq<real>)
  {
    forall i :: 0 <= i < |draws| ==> 0.0 <= draws[i] < 1.0
  }

  /** `v + (r - 0.5) * 0.1`. */
  function Jitter(v: real, r: real): real
  {
    v + (r - 0.5) * 0.1
  }

  lemma JitterBounds(v: real, r: real)
    requires 0.0 <= r < 1.0
    ensures Abs(Jitter(v, r) - v) <= 0.05
  {
  }

  /**
   * The mock hand `simulateHand` builds from three draws per landmark: 21 landmarks,
   * gesture 'pointing', confidence 0.8, and every coordinate within 0.05 of the centre
   * (0.5, 0.5, 0.3).
   */
  function MockHand(draws: seq<real>): (h: HandData)
    requires |draws| == 3 * LandmarkCount && RandomDraws(draws)
    ensures |h.landmarks| == LandmarkCount && h.gesture == Pointing && h.confidence == 0.8
    ensures forall i :: 0 <= i < |h.landmarks| ==>
      && Abs(h.landmarks[i].x - 0.5) <= 0.05
      && Abs(h.landmarks[i].y - 0.5) <= 0.05
      && Abs(h.landmarks[i].z - 0.3) <= 0.05
  {
    var landmarks := seq(LandmarkCount, i requires 0 <= i < LandmarkCount =>
      Landmark(Jitter(0.5, draws[3 * i]), Jitter(0.5, draws[3 * i + 1]), Jitter(0.3, draws[3 * i + 2])));
    forall i | 0 <= i < LandmarkCount
      ensures Abs(landmarks[i].x - 0.5) <= 0.05 && Abs(landmarks[i].y - 0.5) <= 0.05
      ensures Abs(landmarks[i].z - 0.3) <= 0.05
    {
      JitterBounds(0.5, draws[3 * i]);
      JitterBounds(0.5, draws[3 * i + 1]);
      JitterBounds(0.3, draws[3 * i + 2]);
    }
    HandData(landmarks, Pointing, 0.8)
  }

  /** The hands the page passes to the aim controller. */
  datatype PageHands = PageHands(leftHand: Option<HandData>, rightHand: Option<HandData>)

  const InitialHands := PageHands(None, None)

  /** One tick of the 100 ms interval: the left hand becomes a fresh mock hand. */
  function Tick(s: PageHands, draws: seq<real>): (t: PageHands)
    requires |draws| == 3 * LandmarkCount && RandomDraws(draws)
    ensures t.leftHand.Some? && IsHand(t.leftHand.value.landmarks)
    ensures t.rightHand == s.rightHand
  {
    s.(leftHand := Some(MockHand(draws)))
  }

  /** The right hand is never set: after any number of ticks it is still absent. */
  lemma {:induction false} RightHandStaysAbsent(ticks: seq<seq<real>>)
    requires forall k :: 0 <= k < |ticks| ==> |ticks[k]| == 3 * LandmarkCount && RandomDraws(ticks[k])
    ensures Run(InitialHands, ticks).rightHand.None?
  {
    RunKeepsRight(InitialHands, ticks);
  }

  function Run(s: PageHands, ticks: seq<seq<real>>): PageHands
    requires forall k :: 0 <= k < |ticks| ==> |ticks[k]| == 3 * LandmarkCount && RandomDraws(ticks[k])
    decreases |ticks|
  {
    if |ticks| == 0 then s else Run(Tick(s, ticks[0]), ticks[1..])
  }

  lemma {:induction false} RunKeepsRight(s: PageHands, ticks: seq<seq<real>>)
    requires forall k :: 0 <= k < |ticks| ==> |ticks[k]| == 3 * LandmarkCount && RandomDraws(ticks[k])
    ensures Run(s, ticks).rightHand == s.rightHand
    decreases |ticks|
  {
    if |ticks| > 0 {
      RunKeepsRight(Tick(s, ticks[0]), ticks[1..]);
    }
  }
}
