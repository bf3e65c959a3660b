// The gesture-command panel (src/components/GestureRecorder.tsx): nine commands, each of
// which can hold one recorded hand pose; a live hand that matches an active command's
// pose closely enough triggers it, at most once every two seconds.

module GestureRecorderPanel {
  import opened HandTypes

  /** `GestureCommand`; a recorded gesture is a copy of one frame's landmark list. */
  datatype Command = Command(id: string, name: string, description: string,
                             recordedGesture: Option<seq<Landmark>>, isActive: bool, lastTriggered: int)

  function Blank(id: string, name: string, description: string): Command
  {
    Command(id, name, description, None, false, 0)
  }

  /** The commands the panel starts with. */
  const InitialCommands: seq<Command> := [
    Blank("chatgpt-enter", "ChatGPT Widget", "Enter ChatGPT widget"),
    Blank("enter-command", "Enter Command", "Execute enter command"),
    Blank("cursor-command", "Cursor Command", "Control cursor"),
    Blank("browser-command", "Browser Command", "Open browser"),
    Blank("telegram-command", "Telegram Command", "Open Telegram"),
    Blank("swipe-windows", "Swipe Between Windows", "Switch between windows"),
    Blank("show-apps", "Show Every Open App", "Show all open applications"),
    Blank("command-tab", "Command Tab", "Command + Tab shortcut"),
    Blank("tab-command", "Tab Command", "Tab key command")
  ]

  predicate UniqueIds(cs: seq<Command>)
  {
    forall i, j :: 0 <= i < j < |cs| ==> cs[i].id != cs[j].id
  }

  /** Nine commands with distinct ids, none recorded, none active, none triggered. */
  lemma InitialCommandsFresh()
    ensures |InitialCommands| == 9 && UniqueIds(InitialCommands)
    ensures forall i :: 0 <= i < |InitialCommands| ==>
      InitialCommands[i].recordedGesture.None? && !InitialCommands[i].isActive && InitialCommands[i].lastTriggered == 0
  {
    var ids := seq(9, i requires 0 <= i < 9 => InitialCommands[i].id);
    assert ids == ["chatgpt-enter", "enter-command", "cursor-command", "browser-command", "telegram-command",
                   "swipe-windows", "show-apps", "command-tab", "tab-command"];
  }

  // ---------------------------------------------------------------- similarity

  /** The summed 3-D distance between matching points of the first `n` pairs. */
  function TotalDistance(current: seq<Landmark>, recorded: seq<Landmark>, root: real -> real, n: nat): (d: real)
    requires IsSqrt(root) && n <= |current| == |recorded|
    ensures d >= 0.0
  {
    if n == 0 then 0.0
    else TotalDistance(current, recorded, root, n - 1) + root(SqDist3(current[n - 1], recorded[n - 1]))
  }

  /**
   * `calculateGestureSimilarity`: 0 when the lengths differ or there is no point to
   * compare; otherwise one minus ten times the mean point distance, floored at 0.
   * Entries of a landmark list are never null, so every point counts as valid.
   */
  function Similarity(current: seq<Landmark>, recorded: seq<Landmark>, root: real -> real): (s: real)
    requires IsSqrt(root)
    ensures 0.0 <= s <= 1.0
    ensures |current| != |recorded| || |current| == 0 ==> s == 0.0
  {
    if |current| != |recorded| || |current| == 0 then 0.0
    else Max(0.0, 1.0 - TotalDistance(current, recorded, root, |current|) / (|current| as real) * 10.0)
  }

  /** The accumulating loop of GestureRecorder.tsx:119-140. */
  method CalculateGestureSimilarity(current: seq<Landmark>, recorded: seq<Landmark>, root: real -> real)
    returns (similarity: real)
    requires IsSqrt(root)
    ensures similarity == Similarity(current, recorded, root)
  {
    if |current| != |recorded| {
      return 0.0;
    }
    var totalDistance := 0.0;
    var validPoints := 0;
    var i := 0;
    while i < |current|
      invariant 0 <= i <= |current| && validPoints == i
      invariant totalDistance == TotalDistance(current, recorded, root, i)
    {
      totalDistance := totalDistance + root(SqDist3(current[i], recorded[i]));
      validPoints := validPoints + 1;
      i := i + 1;
    }
    if validPoints == 0 {
      return 0.0;
    }
    var averageDistance := totalDistance / validPoints as real;
    similarity := Max(0.0, 1.0 - averageDistance * 10.0);
  }

  lemma {:induction false} TotalDistanceSelf(g: seq<Landmark>, root: real -> real, n: nat)
    requires IsSqrt(root) && n <= |g|
    ensures TotalDistance(g, g, root, n) == 0.0
  {
    if n > 0 {
      TotalDistanceSelf(g, root, n - 1);
      assert SqDist3(g[n - 1], g[n - 1]) == 0.0;
    }
  }

  /** A non-empty pose compared with itself is a perfect match. */
  lemma SelfSimilarityIsOne(g: seq<Landmark>, root: real -> real)
    requires IsSqrt(root) && |g| > 0
    ensures Similarity(g, g, root) == 1.0
  {
    TotalDistanceSelf(g, root, |g|);
  }

  // ---------------------------------------------------------------- triggering

  const CooldownMs: int := 2000
  const MatchThreshold: real := 0.85

  /** A command fires on `hand` at `now`: recorded, active, past its cooldown and a close match. */
  predicate Fires(c: Command, hand: seq<Landmark>, now: int, root: real -> real)
    requires IsSqrt(root)
  {
    && c.recordedGesture.Some? && c.isActive
    && now - c.lastTriggered > CooldownMs
    && Similarity(hand, c.recordedGesture.value, root) > MatchThreshold
  }

  /** The command list once every firing command has its `lastTriggered` set to `now`. */
  function AfterMatches(cs: seq<Command>, hand: seq<Landmark>, now: int, root: real -> real): (r: seq<Command>)
    requires IsSqrt(root)
    ensures |r| == |cs|
    ensures forall i :: 0 <= i < |cs| ==>
      r[i] == if Fires(cs[i], hand, now, root) then cs[i].(lastTriggered := now) else cs[i]
  {
    seq(|cs|, i requires 0 <= i < |cs| => if Fires(cs[i], hand, now, root) then cs[i].(lastTriggered := now) else cs[i])
  }

  /** The names of the commands among the first `n` that fire, in list order. */
  function FiredNames(cs: seq<Command>, hand: seq<Landmark>, now: int, root: real -> real, n: nat): seq<string>
    requires IsSqrt(root) && n <= |cs|
  {
    if n == 0 then []
    else FiredNames(cs, hand, now, root, n - 1) + (if Fires(cs[n - 1], hand, now, root) then [cs[n - 1].name] else [])
  }

  /** `cmd.id === id ? { ...cmd, lastTriggered: now } : cmd` over the list. */
  function Retrigger(cs: seq<Command>, id: string, now: int): (r: seq<Command>)
    ensures |r| == |cs|
    ensures forall i :: 0 <= i < |cs| ==> r[i] == if cs[i].id == id then cs[i].(lastTriggered := now) else cs[i]
  {
    seq(|cs|, i requires 0 <= i < |cs| => if cs[i].id == id then cs[i].(lastTriggered := now) else cs[i])
  }

  /**
   * `checkGestureMatches`: every command of the list as it stood is tested against the
   * hand, and each that fires queues an update of the commands with its id and adds its
   * name to the detected list. With distinct ids exactly the firing commands are stamped.
   */
  method CheckGestureMatches(commands: seq<Command>, detected: seq<string>, hand: seq<Landmark>,
                             now: int, root: real -> real)
    returns (next: seq<Command>, nextDetected: seq<string>)
    requires IsSqrt(root) && UniqueIds(commands)
    ensures next == AfterMatches(commands, hand, now, root)
    ensures nextDetected == detected + FiredNames(commands, hand, now, root, |commands|)
  {
    next := commands;
    nextDetected := detected;
    var i := 0;
    while i < |commands|
      invariant 0 <= i <= |commands|
      invariant next == StampedUpTo(commands, hand, now, root, i)
      invariant nextDetected == detected + FiredNames(commands, hand, now, root, i)
    {
      var command := commands[i];
      if command.recordedGesture.Some? && command.isActive {
        if now - command.lastTriggered > CooldownMs {
          var similarity := CalculateGestureSimilarity(hand, command.recordedGesture.value, root);
          if similarity > MatchThreshold {
            nextDetected := nextDetected + [command.name];
            StampStep(commands, hand, now, root, i);
            next := Retrigger(next, command.id, now);
          }
        }
      }
      i := i + 1;
    }
  }

  /** The list after the updates queued by the first `n` commands. */
  function StampedUpTo(cs: seq<Command>, hand: seq<Landmark>, now: int, root: real -> real, n: nat): (r: seq<Command>)
    requires IsSqrt(root)
    ensures |r| == |cs|
  {
    seq(|cs|, j requires 0 <= j < |cs| =>
      if j < n && Fires(cs[j], hand, now, root) then cs[j].(lastTriggered := now) else cs[j])
  }

  /** The update queued by a firing command `i` stamps exactly that command. */
  lemma StampStep(cs: seq<Command>, hand: seq<Landmark>, now: int, root: real -> real, i: nat)
    requires IsSqrt(root) && UniqueIds(cs) && i < |cs| && Fires(cs[i], hand, now, root)
    ensures Retrigger(StampedUpTo(cs, hand, now, root, i), cs[i].id, now) == StampedUpTo(cs, hand, now, root, i + 1)
  {
  }

  /** A command that has just fired cannot fire again within the next two seconds. */
  lemma CooldownBlocksRetrigger(cs: seq<Command>, hand: seq<Landmark>, now: int, root: real -> real,
                                i: nat, hand2: seq<Landmark>, later: int)
    requires IsSqrt(root) && i < |cs| && Fires(cs[i], hand, now, root) && later <= now + CooldownMs
    ensures !Fires(AfterMatches(cs, hand, now, root)[i], hand2, later, root)
  {
  }

  // ---------------------------------------------------------------- the command list

  /** `toggleCommand`: flips `isActive` on the commands with that id. */
  function ToggleCommand(cs: seq<Command>, id: string): (r: seq<Command>)
    ensures |r| == |cs|
    ensures forall i :: 0 <= i < |cs| ==>
      r[i] == if cs[i].id == id then cs[i].(isActive := !cs[i].isActive) else cs[i]
  {
    seq(|cs|, i requires 0 <= i < |cs| => if cs[i].id == id then cs[i].(isActive := !cs[i].isActive) else cs[i])
  }

  /** Toggling the same command twice gives back the list. */
  lemma ToggleTwiceRestores(cs: seq<Command>, id: string)
    ensures ToggleCommand(ToggleCommand(cs, id), id) == cs
  {
    var r := ToggleCommand(ToggleCommand(cs, id), id);
    assert forall i :: 0 <= i < |cs| ==> r[i] == cs[i];
  }

  /** `clearGesture`: forgets the recorded pose and deactivates the commands with that id. */
  function ClearGesture(cs: seq<Command>, id: string): (r: seq<Command>)
    ensures |r| == |cs|
    ensures forall i :: 0 <= i < |cs| ==>
      r[i] == if cs[i].id == id then cs[i].(recordedGesture := None, isActive := false) else cs[i]
  {
    seq(|cs|, i requires 0 <= i < |cs| => if cs[i].id == id then cs[i].(recordedGesture := None, isActive := false) else cs[i])
  }

  /** A cleared command fires on no hand at any time. */
  lemma ClearedNeverFires(cs: seq<Command>, id: string, i: nat, hand: seq<Landmark>, now: int, root: real -> real)
    requires IsSqrt(root) && i < |cs| && cs[i].id == id
    ensures !Fires(ClearGesture(cs, id)[i], hand, now, root)
  {
  }

  /** The commands with that id get a copy of the pose and become active. */
  function Record(cs: seq<Command>, id: string, pose: seq<Landmark>): (r: seq<Command>)
    ensures |r| == |cs|
    ensures forall i :: 0 <= i < |cs| ==>
      r[i] == if cs[i].id == id then cs[i].(recordedGesture := Some(pose), isActive := true) else cs[i]
  {
    seq(|cs|, i requires 0 <= i < |cs| => if cs[i].id == id then cs[i].(recordedGesture := Some(pose), isActive := true) else cs[i])
  }

  // ---------------------------------------------------------------- the panel

  /** The component's state: the commands, the command being recorded, the last hand, the detected names. */
  datatype Panel = Panel(commands: seq<Command>, recordingFor: Option<string>,
                         currentHandData: Option<seq<Landmark>>, detectedGestures: seq<string>)

  const InitialPanel := Panel(InitialCommands, None, None, [])

  /**
   * A "Capture Gesture" click. The buttons are disabled while a recording is pending,
   * so a click then does nothing; otherwise the command becomes the recording target.
   */
  function CaptureClicked(p: Panel, id: string): (q: Panel)
    ensures p.recordingFor.Some? ==> q == p
    ensures p.recordingFor.None? ==> q == p.(recordingFor := Some(id))
  {
    if p.recordingFor.Some? then p else p.(recordingFor := Some(id))
  }

  /**
   * `stopRecording`: with a target and a hand seen, the target command stores the last
   * hand and is activated, and the recording ends; otherwise nothing changes.
   */
  function StopRecording(p: Panel): (q: Panel)
    ensures p.recordingFor.None? || p.currentHandData.None? ==> q == p
    ensures p.recordingFor.Some? && p.currentHandData.Some? ==>
      q == p.(commands := Record(p.commands, p.recordingFor.value, p.currentHandData.value), recordingFor := None)
  {
    if p.recordingFor.Some? && p.currentHandData.Some? then
      p.(commands := Record(p.commands, p.recordingFor.value, p.currentHandData.value), recordingFor := None)
    else p
  }

  /** The landmark list the hand effect reads: the left hand's if present, else the right's. */
  function HandOf(left: Option<HandData>, right: Option<HandData>): seq<Landmark>
  {
    if left.Some? then left.value.landmarks else if right.Some? then right.value.landmarks else []
  }

  /**
   * The effect run when the hands change (GestureRecorder.tsx:76-84): a non-empty hand
   * becomes the current hand data and is matched against the commands.
   */
  method HandsChanged(p: Panel, left: Option<HandData>, right: Option<HandData>, now: int, root: real -> real)
    returns (q: Panel)
    requires IsSqrt(root) && UniqueIds(p.commands)
    ensures |HandOf(left, right)| == 0 ==> q == p
    ensures |HandOf(left, right)| > 0 ==>
      var h := HandOf(left, right);
      && q.currentHandData == Some(h) && q.recordingFor == p.recordingFor
      && q.commands == AfterMatches(p.commands, h, now, root)
      && q.detectedGestures == p.detectedGestures + FiredNames(p.commands, h, now, root, |p.commands|)
  {
    var handData := HandOf(left, right);
    if |handData| == 0 {
      return p;
    }
    var commands, detected := CheckGestureMatches(p.commands, p.detectedGestures, handData, now, root);
    q := Panel(commands, p.recordingFor, Some(handData), detected);
  }

  /** Every operation on the command list keeps the ids, so they stay distinct. */
  lemma OperationsKeepIds(cs: seq<Command>, id: string, pose: seq<Landmark>, hand: seq<Landmark>, now: int,
                          root: real -> real)
    requires IsSqrt(root) && UniqueIds(cs)
    ensures UniqueIds(ToggleCommand(cs, id)) && UniqueIds(ClearGesture(cs, id))
    ensures UniqueIds(Record(cs, id, pose)) && UniqueIds(AfterMatches(cs, hand, now, root))
  {
  }

  /**
   * Recording the current hand and then seeing the same hand again, once the command's
   * cooldown has passed, triggers that command.
   */
  lemma RecordedPoseMatchesItself(p: Panel, i: nat, now: int, root: real -> real)
    requires IsSqrt(root) && p.recordingFor.Some? && p.currentHandData.Some? && |p.currentHandData.value| > 0
    requires i < |p.commands| && p.commands[i].id == p.recordingFor.value
    requires now - p.commands[i].lastTriggered > CooldownMs
    ensures Fires(StopRecording(p).commands[i], p.currentHandData.value, now, root)
  {
    SelfSimilarityIsOne(p.currentHandData.value, root);
  }
}
