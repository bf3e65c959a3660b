# GCMND hand-gesture toolkit — a verified model

GCMND turns a webcam into an input device. MediaPipe reports up to two hands per
frame as 21 landmarks each. The toolkit then places the hands into a left and a
right slot, classifies each hand as a static gesture (pinch, fist, open hand,
pointing, victory), and drives small per-frame state machines. These turn
gestures into synthetic mouse and keyboard events, shots in two shooting
galleries, a steering wheel, 3-D objects that can be grabbed, created and
cleared, recorded gesture commands, and smoothed hand renderings.

This project models that core in Dafny and proves what the code promises:

- **Shared types** (`HandTypes`): landmarks, hands, MediaPipe results and the
  squared-distance helpers.
- **Gesture classifier** (`GestureDetection`): `src/lib/gestureDetection.ts` and
  its copy in `sketch.js`. The loops are methods proved against specification
  functions. The winner-selection lemmas establish that the result is "None"
  exactly when nothing fires, that ties go to the first maximum, and that
  confidences lie in [0, 1].
- **Hand-slot rules** (`HandSlots`): label-or-first-free placement and strictly
  by-label placement, each with a reference definition and a proof that the
  loop meets it.
- **Pages** (`HomePage`, `Eth3DPage`, `Spline3DPage`): the MediaPipe callbacks,
  open-hand indicators, camera error messages, retry counters and the camera
  guard.
- **p5 sketches** (`P5Sketch`, `SketchComponent`): five-frame gesture smoothing
  and the grab/lock state. The React component is rebuilt whenever its hand data
  changes.
- **Controllers** (`AimController`, `PointShoot`, `CarDriving`, `Fingers`): the
  mouse simulator with its drag invariant, the rising-edge fist shot, recoil,
  aim clamps, target hits, the steering-wheel latch, calibration, the keyboard
  mapping and the recorded-positions list.
- **ETH logo scene** (`Eth3DLogo`): the diamond list (create, delete, hit test,
  clear-all), depth scaling and the per-frame gesture step.
- **Gesture recorders** (`GestureRecorderPanel`, `GestureRecorderScript`): the
  command panel (similarity, triggering with cooldown, toggle, clear, record)
  and the stand-alone recorder page (start, collect, stop, save, delete,
  statistics).
- **Renderers** (`Hand3DModel`, `StableHandRenderer`, `GLBHandRenderer`):
  velocity smoothing with clamps, in-place blending of aliased landmark objects,
  and bone rotations on an array.
- **Mouse-event machines** (`Spline3DScene`, `ContentScript`): the pinch-driven
  machines of the Spline scene and of the browser extension's content script,
  with the extension's lifecycle and message handler.
- **Test pages** (`EventLog`, `MouseTestPage`, `TestDrivingPage`): the bounded
  newest-first logs of the two test pages and their mock-hand generators.

Conventions:

- Coordinates are `real`.
- A `Math.sqrt` length that the source compares is either compared on squares,
  or taken as a parameter required to be the non-negative root of the squared
  distance, with the comparison restated on squares in the contract.
- `Math.sqrt`, `Math.atan2`, `Math.sin`, `Math.cos`, `Math.random`,
  `Date.now()`, window sizes and dialog answers are parameters.
- React `setState` becomes state-in/state-out.
- Code that mutates refs, globals or object fields becomes a Dafny `class`, with
  methods that state the whole new state.

## Model

| member | source | states |
|---|---|---|
| HandTypes.SqDist3 | src/components/AimBackgroundController.tsx:812-817 | the squared 3-D distance between two landmarks is never negative |
| HandTypes.SqDist2 | src/lib/gestureDetection.ts:11-15 | the squared planar distance between two landmarks is never negative |
| HandTypes.LessIffSquaresLess | src/components/CarDrivingController.tsx:191-195 | for non-negative lengths, `<` and `==` on lengths agree with `<` and `==` on their squares |
| HandTypes.Clamp | src/components/AimBackgroundController.tsx:373-376 | `constrain` lands in [lo, hi], keeps values already inside, and maps values below or above to the nearer bound |
| GestureDetection.PinchThreshold | src/lib/gestureDetection.ts:3-9 | both copies' pinch thresholds (0.15 in the library, 0.015 in sketch.js:39-45) are positive |
| GestureDetection.Distance | src/lib/gestureDetection.ts:11-15 | `distance` is a non-negative squared distance and is 0 for equal points |
| GestureDetection.DistanceSymmetric | src/lib/gestureDetection.ts:11-15 | `distance` gives the same value with its two points swapped |
| GestureDetection.FingerDistance | src/lib/gestureDetection.ts:38-49 | each tip-to-base distance is non-negative |
| GestureDetection.PinchDistance | src/lib/gestureDetection.ts:18-21 | the thumb-tip/index-tip distance is non-negative |
| GestureDetection.DetectPinch | src/lib/gestureDetection.ts:17-34 | a pinch result fires iff the distance is below the copy's threshold, fires iff its confidence is positive, and has confidence at most 1 |
| GestureDetection.FingerSum | src/lib/gestureDetection.ts:44-50 | the accumulated distance over any prefix of the four fingers is non-negative |
| GestureDetection.MeanFingerDistance | src/lib/gestureDetection.ts:36-52 | the fist measure is the mean of the four index-to-pinky tip/base distances; the thumb plays no part |
| GestureDetection.FistResult | src/lib/gestureDetection.ts:36-58 | a fist fires iff the mean distance is below 0.08, fires iff its confidence is positive, and has confidence at most 1 |
| GestureDetection.DetectFist | src/lib/gestureDetection.ts:36-58 | the accumulating loop computes exactly the fist result |
| GestureDetection.ExtendedCount | src/lib/gestureDetection.ts:67-77 | the extended-finger count of the first n fingers is at most n |
| GestureDetection.OpenHandResult | src/lib/gestureDetection.ts:60-93 | an open hand fires iff at least one finger is extended and the mean distance exceeds 0.042; a firing result has confidence above 0.7; confidence is in [0, 1] |
| GestureDetection.DetectOpenHand | src/lib/gestureDetection.ts:60-93 | the loop computes the open-hand result and an extendedFingers count in 0..4 |
| GestureDetection.IndexDistance | src/lib/gestureDetection.ts:95-102 | the index tip-to-base distance is non-negative |
| GestureDetection.PointingResult | src/lib/gestureDetection.ts:95-123 | pointing fires iff the index finger exceeds 0.06 and middle, ring and pinky are within 0.06; it then has confidence 1 |
| GestureDetection.DetectPointing | src/lib/gestureDetection.ts:95-123 | the loop that stops at the first extended finger computes the pointing result |
| GestureDetection.DetectVictory | src/lib/gestureDetection.ts:125-156 | victory fires iff index and middle are extended and ring and pinky are curled; it then has confidence 1 |
| GestureDetection.PointingExcludesVictory | src/lib/gestureDetection.ts:104-119 | no hand is both pointing and victory: one needs the middle finger curled, the other needs it extended |
| GestureDetection.Candidates | src/lib/gestureDetection.ts:159-165 | exactly five detector results are compared |
| GestureDetection.DetectAllGestures | src/lib/gestureDetection.ts:158-183 | the forEach with its strict comparison computes the selection function |
| GestureDetection.BestIsNoneOrCandidate | src/lib/gestureDetection.ts:166-182 | the result is 'None' or the promoted result of some firing detector |
| GestureDetection.BestIsNoneIff | src/lib/gestureDetection.ts:158-183 | the result is 'None' with confidence 0 and not detected exactly when no detector fires |
| GestureDetection.BestIsFirstMaximum | src/lib/gestureDetection.ts:159-180 | a firing detector of maximal confidence with every earlier firing detector strictly worse is the one returned |
| GestureDetection.WinnerExists | src/lib/gestureDetection.ts:159-180 | whenever some detector fires, such a first maximum exists |
| GestureDetection.CandidatesWellFormed | src/lib/gestureDetection.ts:17-156 | every firing detector has positive confidence, none is named 'None', and all confidences are at most 1 |
| GestureDetection.AllGesturesConfidence | src/lib/gestureDetection.ts:168-182 | the returned confidence is in [0, 1], and it is 0 exactly for 'None' |
| GestureDetection.AllGesturesIsFirstMaximum | src/lib/gestureDetection.ts:159-180 | `detectAllGestures` returns exactly the first detector of maximal confidence among those that fire |
| HandSlots.At | src/app/page.tsx:186-207 | a slot holding an index refers to that hand, and an empty slot to none |
| HandSlots.LabelAt | src/app/page.tsx:177 | a hand has a label iff the handedness list exists and reaches it |
| HandSlots.LabelsOf | src/app/page.tsx:175-177 | the label list has one entry per hand, each read from the handedness list |
| HandSlots.FirstFree | sketch.js:369-404 | the label-or-first-free loop only ever stores the index of a reported hand |
| HandSlots.LastLabelled | src/app/eth-3d/page.tsx:204-209 | reference: the last hand with the label, with no later hand carrying it; none when no hand has it |
| HandSlots.FirstUnlabelled | src/app/page.tsx:201-207 | reference: the first unlabelled hand, with every earlier hand labelled |
| HandSlots.FirstFreeIsReference | src/app/page.tsx:186-207 | each slot ends with the last hand carrying its label, else the first unlabelled hand |
| HandSlots.LabelledHandStaysOnItsSide | src/app/page.tsx:201-207 | a 'Left'-labelled hand never fills the right slot, and vice versa |
| HandSlots.UnlabelledHandFillsBoth | src/app/page.tsx:177-211 | when no hand is labelled, the first hand occupies both slots |
| HandSlots.ByLabel | src/app/spline-3d/page.tsx:117-129 | label-only placement only ever stores the index of a reported hand |
| HandSlots.ByLabelIsLastLabelled | src/app/eth-3d/page.tsx:204-209 | under label-only placement each slot holds the last hand with its label, and unlabelled hands go nowhere |
| HomePage.HandDataOf | src/app/page.tsx:190-198 | a hand's data keeps its landmarks and has the classifier's confidence in [0, 1], which is 0 exactly for 'None' |
| HomePage.SlotHand | src/app/page.tsx:186-207 | a slot holds hand data iff it refers to a hand, and then holds that hand's classified data |
| HomePage.FilledSlots | src/app/page.tsx:211 | totalHands is at most 2; it is 0 iff both slots are empty and 2 iff both are filled |
| HomePage.OnResults | src/app/page.tsx:163-225 | the callback's loop publishes the received hand data, and the indicator is on iff either slot holds an open hand |
| HomePage.ReceivedSlots | src/app/page.tsx:186-207 | each slot holds the last hand with its label, else the first unlabelled hand; a hand labelled for one side never fills the other |
| HomePage.TotalHandsCountsSlots | src/app/page.tsx:211 | totalHands counts filled slots (at most 2), not landmark sets |
| HomePage.SingleUnlabelledHandCountsTwice | src/app/page.tsx:177-211 | one hand without handedness fills both slots, so totalHands is 2 |
| HomePage.NoLandmarksNoHands | src/app/page.tsx:220-223 | without landmarks both slots are empty, totalHands is 0 and the indicator is off |
| HomePage.CameraErrorMessage | src/app/page.tsx:365-374 | each of the three named errors maps to its fixed text; otherwise the raw message when it mentions MediaPipe, else 'Camera access failed' |
| HomePage.CameraErrorMessageIsKnownOrMediaPipe | src/app/page.tsx:365-374 | the message is always one of the four fixed texts or a raw message that mentions MediaPipe |
| HomePage.Loader.AttemptFailed | src/app/page.tsx:105-119 | a failed load schedules a retry iff fewer than 3 retries were made, counting it; otherwise the error status is set |
| HomePage.AttemptsUntilError | src/app/page.tsx:105-119 | the number of attempts still to come from a retry count: one plus the retries left |
| HomePage.Loader.FailEveryAttempt | src/app/page.tsx:105-119 | when every load fails, the catch path runs `AttemptsUntilError` times before the error status is set, with the count at 3 |
| HomePage.FreshLoaderAttempts | src/app/page.tsx:105-119 | a fresh loader whose loads all fail makes four attempts (the first and 3 retries) |
| Eth3DPage.AnyOpenHandIsSome | src/app/eth-3d/page.tsx:179-214 | the indicator flag raised in the loop is set iff some hand with handedness is an open hand above 0.7 |
| Eth3DPage.OnResults | src/app/eth-3d/page.tsx:161-225 | the callback's forEach publishes the received hand data and the indicator; missing lists give no hands |
| Eth3DPage.ReceivedByLabel | src/app/eth-3d/page.tsx:182-221 | slots hold the last hand per label, unlabelled entries are skipped, and totalHands is the number of landmark sets |
| Eth3DPage.SameLabelTwiceLeavesSlotEmpty | src/app/eth-3d/page.tsx:204-221 | two hands with the same label fill one slot, the later one wins, and totalHands is still 2 |
| Eth3DPage.Page.AttemptFailed | src/app/eth-3d/page.tsx:99-113 | the retry count is incremented before the check, so a retry follows only while the new count is below 3 |
| Eth3DPage.Page.HandleCameraRequest | src/app/eth-3d/page.tsx:227-240 | the camera is requested iff a Hands instance exists; without one the status becomes failed |
| Eth3DPage.Page.StopCamera | src/app/eth-3d/page.tsx:398-407 | stopping clears the camera and sets the status back to waiting, reporting whether one was running |
| Eth3DPage.AttemptsUntilError | src/app/eth-3d/page.tsx:99-113 | the number of attempts still to come from a retry count below 3: 3 minus the count |
| Eth3DPage.Page.FailEveryAttempt | src/app/eth-3d/page.tsx:99-113 | when every load fails, the catch path runs `AttemptsUntilError` times before the failed status is set, with the count at 3 |
| Eth3DPage.FreshPageAttempts | src/app/eth-3d/page.tsx:99-113 | a fresh page whose loads all fail makes only three attempts (the first and 2 retries) |
| Spline3DPage.Labels | src/app/spline-3d/page.tsx:117-120 | each handedness entry contributes its own label |
| Spline3DPage.LandmarksAt | src/app/spline-3d/page.tsx:119 | reading a landmark set past the end gives undefined |
| Spline3DPage.Entry | src/app/spline-3d/page.tsx:119-127 | a slot gets an entry iff a handedness entry was placed there |
| Spline3DPage.OnResults | src/app/spline-3d/page.tsx:112-137 | the forEach publishes the by-label placement, and throws when a non-empty handedness list comes without landmarks |
| Spline3DPage.ReceivedByLabel | src/app/spline-3d/page.tsx:117-135 | slots hold the last entry with their label, stay empty without handedness, and totalHands is the landmark count or 0 |
| Spline3DPage.Loader.AttemptFailedAsWritten | src/app/spline-3d/page.tsx:57-64 | as written: the retry test reads the attempt the re-run closure captured, while the functional update moves the state on from its current value |
| Spline3DPage.Loader.AttemptFailed | src/app/spline-3d/page.tsx:57-64 | intended: the test reads the current attempt, which moves on only while below 3 and so stays within 3 |
| Spline3DPage.FirstClosureNeverStops | src/app/spline-3d/page.tsx:57-64 | as written, with every load failing, the first closure retries after each failure, so n failures leave the counter at 1 + n, 4 after three |
| Spline3DPage.IntendedAttemptsStopAtThree | src/app/spline-3d/page.tsx:57-64 | intended, with every load failing, the attempt stops at 3 after two retries |
| Spline3DPage.CheckComponents | src/app/spline-3d/page.tsx:75-90 | initialisation happens iff the scripts are loaded and both Hands and Camera exist; otherwise the check idles or repeats |
| P5Sketch.LegacyDistance | sketch.js:383 | `compareD` is a non-negative squared distance |
| P5Sketch.PushHistory | sketch.js:408-411 | the window grows to at most 5, ends with the new gesture, and drops the oldest first |
| P5Sketch.Count | sketch.js:414-417 | a gesture occurs at most as often as the window is long |
| P5Sketch.CountPositive | sketch.js:414-417 | a gesture is counted exactly when it is in the window |
| P5Sketch.CountPair | sketch.js:414-425 | two different gestures together occur at most as often as the window is long |
| P5Sketch.KeysMembers | sketch.js:414-421 | the keys are exactly the window's gestures, each once |
| P5Sketch.Reduce | sketch.js:419-421 | the reduce returns one of the keys |
| P5Sketch.ReduceIsMaximal | sketch.js:419-421 | the reduce keeps a key whose count is at least every key's |
| P5Sketch.MostCommon | sketch.js:414-421 | the most common gesture is in the window |
| P5Sketch.MostCommonIsMaximal | sketch.js:414-421 | no gesture occurs more often than the most common one |
| P5Sketch.SmoothingPicksMajority | sketch.js:414-425 | a gesture seen 3 times in the window is the smoothed gesture whatever the tie-break; with none, the frame's gesture stays |
| P5Sketch.Tally | sketch.js:414-417 | the counting loop builds a map with exactly the window's gestures, each with its count, and keys in first-occurrence order |
| P5Sketch.MostCommonGesture | sketch.js:414-421 | tally and reduce return the most common gesture and its count |
| P5Sketch.SmoothSize | sketch.js:214-215 | the smoothed size lies between the target and the previous size and moves halfway to the target |
| P5Sketch.GestureOf | sketch.js:352-404 | an empty slot's gesture is 'None' |
| P5Sketch.ConfidenceOf | sketch.js:352-404 | a slot's confidence is in [0, 1] and is 0 exactly when its gesture is 'None' |
| P5Sketch.Reset | sketch.js:352-358 | a well-formed placement stays well formed after the reset, and every slot's gesture and confidence then match its hand |
| P5Sketch.PlaceAllSlots | sketch.js:369-404 | from empty slots the placement loop fills them by the label-or-first-free rule |
| P5Sketch.PlaceAllClassified | sketch.js:364-405 | the loop keeps each slot's gesture and confidence equal to the classifier's verdict on its hand |
| P5Sketch.PlaceStepClassified | sketch.js:366-404 | one loop iteration keeps the slots consistent with their hands |
| P5Sketch.PlaceAllPrimary | sketch.js:379-408 | only the hand left in the left slot sets the frame's gesture, confidence, `lm` and `compareD`; with no left hand the previous values stay |
| P5Sketch.PlaceAllLegacyPoint | sketch.js:383-394 | `xy` only moves to the pinch point of a reported hand whose squared distance is at most 0.01 |
| P5Sketch.PlaceHand | sketch.js:366-404 | one pass of the loop body computes one placement step and keeps stored hands full |
| P5Sketch.PlaceHands | sketch.js:364-405 | the placement loop computes the placement of all hands in order |
| P5Sketch.Smooth | sketch.js:407-426 | the frame's gesture enters the window, and the window's majority, if any, replaces it |
| P5Sketch.Sketch.constructor | sketch.js:16-35 | the globals start empty, unlocked, at size 1, with `xy` at (250, 250) |
| P5Sketch.Sketch.OnResults | sketch.js:347-437 | without landmarks every hand global is cleared and the gesture becomes 'None'; otherwise the placement and smoothing run; the window stays at most 5 |
| P5Sketch.Sketch.DrawGrab | sketch.js:172-215 | grabbing iff the gesture is a pinch; the object locks when within 50 px of the pinch, stays locked while grabbing, follows the pinch while locked, and has size 2 locked and 1 released; the drawn size moves halfway and stays in [1, 2] |
| SketchComponent.PrimaryHand | src/components/Sketch.tsx:55 | the primary hand is the left hand if present, else the right |
| SketchComponent.PrimaryGesture | src/components/Sketch.tsx:104-108 | without a primary hand the gesture is 'None' |
| SketchComponent.ProcessLandmarks | src/components/Sketch.tsx:154-163 | null for empty input, otherwise a same-length copy of the x/y/z values |
| SketchComponent.Instance.constructor | src/components/Sketch.tsx:17-29 | an instance starts unlocked, not grabbing, at size 1 |
| SketchComponent.Instance.Draw | src/components/Sketch.tsx:103-147 | grabbing iff the primary hand pinches; the lock is taken only within 50 px, persists while grabbing, and is released at size 1; the drawn size stays in [1, 2] |
| SketchComponent.Component.DataChanged | src/components/Sketch.tsx:308-316 | a data change mounts a fresh instance in the initial state, so grab, lock and size never survive it |
| Fingers.ClosedCount | src/components/AimBackgroundController.tsx:859-863 | the number of closed fingers among the first n is at most n |
| Fingers.ClosedCountAll | src/components/AimBackgroundController.tsx:853-863 | the count reaches n exactly when each of the first n fingers is closed |
| Fingers.FullFistIsFiveClosed | src/components/AimBackgroundController.tsx:711-767 | five closed fingers is exactly a full fist |
| Fingers.FistLatch.DetectShooting | src/components/AimBackgroundController.tsx:711-769 | a shot fires only on a full fist (all five below 0.12) after a non-fist frame of that hand; the hand's flag records this frame; short lists change nothing |
| AimController.MouseSimulator.constructor | src/components/AimBackgroundController.tsx:56-63 | the simulator starts up, not dragging, at (0, 0), with the drag invariant |
| AimController.MouseSimulator.HandleMouseMovement | src/components/AimBackgroundController.tsx:1434-1454 | one 'mousemove'; the position is recorded; dragging starts only while down with a move over 10 px and never stops here; dragging implies down |
| AimController.MouseSimulator.HandleMouseDown | src/components/AimBackgroundController.tsx:1456-1467 | when already down, nothing; otherwise down, not dragging, position recorded, one 'mousedown' |
| AimController.MouseSimulator.HandleMouseUp | src/components/AimBackgroundController.tsx:1469-1490 | when up, nothing; otherwise 'mouseup', then 'click' only if not dragging and over 200 ms since the last click; the flags reset |
| AimController.FistPercentage | src/components/AimBackgroundController.tsx:832-867 | 0 below 21 landmarks, otherwise 20 times the number of fingers closed below 0.12 |
| AimController.FistPercentageSteps | src/components/AimBackgroundController.tsx:832-867 | the percentage is a multiple of 20 up to 100, and is 100 exactly for a full fist |
| AimController.AnalyzeHandGestures | src/components/AimBackgroundController.tsx:302-423 | with no full hand, not aiming, not shooting, aim (0, 0) and the latch untouched; aim in [-1, 1]; shooting is the rising-edge fist of either hand |
| AimController.AimHand | src/components/AimBackgroundController.tsx:332-343 | the aiming hand is the left one if present, else the right one, and exists iff some hand is present |
| AimController.Aim | src/components/AimBackgroundController.tsx:345-379 | aim components are in [-1, 1], are (0, 0) when not aiming, and aiming holds iff there is a hand with a positive wrist-to-knuckle length |
| AimController.HandStability | src/components/AimBackgroundController.tsx:820-830 | stability is in [0, 1], 0 below 21 landmarks, 1 iff the distance is 0.15, and 0 iff it is at least 0.1 away from 0.15 |
| AimController.Random | src/components/AimBackgroundController.tsx:291-293 | `p.random(lo, hi)` lands in [lo, hi) |
| AimController.InitializeTargets | src/components/AimBackgroundController.tsx:275-300 | eight unhit targets with ids 0..7, the colours in order, and positions and sizes within their ranges |
| AimController.HitCount | src/components/AimBackgroundController.tsx:1349-1371 | at most one hit per target considered |
| AimController.LastHit | src/components/AimBackgroundController.tsx:1364-1370 | the last scoring target is a scoring target, and there is none iff nothing scores |
| AimController.MarkHit | src/components/AimBackgroundController.tsx:1365-1369 | a marked target is hit at the given time and otherwise unchanged |
| AimController.CheckForHitsAsWritten | src/components/AimBackgroundController.tsx:1347-1376 | as written: 10 points per scoring target, but only the last scoring target is marked hit |
| AimController.DoubleHitMarksOnlyOne | src/components/AimBackgroundController.tsx:1347-1376 | two targets in sight in one frame score 20 while the first stays unhit |
| AimController.CheckForHits | src/components/AimBackgroundController.tsx:1347-1376 | intended: every scoring target is marked hit and every other target is kept |
| AimController.CheckForHitsMarksAll | src/components/AimBackgroundController.tsx:1347-1376 | within one intended check, no target in sight is left unhit and no earlier hit is undone (the sketch rebuild after a shot is not modelled) |
| AimController.NoneScoreNoHits | src/components/AimBackgroundController.tsx:1350 | when every target is already hit, nothing scores |
| PointShoot.AimHandOf | src/components/PointShootController.tsx:315-320 | the aiming hand is a pointing hand, the left one first, and exists iff some hand points |
| PointShoot.PointingHandCannotFire | src/components/PointShootController.tsx:454-546 | a pointing hand has its index finger extended, so it is neither a shooting fist nor a reload fist |
| PointShoot.GunAim | src/components/PointShootController.tsx:336-357 | aiming iff there is an aiming hand with positive length; the direction is 0 when not aiming, and x, y are in [-1, 1] and z in [-1, 0] |
| PointShoot.AimAccuracy | src/components/PointShootController.tsx:600-613 | 0 for a missing hand, otherwise in [0, 100]; 100 iff the distance is 0.15, and 0 iff it is at least 0.1 away from 0.15 |
| PointShoot.Recoil | src/components/PointShootController.tsx:373-393 | a shot adds 0.3 capped at 1 and never lowers recoil; otherwise recoil decays towards 0 |
| PointShoot.RecoilStaysInUnitRange | src/components/PointShootController.tsx:373-393 | recoil starting in [0, 1] stays there for any frame, with a recovery factor in [0, 1] |
| PointShoot.AnalyzeGunGestures | src/components/PointShootController.tsx:268-431 | intended, from the previous frame's state: no hand: not aiming, not shooting, the rest carried over; otherwise shots fire after the 100 ms cooldown, two curled fists reload 30 rounds, lastShotTime is set whenever shooting, and accuracy is 100 exactly at a squared wrist-to-tip distance of 0.15² |
| PointShoot.AnalyzeGunGesturesAsWritten | src/components/PointShootController.tsx:268-431 | as written, from the frozen initial state: recoil is 0.3 after a shot and 0 otherwise, the magazine reads 30, and past 100 ms every shooting frame fires |
| PointShoot.ThreadedRecoilBuildsUp | src/components/PointShootController.tsx:373-393 | two threaded shots give recoil 0.6, where the frozen state gives 0.3 |
| CarDriving.CalculateAverageZ | src/components/CarDrivingController.tsx:318-328 | the summing loop returns the mean z, or 0 for an empty list |
| CarDriving.SumZBounds | src/components/CarDrivingController.tsx:318-328 | depths within [lo, hi] sum to between n·lo and n·hi |
| CarDriving.AverageZBounds | src/components/CarDrivingController.tsx:318-328 | the mean of depths within [lo, hi] lies in [lo, hi] |
| CarDriving.SteeringFor | src/components/CarDrivingController.tsx:250-298 | the percentage is in [-100, 100]; steering iff grabbing with a difference over 0.1 in size; 'right' and 'left' by its sign with a matching sign of the percentage; otherwise 'center' and 0 |
| CarDriving.NextWheel | src/components/CarDrivingController.tsx:207-223 | intended: the latch follows the grab; start values are captured only on the rising edge |
| CarDriving.HeldGrabKeepsStart | src/components/CarDrivingController.tsx:207-223 | intended: a held grab keeps the captured start values however the hands move |
| CarDriving.AnalyzeGestures | src/components/CarDrivingController.tsx:157-316 | intended, with the current latch and calibrated depth: a missing hand gives the neutral state; the wheel is grabbed iff both fists are curled, the squared wrist distance is below the squared threshold and the mean depth is within 0.03 of the wheel depth; accelerate below 0.2 and brake above 0.4 only when not grabbing, never both; steering is measured from the latched start angle |
| CarDriving.AnalyzeGesturesAsWritten | src/components/CarDrivingController.tsx:157-316 | as written, with the frozen latch and depth: the grab is tested at depth 0.35 and steering is measured from angle 0 |
| CarDriving.FrozenLatchSteersFromZero | src/components/CarDrivingController.tsx:207-298 | a grab started at 0.5 and turned to 0.55 is centred as intended but steers right as written |
| CarDriving.KeysFor | src/components/CarDrivingController.tsx:857-871 | 'a' iff steering left, 'd' iff steering right, 'w' iff accelerating, 's' iff braking without accelerating; no keys when disabled |
| CarDriving.KeyCode | src/components/CarDrivingController.tsx:823-835 | a key's code is "Key" followed by the matching upper-case letter |
| CarDriving.StartCalibration | src/components/CarDrivingController.tsx:1054-1058 | starting goes to the min-depth step and stores nothing |
| CarDriving.SetPosition | src/components/CarDrivingController.tsx:1078-1098 | each step stores the current depth in its own field and moves to the next step; the last step ends calibration |
| CarDriving.CancelCalibration | src/components/CarDrivingController.tsx:1112-1118 | cancel returns to idle without storing anything |
| CarDriving.CalibrationCycle | src/components/CarDrivingController.tsx:1054-1118 | a full run stores the three depths in order and ends idle |
| CarDriving.Decimal | src/components/CarDrivingController.tsx:931 | the default name's number is a non-empty run of digits |
| CarDriving.RecordCurrentPosition | src/components/CarDrivingController.tsx:921-941 | with both hands, one position with the typed or default name is appended and the field is cleared; a missing hand alerts; an empty list throws |
| CarDriving.FilterIndex | src/components/CarDrivingController.tsx:943-945 | the filter never lengthens the list |
| CarDriving.FilterIndexIsRemoval | src/components/CarDrivingController.tsx:943-945 | filtering by index removes exactly that entry, and a bad index keeps everything |
| CarDriving.DeletePositionRemovesOnlyIndex | src/components/CarDrivingController.tsx:943-945 | `deletePosition` removes only entry i and keeps the order; a bad index changes nothing |
| Eth3DLogo.IndexOf | src/components/Eth3DLogo.tsx:142 | `findIndex` returns the first diamond with that id, or none iff no diamond has it |
| Eth3DLogo.IndexOfUnique | src/components/Eth3DLogo.tsx:142 | with distinct ids, each diamond is found by its own id |
| Eth3DLogo.FirstNear | src/components/Eth3DLogo.tsx:160-170 | the first diamond within 0.5 in list order, or none iff no diamond is near |
| Eth3DLogo.FirstNearIsFirst | src/components/Eth3DLogo.tsx:160-170 | a near diamond with no near diamond before it is the one `find` returns |
| Eth3DLogo.OddIndexed | src/components/Eth3DLogo.tsx:1074-1077 | the odd-position survivors number half the list, rounded down |
| Eth3DLogo.DiamondStore.CreateDiamond | src/components/Eth3DLogo.tsx:104-138 | nothing before the model loads; then exactly one diamond is appended and the count follows the list |
| Eth3DLogo.DiamondStore.DeleteDiamond | src/components/Eth3DLogo.tsx:141-157 | an unknown id changes nothing; otherwise exactly that entry is removed and the others keep their order |
| Eth3DLogo.DiamondStore.CheckDiamondIntersection | src/components/Eth3DLogo.tsx:160-170 | returns the first diamond within 0.5, else null |
| Eth3DLogo.DiamondStore.ClearAll | src/components/Eth3DLogo.tsx:629-635 | deleting from a copy empties the list |
| Eth3DLogo.DiamondStore.ClearAllAsWritten | src/components/Eth3DLogo.tsx:1074-1077 | as written, forEach over the live list while splicing leaves exactly the odd-position diamonds |
| Eth3DLogo.ClearAllAsWrittenKeepsHalf | src/components/Eth3DLogo.tsx:1074-1077 | as written, "Clear All" on two diamonds leaves the second |
| Eth3DLogo.CalculateDepthScaling | src/components/Eth3DLogo.tsx:233-257 | an empty hand gives (0, 1); otherwise depthFactor is clamped to [-100, 100] and the scale maps it onto [0.3, 1.5] |
| Eth3DLogo.FingersClosed | src/components/Eth3DLogo.tsx:402-410 | the loop with break decides the fist test: no tip lies below its MCP |
| Eth3DLogo.ExtendedUpTo | src/components/Eth3DLogo.tsx:587-594 | the extended count of the first n fingers is at most n |
| Eth3DLogo.CountExtended | src/components/Eth3DLogo.tsx:587-594 | the counting loop returns the extended count, at most 4 |
| Eth3DLogo.AllExtendedIsFist | src/components/Eth3DLogo.tsx:402-594 | a hand with all four tips above their joints counts four extended fingers and is also taken for a fist |
| Eth3DLogo.KindOf | src/components/Eth3DLogo.tsx:415-446 | a pinch (below 0.05) is checked first; a fist is recognised only without a pinch |
| Eth3DLogo.SidePoints | src/components/Eth3DLogo.tsx:415-470 | a pinch sets the hand's pinch point and a fist keeps the prior one; without a hand there is no pinch point; the wrist is set iff the hand is present |
| Eth3DLogo.ActiveHand | src/components/Eth3DLogo.tsx:568-575 | diamonds are made only with exactly one hand in view, which is that hand |
| Eth3DLogo.NextGestureState | src/components/Eth3DLogo.tsx:360-621 | the frame copies the prior pinch, grab and rotate flags |
| Eth3DLogo.ThreeFingerCreatesOnce | src/components/Eth3DLogo.tsx:597-612 | intended: with the state threaded, three fingers held over two frames create one diamond |
| Eth3DLogo.StaleSelectionCreatesEveryFrame | src/components/Eth3DLogo.tsx:762-1017 | as written: the animation loop's first-render state makes a held three-finger hand create a diamond every frame |
| Eth3DLogo.NextPinch | src/components/Eth3DLogo.tsx:637-667 | the pinch holds iff some hand pinches and no hand is a fist; it sits at the midpoint of both pinches or at the one pinching hand; the previous point is kept while it holds and stays put when it ends |
| Eth3DLogo.PinchCounter | src/components/Eth3DLogo.tsx:429-442 | a duplication happens iff a pinch follows within 500 ms with a count of at least 1, and then resets the count |
| Eth3DLogo.DoublePinchUnreachable | src/components/Eth3DLogo.tsx:369-442 | with the counters reset on every call, the double-pinch duplication never fires |
| Eth3DLogo.Select | src/components/Eth3DLogo.tsx:568-621 | selection computes the next isSelecting; the list is unchanged or gains one diamond at the wrist when the frame creates one |
| Eth3DLogo.ProcessGestures | src/components/Eth3DLogo.tsx:356-672 | the frame's gesture state and pinch refs follow their functions; any fist empties the list; a top-right corner pinch duplicates the logo once |
| GestureRecorderPanel.InitialCommandsFresh | src/components/GestureRecorder.tsx:25-35 | nine commands with distinct ids, none recorded, active or triggered |
| GestureRecorderPanel.TotalDistance | src/components/GestureRecorder.tsx:122-133 | the summed point distance is non-negative |
| GestureRecorderPanel.Similarity | src/components/GestureRecorder.tsx:119-140 | similarity is in [0, 1], and 0 for a length mismatch or no points |
| GestureRecorderPanel.CalculateGestureSimilarity | src/components/GestureRecorder.tsx:119-140 | the accumulating loop computes the similarity |
| GestureRecorderPanel.TotalDistanceSelf | src/components/GestureRecorder.tsx:122-133 | a pose's distance to itself is 0 |
| GestureRecorderPanel.SelfSimilarityIsOne | src/components/GestureRecorder.tsx:119-140 | a non-empty pose compared with itself scores 1 |
| GestureRecorderPanel.AfterMatches | src/components/GestureRecorder.tsx:90-112 | exactly the firing commands get lastTriggered set to now; the rest are unchanged |
| GestureRecorderPanel.Retrigger | src/components/GestureRecorder.tsx:102-107 | the update touches only the commands with that id |
| GestureRecorderPanel.CheckGestureMatches | src/components/GestureRecorder.tsx:90-112 | a command triggers only when recorded, active, over 2000 ms past its last trigger and above 0.85 similarity; the stamped list and detected names follow |
| GestureRecorderPanel.StampedUpTo | src/components/GestureRecorder.tsx:96-108 | the queued updates keep the list's length |
| GestureRecorderPanel.StampStep | src/components/GestureRecorder.tsx:102-107 | one queued update stamps exactly its own command |
| GestureRecorderPanel.CooldownBlocksRetrigger | src/components/GestureRecorder.tsx:92-99 | a command that just fired cannot fire again within 2 seconds |
| GestureRecorderPanel.ToggleCommand | src/components/GestureRecorder.tsx:160-166 | isActive flips on the matching id only |
| GestureRecorderPanel.ToggleTwiceRestores | src/components/GestureRecorder.tsx:160-166 | toggling twice restores the list |
| GestureRecorderPanel.ClearGesture | src/components/GestureRecorder.tsx:168-174 | the matching id loses its recording and is deactivated; others are unchanged |
| GestureRecorderPanel.ClearedNeverFires | src/components/GestureRecorder.tsx:90-174 | a cleared command fires on no hand at any time |
| GestureRecorderPanel.Record | src/components/GestureRecorder.tsx:150-155 | the matching id gets a copy of the pose and becomes active; others are unchanged |
| GestureRecorderPanel.CaptureClicked | src/components/GestureRecorder.tsx:142-416 | while a recording is pending a click does nothing; otherwise the command becomes the target |
| GestureRecorderPanel.StopRecording | src/components/GestureRecorder.tsx:147-158 | with a target and a hand, the target stores the hand and is activated and recording ends; otherwise nothing changes |
| GestureRecorderPanel.HandsChanged | src/components/GestureRecorder.tsx:79-88 | a non-empty hand becomes the current hand and is matched against the commands; an empty one changes nothing |
| GestureRecorderPanel.OperationsKeepIds | src/components/GestureRecorder.tsx:102-174 | toggle, clear, record and trigger keep the ids distinct |
| GestureRecorderPanel.RecordedPoseMatchesItself | src/components/GestureRecorder.tsx:90-158 | a just-recorded pose, seen again after the cooldown, triggers its command |
| GestureRecorderScript.TrimStart | gesture-recorder.js:188 | leading whitespace is removed and the rest is a suffix |
| GestureRecorderScript.TrimEnd | gesture-recorder.js:188 | trailing whitespace is removed and the rest is a prefix |
| GestureRecorderScript.Trim | gesture-recorder.js:188 | a trimmed name neither starts nor ends with whitespace |
| GestureRecorderScript.TrimEmptyIffBlank | gesture-recorder.js:188-195 | the name is empty iff the field holds only whitespace |
| GestureRecorderScript.TrimIdempotent | gesture-recorder.js:188 | trimming twice is trimming once |
| GestureRecorderScript.Lower | gesture-recorder.js:202-207 | lower-casing keeps the length and maps each character |
| GestureRecorderScript.WithoutName | gesture-recorder.js:207 | filtering by name never lengthens the list |
| GestureRecorderScript.WithoutNameMembers | gesture-recorder.js:202-209 | exactly the gestures of another name, ignoring case, survive |
| GestureRecorderScript.WithoutId | gesture-recorder.js:288-295 | filtering by id never lengthens the list |
| GestureRecorderScript.WithoutIdMembers | gesture-recorder.js:288-295 | exactly the gestures with another id survive |
| GestureRecorderScript.WithoutIdAppend | gesture-recorder.js:288-295 | removal by id works piecewise, so the kept gestures stay in order |
| GestureRecorderScript.WithoutAbsentId | gesture-recorder.js:288-295 | an id no gesture has leaves the list unchanged |
| GestureRecorderScript.WithoutIdLowersTotal | gesture-recorder.js:288-353 | deleting never raises the sample total |
| GestureRecorderScript.TotalAtLeastCount | gesture-recorder.js:256-353 | with every saved gesture non-empty, the sample total is at least the gesture count |
| GestureRecorderScript.Recorder.CurrentStats | gesture-recorder.js:345-353 | totalGestures is the list length and the current samples are the recording length; in a valid recorder the sample total is at least the gesture count |
| GestureRecorderScript.Recorder.OnResults | gesture-recorder.js:161-185 | `lmResults` records whether a hand list came; the last hand of a non-empty list becomes `lm`, otherwise `lm` is kept |
| GestureRecorderScript.Recorder.CollectGestureData | gesture-recorder.js:237-254 | exactly one x/y/z sample is appended when a hand is present, else nothing |
| GestureRecorderScript.Recorder.Draw | gesture-recorder.js:44-51 | a sample is gathered only while recording with a hand in view |
| GestureRecorderScript.Recorder.StartRecording | gesture-recorder.js:187-216 | a blank name or no hand changes nothing; a declined clash changes nothing; an accepted clash drops every same-named gesture; a start empties the recording |
| GestureRecorderScript.Recorder.BeginRecording | gesture-recorder.js:205-216 | the accepted start drops the clashing gestures, takes the form fields and empties the recording |
| GestureRecorderScript.Recorder.StopRecording | gesture-recorder.js:225-234 | recording stops and its data is kept |
| GestureRecorderScript.Recorder.SaveGesture | gesture-recorder.js:256-286 | an empty recording is refused; otherwise one gesture with sampleCount equal to the recording length is appended and the recording is emptied |
| GestureRecorderScript.Recorder.DeleteGesture | gesture-recorder.js:288-295 | once confirmed, every gesture with that id goes and the rest keep their order |
| GestureRecorderScript.FindName | gesture-recorder.js:202 | the search finds a clash iff a saved gesture has that name, ignoring case |
| GestureRecorderScript.WithoutAbsentName | gesture-recorder.js:202-209 | with no clash, dropping the name keeps the list |
| GestureRecorderScript.WithoutNameCounted | gesture-recorder.js:207-353 | dropping by name keeps every gesture's sample count consistent |
| GestureRecorderScript.WithoutIdCounted | gesture-recorder.js:288-353 | dropping by id keeps every gesture's sample count consistent |
| Hand3DModel.SmoothedPoint | src/components/Hand3DModel.tsx:325-339 | output coordinates are clamped to x, y in [0, 1] and z in [-1, 1] |
| Hand3DModel.StillPointStaysPut | src/components/Hand3DModel.tsx:315-339 | a still point in range with no velocity stays put |
| Hand3DModel.VelocityDecaysWhenStill | src/components/Hand3DModel.tsx:315-323 | without movement each velocity component shrinks to 0.8 of itself |
| Hand3DModel.HandTrack.SmoothLandmarks | src/components/Hand3DModel.tsx:294-342 | an empty frame returns the previous one; a missing or mismatched previous frame zeroes the velocities and returns the frame; otherwise velocities update in place as 0.8·v + 0.2·Δ and points are clamped |
| Hand3DModel.HandTrack.Frame | src/components/Hand3DModel.tsx:74-82 | the frame smoothed at 0.25 becomes the stored previous frame: an empty frame keeps the old one; a first or resized frame is stored as is with zero velocities; otherwise each velocity and point follow `NextVelocity` and `SmoothedPoint` |
| Hand3DModel.HandScale | src/components/Hand3DModel.tsx:156-164 | the scale is in [0.5, 2] and is ten times the hand width when that is in [0.05, 0.2] |
| StableHandRenderer.Blend | src/components/StableHandRenderer.tsx:54-56 | the blend lies between the old and the current value, and equals the old one iff they agree |
| StableHandRenderer.BlendSelf | src/components/StableHandRenderer.tsx:49-57 | blending a value with itself keeps it |
| StableHandRenderer.BlendInto | src/components/StableHandRenderer.tsx:54-56 | one buffered object is blended towards the frame's object on each coordinate |
| StableHandRenderer.HandBuffer.Smooth | src/components/StableHandRenderer.tsx:46-63 | an absent or empty frame clears the buffer; the first frame is shared by a shallow copy; later frames blend in place, skipping indices either array lacks |
| StableHandRenderer.HandBuffer.SmoothSameFrameKeepsValues | src/components/StableHandRenderer.tsx:49-57 | feeding the array that filled the buffer again leaves every buffered value unchanged |
| StableHandRenderer.Draw | src/components/StableHandRenderer.tsx:46-81 | for buffers that share no object, each side is cleared by an absent frame, takes over its first frame, and otherwise blends each buffered object 0.7 old to 0.3 new in place |
| GLBHandRenderer.FingerBonesLayout | src/components/GLBHandRenderer.tsx:38-63 | 15 segments, three per finger, each joining consecutive landmarks below 21 |
| GLBHandRenderer.Smoothed | src/components/GLBHandRenderer.tsx:77-91 | the smoothed frame has the current frame's length |
| GLBHandRenderer.MixBetween | src/components/GLBHandRenderer.tsx:82-88 | with a factor in [0, 1], each mixed coordinate lies between the previous and current values |
| GLBHandRenderer.SmoothedStaysBetween | src/components/GLBHandRenderer.tsx:77-91 | without a previous frame the current one is returned; otherwise indices in both frames land between previous and current, and the rest are copied |
| GLBHandRenderer.SmoothLandmarks | src/components/GLBHandRenderer.tsx:77-91 | the loop over the spread copy computes the smoothed frame |
| GLBHandRenderer.BoneRotation | src/components/GLBHandRenderer.tsx:94-124 | a missing endpoint or a segment shorter than 0.001 gives the zero rotation; every rotation is about z only |
| GLBHandRenderer.PreviousFrames.UpdateHandModel | src/components/GLBHandRenderer.tsx:127-177 | an empty frame changes nothing; otherwise the smoothed frame is stored for that side only, and only bones below 15 with both landmarks present are turned |
| GLBHandRenderer.TurnBones | src/components/GLBHandRenderer.tsx:160-174 | the traversal turns each of the first fifteen bones whose landmarks exist and leaves the others |
| Spline3DScene.PinchStep | src/components/Spline3DScene.tsx:106-129 | an event iff pinching now or before; 'mousedown' iff a pinch starts, 'mouseup' iff it ends at the last tracked position, else a drag at the pinching hand |
| Spline3DScene.ProcessGestures | src/components/Spline3DScene.tsx:51-133 | nothing before the scene is loaded; a tracking 'mousemove' only after a move over 2 px; then the pinch event, from the left hand first; the state follows |
| Spline3DScene.CountAppend | src/components/Spline3DScene.tsx:106-129 | event counts add up over concatenated runs |
| Spline3DScene.PressesPairWithReleases | src/components/Spline3DScene.tsx:106-129 | over any run, presses minus releases equals the change in the pinch state |
| Spline3DScene.HeldPinchOnlyDrags | src/components/Spline3DScene.tsx:106-121 | a held pinch only drags: no second press before a release |
| Spline3DScene.ToMouseEvent | src/components/Spline3DScene.tsx:136-165 | client coordinates are relative to the viewer's box; `buttons` and `detail` are 1 only for 'mousedown'; the button is primary |
| ContentScript.StepKind | gesture-mouse-extension/content.js:185-203 | 'mousedown' iff a pinch starts, 'mouseup' iff it ends, otherwise 'mousemove'; never a click |
| ContentScript.SameMachineAsSplineScene | gesture-mouse-extension/content.js:185-203 | the extension runs the Spline scene's press/drag/release machine, and also moves the cursor when neither frame pinches |
| ContentScript.Field | gesture-mouse-extension/content.js:280-284 | a missing field reads as undefined |
| ContentScript.GestureMouseController.constructor | gesture-mouse-extension/content.js:3-15 | inactive, not pinching, at (0, 0), sensitivity 1 |
| ContentScript.GestureMouseController.Init | gesture-mouse-extension/content.js:156-157 | the controller becomes active only once the camera starts |
| ContentScript.GestureMouseController.Stop | gesture-mouse-extension/content.js:233-243 | stop makes the controller inactive |
| ContentScript.GestureMouseController.OnResults | gesture-mouse-extension/content.js:165-206 | inactive or handless frames do nothing; otherwise exactly one event at the screen-scaled wrist, pinching iff the 3-D distance is below 0.05 |
| ContentScript.GestureMouseController.SetSensitivityAsWritten | gesture-mouse-extension/content.js:280-284 | as written: the stored sensitivity is the request's `value` field |
| ContentScript.GestureMouseController.SetSensitivity | gesture-mouse-extension/content.js:280-284 | intended: the stored sensitivity is the `sensitivity` field the popup sends |
| ContentScript.SliderValueLost | gesture-mouse-extension/popup.js:69-76 | as written the popup's slider value always arrives as undefined |
| ContentScript.SliderValueArrives | gesture-mouse-extension/popup.js:69-76 | read from the `sensitivity` field, the slider's value arrives |
| ContentScript.Listener.OnMessage | gesture-mouse-extension/content.js:250-289 | 'start' creates and initialises a controller; 'stop' stops and drops it; 'setSensitivity' updates it through the intended read of the `sensitivity` field (as written it reads `value`, see the Findings); 'ping' reports whether it is active; anything else gets no answer |
| ContentScript.RunFrames | gesture-mouse-extension/content.js:165-206 | a run of `onResults` calls on an active controller sends exactly the press/drag/release/move kinds of its frames' pinch flags, and ends pinching iff the last frame pinches |
| ContentScript.PressesPairWithReleases | gesture-mouse-extension/content.js:185-203 | over any run, one event per frame and never a click; presses minus releases equal the change in the pinch state, so no release comes before its press |
| EventLog.Logged | src/app/mouse-test/page.tsx:22 | the new entry goes first, the older ones follow in order, and the log keeps at most 10 |
| EventLog.Reverse | src/app/test-driving/page.tsx:16 | reversal keeps the length and mirrors the positions |
| EventLog.LogAllIsNewestFirst | src/app/test-driving/page.tsx:16-22 | after any run of entries, the log is the last ten, newest first |
| EventLog.Log.Add | src/app/mouse-test/page.tsx:22 | adding an entry logs it |
| EventLog.Log.Clear | src/app/test-driving/page.tsx:157 | clearing empties the log |
| MouseTestPage.Listened | src/app/mouse-test/page.tsx:25-28 | exactly the four listened names map to their event types |
| MouseTestPage.HandleMouseEvent | src/app/mouse-test/page.tsx:14-28 | only the four listened types are logged, with their type, coordinates and time |
| MouseTestPage.JitterBounds | src/app/mouse-test/page.tsx:43-46 | a draw in [0, 1) moves a coordinate by at most 0.05 |
| MouseTestPage.MockHand | src/app/mouse-test/page.tsx:40-50 | 21 landmarks, gesture 'pointing', confidence 0.8, x and y within 0.05 of 0.5 and z within 0.05 of 0.3 |
| MouseTestPage.Tick | src/app/mouse-test/page.tsx:40-52 | a tick sets a full left hand and keeps the right hand |
| MouseTestPage.RunKeepsRight | src/app/mouse-test/page.tsx:52 | any number of ticks keeps the right hand |
| MouseTestPage.RightHandStaysAbsent | src/app/mouse-test/page.tsx:9-52 | the right hand is never set and stays null |
| TestDrivingPage.KeyDownEntry | src/app/test-driving/page.tsx:15 | the entry reads "Key Down: ", the key, " (", the code and ")" |
| TestDrivingPage.KeyUpEntry | src/app/test-driving/page.tsx:21 | the entry reads "Key Up: ", the key, " (", the code and ")" |
| TestDrivingPage.DownAndUpEntriesDiffer | src/app/test-driving/page.tsx:15-21 | a key-down entry never equals a key-up entry |
| TestDrivingPage.HandleKeyDown | src/app/test-driving/page.tsx:14-18 | the key-down entry goes in front of the log, which keeps ten |
| TestDrivingPage.HandleKeyUp | src/app/test-driving/page.tsx:20-24 | the key-up entry goes in front of the log, which keeps ten |
| TestDrivingPage.ClearLog | src/app/test-driving/page.tsx:157 | Clear Log empties the log |
| TestDrivingPage.MockLandmarks | src/app/test-driving/page.tsx:38-50 | 21 landmarks with x, y in [0.4, 0.6] and z in [0.05, 0.15] |
| TestDrivingPage.Shifted | src/app/test-driving/page.tsx:51-55 | each landmark is shifted by +0.1 in x, with y and z unchanged |
| TestDrivingPage.MockHands | src/app/test-driving/page.tsx:37-59 | two open hands with confidence 0.9 and 21 landmarks; the right one is the left one shifted +0.1 in x, so its x is in [0.5, 0.7] |

## Left out

- Rendering is not modelled: p5.js drawing, three.js scenes, GLTF loading,
  textures, the targets' pictures and the on-screen UI. Their calls have no
  output the model could check.
- Camera and MediaPipe setup is not modelled: script injection,
  `getUserMedia`, `requestAnimationFrame` loops and `setTimeout` waits. Only
  their outcomes enter, as booleans such as `cameraStarts` and `handsReady`.
- `https-server.py`, `server.js` and the extension plumbing (`popup.js`,
  `background.js`, `background-camera.js`, `camera-init.js`, `camera-stop.js`,
  `mediapipe-init.js`, `hands-check.js`, `debug-content.js`,
  `video-display.js`) are not part of this model. They are async I/O around
  foreign libraries. Only the message `popup.js` sends is modelled, as
  `SliderMessage`.
- `localStorage` persistence, `JSON.parse`, console logging and
  `alert`/`confirm` dialogs are left out. Dialog answers are boolean inputs.
- IEEE floating point is not modelled: coordinates are exact reals, and rounding
  is not checked.
- `Math.sqrt`, `Math.atan2`, `Math.sin`, `Math.cos`, `Math.random`,
  `Date.now()`, the window size and the viewer's bounding rectangle are
  parameters.
- Several handlers read the clock more than once; the model uses one `now`
  per call. This covers the driving test page's tick, the driving controller's
  `recordCurrentPosition` (CarDrivingController.tsx:931 and 934: the default
  name and `timestamp`) and the recorder script's `saveGesture`
  (gesture-recorder.js:263 and 269-270: the id and the ISO `createdAt` text,
  which is not modelled as a string).
- React scheduling is not modelled: effect re-runs and `setState` batching are
  absent, and each handler is one explicit state-in/state-out step. In
  `Spline3DScene.tsx` every run sets a fresh `lastHandPosition` object, so the
  effect runs again. The model covers one `processGestures` run.
- Spline3DPage.FirstClosureNeverStops: follows only the first effect's closure.
  Each increment of `loadingAttempt` also re-runs the loading effect, which
  starts one more attempt chain with the new captured value; those extra
  chains are not modelled.
- The Spline scene's script loading and the fallback dispatch paths of
  `simulateMouseEvent` are left out.
- The removal of detected command names after a `setTimeout` in
  `GestureRecorder.tsx` is left out.
- Null entries inside a landmark list are not modelled: MediaPipe never
  produces them, so every point counts as valid in the similarity.
- GLBHandRenderer.Smoothed: the source spreads an array into an object
  (`{...current}`), which has no `length`. The model takes the intended
  array.
- GLBHandRenderer.BoneRotation: `atan2` of the normalised direction is taken
  as `atan2` of the raw direction, because both arguments are divided by the
  same positive length.
- GestureRecorderScript.Trim: whitespace is ASCII only, and Lower only folds
  ASCII letters. JavaScript's `trim` and `toLowerCase` cover all of Unicode.
- StableHandRenderer.HandBuffer.Smooth: requires the landmark objects of a frame
  to be distinct, and a frame to share objects with the buffer only index for
  index. MediaPipe's results meet both; arbitrary aliasing is not covered.
- Hand3DModel.HandTrack.SmoothLandmarks: states the new velocities and points
  but not the class invariant. `Frame` restores the invariant and states it.
- Eth3DLogo.AllExtendedIsFist: the source's extended-finger count and fist
  test read y in opposite senses. A hand with four raised fingers is therefore
  also a fist, and the fist clears the diamonds. This is recorded as behaviour,
  not corrected, because the intended sense cannot be read from the code.
- Eth3DLogo.DoublePinchUnreachable: the double-pinch duplication can never
  fire, because its counters are locals reset on every call. The model keeps
  that behaviour.
- `detectDragging`, `getHandCenter`, `updateCamera` and the mouse-drag branch
  of the aim controller are not modelled. They feed only rendering and camera
  panning.
- StableHandRenderer.Draw: requires the left buffer to share no object with the
  right buffer or the right frame. On the home page a single unlabelled hand fills
  both slots with the same array, so both buffers take over the same objects and
  each is blended twice per frame (0.49 old to 0.51 new); that case is not modelled.
- AimController.CheckForHitsMarksAll: holds within one call. Every shot sets
  `lastShotTime`, a dependency of the sketch's effect, so the sketch is rebuilt and
  its `setup` calls `initializeTargets`, replacing the target state with eight fresh
  unhit targets, while the rebuilt sketch's `checkForHits` reads the target list
  captured at the rebuild. That rebuild cycle is not modelled.
- AimController.AnalyzeHandGestures: the aim `mousemove` dispatch and the
  `fistPercentage` and `handStability` fields of its result are not modelled; they
  feed only the pointer and the on-screen display.
- Fingers.FistLatch.DetectShooting: the source picks the left or right flag by
  array identity (`landmarks === leftHandLandmarks`); the model takes the side
  as a parameter. When one array fills both slots, the source updates the left
  flag for both calls. No page passes such hands to these controllers, so that
  case is not modelled.
- PointShoot's own `checkForHits` and `detectThumbMovement` are not modelled.
  They depend on random spread and are display-only.

## Findings

| source | as written | input that shows it | evidently intended | confidence | as-written member | corrected member |
|---|---|---|---|---|---|---|
| src/components/AimBackgroundController.tsx:1347-1376 | each hit copies the stale `targets` and marks only its own target, so the last `setTargets` wins | two unhit targets both in sight in one frame | every target hit in the frame is marked, matching the 20 points scored (the rebuild after each shot then replaces the target state, see Left out) | not executed | AimController.CheckForHitsAsWritten | AimController.CheckForHits |
| src/components/Eth3DLogo.tsx:1074-1077 | "Clear All" runs `forEach` over the live list while `deleteDiamond` splices it | two diamonds: the second survives | the list ends empty, as the fist path does by deleting from a copy (629-635) | not executed | Eth3DLogo.DiamondStore.ClearAllAsWritten | Eth3DLogo.DiamondStore.ClearAll |
| src/components/Eth3DLogo.tsx:762, 855, 1017 | the animation loop keeps the first-render `processGestures`, whose `gestureState.isSelecting` is always false | one hand holding three extended fingers for two frames | the three-finger selection creates one diamond until the gesture changes | not executed | Eth3DLogo.StaleSelectionCreatesEveryFrame | Eth3DLogo.ThreeFingerCreatesOnce |
| gesture-mouse-extension/content.js:280-284 | the handler stores `request.value`, while the popup sends the value as `sensitivity` (popup.js:69-76) | moving the popup's slider to any value | the controller stores the slider's value; `sensitivity` is read nowhere else in content.js, so the lost value has no visible effect today | not executed | ContentScript.GestureMouseController.SetSensitivityAsWritten | ContentScript.GestureMouseController.SetSensitivity |
| src/components/CarDrivingController.tsx:207-271 | the sketch's effect (dependencies at 809) leaves out `isWheelGrabbed`, `wheelGrabStartAngle` and `calibratedSteeringWheelDepth`, so every frame sees the values of the render that built the sketch: false, 0 and 0.35 from the first render until a listed dependency changes | a grab started at angle 0.5 and held while the wheel turns to 0.55 | the latch holds the grab's start angle, steering is measured from it, and the calibrated depth is used | not executed | CarDriving.AnalyzeGesturesAsWritten | CarDriving.AnalyzeGestures |
| src/app/spline-3d/page.tsx:57-64 | the catch path tests the `loadingAttempt` its closure captured, and `setTimeout` re-runs that same closure, so the first closure always sees 1 < 3 | every script load failing (offline): the counter goes 2, 3, 4, … and retries every 2 s without end | after the third attempt the page stops retrying and reports the failure | not executed | Spline3DPage.FirstClosureNeverStops | Spline3DPage.IntendedAttemptsStopAtThree |
| src/components/PointShootController.tsx:268-431 | the sketch's effect (dependencies at 1432) leaves out `gunState`, so every frame starts from the state of the render that built the sketch, the initial one until a listed dependency changes: recoil never builds up, the 100 ms cooldown never holds a shot back and the stored lastShotTime is never seen | two shots 50 ms apart | recoil reaches 0.6 and the second shot waits for the cooldown | not executed | PointShoot.AnalyzeGunGesturesAsWritten | PointShoot.AnalyzeGunGestures |
