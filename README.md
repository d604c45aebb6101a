# Breathing lotus — breath clock, easing and head anchor

A model of the logic core of a browser meditation aid. A 3D lotus opens and
closes its petals in time with a breathing rhythm and can follow the user's
head through the camera. The renderer, the face detector, the DOM and the
music are left out. What remains is modelled:

- **Breath clock** (`breath_clock.dfy`). This is the page's breathing state:
  `isBreathing`, `breathPhase`, `breathPhaseStartTime`, `cycleCount`,
  `selectedModeKey` and the pending `setTimeout`, plus the closure of the
  running sequence (its four steps and `currentStep`).
  - The transitions are functions on a `ClockState` value: `EnterPhase`
    (setBreathPhase), `RanStep` (runStep), `Started`
    (startBreathingSequence), `Stopped` (stopBreathingSequence), `Fired` (the
    timeout callback), `Toggled` (the play/pause button) and `ModeChanged`
    (a mode button).
  - The class `Clock` holds the same state in fields. Its methods
    `SetBreathPhase`, `RunStep`, `StartSequence`, `Stop`, `Fire`, `Toggle`
    and `ChangeMode` update the fields in place and are proved to perform
    exactly those transitions.
  - The pending timeout is explicit: `pending` plus the time `deadline` at
    which it is due. The invariant `ValidClock` holds in the initial state.
    `Started`, `Stopped`, `Fired`, `Toggled` and `ModeChanged` preserve it.
    `EnterPhase` and `RanStep` are sub-steps of those transitions and can
    break it on their own. `EnterPhase` sets the phase before any timeout
    is scheduled. `RanStep` schedules a step of the stored sequence without
    checking that the selected key still names that mode.
- **Breathing configuration and labels** (`breathing.dfy`, `decimal.dfy`):
  - the `modes` table;
  - the sequence inhale, hold, exhale, rest (rest is 1000 ms);
  - the instruction label for each phase;
  - the pluralised cycle label, with the decimal rendering of the count and
    its inverse.
- **Easing** (`easing.dfy`): the duration the render loop picks for the
  current phase, the clamped progress, the quadratic ease-in-out, and the
  linear radius/height laws of the inhale and exhale branches. Real numbers
  stand in for JavaScript doubles.
- **Head anchor** (`anchor.dfy`), all over reals:
  - a detection box becomes its normalised centre;
  - the affine map `x = (nx - 0.5)·4`, `y = (0.5 - ny)·3 + 1.2`, `z = 0`;
  - the anchor then moves 0.2 of the way towards that point (`lerp`).
  
  A frame whose video time was already processed is skipped. A frame
  without a face clears `hasFace` and keeps the anchor. The pure step is
  `Tracked`. The class `AnchorTracker` holds `headAnchor`, `hasFace` and
  `lastVideoTime`, and its `PredictWebcam` is proved to perform `Tracked`.

Points of behaviour worth noting, as the code has them:

- Changing mode while breathing stops and restarts the sequence. It
  re-enters inhale but does **not** reset `cycleCount`:
  `startBreathingSequence` never touches the count.
- The play/pause button flips `isBreathing`. It is not a "start if not
  running" operation.
- `stopBreathingSequence` forces `idle` directly. It does not go through
  `setBreathPhase`, so the phase start time is not restamped. Every other
  phase entry restamps it.
- If the selected key names no mode, `startBreathingSequence` throws when
  it reads `mode.inhale`, and the handler stops there. `Started` then
  leaves the state unchanged.

The functions that the lemmas below are about, with the source lines each
one models:

- `Breathing.Modes`: index.js:49-53.
- `Breathing.Sequence`: index.js:101-106.
- `Breathing.NextPhase`: index.js:101-124, the order in which `runStep` walks the steps.
- `Breathing.InstructionText`: index.js:65-78.
- `Breathing.CycleText`: index.js:83-87.
- `Decimal.NatToString`: the `${cycleCount}` at index.js:84.
- `Easing.RenderDurationMs`: index.js:341-350.
- `Easing.Progress`: index.js:352.
- `Easing.Eased`: index.js:354-357.
- `Easing.InhaleRadius`, `Easing.InhaleHeight`: index.js:368-369.
- `Easing.ExhaleRadius`, `Easing.ExhaleHeight`: index.js:380-381.
- `Easing.HoldRadius`: index.js:395.
- `Anchor.CurrentAnchor`: index.js:362.
- `Anchor.NormalizedCenter`: index.js:524-528.
- `Anchor.ToWorld`: index.js:533-535.
- `Anchor.DetectionTarget`: index.js:518-536.
- `Anchor.Lerp`: `headAnchor.lerp(target, 0.2)` at index.js:538.
- `Anchor.Tracked`: index.js:509-555.

Times (`performance.now()`, the video's `currentTime`) are parameters of the
methods, and the face detector's answer for a frame is an input (`Frame`).

## Model

| member | source | states |
|---|---|---|
| `Decimal.NatToString` | index.js:84 | the rendered count is a canonical decimal numeral (digits only, no leading zero); a single digit exactly below ten |
| `Decimal.ParseOfNatToString` | index.js:84 | reading the numeral back gives the count |
| `Decimal.NatToStringOfParse` | index.js:84 | every canonical numeral is the rendering of its value |
| `Decimal.NatToStringInjective` | index.js:84 | different counts render differently |
| `Breathing.ModesTable` | index.js:49-53 | exactly the keys balance, calm and energize name a mode; every mode has positive durations; the initial key names a mode |
| `Breathing.SequenceShape` | index.js:101-106 | four steps starting with inhale, none idle, each of positive duration; step (i+1) mod 4 follows step i in the order inhale, hold, exhale, rest; only the last is rest; inhale/hold/exhale last the mode's seconds times 1000, rest 1000 ms |
| `Breathing.InstructionTextDistinct` | index.js:65-78 | two phases get the same label only if they are the same phase; idle reads "Ready to Begin" |
| `Breathing.CycleTextCases` | index.js:83-87 | the label is empty for 0, "1 cycle" for 1, the numeral followed by " cycles" otherwise |
| `Breathing.CycleTextInjective` | index.js:83-87 | the cycle label determines the count it shows |
| `Easing.RenderDurationPositive` | index.js:341-350 | the render loop's phase duration is positive; idle and rest use 1000 ms |
| `Easing.RenderDurationMatchesSequence` | index.js:341-350 | for each scheduled step the render loop's duration equals the step's timeout |
| `Easing.ProgressBounds` | index.js:352 | for elapsed >= 0 the progress is in [0,1], equals 1 exactly once the duration has elapsed, and before that is elapsed/duration |
| `Easing.ProgressMonotone` | index.js:352 | progress never decreases as elapsed time grows |
| `Easing.EasedFixedPoints` | index.js:354-357 | eased(0) = 0, eased(0.5) = 0.5, eased(1) = 1 |
| `Easing.EasedBounds` | index.js:354-357 | on [0,1] the ease stays in [0,1], and is below 0.5 exactly on the first half |
| `Easing.EasedStrictlyIncreasing` | index.js:354-357 | on [0,1] the ease is strictly increasing |
| `Easing.EasedMonotone` | index.js:354-357 | on [0,1] the ease is non-decreasing |
| `Easing.EasedSymmetric` | index.js:354-357 | eased(1 - p) = 1 - eased(p) |
| `Easing.EasedProgressMonotone` | index.js:352-357 | the eased progress of a frame is in [0,1] and never decreases as elapsed time grows |
| `Easing.RadiusHeightBounds` | index.js:368-381 | for eased in [0,1]: inhale radius and exhale radius in [0.3, 2.8], inhale height in [0, 2.5], exhale height in [0, 3] |
| `Easing.InhaleOpensExhaleCloses` | index.js:352-381 | over a phase, the inhale radius and height grow and the exhale radius and height shrink with elapsed time |
| `Easing.RadiiMeetAtBoundaries` | index.js:368-395 | the inhale law ends, and the exhale law starts, at the hold radius 2.8; the exhale law ends at 0.3, the value the inhale law starts from (rest, between them, has its own radius) |
| `BreathClock.InitialValid` | index.js:55-62 | the page starts not breathing, idle, with no timeout pending, and the invariant holds |
| `BreathClock.StartedValid` | index.js:98-128 | startBreathingSequence preserves the invariant from every valid state |
| `BreathClock.FiredValid` | index.js:116-124 | the timeout callback preserves the invariant |
| `BreathClock.StoppedValid` | index.js:131-136 | stopping preserves the invariant |
| `BreathClock.ToggledValid` | index.js:139-152 | the play/pause button preserves the invariant |
| `BreathClock.ModeChangedValid` | index.js:160-173 | a mode button preserves the invariant |
| `BreathClock.FireAdvancesCycle` | index.js:110-124 | a due timeout enters the next phase of inhale→hold→exhale→rest→inhale; the step becomes (step+1) mod 4; the start time is restamped; the next timeout is due one phase duration later; the count grows by 1 exactly when leaving rest; mode and sequence are kept |
| `BreathClock.StopCancelsTimeout` | index.js:110-136 | after stopping, the phase is idle, nothing is pending, and a timeout fired then changes nothing; a timeout while not breathing changes nothing |
| `BreathClock.ToggleOnStartsInhale` | index.js:139-146 | turning on enters inhale at step 0 with count 0, stamps the start time, and schedules the mode's inhale seconds times 1000 |
| `BreathClock.ToggleOnUnknownMode` | index.js:139-146 | turning on with an unknown mode key resets the count but stays idle with nothing scheduled |
| `BreathClock.ToggleOffKeepsCount` | index.js:147-151 | turning off shows idle, cancels the timeout, and keeps the count and the phase start time |
| `BreathClock.PauseResumeReentersInhale` | index.js:139-151 | pause then resume always re-enters inhale with count 0, whatever the phase was |
| `BreathClock.ModeChangeRestartsKeepsCount` | index.js:160-173 | a known mode chosen while running: inhale re-entered at step 0 with the new mode's sequence and inhale duration; cycle count unchanged |
| `BreathClock.ModeChangeWhilePaused` | index.js:161-169 | while paused, a mode button only records the key; an empty key changes nothing |
| `BreathClock.ScheduleMatchesRender` | index.js:113-124 | the pending timeout is due exactly one render-loop duration after the phase began, so the render progress is 1 when it fires |
| `BreathClock.FireAllCycles` | index.js:110-124 | after n timeouts from step s: step is (s+n) mod 4, the count grew by (s+n) div 4, the phase is that step's, the invariant holds, and the phase start is the last firing time |
| `BreathClock.CalmScenario` | index.js:98-128 | calm mode started at 0: hold from 4000 ms, exhale from 11000 ms, rest from 19000 ms, inhale again at 20000 ms with one cycle counted |
| `BreathClock.Clock.constructor` | index.js:55-62 | the fields hold the initial state and the invariant holds |
| `BreathClock.Clock.SetBreathPhase` | index.js:91-95 | sets the phase and stamps its start time; nothing else changes |
| `BreathClock.Clock.RunStep` | index.js:110-125 | unless paused, enters the current step's phase and schedules its timeout; otherwise changes nothing |
| `BreathClock.Clock.StartSequence` | index.js:98-128 | builds the selected mode's sequence and runs step 0; for an unknown key changes nothing |
| `BreathClock.Clock.Stop` | index.js:131-136 | cancels the timeout and forces idle, keeping everything else |
| `BreathClock.Clock.Fire` | index.js:116-124 | performs the timeout callback and keeps the invariant; with nothing pending, no field changes |
| `BreathClock.Clock.Toggle` | index.js:139-152 | performs the play/pause transition and keeps the invariant |
| `BreathClock.Clock.ChangeMode` | index.js:160-173 | performs the mode-button transition and keeps the invariant |
| `Anchor.LerpStep` | index.js:538 | one detection leaves exactly 0.8 of the vector offset to the target (0.64 of the squared distance), and no coordinate passes the target |
| `Anchor.LerpNeverSnaps` | index.js:538 | away from the target, one step never lands on it, and the summed coordinate distance shrinks to exactly 0.8 of itself |
| `Anchor.LerpNConverges` | index.js:538 | after n detections of one target the offset is 0.8^n of the first; unless the anchor started there, it never reaches the target |
| `Anchor.WorldRoundTrip` | index.js:533-535 | the normalised-to-world map and its inverse undo each other on the z = 0 plane |
| `Anchor.ToWorldShape` | index.js:533-535 | the frame maps into [-2,2] × [-0.3,2.7] at z = 0; its centre maps to (0, 1.2, 0); image right is world right (no mirroring); image up is world up |
| `Anchor.NormalizedCenterInFrame` | index.js:524-528 | a box inside the video has its normalised centre in [0,1] × [0,1] |
| `Anchor.TrackedCases` | index.js:509-555 | skipped frames change nothing; a processed frame records its time; a face sets hasFace and leaves 0.8 of the offset to the new target; no face clears hasFace and keeps the anchor; after a processed frame hasFace holds exactly when there was a detection, and a frame without one sends readers to the default point |
| `Anchor.NoFaceKeepsDefault` | index.js:362 | if no face is ever detected, hasFace stays false and the petals follow the default anchor (0, 1.5, 0) throughout |
| `Anchor.FixedTargetFollowsLerpN` | index.js:509-539 | fresh frames that all detect the same world point move the anchor along the n-step smoothing sequence towards it |
| `Anchor.AnchorTracker.constructor` | index.js:183-184 | the anchor starts at (0, 1.5, 0) with no face, and with last video time -1 (index.js:417) |
| `Anchor.AnchorTracker.PredictWebcam` | index.js:491-556 | performs one pass of the detection loop (`Tracked`); a frame that is not ready, or whose video time was already seen, changes nothing; after a processed frame hasFace holds exactly when there was a detection, and the anchor read by the render loop (index.js:362) is the default point without one and the old anchor moved 0.2 of the way to the detection's world point with one |

## Left out

- Three.js scene, camera, lights, petal and centre geometry, the `animate`
  loop and the slow group rotation: rendering only.
- The petal positions and rotations built with `cos`/`sin`, and the hold
  orbit angle and idle bobbing. These are trigonometric floating-point values.
  Only the linear radius and height laws and the hold radius are modelled.
- MediaPipe detector initialisation, `getUserMedia` and the camera button. These
  are foreign calls and asynchronous I/O. The `requestAnimationFrame`
  self-rescheduling of the detection loop is left out too. `PredictWebcam`
  models one pass, and the parameter `ready` stands for the video/detector
  readiness checks. The IMAGE→VIDEO running-mode switch is left out, as the
  loop always runs in VIDEO mode.
- The head occluder's position, scale and visibility: render-only state.
- Music: random track choice, volume fading with `setInterval`, and playback.
  These are randomness, timing and I/O.
- DOM updates, button labels and classes, and the settings toggle. Only the
  strings given to the instruction and cycle labels are modelled.
- `mirroredNx` is computed but never used, so no mirroring is modelled.
- JavaScript doubles are exact reals. Rounding, `NaN` and `Infinity` are not
  modelled.
- `cycleCount` is an unbounded nat. Number precision at 2^53 (where
  `cycleCount += 1` stops changing) is not modelled. Nor is the exponent
  notation `${n}` uses from 10^21 on. `NatToString` gives plain decimal for
  every n.
- `NormalizedCenter` and `DetectionTarget` require a positive video width
  and height. With a zero size the source would produce `Infinity`/`NaN`.
- Mode keys that name inherited object properties (such as `"toString"`)
  are treated like any other unknown key.
- A `data-mode` attribute that is missing is modelled as the empty string.
  Both are ignored by the handler.
