# Desktop gesture control, modelled in Dafny

The repository turns one tracked hand, seen by a webcam, into pointer actions:
cursor motion, clicks and vertical scrolling. Each camera frame goes through
the same pipeline. The hand's 21 landmarks are classified into a gesture mode:
MODE_1 (index finger: precise 1:1 cursor), MODE_2 (index and middle finger,
parallel: scrolling), MODE_3 (pinky: long-throw cursor with exponential gain)
or NONE. The fingertip that drives the mode is converted to camera pixels and
smoothed. The point is then dispatched to the click state machine, the scroll
engine or the relative cursor engine, which call `pyautogui`.

The pipeline exists twice, and both versions are modelled as written:

- `src/` is the refactored version. `HandTracker.process_frame` drives a
  `ClickHandler`, a `ScrollController` and a `CursorController`, plus the pure
  helpers `GestureDetector`, `StabilityFilter` and `CoordinateMapper`.
- `hand_tracker.py` is the monolithic version. One class holds every field,
  and its `run` loop does the dispatch.

They differ in four ways:

1. Leaving MODE_1 resets the monolith's click state.
2. The monolith's scroll cooldown is 0.02 s, and its first timestamp is 0.
3. The monolith's relative cursor stabilises each point, has no cooldown and
   no dead band, and compares against a `previous_mode` that lags one frame.
4. Losing the hand resets different state. The monolith's reset clears the
   live cursor anchor, the scroll anchor, speed and direction, `is_clicking`
   and the stability buffer. The src reset clears only the tracker's own copies
   of those fields, which the components never read. So the click handler's
   `is_clicking`, the scroll controller's anchor, and the cursor controller's
   anchors and `previous_mode` all survive. A pinch held when the hand is lost
   therefore clicks in src when the hand returns unpinched in MODE_1, and does
   not in the monolith.

Modules, one per component:

| module | file | models |
|---|---|---|
| `Basics` | basics.dfy | points, modes, landmarks; Python `int()` on floats; `max(lo, min(hi, v))`; `np.exp` and `math.atan2` as parameters known through their ranges |
| `Desktop` | desktop.dfy | the `pyautogui` move/click/scroll calls, recorded in a ghost event log |
| `Gestures` | gestures.dfy | `detect_gesture_mode`, `get_finger_tip_position`, `is_finger_extended` |
| `Stability` | stability.dfy | `smooth_position` and the FIFO `apply_stability_filter` |
| `Mapping` | mapping.dfy | `map_to_screen` and `map_to_screen_coordinates` |
| `Clicks` | clicks.dfy | `detect_finger_touch` and both `handle_click_detection` variants |
| `Scrolling` | scrolling.dfy | `handle_scroll_control` (cooldown as a parameter) |
| `Cursor` | cursor.dfy | `CursorController.calculate_relative_position` |
| `RefactoredTracker` | refactored_tracker.dfy | `process_frame` and `_reset_tracking_state` of src/hand_tracker.py |
| `MonolithicTracker` | monolithic_tracker.dfy | the click, scroll, relative-position and stability handlers of hand_tracker.py and one iteration of its `run` loop |

Every stateful component follows the same pattern:

- a state datatype;
- a pure step function that follows the source's branches;
- lemmas about that step function;
- a class with the source's fields, whose method carries out the step
  imperatively.

Each method ensures that its new fields, its return value and the appended
events equal what the step function gives for the old state.

External inputs become parameters:

- the clock (`time.time()`) becomes `now: real`;
- `pyautogui.position()` becomes `osCursor: Point`;
- the screen size becomes `screenWidth`/`screenHeight`;
- the detector's landmarks become an `Option<Hand>`.

Floating-point arithmetic is modelled as exact real arithmetic.
Square-root comparisons become comparisons of squares, which is exact for
non-negative distances. `DistanceExceedsIsSound` and `DistanceBelowIsSound`
prove this.

The model follows the code as written, including these points a reader might
not expect:

- Clicks fire only in MODE_1. MODE_3 calls the click handler, which returns
  "NONE" outside MODE_1. The src version leaves the click state untouched;
  the monolith resets it.
- Smoothing, the buffer mean and the scroll amount use `int()`, which
  truncates toward zero. They do not round.
- `map_to_screen` sends the bottom-right corner of the tracking area to
  exactly `(screen_width, screen_height)`, one pixel past the screen.
  `src/coordinate_mapper.py` has no guard against a degenerate rectangle.
  Only `map_to_screen_coordinates` returns `(0, 0)` for one.
- In src, losing the hand resets only the tracker's own fields, not the
  components' state. In src/hand_tracker.py, `_reset_tracking_state` never touches the
  component objects. In hand_tracker.py, the debounce counter survives.
- A frame classified NONE dispatches nothing and resets nothing. Only the
  mode bookkeeping runs.
- `previous_mode` is assigned only on frames with a hand.
- In src, the scroll controller is called only in MODE_2, so its exit-reset
  branch is unreachable from `process_frame`.

## Model

| member | source | states |
|---|---|---|
| Basics.Trunc | src/gesture_detector.py:67-68 | `int()` on a float truncates toward zero: the result is within 1 of the input, below it for non-negative inputs and above it for negative ones |
| Basics.TruncOfQuotient | src/stability_filter.py:40-51 | `int(a / n)` over exact reals equals integer division truncated toward zero |
| Basics.Clamp | src/coordinate_mapper.py:14-17 | `max(lo, min(hi, v))` lies in [lo, hi], is `v` inside it, `hi` above it and `lo` below it |
| Basics.ClampMonotone | src/coordinate_mapper.py:14-17 | clamping is monotone |
| Basics.DistanceExceedsIsSound | src/stability_filter.py:44-47 | `sqrt(d2) > t` holds iff the square-free test does |
| Basics.DistanceBelowIsSound | src/click_handler.py:25-32 | `sqrt(d2) < t` holds iff the square-free test does |
| Gestures.AngleDiff | src/gesture_detector.py:43-45 | the wrapped difference of two angles in [-pi, pi] lies in [0, pi], and equal angles give 0 |
| Gestures.AngleDiffExamples | src/gesture_detector.py:43-47 | 0 and 0.3 are parallel; 0 and pi - 0.1 are not; 3.0 and -3.0 are parallel across the wrap |
| Gestures.FingerAngleDiff | src/gesture_detector.py:31-45 | the index/middle direction difference lies in [0, pi] for any atan2 with range [-pi, pi] |
| Gestures.DetectGestureMode | src/gesture_detector.py:10-53 | no landmarks give None; otherwise the result is MODE_1, MODE_2 or MODE_3 iff that rule's finger pattern holds (MODE_2 also needs parallel fingers), independent of rule order; the same rules appear at hand_tracker.py:122-178 |
| Gestures.SpreadFingersGiveNone | src/gesture_detector.py:30-53 | index and middle extended but not parallel gives NONE, not MODE_3 |
| Gestures.RuleGuardsExclusive | src/gesture_detector.py:27-50 | the three rule guards are pairwise exclusive |
| Gestures.ToPixel | src/gesture_detector.py:67-68 | a normalized coordinate in [0, 1] becomes a pixel in [0, frame size] |
| Gestures.TipIndex | src/gesture_detector.py:60-65 | MODE_1 and MODE_2 use landmark 8; MODE_3 uses landmark 20 |
| Gestures.FingerTipPosition | src/gesture_detector.py:55-71 | a point exists iff landmarks are present and the mode is active, and it is the pixel position of the mode's fingertip; the same code is at hand_tracker.py:101-120 |
| Gestures.IsFingerExtended | src/gesture_detector.py:73-80 | one flag per zipped (tip, pip) pair, in order, each equal to tip.y < pip.y, with Python's negative indexing |
| Stability.SmoothPosition | src/stability_filter.py:9-21 | no previous point passes the current one through; a missing current point keeps the previous one; two points give a point |
| Stability.SmoothAxisBetween | src/stability_filter.py:18-19 | each smoothed axis lies between the two samples |
| Stability.SmoothPositionBetween | src/stability_filter.py:18-19 | for weights in [0, 1], both axes of the smoothed point lie between the current and previous samples; hand_tracker.py:460-472 is identical |
| Stability.SmoothPositionFixedPoint | src/stability_filter.py:18-21 | smoothing a point with itself returns it |
| Stability.Window | src/stability_filter.py:29-33 | the window is the last min(n, length) elements |
| Stability.PushIsWindow | src/stability_filter.py:29-33 | append followed by an over-size pop(0) is the last `size` elements of the extended buffer |
| Stability.WindowOfWindow | src/stability_filter.py:29-33 | windowing twice, with samples appended in between, equals windowing once |
| Stability.FeedKeepsMostRecent | src/stability_filter.py:23-33 | after any run of calls the buffer holds the most recent `size` samples in arrival order, skipping None inputs |
| Stability.FilterOutput | src/stability_filter.py:35-51 | a part-full buffer returns the sample; a full one returns the sample iff (n·cx-Σx)²+(n·cy-Σy)² > (n·threshold)², else the mean truncated toward zero |
| Stability.IntegerDistanceTest | src/stability_filter.py:40-47 | the real-valued "distance to the mean exceeds the threshold" test equals the integer test |
| Stability.ScaledDistance | src/stability_filter.py:44-47 | scaling the squared distance to the mean by n² preserves the comparison |
| Stability.SumOfCopies | src/stability_filter.py:40-41 | a buffer of copies of p sums to n·p on each axis |
| Stability.UniformBufferReturnsSample | src/stability_filter.py:40-51 | a buffer holding only the current sample returns that sample |
| Stability.RepeatedSampleIsReturned | src/stability_filter.py:23-51 | feeding the same point at least buffer_size times fills the buffer with it and returns it |
| Stability.PresentOfCopies | src/stability_filter.py:25-29 | a run of present copies contributes exactly those copies |
| Stability.StabilityFilter.constructor | src/stability_filter.py:4-7 | starts with an empty buffer and the given size and threshold |
| Stability.StabilityFilter.ApplyStabilityFilter | src/stability_filter.py:23-51 | None returns None and leaves the buffer alone; otherwise the buffer becomes the pushed buffer, which stays within its size, and the result is `FilterOutput` of it |
| Mapping.InsetArea | src/hand_tracker.py:52-58 | the inset rectangle is 2·margin narrower and shorter than the frame, and non-degenerate when the frame is wider and taller than 2·margin |
| Mapping.DefaultAreaIsInset | src/hand_tracker.py:49-58 | 640×480 with a 25 px margin gives (25, 615, 25, 455), which is non-degenerate |
| Mapping.ScaleAxisIsIntegerDivision | src/coordinate_mapper.py:20-27 | with exact division, one axis of the mapping is (clamped - lo)·extent / (hi - lo) |
| Mapping.ReversedAxisIsZero | src/coordinate_mapper.py:14-27 | a reversed rectangle clamps every input to its low edge and maps to 0 |
| Mapping.ScaleAxisEdges | src/coordinate_mapper.py:20-27 | the low edge maps to 0 and the high edge to the full extent |
| Mapping.ScaleAxisRange | src/coordinate_mapper.py:20-27 | every output lies in [0, extent] |
| Mapping.ScaleAxisMonotone | src/coordinate_mapper.py:14-27 | each axis is monotone, and inputs beyond an edge map like the edge |
| Mapping.MapToScreen | src/coordinate_mapper.py:11-29 | needs a non-zero width and height, because the source divides by them unguarded; on a non-degenerate area each axis is integer division of the clamped offset and lies within the screen |
| Mapping.MapToScreenCorners | src/coordinate_mapper.py:20-27 | (left, top) maps to (0, 0) and (right, bottom) to exactly (screen_width, screen_height) |
| Mapping.MapToScreenMonotone | src/coordinate_mapper.py:14-27 | both output axes are monotone in their inputs |
| Mapping.MapToScreenClamps | src/coordinate_mapper.py:14-17 | a point outside the rectangle maps like its clamped version |
| Mapping.MapToScreenCoordinates | src/cursor_controller.py:100-116 | a rectangle without positive width and height gives (0, 0); otherwise the result equals `map_to_screen`; it always lies within [0, screen size]; hand_tracker.py:398-419 is the same code |
| Clicks.FingersTouchingIsDistanceTest | src/click_handler.py:11-34 | the squared test equals "tip distance < 0.03, or joint distance < 0.036" |
| Clicks.Mode1ClickStep | src/click_handler.py:41-67 | TOUCH_START iff touching, not clicking and debounce ≤ 0 (debounce then 5); SINGLE_CLICK iff released while clicking, with exactly one click and no decrement; TOUCHING iff held; otherwise NONE; is_clicking afterwards iff TOUCH_START or TOUCHING |
| Clicks.ClickStep | src/click_handler.py:36-67 | outside MODE_1 the result is NONE with the state and the log unchanged; in MODE_1 it is the shared step on the touch test |
| Clicks.LegacyClickStep | hand_tracker.py:205-241 | outside MODE_1 is_clicking becomes false and the debounce 0; in MODE_1 it is the shared step |
| Clicks.ClickStepsKeepValid | src/click_handler.py:45-61 | the debounce counter stays in [0, 5] in both versions |
| Clicks.DebounceCountsDown | src/click_handler.py:59-61 | without a touch, the counter drops by one per frame down to 0 |
| Clicks.TouchStartNeedsRearm | src/click_handler.py:45-61 | in a MODE_1 run, no TOUCH_START comes before the pending debounce frames (plus a release frame if clicking) have passed |
| Clicks.NoRetriggerWithinDebounce | src/click_handler.py:45-61 | two TOUCH_STARTs in one MODE_1 run are at least 7 frames apart |
| Clicks.HoldingNeverClicks | src/click_handler.py:45-67 | a held pinch never clicks |
| Clicks.TouchAndReleaseClicksOnce | src/click_handler.py:45-57 | from rest, touch then release gives TOUCH_START, SINGLE_CLICK and exactly one click |
| Clicks.ClickHandler.constructor | src/click_handler.py:7-9 | starts not clicking with debounce 0 |
| Clicks.ClickHandler.HandleClickDetection | src/click_handler.py:36-67 | new state, return value and injected clicks are those of `ClickStep` |
| Scrolling.Direction | src/scroll_controller.py:47-54 | -1 iff delta > 20, +1 iff delta < -20, 0 iff within ±20 |
| Scrolling.SpeedMultiplier | src/scroll_controller.py:56-68 | exactly 5.0 in the dead zone; in [2.5, 50] outside it |
| Scrolling.ScrollAmount | src/scroll_controller.py:70-71 | 0 in the dead zone; otherwise 2 to 50 notches, against the hand's motion |
| Scrolling.ScrollStepKeepsValid | src/scroll_controller.py:14-84 | the multiplier stays in [1, 50] and the direction in {-1, 0, 1} |
| Scrolling.ExitResetsScroll | src/scroll_controller.py:17-22 | outside MODE_2 the anchor, speed and direction reset, the timestamp stays, nothing scrolls and the result is None |
| Scrolling.EntryAnchors | src/scroll_controller.py:30-34 | the first MODE_2 frame with a position anchors there, stamps the time, sets speed 1.0, returns (0, 0) and scrolls nothing |
| Scrolling.CooldownHoldsState | src/scroll_controller.py:39-41 | within the cooldown the state is unchanged, nothing scrolls and the last direction is returned |
| Scrolling.ScrollEmission | src/scroll_controller.py:43-79 | a scroll is injected iff MODE_2, anchored, past the cooldown and outside the dead zone; it is one event of 2 to 50 notches against the motion and stamps the time; a MODE_2 call that neither scrolls nor anchors keeps the timestamp |
| Scrolling.ScrollsAreSpaced | src/scroll_controller.py:39-79 | a scrolling call is at least the cooldown after the previous stamp, and a call within the cooldown after it cannot scroll |
| Scrolling.AnchorPersists | src/scroll_controller.py:30-84 | while MODE_2 lasts the anchor never moves, and a call past the cooldown returns (0, delta_y) from it |
| Scrolling.ScrollController.constructor | src/scroll_controller.py:8-12 | starts unanchored, with speed 1.0, direction 0 and the construction time |
| Scrolling.ScrollController.HandleScrollControl | src/scroll_controller.py:14-84 | new state, return value and scroll events are those of `ScrollStep` with the 0.05 s cooldown |
| Scrolling.ScrollController.ScrollBy | src/scroll_controller.py:43-79 | sets direction and multiplier from delta_y, scrolls `ScrollAmount` when it is non-zero and the direction is not 0, and stamps the time only when the direction is not 0 |
| Cursor.LongThrowMultiplier | src/cursor_controller.py:63-70 | the MODE_3 gain lies in [1, 15), and is 1 at zero offset |
| Cursor.GainBounds | src/cursor_controller.py:70-72 | `int(delta * m)` for a gain in [1, 15) keeps the sign and at least the magnitude of delta, and at most 15 times it |
| Cursor.ExponentialScale | src/cursor_controller.py:63-72 | 0 stays 0; otherwise the sign is kept and the magnitude grows by 1 to 15 times |
| Cursor.ScaledDelta | src/cursor_controller.py:57-80 | MODE_1 gives delta, MODE_2 gives 2·delta, MODE_3 gives `exponential_scale(delta)` |
| Cursor.CursorStepKeepsValid | src/cursor_controller.py:21-97 | the camera anchor and the cursor anchor are always set and cleared together |
| Cursor.InactiveModeClearsAnchors | src/cursor_controller.py:25-29 | an inactive mode clears both anchors, records the mode, returns None and moves nothing |
| Cursor.EntryAnchorsCursor | src/cursor_controller.py:32-39 | a mode change or missing anchor anchors the point and the OS cursor, records the mode, stamps the time, returns None and moves nothing |
| Cursor.SmallOrEarlyMovesIgnored | src/cursor_controller.py:42-51 | inside the cooldown, or with both offsets under 5 px, nothing changes and None is returned |
| Cursor.CursorStaysOnScreen | src/cursor_controller.py:82-86 | any returned position lies in [0, w-1] × [0, h-1], and any move goes to it |
| Cursor.MoveFrame | src/cursor_controller.py:53-97 | a move frame keeps the anchors, stamps the time and returns the anchored cursor plus the scaled offset, clamped; it moves the pointer iff the mode is not MODE_2 |
| Cursor.PrecisionModeIsOneToOne | src/cursor_controller.py:57-60 | away from the screen edges, MODE_1 puts the pointer at the anchored cursor plus the fingertip offset |
| Cursor.PrecisionMoveExample | src/cursor_controller.py:57-97 | anchored at (100, 100) with the cursor at (500, 500), a fingertip at (160, 100) moves the pointer to (560, 500) |
| Cursor.LongThrowReachesFarther | src/cursor_controller.py:57-75 | MODE_3 moves at least as far as MODE_1 and at most 15 times the offset, and gives 0 only for a 0 offset |
| Cursor.CursorController.constructor | src/cursor_controller.py:9-19 | starts without previous mode or anchors, with timestamp 0 |
| Cursor.CursorController.CalculateRelativePosition | src/cursor_controller.py:21-97 | new state, return value and pointer moves are those of `CursorStep`, and the anchors stay paired |
| Cursor.CursorController.MoveFromAnchor | src/cursor_controller.py:57-97 | returns the clamped scaled target, stamps the time, and moves the pointer there in MODE_1 and MODE_3 only |
| RefactoredTracker.ResetTracking | src/hand_tracker.py:355-363 | resets anchor, scroll anchor, speed 1.0, direction 0, is_clicking and buffer, and sets mode NONE; the components, previous_mode, last_gesture and `_previous_position` are unchanged |
| RefactoredTracker.FrameStepKeepsValid | src/hand_tracker.py:156-229 | a frame keeps every component's invariant |
| RefactoredTracker.ModeDetectedIffActive | src/hand_tracker.py:165-191 | `mode_detected` iff a hand is present and classified active, and then the result carries the hand and the mode; otherwise the result is the default |
| RefactoredTracker.ModeBookkeeping | src/hand_tracker.py:214-216 | with a hand, previous_mode takes the old current_mode, and current_mode and last_gesture take the classified mode |
| RefactoredTracker.ScrollModeOnlyScrolls | src/hand_tracker.py:205-207 | a MODE_2 frame leaves cursor and click state alone, injects no move or click, and steps the scroll controller on the smoothed point |
| RefactoredTracker.PointerModesLeaveScroll | src/hand_tracker.py:202-210 | MODE_1 and MODE_3 step the click handler and the cursor controller, leave the scroll state alone and inject no scroll |
| RefactoredTracker.PinkyModeNeverClicks | src/hand_tracker.py:208-210 | a MODE_3 frame never clicks and leaves the click state as it was |
| RefactoredTracker.ScrollAnchorNeverCleared | src/hand_tracker.py:202-212 | the scroll controller's exit reset is unreachable from `process_frame`: once set, its anchor survives every frame |
| RefactoredTracker.HandLostResetsOwnFieldsOnly | src/hand_tracker.py:221-224 | no hand while active resets only the tracker's own fields and its mode; the components are unchanged and nothing is injected; when inactive, nothing changes |
| RefactoredTracker.HeldPinchClicksAfterHandReturns | src/hand_tracker.py:202-224 | losing the hand while a pinch is held injects nothing; a following unpinched MODE_1 frame starts with a click, because the reset never reaches the click handler's `is_clicking` (src/click_handler.py:51-57) |
| RefactoredTracker.PreviousPositionTracksFingertip | src/hand_tracker.py:195-200 | `_previous_position` becomes the smoothed fingertip iff a fingertip is found, and is kept otherwise |
| RefactoredTracker.HandTracker.constructor | src/hand_tracker.py:17-108 | the tracking fields and the fresh components start in their initial states |
| RefactoredTracker.HandTracker.ResetTrackingState | src/hand_tracker.py:355-363 | the new state is `ResetTracking` of the old one |
| RefactoredTracker.HandTracker.DispatchToComponents | src/hand_tracker.py:202-212 | the components' new states and the injected events are those of the mode dispatch |
| RefactoredTracker.HandTracker.ProcessFrame | src/hand_tracker.py:156-229 | new state, detection result and injected events are those of `FrameStep`, and all invariants are kept |
| RefactoredTracker.HandTracker.TrackHand | src/hand_tracker.py:179-216 | the hand-present branch matches `FrameStep` |
| RefactoredTracker.HandTracker.TrackTip | src/hand_tracker.py:187-216 | result, `_previous_position`, dispatch and bookkeeping after classification match `Track` |
| MonolithicTracker.RelativeStepKeepsValid | hand_tracker.py:313-396 | the buffer stays within 5 points, and the click and scroll invariants are untouched |
| MonolithicTracker.RelativeReanchors | hand_tracker.py:323-338 | a mode change or missing anchor, in an active mode, anchors at the stabilised point and the OS cursor and returns the cursor without moving; in an inactive mode it clears the anchor; both empty the buffer |
| MonolithicTracker.RelativeMoves | hand_tracker.py:340-394 | with an anchor and the same mode, an active mode always returns the clamped scaled target (no cooldown, no dead band), keeps the anchor, pushes the point into the buffer, and moves the pointer iff the mode is not MODE_2 |
| MonolithicTracker.LegacyPrecisionIsOneToOne | hand_tracker.py:343-394 | away from the edges, MODE_1 moves the pointer to the anchored cursor plus the stabilised offset |
| MonolithicTracker.RunFrameKeepsValid | hand_tracker.py:550-715 | a loop iteration keeps the click, scroll and buffer invariants |
| MonolithicTracker.RunFrameBookkeeping | hand_tracker.py:588-590 | with a hand, after the handlers, previous_mode takes the old current_mode and current_mode the classified mode |
| MonolithicTracker.LegacyPinkyModeNeverClicks | hand_tracker.py:581-584 | a MODE_3 frame resets is_clicking and the debounce, and never clicks or scrolls |
| MonolithicTracker.LegacyHandLossCancelsHeldPinch | hand_tracker.py:705-715 | losing the hand clears `is_clicking`, so a following unpinched MODE_1 frame injects no click, whatever the click state before |
| MonolithicTracker.HandLostKeepsDebounce | hand_tracker.py:705-715 | losing the hand while active clears the anchor, the scroll state, is_clicking, the buffer and the mode, but keeps the debounce, previous_mode and the scroll timestamp |
| MonolithicTracker.SwitchAnchorsTwice | hand_tracker.py:572-590 | `previous_mode` lags behind `current_mode` (line 324 against 589-590): after switching to MODE_1, the second MODE_1 frame re-anchors without moving, and the third moves |
| MonolithicTracker.StaleAnchorReused | hand_tracker.py:572-590 | MODE_1, then one unclassified frame, then MODE_1 again reuses the old anchor and moves instead of re-anchoring |
| MonolithicTracker.LegacyHandTracker.constructor | hand_tracker.py:8-99 | mode NONE, no anchors, not clicking, debounce 0, no scroll anchor, speed 1.0, direction 0, timestamp 0, empty buffer, and the cursor position read at start |
| MonolithicTracker.LegacyHandTracker.ApplyStabilityFilter | hand_tracker.py:474-502 | None changes nothing; otherwise the buffer is pushed and the result is `Stabilized` of the old buffer |
| MonolithicTracker.LegacyHandTracker.HandleClickDetection | hand_tracker.py:205-241 | new click fields, return value and clicks are those of `LegacyClickStep`, and nothing else changes |
| MonolithicTracker.LegacyHandTracker.HandleScrollControl | hand_tracker.py:243-311 | new scroll fields, return value and scroll events are those of `ScrollStep` with the 0.02 s cooldown, and nothing else changes |
| MonolithicTracker.LegacyHandTracker.ScrollBy | hand_tracker.py:270-309 | direction, multiplier, scroll event and timestamp as in `Scrolling.ScrollController.ScrollBy`, and nothing else changes |
| MonolithicTracker.LegacyHandTracker.CalculateRelativePosition | hand_tracker.py:313-396 | new fields, return value and pointer moves are those of `RelativeStep` |
| MonolithicTracker.LegacyHandTracker.PositionFromStable | hand_tracker.py:323-396 | after the stability filter, the anchoring and move branches match `FromStable` |
| MonolithicTracker.LegacyHandTracker.MoveFromAnchor | hand_tracker.py:340-394 | returns the clamped scaled target from the anchors, and moves the pointer there in MODE_1 and MODE_3 only |
| MonolithicTracker.LegacyHandTracker.Dispatch | hand_tracker.py:572-586 | the state and events after the mode dispatch are those of `LegacyDispatch` |
| MonolithicTracker.LegacyHandTracker.RunFrame | hand_tracker.py:550-715 | one loop iteration matches `RunFrameStep`: the hand-lost reset, or classification, smoothing, dispatch and then the bookkeeping; invariants are kept |
| MonolithicTracker.LegacyHandTracker.TrackTip | hand_tracker.py:561-590 | smoothing, dispatch and bookkeeping after classification match `RunTrack` |

## Left out

- Camera capture, the landmark detector, OpenCV drawing and text, the tkinter GUI (`src/gui_interface.py`, `main_gui.py`, `src/ui_overlay.py`), FPS counting, key handling and sleeps: I/O and presentation. The landmarks of a frame are an input.
- Only one hand per frame is modelled. The detector is configured with `max_num_hands=1`, so the loop over `multi_hand_landmarks` runs at most once.
- Exceptions raised by `pyautogui` are not modelled. Every move, click and scroll is taken to succeed. In particular, a failing `pyautogui.scroll` would skip the `last_scroll_time` update, and the model always performs it.
- Floating-point rounding: all arithmetic is exact over reals. `np.exp` and `math.atan2` are known only through their ranges.
- Each handler call reads the clock once, as `now`. `calculate_relative_position` in src/cursor_controller.py calls `time.time()` twice, and both readings are `now`.
- Fields that no tracking logic reads are not modelled: the double-click, right-click and drag fields, `last_cursor_pos`, `drag_active`, the GUI knobs, and the unused `current_pos` argument of the click handlers.
- The `gesture_detector`, `coordinate_mapper` and `stability_filter` objects of src/hand_tracker.py are used as pure functions rather than fields. `process_frame` never calls the stability filter's `apply_stability_filter` or the mapper.
- Stability.StabilityFilter.constructor: requires a buffer size of at least 1. With 0, the source's first full-buffer call divides by zero.
- Gestures.IsFingerExtended: requires every zipped index in [-21, 21); the source raises IndexError otherwise. Nothing in the source calls `is_finger_extended`.
- Mapping.MapToScreen: requires a non-zero tracking width and height. The source divides by them without a guard.
- MonolithicTracker.LegacyHandTracker.CalculateRelativePosition: the `stable_pos is None` fallback is kept as written, though it cannot happen, because the filter returns a point for every present input.
- The camera-resolution update of `tracking_area` in `_init_camera` is covered only as `Mapping.InsetArea` over the frame size.
