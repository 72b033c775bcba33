/** The per-frame orchestration of src/hand_tracker.py: classify the hand,
    pick and smooth the fingertip, dispatch to the click handler, the cursor
    controller or the scroll controller by mode, and keep the mode history.
    The tracker owns the three stateful component objects; its own copies of
    the anchor, scroll and click fields are written only by the hand-lost reset. */
module RefactoredTracker {
  import opened Basics
  import opened Desktop
  import opened Gestures
  import opened Stability
  import opened Clicks
  import opened Scrolling
  import opened Cursor

  /** `detection_result`; the camera frame returned beside it is not modelled. */
  datatype DetectionResult = DetectionResult(
    modeDetected: bool, handLandmarks: Option<Hand>, gesture: Option<Mode>, currentMode: Mode)

  const NoDetection := DetectionResult(false, None, None, NoMode)

  /** Fields of the tracker itself that only `_reset_tracking_state` writes. */
  datatype ResetFields = ResetFields(
    initialPosition: Option<Point>, scrollInitialPos: Option<Point>,
    scrollSpeedMultiplier: real, scrollDirectionY: int,
    isClicking: bool, stabilityBuffer: seq<Point>)

  const InitialResetFields := ResetFields(None, None, 1.0, 0, false, [])

  /** The whole state `process_frame` reads or writes. `lastGesture` is `None`
      for the initial string "None"; `previousPosition` is `_previous_position`,
      absent until the first fingertip is found. */
  datatype TrackerState = TrackerState(
    currentMode: Mode, previousMode: Mode, lastGesture: Option<Mode>,
    previousPosition: Option<Point>, own: ResetFields,
    click: ClickState, scroll: ScrollState, cursor: CursorState)

  datatype FrameOutcome = FrameOutcome(state: TrackerState, result: DetectionResult, events: seq<Event>)

  /** `_reset_tracking_state` */
  function ResetTracking(t: TrackerState): (r: TrackerState)
    ensures r.own == InitialResetFields && r.currentMode == NoMode
    ensures r.click == t.click && r.scroll == t.scroll && r.cursor == t.cursor
    ensures r.previousMode == t.previousMode && r.lastGesture == t.lastGesture
    ensures r.previousPosition == t.previousPosition
  {
    t.(own := InitialResetFields, currentMode := NoMode)
  }

  /** The mode a present hand is classified as. */
  function Classify(h: Hand, atan2: Atan2Fn): Mode {
    DetectGestureMode(Some(h), atan2).value
  }

  /** What the components do with one smoothed fingertip: MODE_1 and MODE_3
      call the click handler and then the cursor controller, MODE_2 only the
      scroll controller, and any other mode none of them. */
  datatype DispatchOutcome = DispatchOutcome(click: ClickState, scroll: ScrollState, cursor: CursorState, events: seq<Event>)

  function Dispatch(t: TrackerState, hand: Option<Hand>, mode: Mode, smooth: Option<Point>,
                    now: real, osCursor: Point, screenWidth: nat, screenHeight: nat, exp: ExpFn): DispatchOutcome
    requires ValidCursor(t.cursor)
  {
    if mode == Mode1 || mode == Mode3 then
      var c := ClickStep(t.click, hand, mode);
      var m := CursorStep(t.cursor, smooth, mode, now, osCursor, screenWidth, screenHeight, exp);
      DispatchOutcome(c.state, t.scroll, m.state, c.events + m.events)
    else if mode == Mode2 then
      var s := ScrollStep(t.scroll, smooth, mode, now, ScrollCooldown, exp);
      DispatchOutcome(t.click, s.state, t.cursor, s.events)
    else DispatchOutcome(t.click, t.scroll, t.cursor, [])
  }

  /** One call of `process_frame` on a frame with at most one tracked hand, in
      the order of its statements; `now` stands for every clock reading of the
      frame and `osCursor` for `pyautogui.position()`. */
  function FrameStep(t: TrackerState, hand: Option<Hand>, frameWidth: nat, frameHeight: nat,
                     now: real, osCursor: Point, screenWidth: nat, screenHeight: nat,
                     atan2: Atan2Fn, exp: ExpFn): FrameOutcome
    requires ValidCursor(t.cursor)
  {
    if hand.None? then
      if IsActive(t.currentMode) then FrameOutcome(ResetTracking(t), NoDetection, [])
      else FrameOutcome(t, NoDetection, [])
    else
      var mode := Classify(hand.value, atan2);
      Track(t, hand.value, mode, FingerTipPosition(hand, frameWidth, frameHeight, mode),
            now, osCursor, screenWidth, screenHeight, exp)
  }

  /** The rest of one `process_frame` iteration once the hand `h` has been
      classified as `mode` with fingertip `tip`. */
  function Track(t: TrackerState, h: Hand, mode: Mode, tip: Option<Point>,
                 now: real, osCursor: Point, screenWidth: nat, screenHeight: nat, exp: ExpFn): FrameOutcome
    requires ValidCursor(t.cursor)
  {
    var result := if IsActive(mode) then DetectionResult(true, Some(h), Some(mode), mode) else NoDetection;
    var booked := t.(previousMode := t.currentMode, currentMode := mode, lastGesture := Some(mode));
    if tip.None? then FrameOutcome(booked, result, [])
    else
      var smooth := SmoothPosition(tip, t.previousPosition, SmoothingFactor);
      var d := Dispatch(t, Some(h), mode, smooth, now, osCursor, screenWidth, screenHeight, exp);
      FrameOutcome(booked.(previousPosition := smooth, click := d.click, scroll := d.scroll, cursor := d.cursor),
                   result, d.events)
  }

  predicate ValidTracker(t: TrackerState) {
    ValidCursor(t.cursor) && ValidClick(t.click) && ValidScroll(t.scroll)
  }

  lemma FrameStepKeepsValid(t: TrackerState, hand: Option<Hand>, frameWidth: nat, frameHeight: nat,
                            now: real, osCursor: Point, screenWidth: nat, screenHeight: nat,
                            atan2: Atan2Fn, exp: ExpFn)
    requires ValidTracker(t)
    ensures ValidTracker(FrameStep(t, hand, frameWidth, frameHeight, now, osCursor, screenWidth, screenHeight, atan2, exp).state)
  {
    if hand.Some? {
      var mode := Classify(hand.value, atan2);
      var tip := FingerTipPosition(hand, frameWidth, frameHeight, mode);
      if tip.Some? {
        var smooth := SmoothPosition(tip, t.previousPosition, SmoothingFactor);
        ClickStepsKeepValid(t.click, hand, mode);
        CursorStepKeepsValid(t.cursor, smooth, mode, now, osCursor, screenWidth, screenHeight, exp);
        ScrollStepKeepsValid(t.scroll, smooth, mode, now, ScrollCooldown, exp);
      }
    }
  }

  /** `mode_detected` holds exactly when a hand is present and classified as an
      active mode; then `gesture` and `current_mode` carry that mode. */
  lemma ModeDetectedIffActive(t: TrackerState, hand: Option<Hand>, frameWidth: nat, frameHeight: nat,
                              now: real, osCursor: Point, screenWidth: nat, screenHeight: nat,
                              atan2: Atan2Fn, exp: ExpFn)
    requires ValidCursor(t.cursor)
    ensures var r := FrameStep(t, hand, frameWidth, frameHeight, now, osCursor, screenWidth, screenHeight, atan2, exp).result;
      && (r.modeDetected <==> hand.Some? && IsActive(Classify(hand.value, atan2)))
      && (r.modeDetected ==> r == DetectionResult(true, hand, Some(Classify(hand.value, atan2)), Classify(hand.value, atan2)))
      && (!r.modeDetected ==> r == NoDetection)
  {
  }

  /** With a hand in view, `previous_mode` takes the old `current_mode`, and
      `current_mode` and `last_gesture` take the classified mode. */
  lemma ModeBookkeeping(t: TrackerState, h: Hand, frameWidth: nat, frameHeight: nat,
                        now: real, osCursor: Point, screenWidth: nat, screenHeight: nat,
                        atan2: Atan2Fn, exp: ExpFn)
    requires ValidCursor(t.cursor)
    ensures var s := FrameStep(t, Some(h), frameWidth, frameHeight, now, osCursor, screenWidth, screenHeight, atan2, exp).state;
      && s.previousMode == t.currentMode
      && s.currentMode == Classify(h, atan2)
      && s.lastGesture == Some(Classify(h, atan2))
      && s.own == t.own
  {
  }

  /** MODE_2 drives only the scroll controller: the cursor and click state are
      untouched and no move or click is injected. */
  lemma ScrollModeOnlyScrolls(t: TrackerState, h: Hand, frameWidth: nat, frameHeight: nat,
                              now: real, osCursor: Point, screenWidth: nat, screenHeight: nat,
                              atan2: Atan2Fn, exp: ExpFn)
    requires ValidCursor(t.cursor)
    requires Classify(h, atan2) == Mode2
    ensures var o := FrameStep(t, Some(h), frameWidth, frameHeight, now, osCursor, screenWidth, screenHeight, atan2, exp);
      && o.state.cursor == t.cursor && o.state.click == t.click
      && NoMoves(o.events) && NoClicks(o.events)
      && o.state.scroll == ScrollStep(t.scroll, o.state.previousPosition, Mode2, now, ScrollCooldown, exp).state
  {
    var tip := FingerTipPosition(Some(h), frameWidth, frameHeight, Mode2);
    var smooth := SmoothPosition(tip, t.previousPosition, SmoothingFactor);
    ScrollEmission(t.scroll, smooth, Mode2, now, ScrollCooldown, exp);
  }

  /** MODE_1 and MODE_3 drive the click handler and the cursor controller and
      leave the scroll state alone, so nothing is scrolled. */
  lemma PointerModesLeaveScroll(t: TrackerState, h: Hand, frameWidth: nat, frameHeight: nat,
                                now: real, osCursor: Point, screenWidth: nat, screenHeight: nat,
                                atan2: Atan2Fn, exp: ExpFn)
    requires ValidCursor(t.cursor)
    requires Classify(h, atan2) == Mode1 || Classify(h, atan2) == Mode3
    ensures var o := FrameStep(t, Some(h), frameWidth, frameHeight, now, osCursor, screenWidth, screenHeight, atan2, exp);
      var mode := Classify(h, atan2);
      var smooth := o.state.previousPosition;
      && o.state.scroll == t.scroll
      && o.state.click == ClickStep(t.click, Some(h), mode).state
      && o.state.cursor == CursorStep(t.cursor, smooth, mode, now, osCursor, screenWidth, screenHeight, exp).state
      && NoScrolls(o.events)
  {
    var mode := Classify(h, atan2);
    var tip := FingerTipPosition(Some(h), frameWidth, frameHeight, mode);
    var smooth := SmoothPosition(tip, t.previousPosition, SmoothingFactor);
    var c := ClickStep(t.click, Some(h), mode);
    var m := CursorStep(t.cursor, smooth, mode, now, osCursor, screenWidth, screenHeight, exp);
    assert c.events == [] || c.events == [Clicked];
    assert m.events == [] || m.events[0].Moved?;
  }

  /** The click handler only acts in MODE_1: a MODE_3 frame never clicks and
      leaves the click state as it was. */
  lemma PinkyModeNeverClicks(t: TrackerState, h: Hand, frameWidth: nat, frameHeight: nat,
                             now: real, osCursor: Point, screenWidth: nat, screenHeight: nat,
                             atan2: Atan2Fn, exp: ExpFn)
    requires ValidCursor(t.cursor)
    requires Classify(h, atan2) == Mode3
    ensures var o := FrameStep(t, Some(h), frameWidth, frameHeight, now, osCursor, screenWidth, screenHeight, atan2, exp);
      o.state.click == t.click && NoClicks(o.events)
  {
    var tip := FingerTipPosition(Some(h), frameWidth, frameHeight, Mode3);
    var smooth := SmoothPosition(tip, t.previousPosition, SmoothingFactor);
    var m := CursorStep(t.cursor, smooth, Mode3, now, osCursor, screenWidth, screenHeight, exp);
    assert m.events == [] || m.events[0].Moved?;
  }

  /** The scroll controller is only called in MODE_2, so `process_frame` never
      reaches its exit branch: once set, the scroll anchor survives every frame. */
  lemma ScrollAnchorNeverCleared(t: TrackerState, hand: Option<Hand>, frameWidth: nat, frameHeight: nat,
                                 now: real, osCursor: Point, screenWidth: nat, screenHeight: nat,
                                 atan2: Atan2Fn, exp: ExpFn)
    requires ValidCursor(t.cursor)
    requires t.scroll.initialPos.Some?
    ensures FrameStep(t, hand, frameWidth, frameHeight, now, osCursor, screenWidth, screenHeight, atan2, exp).state.scroll.initialPos
            == t.scroll.initialPos
  {
    if hand.Some? {
      var mode := Classify(hand.value, atan2);
      var tip := FingerTipPosition(hand, frameWidth, frameHeight, mode);
      var smooth := SmoothPosition(tip, t.previousPosition, SmoothingFactor);
      if tip.Some? && mode == Mode2 {
        AnchorPersists(t.scroll, smooth, now, ScrollCooldown, exp);
      }
    }
  }

  /** No hand: an active tracker resets only its own fields and its mode; the
      components keep their state and nothing is injected. */
  lemma HandLostResetsOwnFieldsOnly(t: TrackerState, frameWidth: nat, frameHeight: nat,
                                    now: real, osCursor: Point, screenWidth: nat, screenHeight: nat,
                                    atan2: Atan2Fn, exp: ExpFn)
    requires ValidCursor(t.cursor)
    ensures var o := FrameStep(t, None, frameWidth, frameHeight, now, osCursor, screenWidth, screenHeight, atan2, exp);
      && o.events == [] && o.result == NoDetection
      && o.state.click == t.click && o.state.scroll == t.scroll && o.state.cursor == t.cursor
      && (IsActive(t.currentMode) ==> o.state.own == InitialResetFields && o.state.currentMode == NoMode)
      && (!IsActive(t.currentMode) ==> o.state == t)
  {
  }

  /** The hand-lost reset never reaches the click handler: a pinch held when
      the hand disappears is still `is_clicking`, so a MODE_1 frame without a
      touch after the hand returns releases it and clicks. */
  lemma HeldPinchClicksAfterHandReturns(t: TrackerState, h: Hand, frameWidth: nat, frameHeight: nat,
                                        now: real, osCursor: Point, screenWidth: nat, screenHeight: nat,
                                        atan2: Atan2Fn, exp: ExpFn)
    requires ValidCursor(t.cursor) && IsActive(t.currentMode) && t.click.isClicking
    requires Classify(h, atan2) == Mode1 && !FingersTouching(Some(h))
    ensures var lost := FrameStep(t, None, frameWidth, frameHeight, now, osCursor, screenWidth, screenHeight, atan2, exp);
      var back := FrameStep(lost.state, Some(h), frameWidth, frameHeight, now, osCursor, screenWidth, screenHeight, atan2, exp);
      lost.events == [] && |back.events| > 0 && back.events[0] == Clicked
  {
    var lost := FrameStep(t, None, frameWidth, frameHeight, now, osCursor, screenWidth, screenHeight, atan2, exp);
    assert lost.state.click == t.click;
    var c := ClickStep(lost.state.click, Some(h), Mode1);
    assert c.action == SingleClick && c.events == [Clicked];
  }

  /** `_previous_position` is replaced by the smoothed fingertip exactly when a
      fingertip is found, and kept otherwise. */
  lemma PreviousPositionTracksFingertip(t: TrackerState, hand: Option<Hand>, frameWidth: nat, frameHeight: nat,
                                        now: real, osCursor: Point, screenWidth: nat, screenHeight: nat,
                                        atan2: Atan2Fn, exp: ExpFn)
    requires ValidCursor(t.cursor)
    ensures var s := FrameStep(t, hand, frameWidth, frameHeight, now, osCursor, screenWidth, screenHeight, atan2, exp).state;
      var tip := if hand.Some? then FingerTipPosition(hand, frameWidth, frameHeight, Classify(hand.value, atan2)) else None;
      && (tip.Some? ==> s.previousPosition == SmoothPosition(tip, t.previousPosition, SmoothingFactor)
                        && s.previousPosition.Some?)
      && (tip.None? ==> s.previousPosition == t.previousPosition)
  {
  }

  /** `HandTracker` (src/hand_tracker.py) with its three stateful components.
      The gesture detector, coordinate mapper and stability filter objects are
      used only through pure functions here and are not fields. */
  class HandTracker {
    const screenWidth: nat
    const screenHeight: nat
    const cursorController: CursorController
    const scrollController: ScrollController
    const clickHandler: ClickHandler

    var currentMode: Mode
    var previousMode: Mode
    var lastGesture: Option<Mode>
    var previousPosition: Option<Point>
    var initialPosition: Option<Point>
    var scrollInitialPos: Option<Point>
    var scrollSpeedMultiplier: real
    var scrollDirectionY: int
    var isClicking: bool
    var stabilityBuffer: seq<Point>

    function State(): TrackerState
      reads this, cursorController, scrollController, clickHandler
    {
      TrackerState(currentMode, previousMode, lastGesture, previousPosition,
                   ResetFields(initialPosition, scrollInitialPos, scrollSpeedMultiplier, scrollDirectionY,
                               isClicking, stabilityBuffer),
                   clickHandler.State(), scrollController.State(), cursorController.State())
    }

    ghost predicate Valid()
      reads this, cursorController, scrollController, clickHandler
    {
      && cursorController.screenWidth == screenWidth
      && cursorController.screenHeight == screenHeight
      && ValidTracker(State())
    }

    /** `now` is the clock reading taken when the scroll controller is built. */
    constructor (screenWidth: nat, screenHeight: nat, now: real)
      ensures this.screenWidth == screenWidth && this.screenHeight == screenHeight
      ensures Valid()
      ensures State() == TrackerState(NoMode, NoMode, None, None, InitialResetFields,
                                      ClickState(false, 0), ScrollState(None, 1.0, 0, now),
                                      CursorState(None, None, None, 0.0))
    {
      this.screenWidth := screenWidth;
      this.screenHeight := screenHeight;
      cursorController := new CursorController(screenWidth, screenHeight);
      scrollController := new ScrollController(now);
      clickHandler := new ClickHandler();
      currentMode := NoMode;
      previousMode := NoMode;
      lastGesture := None;
      previousPosition := None;
      initialPosition := None;
      scrollInitialPos := None;
      scrollSpeedMultiplier := 1.0;
      scrollDirectionY := 0;
      isClicking := false;
      stabilityBuffer := [];
    }

    /** `_reset_tracking_state` */
    method ResetTrackingState()
      modifies this
      ensures State() == ResetTracking(old(State()))
    {
      initialPosition := None;
      scrollInitialPos := None;
      scrollSpeedMultiplier := 1.0;
      scrollDirectionY := 0;
      currentMode := NoMode;
      isClicking := false;
      stabilityBuffer := [];
    }

    /** The `if current_mode == ...` chain of `process_frame`. */
    method DispatchToComponents(hand: Option<Hand>, mode: Mode, smoothCamPos: Option<Point>, now: real,
                                osCursor: Point, exp: ExpFn, os: PointerApi)
      requires Valid()
      modifies cursorController, scrollController, clickHandler, os
      ensures var d := Dispatch(old(State()), hand, mode, smoothCamPos, now, osCursor, screenWidth, screenHeight, exp);
        && clickHandler.State() == d.click && scrollController.State() == d.scroll
        && cursorController.State() == d.cursor && os.log == old(os.log) + d.events
    {
      if mode == Mode1 {
        var clickAction := clickHandler.HandleClickDetection(hand, mode, os);
        var screen := cursorController.CalculateRelativePosition(smoothCamPos, mode, now, osCursor, exp, os);
      } else if mode == Mode2 {
        var scrollDelta := scrollController.HandleScrollControl(smoothCamPos, mode, now, exp, os);
      } else if mode == Mode3 {
        var clickAction := clickHandler.HandleClickDetection(hand, mode, os);
        var screen := cursorController.CalculateRelativePosition(smoothCamPos, mode, now, osCursor, exp, os);
      }
    }

    /** `process_frame`, given the hand the landmark detector reports (if any)
        and the frame size. */
    method ProcessFrame(hand: Option<Hand>, frameWidth: nat, frameHeight: nat, now: real, osCursor: Point,
                        atan2: Atan2Fn, exp: ExpFn, os: PointerApi) returns (result: DetectionResult)
      requires Valid()
      modifies this, cursorController, scrollController, clickHandler, os
      ensures Valid()
      ensures var o := FrameStep(old(State()), hand, frameWidth, frameHeight, now, osCursor,
                                 screenWidth, screenHeight, atan2, exp);
        State() == o.state && result == o.result && os.log == old(os.log) + o.events
    {
      FrameStepKeepsValid(State(), hand, frameWidth, frameHeight, now, osCursor, screenWidth, screenHeight, atan2, exp);
      if hand.None? {
        result := NoDetection;
        if IsActive(currentMode) {
          ResetTrackingState();
        }
      } else {
        result := TrackHand(hand.value, frameWidth, frameHeight, now, osCursor, atan2, exp, os);
      }
    }

    /** The body of the loop over the detected hands in `process_frame`. */
    method TrackHand(h: Hand, frameWidth: nat, frameHeight: nat, now: real, osCursor: Point,
                     atan2: Atan2Fn, exp: ExpFn, os: PointerApi) returns (result: DetectionResult)
      requires Valid()
      modifies this, cursorController, scrollController, clickHandler, os
      ensures var o := FrameStep(old(State()), Some(h), frameWidth, frameHeight, now, osCursor,
                                 screenWidth, screenHeight, atan2, exp);
        State() == o.state && result == o.result && os.log == old(os.log) + o.events
    {
      var hand := Some(h);
      var mode := DetectGestureMode(hand, atan2).value;
      var camPos := FingerTipPosition(hand, frameWidth, frameHeight, mode);
      result := TrackTip(h, mode, camPos, now, osCursor, exp, os);
    }

    /** `process_frame` from the classified mode `mode` and fingertip `camPos` on. */
    method TrackTip(h: Hand, mode: Mode, camPos: Option<Point>, now: real, osCursor: Point,
                    exp: ExpFn, os: PointerApi) returns (result: DetectionResult)
      requires Valid()
      modifies this, cursorController, scrollController, clickHandler, os
      ensures var o := Track(old(State()), h, mode, camPos, now, osCursor, screenWidth, screenHeight, exp);
        State() == o.state && result == o.result && os.log == old(os.log) + o.events
    {
      result := NoDetection;
      var previous := previousPosition;
      var hand := Some(h);
      if IsActive(mode) {
        result := DetectionResult(true, hand, Some(mode), mode);
      }
      if camPos.Some? {
        var smoothCamPos := SmoothPosition(camPos, previous, SmoothingFactor);
        previousPosition := smoothCamPos;
        DispatchToComponents(hand, mode, smoothCamPos, now, osCursor, exp, os);
      }
      previousMode := currentMode;
      currentMode := mode;
      lastGesture := Some(mode);
    }
  }
}
