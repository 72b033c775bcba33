/** The single-class tracker of hand_tracker.py. It holds every piece of state
    in its own fields and differs from the refactored components in four ways:
    leaving MODE_1 resets the click state; the scroll cooldown is 0.02 s and the
    first scroll timestamp is 0; the relative cursor passes each point through
    the stability filter, has no cooldown and no dead band, and compares the mode
    with `previous_mode`, which the run loop assigns only after the call; and
    losing the hand keeps the click debounce counter. */
module MonolithicTracker {
  import opened Basics
  import opened Desktop
  import opened Gestures
  import opened Stability
  import opened Clicks
  import opened Scrolling
  import opened Cursor

  /** `self.scroll_cooldown` of the monolithic tracker. */
  const LegacyScrollCooldown: real := 0.02

  /** Everything the run loop reads or writes. `previousPosition` is the loop's
      local `previous_position`, kept across iterations. */
  datatype LegacyState = LegacyState(
    currentMode: Mode, previousMode: Mode,
    initialPosition: Option<Point>, initialCursorPos: Point,
    click: ClickState, scroll: ScrollState,
    stabilityBuffer: seq<Point>, previousPosition: Option<Point>)

  predicate ValidLegacy(t: LegacyState) {
    ValidClick(t.click) && ValidScroll(t.scroll) && |t.stabilityBuffer| <= DefaultBufferSize
  }

  datatype RelativeOutcome = RelativeOutcome(state: LegacyState, result: Option<Point>, events: seq<Event>)

  /** The point `apply_stability_filter` returns for `p`, given the buffer before the call. */
  function Stabilized(buffer: seq<Point>, p: Point): Point {
    FilterOutput(Push(buffer, p, DefaultBufferSize), p, DefaultBufferSize, DefaultMovementThreshold)
  }

  /** One call of `calculate_relative_position`; `osCursor` is what
      `pyautogui.position()` would report. */
  function RelativeStep(t: LegacyState, pos: Option<Point>, mode: Mode, osCursor: Point,
                        screenWidth: nat, screenHeight: nat, exp: ExpFn): RelativeOutcome {
    if pos.None? then RelativeOutcome(t, None, [])
    else
      var filtered := t.(stabilityBuffer := Push(t.stabilityBuffer, pos.value, DefaultBufferSize));
      FromStable(filtered, Stabilized(t.stabilityBuffer, pos.value), mode, osCursor, screenWidth, screenHeight, exp)
  }

  /** The rest of `calculate_relative_position` once the stability filter has
      run: `t` already holds the updated buffer. */
  function FromStable(t: LegacyState, stable: Point, mode: Mode, osCursor: Point,
                      screenWidth: nat, screenHeight: nat, exp: ExpFn): RelativeOutcome {
    if mode != t.previousMode || t.initialPosition.None? then
      if IsActive(mode) then
        RelativeOutcome(t.(initialPosition := Some(stable), initialCursorPos := osCursor, stabilityBuffer := []),
                        Some(osCursor), [])
      else RelativeOutcome(t.(initialPosition := None, stabilityBuffer := []), None, [])
    else if IsActive(mode) then
      var anchor := t.initialPosition.value;
      var target := MoveTarget(t.initialCursorPos, stable.x - anchor.x, stable.y - anchor.y, mode,
                               screenWidth, screenHeight, exp);
      RelativeOutcome(t, Some(target), if mode == Mode1 || mode == Mode3 then [Moved(target)] else [])
    else RelativeOutcome(t, None, [])
  }

  lemma RelativeStepKeepsValid(t: LegacyState, pos: Option<Point>, mode: Mode, osCursor: Point,
                               screenWidth: nat, screenHeight: nat, exp: ExpFn)
    requires ValidLegacy(t)
    ensures ValidLegacy(RelativeStep(t, pos, mode, osCursor, screenWidth, screenHeight, exp).state)
  {
  }

  /** A mode different from `previous_mode`, or a missing anchor, re-anchors:
      in an active mode at the stabilised point and the OS cursor, which is
      returned without moving; otherwise the anchor is cleared. Either way the
      buffer is emptied. */
  lemma RelativeReanchors(t: LegacyState, p: Point, mode: Mode, osCursor: Point,
                          screenWidth: nat, screenHeight: nat, exp: ExpFn)
    requires mode != t.previousMode || t.initialPosition.None?
    ensures var o := RelativeStep(t, Some(p), mode, osCursor, screenWidth, screenHeight, exp);
      && o.events == [] && o.state.stabilityBuffer == []
      && (IsActive(mode) ==> o.result == Some(osCursor) && o.state.initialCursorPos == osCursor
                             && o.state.initialPosition == Some(Stabilized(t.stabilityBuffer, p)))
      && (!IsActive(mode) ==> o.result == None && o.state.initialPosition == None)
      && o.state.previousMode == t.previousMode && o.state.click == t.click && o.state.scroll == t.scroll
  {
  }

  /** With an anchor and the same mode as `previous_mode`, an active mode always
      reports the target (there is no cooldown and no dead band), and MODE_1
      and MODE_3 move the pointer there. */
  lemma RelativeMoves(t: LegacyState, p: Point, mode: Mode, osCursor: Point,
                      screenWidth: nat, screenHeight: nat, exp: ExpFn)
    requires mode == t.previousMode && t.initialPosition.Some? && IsActive(mode)
    ensures var o := RelativeStep(t, Some(p), mode, osCursor, screenWidth, screenHeight, exp);
      var anchor, stable := t.initialPosition.value, Stabilized(t.stabilityBuffer, p);
      var target := MoveTarget(t.initialCursorPos, stable.x - anchor.x, stable.y - anchor.y, mode,
                               screenWidth, screenHeight, exp);
      && o.result == Some(target)
      && o.events == (if mode == Mode2 then [] else [Moved(target)])
      && o.state.initialPosition == t.initialPosition
      && o.state.stabilityBuffer == Push(t.stabilityBuffer, p, DefaultBufferSize)
  {
  }

  /** In MODE_1 the pointer follows the stabilised fingertip one pixel per pixel,
      as long as the target stays on the screen. */
  lemma LegacyPrecisionIsOneToOne(t: LegacyState, p: Point, osCursor: Point,
                                  screenWidth: nat, screenHeight: nat, exp: ExpFn)
    requires t.previousMode == Mode1 && t.initialPosition.Some?
    requires var a, i, q := t.initialCursorPos, t.initialPosition.value, Stabilized(t.stabilityBuffer, p);
      0 <= a.x + (q.x - i.x) < screenWidth && 0 <= a.y + (q.y - i.y) < screenHeight
    ensures var a, i, q := t.initialCursorPos, t.initialPosition.value, Stabilized(t.stabilityBuffer, p);
      var target := Point(a.x + (q.x - i.x), a.y + (q.y - i.y));
      var o := RelativeStep(t, Some(p), Mode1, osCursor, screenWidth, screenHeight, exp);
      o.result == Some(target) && o.events == [Moved(target)]
  {
    var i, q := t.initialPosition.value, Stabilized(t.stabilityBuffer, p);
    TruncOfInt(q.x - i.x);
    TruncOfInt(q.y - i.y);
  }

  datatype LegacyOutcome = LegacyOutcome(state: LegacyState, events: seq<Event>)

  /** The `if current_mode == ...` chain of the run loop. */
  function LegacyDispatch(t: LegacyState, hand: Option<Hand>, mode: Mode, smooth: Option<Point>, now: real,
                          osCursor: Point, screenWidth: nat, screenHeight: nat, exp: ExpFn): LegacyOutcome {
    if mode == Mode1 || mode == Mode3 then
      var c := LegacyClickStep(t.click, hand, mode);
      var r := RelativeStep(t.(click := c.state), smooth, mode, osCursor, screenWidth, screenHeight, exp);
      LegacyOutcome(r.state, c.events + r.events)
    else if mode == Mode2 then
      var s := ScrollStep(t.scroll, smooth, mode, now, LegacyScrollCooldown, exp);
      LegacyOutcome(t.(scroll := s.state), s.events)
    else LegacyOutcome(t, [])
  }

  /** The state after the hand-lost reset of the run loop. */
  function HandLost(t: LegacyState): LegacyState {
    t.(initialPosition := None,
       scroll := t.scroll.(initialPos := None, speedMultiplier := 1.0, directionY := 0),
       currentMode := NoMode,
       click := t.click.(isClicking := false),
       stabilityBuffer := [])
  }

  /** One iteration of the run loop on a frame with at most one tracked hand. */
  function RunFrameStep(t: LegacyState, hand: Option<Hand>, frameWidth: nat, frameHeight: nat, now: real,
                        osCursor: Point, screenWidth: nat, screenHeight: nat,
                        atan2: Atan2Fn, exp: ExpFn): LegacyOutcome {
    if hand.None? then
      if IsActive(t.currentMode) then LegacyOutcome(HandLost(t), []) else LegacyOutcome(t, [])
    else
      var mode := DetectGestureMode(hand, atan2).value;
      RunTrack(t, hand.value, mode, FingerTipPosition(hand, frameWidth, frameHeight, mode),
               now, osCursor, screenWidth, screenHeight, exp)
  }

  /** The rest of one run-loop iteration once the hand `h` has been classified
      as `mode` with fingertip `tip`. */
  function RunTrack(t: LegacyState, h: Hand, mode: Mode, tip: Option<Point>, now: real,
                    osCursor: Point, screenWidth: nat, screenHeight: nat, exp: ExpFn): LegacyOutcome {
    var d := if tip.None? then LegacyOutcome(t, [])
             else
               var smooth := SmoothPosition(tip, t.previousPosition, SmoothingFactor);
               LegacyDispatch(t.(previousPosition := smooth), Some(h), mode, smooth, now, osCursor,
                              screenWidth, screenHeight, exp);
    LegacyOutcome(d.state.(previousMode := t.currentMode, currentMode := mode), d.events)
  }

  lemma RunFrameKeepsValid(t: LegacyState, hand: Option<Hand>, frameWidth: nat, frameHeight: nat, now: real,
                           osCursor: Point, screenWidth: nat, screenHeight: nat, atan2: Atan2Fn, exp: ExpFn)
    requires ValidLegacy(t)
    ensures ValidLegacy(RunFrameStep(t, hand, frameWidth, frameHeight, now, osCursor, screenWidth, screenHeight, atan2, exp).state)
  {
    if hand.Some? {
      var mode := DetectGestureMode(hand, atan2).value;
      var tip := FingerTipPosition(hand, frameWidth, frameHeight, mode);
      if tip.Some? {
        var smooth := SmoothPosition(tip, t.previousPosition, SmoothingFactor);
        var c := LegacyClickStep(t.click, hand, mode);
        ClickStepsKeepValid(t.click, hand, mode);
        RelativeStepKeepsValid(t.(previousPosition := smooth, click := c.state), smooth, mode, osCursor,
                               screenWidth, screenHeight, exp);
        ScrollStepKeepsValid(t.scroll, smooth, mode, now, LegacyScrollCooldown, exp);
      }
    }
  }

  /** With a hand in view, `previous_mode` takes the old `current_mode` and
      `current_mode` the classified mode, after the handlers have run. */
  lemma RunFrameBookkeeping(t: LegacyState, h: Hand, frameWidth: nat, frameHeight: nat, now: real,
                            osCursor: Point, screenWidth: nat, screenHeight: nat, atan2: Atan2Fn, exp: ExpFn)
    ensures var s := RunFrameStep(t, Some(h), frameWidth, frameHeight, now, osCursor, screenWidth, screenHeight, atan2, exp).state;
      s.previousMode == t.currentMode && s.currentMode == DetectGestureMode(Some(h), atan2).value
  {
  }

  /** MODE_3 calls the click handler, which resets the click state outside
      MODE_1: a MODE_3 frame never clicks and always leaves `is_clicking` false
      and the debounce at 0. */
  lemma LegacyPinkyModeNeverClicks(t: LegacyState, h: Hand, frameWidth: nat, frameHeight: nat, now: real,
                                   osCursor: Point, screenWidth: nat, screenHeight: nat, atan2: Atan2Fn, exp: ExpFn)
    requires DetectGestureMode(Some(h), atan2) == Some(Mode3)
    ensures var o := RunFrameStep(t, Some(h), frameWidth, frameHeight, now, osCursor, screenWidth, screenHeight, atan2, exp);
      o.state.click == ClickState(false, 0) && NoClicks(o.events) && NoScrolls(o.events)
  {
    var tip := FingerTipPosition(Some(h), frameWidth, frameHeight, Mode3);
    var smooth := SmoothPosition(tip, t.previousPosition, SmoothingFactor);
    var r := RelativeStep(t.(previousPosition := smooth, click := ClickState(false, 0)), smooth, Mode3, osCursor,
                          screenWidth, screenHeight, exp);
    assert r.events == [] || r.events[0].Moved?;
  }

  /** Unlike the refactored tracker, the run loop's hand-lost reset clears
      `is_clicking`: a pinch held when the hand disappears never clicks when the
      hand returns unpinched in MODE_1. */
  lemma LegacyHandLossCancelsHeldPinch(t: LegacyState, h: Hand, frameWidth: nat, frameHeight: nat, now: real,
                                       osCursor: Point, screenWidth: nat, screenHeight: nat, atan2: Atan2Fn, exp: ExpFn)
    requires IsActive(t.currentMode)
    requires DetectGestureMode(Some(h), atan2) == Some(Mode1) && !FingersTouching(Some(h))
    ensures var lost := RunFrameStep(t, None, frameWidth, frameHeight, now, osCursor, screenWidth, screenHeight, atan2, exp);
      var back := RunFrameStep(lost.state, Some(h), frameWidth, frameHeight, now, osCursor, screenWidth, screenHeight, atan2, exp);
      lost.events == [] && NoClicks(back.events)
  {
    var lost := RunFrameStep(t, None, frameWidth, frameHeight, now, osCursor, screenWidth, screenHeight, atan2, exp);
    var u := lost.state;
    assert !u.click.isClicking;
    var c := LegacyClickStep(u.click, Some(h), Mode1);
    assert c.events == [];
  }

  /** Losing the hand while active clears the anchors, the scroll state,
      `is_clicking`, the buffer and the mode, but keeps the debounce counter,
      `previous_mode` and the scroll timestamp. */
  lemma HandLostKeepsDebounce(t: LegacyState, frameWidth: nat, frameHeight: nat, now: real,
                              osCursor: Point, screenWidth: nat, screenHeight: nat, atan2: Atan2Fn, exp: ExpFn)
    requires IsActive(t.currentMode)
    ensures var o := RunFrameStep(t, None, frameWidth, frameHeight, now, osCursor, screenWidth, screenHeight, atan2, exp);
      && o.events == []
      && o.state.click == ClickState(false, t.click.debounce)
      && o.state.scroll == ScrollState(None, 1.0, 0, t.scroll.lastScrollTime)
      && o.state.initialPosition == None && o.state.stabilityBuffer == []
      && o.state.currentMode == NoMode && o.state.previousMode == t.previousMode
  {
  }

  /** Because `previous_mode` lags one frame behind, the second MODE_1 frame
      after a switch to MODE_1 still compares against the mode before the
      switch: it re-anchors without moving, and the third frame moves. */
  lemma SwitchAnchorsTwice(t: LegacyState, h1: Hand, h2: Hand, h3: Hand, frameWidth: nat, frameHeight: nat,
                           now: real, c1: Point, c2: Point, c3: Point, screenWidth: nat, screenHeight: nat,
                           atan2: Atan2Fn, exp: ExpFn)
    requires t.currentMode != Mode1
    requires DetectGestureMode(Some(h1), atan2) == Some(Mode1)
    requires DetectGestureMode(Some(h2), atan2) == Some(Mode1)
    requires DetectGestureMode(Some(h3), atan2) == Some(Mode1)
    ensures var o1 := RunFrameStep(t, Some(h1), frameWidth, frameHeight, now, c1, screenWidth, screenHeight, atan2, exp);
      var o2 := RunFrameStep(o1.state, Some(h2), frameWidth, frameHeight, now, c2, screenWidth, screenHeight, atan2, exp);
      var o3 := RunFrameStep(o2.state, Some(h3), frameWidth, frameHeight, now, c3, screenWidth, screenHeight, atan2, exp);
      && NoMoves(o2.events) && o2.state.initialCursorPos == c2 && o2.state.stabilityBuffer == []
      && o2.state.previousMode == Mode1 && o2.state.currentMode == Mode1
      && |o3.events| > 0 && o3.events[|o3.events| - 1].Moved?
  {
    var o1 := RunFrameStep(t, Some(h1), frameWidth, frameHeight, now, c1, screenWidth, screenHeight, atan2, exp);
    var s1 := o1.state;
    assert s1.previousMode == t.currentMode && s1.currentMode == Mode1;
    var tip2 := FingerTipPosition(Some(h2), frameWidth, frameHeight, Mode1);
    var smooth2 := SmoothPosition(tip2, s1.previousPosition, SmoothingFactor);
    var k2 := LegacyClickStep(s1.click, Some(h2), Mode1);
    var u2 := s1.(previousPosition := smooth2, click := k2.state);
    RelativeReanchors(u2, smooth2.value, Mode1, c2, screenWidth, screenHeight, exp);
    assert k2.events == [] || k2.events == [Clicked];
    var o2 := RunFrameStep(s1, Some(h2), frameWidth, frameHeight, now, c2, screenWidth, screenHeight, atan2, exp);
    var s2 := o2.state;
    assert s2.initialPosition.Some?;
    var tip3 := FingerTipPosition(Some(h3), frameWidth, frameHeight, Mode1);
    var smooth3 := SmoothPosition(tip3, s2.previousPosition, SmoothingFactor);
    var k3 := LegacyClickStep(s2.click, Some(h3), Mode1);
    RelativeMoves(s2.(previousPosition := smooth3, click := k3.state), smooth3.value, Mode1, c3,
                  screenWidth, screenHeight, exp);
  }

  /** The lag also lets a stale anchor survive: after MODE_1, one frame of an
      unrecognised gesture and back to MODE_1, `previous_mode` is MODE_1 again,
      so the pointer moves relative to the old anchor instead of re-anchoring. */
  lemma StaleAnchorReused(t: LegacyState, h: Hand, frameWidth: nat, frameHeight: nat, now: real,
                          osCursor: Point, screenWidth: nat, screenHeight: nat, atan2: Atan2Fn, exp: ExpFn)
    requires t.previousMode == Mode1 && t.currentMode == NoMode && t.initialPosition.Some?
    requires DetectGestureMode(Some(h), atan2) == Some(Mode1)
    ensures var o := RunFrameStep(t, Some(h), frameWidth, frameHeight, now, osCursor, screenWidth, screenHeight, atan2, exp);
      && o.state.initialPosition == t.initialPosition
      && |o.events| > 0 && o.events[|o.events| - 1].Moved?
  {
    var tip := FingerTipPosition(Some(h), frameWidth, frameHeight, Mode1);
    var smooth := SmoothPosition(tip, t.previousPosition, SmoothingFactor);
    var k := LegacyClickStep(t.click, Some(h), Mode1);
    RelativeMoves(t.(previousPosition := smooth, click := k.state), smooth.value, Mode1, osCursor,
                  screenWidth, screenHeight, exp);
  }

  /** `HandTracker` of hand_tracker.py, reduced to the fields the tracking logic uses. */
  class LegacyHandTracker {
    const screenWidth: nat
    const screenHeight: nat
    var currentMode: Mode
    var previousMode: Mode
    var initialPosition: Option<Point>
    var initialCursorPos: Point
    var isClicking: bool
    var clickDebounce: int
    var scrollInitialPos: Option<Point>
    var scrollSpeedMultiplier: real
    var scrollDirectionY: int
    var lastScrollTime: real
    var stabilityBuffer: seq<Point>
    /** The run loop's local `previous_position`. */
    var previousPosition: Option<Point>

    function State(): LegacyState
      reads this
    {
      LegacyState(currentMode, previousMode, initialPosition, initialCursorPos,
                  ClickState(isClicking, clickDebounce),
                  ScrollPart(), stabilityBuffer, previousPosition)
    }

    ghost predicate Valid()
      reads this
    {
      ValidLegacy(State())
    }

    function ScrollPart(): ScrollState
      reads this
    {
      ScrollState(scrollInitialPos, scrollSpeedMultiplier, scrollDirectionY, lastScrollTime)
    }

    /** `osCursor` is the `pyautogui.position()` reading at construction. */
    constructor (screenWidth: nat, screenHeight: nat, osCursor: Point)
      ensures this.screenWidth == screenWidth && this.screenHeight == screenHeight
      ensures Valid()
      ensures State() == LegacyState(NoMode, NoMode, None, osCursor, ClickState(false, 0),
                                     ScrollState(None, 1.0, 0, 0.0), [], None)
    {
      this.screenWidth := screenWidth;
      this.screenHeight := screenHeight;
      currentMode := NoMode;
      previousMode := NoMode;
      initialPosition := None;
      initialCursorPos := osCursor;
      isClicking := false;
      clickDebounce := 0;
      scrollInitialPos := None;
      scrollSpeedMultiplier := 1.0;
      scrollDirectionY := 0;
      lastScrollTime := 0.0;
      stabilityBuffer := [];
      previousPosition := None;
    }

    /** `apply_stability_filter` over the tracker's own buffer. */
    method ApplyStabilityFilter(currentPos: Option<Point>) returns (r: Option<Point>)
      modifies this
      ensures currentPos.None? ==> r.None? && State() == old(State())
      ensures currentPos.Some? ==>
        && State() == old(State()).(stabilityBuffer := Push(old(stabilityBuffer), currentPos.value, DefaultBufferSize))
        && r == Some(Stabilized(old(stabilityBuffer), currentPos.value))
    {
      if currentPos.None? {
        return None;
      }
      var p := currentPos.value;
      stabilityBuffer := stabilityBuffer + [p];
      if |stabilityBuffer| > DefaultBufferSize {
        stabilityBuffer := stabilityBuffer[1..];
      }
      if |stabilityBuffer| < DefaultBufferSize {
        return Some(p);
      }
      var movement := MovementSq(stabilityBuffer, p);
      if DistanceExceeds(movement, DefaultMovementThreshold as real) {
        return Some(p);
      }
      return Some(MeanPoint(stabilityBuffer));
    }

    /** `handle_click_detection`; its `current_pos` argument is never read. */
    method HandleClickDetection(landmarks: Option<Hand>, mode: Mode, os: PointerApi) returns (action: ClickAction)
      modifies this, os
      ensures var o := LegacyClickStep(old(State()).click, landmarks, mode);
        State() == old(State()).(click := o.state) && action == o.action && os.log == old(os.log) + o.events
    {
      if mode != Mode1 {
        isClicking := false;
        clickDebounce := 0;
        return NoAction;
      }
      var fingersTouching := FingersTouching(landmarks);
      if fingersTouching && !isClicking && clickDebounce <= 0 {
        isClicking := true;
        clickDebounce := DebounceFrames;
        return TouchStart;
      } else if !fingersTouching && isClicking {
        os.Click();
        isClicking := false;
        return SingleClick;
      }
      if clickDebounce > 0 {
        clickDebounce := clickDebounce - 1;
      }
      if isClicking {
        return Touching;
      } else {
        return NoAction;
      }
    }

    /** `handle_scroll_control`, with `now` the `time.time()` reading of the call. */
    method HandleScrollControl(currentCamPos: Option<Point>, mode: Mode, now: real, exp: ExpFn, os: PointerApi)
      returns (r: Option<Point>)
      modifies this, os
      ensures var o := ScrollStep(old(ScrollPart()), currentCamPos, mode, now, LegacyScrollCooldown, exp);
        ScrollPart() == o.state && r == o.result && os.log == old(os.log) + o.events
      ensures State() == old(State()).(scroll := ScrollPart())
    {
      if mode != Mode2 {
        scrollInitialPos := None;
        scrollSpeedMultiplier := 1.0;
        scrollDirectionY := 0;
        return None;
      }
      var currentTime := now;
      if scrollInitialPos.None? && currentCamPos.Some? {
        scrollInitialPos := currentCamPos;
        lastScrollTime := currentTime;
        scrollSpeedMultiplier := 1.0;
        return Some(Point(0, 0));
      }
      if currentCamPos.None? || scrollInitialPos.None? {
        return Some(Point(0, 0));
      }
      if currentTime - lastScrollTime < LegacyScrollCooldown {
        return Some(Point(0, scrollDirectionY));
      }
      var deltaY := currentCamPos.value.y - scrollInitialPos.value.y;
      ScrollBy(deltaY, currentTime, exp, os);
      return Some(Point(0, deltaY));
    }

    /** The part of `handle_scroll_control` past the cooldown check. */
    method ScrollBy(deltaY: int, currentTime: real, exp: ExpFn, os: PointerApi)
      modifies this, os
      ensures var direction := Direction(deltaY);
        && ScrollPart() == old(ScrollPart()).(speedMultiplier := SpeedMultiplier(deltaY, exp), directionY := direction,
                                             lastScrollTime := if direction != 0 then currentTime else old(lastScrollTime))
        && os.log == old(os.log) + (if direction != 0 && ScrollAmount(deltaY, exp) != 0
                                    then [Scrolled(ScrollAmount(deltaY, exp))] else [])
      ensures State() == old(State()).(scroll := ScrollPart())
    {
      if Abs(deltaY) > DirectionThreshold {
        scrollDirectionY := if deltaY > 0 then -1 else 1;
      } else {
        scrollDirectionY := 0;
      }
      scrollSpeedMultiplier := SpeedMultiplier(deltaY, exp);
      var scrollY := Trunc(scrollDirectionY as real * scrollSpeedMultiplier);
      if scrollDirectionY != 0 {
        if scrollY != 0 {
          os.Scroll(scrollY);
        }
        lastScrollTime := currentTime;
      }
    }

    /** `calculate_relative_position`; `osCursor` stands for `pyautogui.position()`. */
    method CalculateRelativePosition(currentCamPos: Option<Point>, mode: Mode, osCursor: Point, exp: ExpFn,
                                     os: PointerApi) returns (r: Option<Point>)
      modifies this, os
      ensures var o := RelativeStep(old(State()), currentCamPos, mode, osCursor, screenWidth, screenHeight, exp);
        State() == o.state && r == o.result && os.log == old(os.log) + o.events
    {
      if currentCamPos.None? {
        return None;
      }
      var stablePos := ApplyStabilityFilter(currentCamPos);
      if stablePos.None? {
        stablePos := currentCamPos;
      }
      r := PositionFromStable(stablePos.value, mode, osCursor, exp, os);
    }

    /** `calculate_relative_position` past the stability filter. */
    method PositionFromStable(stable: Point, mode: Mode, osCursor: Point, exp: ExpFn, os: PointerApi)
      returns (r: Option<Point>)
      modifies this, os
      ensures var o := FromStable(old(State()), stable, mode, osCursor, screenWidth, screenHeight, exp);
        State() == o.state && r == o.result && os.log == old(os.log) + o.events
    {
      if mode != previousMode || initialPosition.None? {
        if IsActive(mode) {
          initialPosition := Some(stable);
          initialCursorPos := osCursor;
          stabilityBuffer := [];
          return Some(initialCursorPos);
        } else {
          initialPosition := None;
          stabilityBuffer := [];
          return None;
        }
      }
      if !IsActive(mode) {
        return None;
      }
      r := MoveFromAnchor(stable, mode, exp, os);
    }

    /** The movement branch of `calculate_relative_position`. */
    method MoveFromAnchor(stable: Point, mode: Mode, exp: ExpFn, os: PointerApi) returns (r: Option<Point>)
      requires IsActive(mode) && initialPosition.Some?
      modifies os
      ensures var anchor := initialPosition.value;
        var target := MoveTarget(initialCursorPos, stable.x - anchor.x, stable.y - anchor.y, mode,
                                 screenWidth, screenHeight, exp);
        && r == Some(target)
        && os.log == old(os.log) + (if mode == Mode1 || mode == Mode3 then [Moved(target)] else [])
    {
      var deltaX := stable.x - initialPosition.value.x;
      var deltaY := stable.y - initialPosition.value.y;
      var scaledDeltaX, scaledDeltaY;
      if mode == Mode1 {
        scaledDeltaX := Trunc(deltaX as real * 1.0);
        scaledDeltaY := Trunc(deltaY as real * 1.0);
      } else if mode == Mode3 {
        scaledDeltaX := ExponentialScale(deltaX, exp);
        scaledDeltaY := ExponentialScale(deltaY, exp);
      } else {
        scaledDeltaX := Trunc(deltaX as real * 2.0);
        scaledDeltaY := Trunc(deltaY as real * 2.0);
      }
      assert scaledDeltaX == ScaledDelta(mode, deltaX, exp) && scaledDeltaY == ScaledDelta(mode, deltaY, exp);
      var newCursorX := initialCursorPos.x + scaledDeltaX;
      var newCursorY := initialCursorPos.y + scaledDeltaY;
      newCursorX := Max(0, Min(screenWidth - 1, newCursorX));
      newCursorY := Max(0, Min(screenHeight - 1, newCursorY));
      if mode == Mode1 || mode == Mode3 {
        os.MoveTo(Point(newCursorX, newCursorY));
      }
      return Some(Point(newCursorX, newCursorY));
    }

    /** The `if current_mode == ...` chain of the run loop. */
    method Dispatch(hand: Option<Hand>, mode: Mode, smoothCamPos: Option<Point>, now: real, osCursor: Point,
                    exp: ExpFn, os: PointerApi)
      modifies this, os
      ensures var o := LegacyDispatch(old(State()), hand, mode, smoothCamPos, now, osCursor,
                                      screenWidth, screenHeight, exp);
        State() == o.state && os.log == old(os.log) + o.events
    {
      if mode == Mode1 {
        var clickAction := HandleClickDetection(hand, mode, os);
        var screen := CalculateRelativePosition(smoothCamPos, mode, osCursor, exp, os);
      } else if mode == Mode2 {
        var scrollDelta := HandleScrollControl(smoothCamPos, mode, now, exp, os);
      } else if mode == Mode3 {
        var clickAction := HandleClickDetection(hand, mode, os);
        var screen := CalculateRelativePosition(smoothCamPos, mode, osCursor, exp, os);
      }
    }

    /** One iteration of `run`, given the hand the landmark detector reports
        (if any) and the frame size. */
    method RunFrame(hand: Option<Hand>, frameWidth: nat, frameHeight: nat, now: real, osCursor: Point,
                    atan2: Atan2Fn, exp: ExpFn, os: PointerApi)
      requires Valid()
      modifies this, os
      ensures Valid()
      ensures var o := RunFrameStep(old(State()), hand, frameWidth, frameHeight, now, osCursor,
                                    screenWidth, screenHeight, atan2, exp);
        State() == o.state && os.log == old(os.log) + o.events
    {
      RunFrameKeepsValid(State(), hand, frameWidth, frameHeight, now, osCursor, screenWidth, screenHeight, atan2, exp);
      if hand.None? {
        if IsActive(currentMode) {
          initialPosition := None;
          scrollInitialPos := None;
          scrollSpeedMultiplier := 1.0;
          scrollDirectionY := 0;
          currentMode := NoMode;
          isClicking := false;
          stabilityBuffer := [];
        }
        return;
      }
      var mode := DetectGestureMode(hand, atan2).value;
      var camPos := FingerTipPosition(hand, frameWidth, frameHeight, mode);
      TrackTip(hand.value, mode, camPos, now, osCursor, exp, os);
    }

    /** The run loop from the classified mode `mode` and fingertip `camPos` on. */
    method TrackTip(h: Hand, mode: Mode, camPos: Option<Point>, now: real, osCursor: Point,
                    exp: ExpFn, os: PointerApi)
      modifies this, os
      ensures var o := RunTrack(old(State()), h, mode, camPos, now, osCursor, screenWidth, screenHeight, exp);
        State() == o.state && os.log == old(os.log) + o.events
    {
      if camPos.Some? {
        var smoothCamPos := SmoothPosition(camPos, previousPosition, SmoothingFactor);
        previousPosition := smoothCamPos;
        Dispatch(Some(h), mode, smoothCamPos, now, osCursor, exp, os);
      }
      previousMode := currentMode;
      currentMode := mode;
    }
  }
}
