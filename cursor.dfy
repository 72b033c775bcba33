/** Relative pointer motion: on entering an active mode the camera point and the
    OS cursor are anchored together, and later frames move the cursor by the
    fingertip's offset from the anchor, 1:1 in MODE_1, doubled in MODE_2 (never
    applied) and with a saturating exponential gain in MODE_3
    (src/cursor_controller.py). */
module Cursor {
  import opened Basics
  import opened Desktop

  /** Minimum time between two pointer updates, in seconds. */
  const MoveCooldown: real := 0.05
  /** Offsets below this on both axes are ignored, in camera pixels. */
  const MoveThreshold: int := 5
  const BaseSensitivity: real := 1.0
  const ExpFactor: real := 0.015
  const MaxMultiplier: real := 15.0

  /** `base + (max - base) * (1 - exp(-0.015 * magnitude))`: 1 at rest, growing
      toward but never reaching 15. */
  function LongThrowMultiplier(magnitude: nat, exp: ExpFn): (m: real)
    ensures BaseSensitivity <= m < MaxMultiplier
    ensures magnitude == 0 ==> m == BaseSensitivity
  {
    var decay := exp(-ExpFactor * magnitude as real);
    assert 0.0 < decay <= 1.0;
    assert magnitude == 0 ==> decay == 1.0;
    BaseSensitivity + (MaxMultiplier - BaseSensitivity) * (1.0 - decay)
  }

  /** Bounds of `int(delta * m)` for a gain `m` in [1, 15). */
  lemma GainBounds(delta: int, m: real)
    requires 1.0 <= m < 15.0
    ensures delta > 0 ==> delta <= Trunc(delta as real * m) <= 15 * delta
    ensures delta < 0 ==> 15 * delta <= Trunc(delta as real * m) <= delta
  {
    var d := delta as real;
    if delta > 0 {
      MulNonneg(m - 1.0, d);
      MulNonneg(15.0 - m, d);
      assert (m - 1.0) * d == d * m - d;
      assert (15.0 - m) * d == 15.0 * d - d * m;
      assert d <= d * m <= 15.0 * d;
    } else if delta < 0 {
      MulNonneg(m - 1.0, -d);
      MulNonneg(15.0 - m, -d);
      assert (m - 1.0) * -d == d - d * m;
      assert (15.0 - m) * -d == d * m - 15.0 * d;
      assert 15.0 * d <= d * m <= d;
    }
  }

  /** `exponential_scale`: 0 stays 0, otherwise the sign is kept and the
      magnitude grows by a factor between 1 and 15. */
  function ExponentialScale(delta: int, exp: ExpFn): (r: int)
    ensures delta == 0 ==> r == 0
    ensures delta > 0 ==> delta <= r <= 15 * delta
    ensures delta < 0 ==> 15 * delta <= r <= delta
  {
    if delta != 0 then
      var multiplier := LongThrowMultiplier(Abs(delta), exp);
      GainBounds(delta, multiplier);
      Trunc(delta as real * multiplier)
    else 0
  }

  /** The gain of each mode: `int(delta * 1.0)`, `int(delta * 2.0)` or
      `exponential_scale(delta)`. */
  function ScaledDelta(mode: Mode, delta: int, exp: ExpFn): (r: int)
    requires IsActive(mode)
    ensures mode == Mode1 ==> r == delta
    ensures mode == Mode2 ==> r == 2 * delta
    ensures mode == Mode3 ==> r == ExponentialScale(delta, exp)
  {
    TruncOfInt(delta);
    TruncOfInt(2 * delta);
    if mode == Mode1 then Trunc(delta as real * 1.0)
    else if mode == Mode3 then ExponentialScale(delta, exp)
    else Trunc(delta as real * 2.0)
  }

  /** `previous_mode` is `None` until the first call; Python compares the mode
      string with it, so `None` differs from every mode. */
  datatype CursorState = CursorState(
    previousMode: Option<Mode>, initialPosition: Option<Point>, initialCursorPos: Option<Point>, lastMoveTime: real)

  /** The two anchors are set and cleared together. */
  predicate ValidCursor(s: CursorState) {
    s.initialPosition.Some? <==> s.initialCursorPos.Some?
  }

  datatype CursorOutcome = CursorOutcome(state: CursorState, result: Option<Point>, events: seq<Event>)

  /** `max(0, min(dim - 1, v))` */
  function ScreenClamp(dim: nat, v: int): int {
    Clamp(0, dim - 1, v)
  }

  /** The pointer target of a move: the anchored cursor plus the mode-scaled
      offset, clamped to the screen. */
  function MoveTarget(anchor: Point, deltaX: int, deltaY: int, mode: Mode,
                      screenWidth: nat, screenHeight: nat, exp: ExpFn): (q: Point)
    requires IsActive(mode)
  {
    Point(ScreenClamp(screenWidth, anchor.x + ScaledDelta(mode, deltaX, exp)),
          ScreenClamp(screenHeight, anchor.y + ScaledDelta(mode, deltaY, exp)))
  }

  /** One call of `calculate_relative_position` at time `now`, where `osCursor`
      is what `pyautogui.position()` would report. */
  function CursorStep(s: CursorState, pos: Option<Point>, mode: Mode, now: real, osCursor: Point,
                      screenWidth: nat, screenHeight: nat, exp: ExpFn): CursorOutcome
    requires ValidCursor(s)
  {
    if pos.None? then CursorOutcome(s, None, [])
    else if !IsActive(mode) then
      CursorOutcome(CursorState(Some(mode), None, None, s.lastMoveTime), None, [])
    else if s.previousMode != Some(mode) || s.initialPosition.None? then
      CursorOutcome(CursorState(Some(mode), pos, Some(osCursor), now), None, [])
    else if now - s.lastMoveTime < MoveCooldown then CursorOutcome(s, None, [])
    else
      var deltaX := pos.value.x - s.initialPosition.value.x;
      var deltaY := pos.value.y - s.initialPosition.value.y;
      if Abs(deltaX) < MoveThreshold && Abs(deltaY) < MoveThreshold then CursorOutcome(s, None, [])
      else
        var target := MoveTarget(s.initialCursorPos.value, deltaX, deltaY, mode, screenWidth, screenHeight, exp);
        var events := if mode == Mode1 || mode == Mode3 then [Moved(target)] else [];
        CursorOutcome(s.(lastMoveTime := now), Some(target), events)
  }

  lemma CursorStepKeepsValid(s: CursorState, pos: Option<Point>, mode: Mode, now: real, osCursor: Point,
                             screenWidth: nat, screenHeight: nat, exp: ExpFn)
    requires ValidCursor(s)
    ensures ValidCursor(CursorStep(s, pos, mode, now, osCursor, screenWidth, screenHeight, exp).state)
  {
  }

  /** An inactive mode clears both anchors and records the mode. */
  lemma InactiveModeClearsAnchors(s: CursorState, p: Point, mode: Mode, now: real, osCursor: Point,
                                  screenWidth: nat, screenHeight: nat, exp: ExpFn)
    requires ValidCursor(s) && !IsActive(mode)
    ensures CursorStep(s, Some(p), mode, now, osCursor, screenWidth, screenHeight, exp) ==
      CursorOutcome(CursorState(Some(mode), None, None, s.lastMoveTime), None, [])
  {
  }

  /** Entering an active mode anchors the fingertip to the OS cursor and moves
      nothing. */
  lemma EntryAnchorsCursor(s: CursorState, p: Point, mode: Mode, now: real, osCursor: Point,
                           screenWidth: nat, screenHeight: nat, exp: ExpFn)
    requires ValidCursor(s) && IsActive(mode)
    requires s.previousMode != Some(mode) || s.initialPosition.None?
    ensures CursorStep(s, Some(p), mode, now, osCursor, screenWidth, screenHeight, exp) ==
      CursorOutcome(CursorState(Some(mode), Some(p), Some(osCursor), now), None, [])
  {
  }

  /** Inside the cooldown, or for an offset under 5 px on both axes, nothing
      happens at all. */
  lemma SmallOrEarlyMovesIgnored(s: CursorState, p: Point, mode: Mode, now: real, osCursor: Point,
                                 screenWidth: nat, screenHeight: nat, exp: ExpFn)
    requires ValidCursor(s) && IsActive(mode)
    requires s.previousMode == Some(mode) && s.initialPosition.Some?
    requires now - s.lastMoveTime < MoveCooldown ||
      (Abs(p.x - s.initialPosition.value.x) < MoveThreshold && Abs(p.y - s.initialPosition.value.y) < MoveThreshold)
    ensures CursorStep(s, Some(p), mode, now, osCursor, screenWidth, screenHeight, exp) == CursorOutcome(s, None, [])
  {
  }

  /** Any position reported lies on the screen, and any move goes there. */
  lemma CursorStaysOnScreen(s: CursorState, pos: Option<Point>, mode: Mode, now: real, osCursor: Point,
                            screenWidth: nat, screenHeight: nat, exp: ExpFn)
    requires ValidCursor(s) && screenWidth >= 1 && screenHeight >= 1
    ensures var o := CursorStep(s, pos, mode, now, osCursor, screenWidth, screenHeight, exp);
      && (o.result.Some? ==> 0 <= o.result.value.x < screenWidth && 0 <= o.result.value.y < screenHeight)
      && (forall i :: 0 <= i < |o.events| ==> o.events[i] == Moved(o.result.value))
  {
  }

  /** A move frame: the anchors and the recorded mode stay, the pointer goes to
      the anchored cursor plus the scaled offset (clamped), and only MODE_1 and
      MODE_3 actually move it. */
  lemma MoveFrame(s: CursorState, p: Point, mode: Mode, now: real, osCursor: Point,
                  screenWidth: nat, screenHeight: nat, exp: ExpFn)
    requires ValidCursor(s) && IsActive(mode)
    requires s.previousMode == Some(mode) && s.initialPosition.Some?
    requires now - s.lastMoveTime >= MoveCooldown
    requires Abs(p.x - s.initialPosition.value.x) >= MoveThreshold || Abs(p.y - s.initialPosition.value.y) >= MoveThreshold
    ensures var o := CursorStep(s, Some(p), mode, now, osCursor, screenWidth, screenHeight, exp);
      var anchor := s.initialCursorPos.value;
      var target := Point(ScreenClamp(screenWidth, anchor.x + ScaledDelta(mode, p.x - s.initialPosition.value.x, exp)),
                          ScreenClamp(screenHeight, anchor.y + ScaledDelta(mode, p.y - s.initialPosition.value.y, exp)));
      && o.state == s.(lastMoveTime := now)
      && o.result == Some(target)
      && (o.events == [Moved(target)] <==> mode != Mode2)
      && (mode == Mode2 ==> o.events == [])
  {
  }

  /** MODE_1 is 1:1: away from the screen edges the pointer sits exactly at the
      anchored cursor plus the fingertip's offset. */
  lemma PrecisionModeIsOneToOne(s: CursorState, p: Point, now: real, osCursor: Point,
                                screenWidth: nat, screenHeight: nat, exp: ExpFn)
    requires ValidCursor(s) && s.previousMode == Some(Mode1) && s.initialPosition.Some?
    requires now - s.lastMoveTime >= MoveCooldown
    requires Abs(p.x - s.initialPosition.value.x) >= MoveThreshold || Abs(p.y - s.initialPosition.value.y) >= MoveThreshold
    requires var a, i := s.initialCursorPos.value, s.initialPosition.value;
      0 <= a.x + (p.x - i.x) < screenWidth && 0 <= a.y + (p.y - i.y) < screenHeight
    ensures var a, i := s.initialCursorPos.value, s.initialPosition.value;
      CursorStep(s, Some(p), Mode1, now, osCursor, screenWidth, screenHeight, exp).result ==
        Some(Point(a.x + (p.x - i.x), a.y + (p.y - i.y)))
  {
  }

  /** Concretely: anchored at camera (100, 100) with the cursor at (500, 500), a
      fingertip at (160, 100) puts the cursor at (560, 500). */
  lemma PrecisionMoveExample(exp: ExpFn)
    ensures var s := CursorState(Some(Mode1), Some(Point(100, 100)), Some(Point(500, 500)), 0.0);
      CursorStep(s, Some(Point(160, 100)), Mode1, 1.0, Point(0, 0), 1920, 1080, exp) ==
        CursorOutcome(s.(lastMoveTime := 1.0), Some(Point(560, 500)), [Moved(Point(560, 500))])
  {
  }

  /** MODE_3 throws farther than MODE_1 for the same offset, by at most 15 times. */
  lemma LongThrowReachesFarther(delta: int, exp: ExpFn)
    ensures Abs(ScaledDelta(Mode1, delta, exp)) <= Abs(ScaledDelta(Mode3, delta, exp)) <= 15 * Abs(delta)
    ensures ScaledDelta(Mode3, delta, exp) == 0 <==> delta == 0
  {
  }

  /** `CursorController` (src/cursor_controller.py); its `drag_active` and
      `last_cursor_pos` fields are never read. */
  class CursorController {
    const screenWidth: nat
    const screenHeight: nat
    var previousMode: Option<Mode>
    var initialPosition: Option<Point>
    var initialCursorPos: Option<Point>
    var lastMoveTime: real

    function State(): CursorState
      reads this
    {
      CursorState(previousMode, initialPosition, initialCursorPos, lastMoveTime)
    }

    ghost predicate Valid()
      reads this
    {
      ValidCursor(State())
    }

    constructor (screenWidth: nat, screenHeight: nat)
      ensures this.screenWidth == screenWidth && this.screenHeight == screenHeight
      ensures State() == CursorState(None, None, None, 0.0)
      ensures Valid()
    {
      this.screenWidth := screenWidth;
      this.screenHeight := screenHeight;
      previousMode := None;
      initialPosition := None;
      initialCursorPos := None;
      lastMoveTime := 0.0;
    }

    /** `calculate_relative_position`. `now` stands for both `time.time()`
        readings of the call and `osCursor` for `pyautogui.position()`. */
    method CalculateRelativePosition(currentCamPos: Option<Point>, mode: Mode, now: real, osCursor: Point,
                                     exp: ExpFn, os: PointerApi) returns (r: Option<Point>)
      requires Valid()
      modifies this, os
      ensures Valid()
      ensures var o := CursorStep(old(State()), currentCamPos, mode, now, osCursor, screenWidth, screenHeight, exp);
        State() == o.state && r == o.result && os.log == old(os.log) + o.events
    {
      if currentCamPos.None? {
        return None;
      }
      if !IsActive(mode) {
        initialPosition := None;
        initialCursorPos := None;
        previousMode := Some(mode);
        return None;
      }
      if previousMode != Some(mode) || initialPosition.None? {
        initialPosition := currentCamPos;
        initialCursorPos := Some(osCursor);
        previousMode := Some(mode);
        lastMoveTime := now;
        return None;
      }
      if now - lastMoveTime < MoveCooldown {
        return None;
      }
      var deltaX := currentCamPos.value.x - initialPosition.value.x;
      var deltaY := currentCamPos.value.y - initialPosition.value.y;
      if Abs(deltaX) < MoveThreshold && Abs(deltaY) < MoveThreshold {
        return None;
      }
      r := MoveFromAnchor(deltaX, deltaY, mode, now, exp, os);
    }

    /** The movement branch of `calculate_relative_position`, past the cooldown
        and dead-band checks. */
    method MoveFromAnchor(deltaX: int, deltaY: int, mode: Mode, now: real, exp: ExpFn, os: PointerApi)
      returns (r: Option<Point>)
      requires IsActive(mode) && initialCursorPos.Some?
      modifies this, os
      ensures var target := MoveTarget(old(initialCursorPos).value, deltaX, deltaY, mode, screenWidth, screenHeight, exp);
        && r == Some(target)
        && State() == old(State()).(lastMoveTime := now)
        && os.log == old(os.log) + (if mode == Mode1 || mode == Mode3 then [Moved(target)] else [])
    {
      var scaledDeltaX, scaledDeltaY;
      if mode == Mode1 {
        scaledDeltaX := Trunc(deltaX as real * 1.0);
        scaledDeltaY := Trunc(deltaY as real * 1.0);
      } else if mode == Mode3 {
        scaledDeltaX := ExponentialScale(deltaX, exp);
        scaledDeltaY := ExponentialScale(deltaY, exp);
      } else {
        scaledDeltaX := Trunc(deltaX as real * 2.0);
        scaledDeltaY := Trunc(deltaY as real * 2.0);
      }
      assert scaledDeltaX == ScaledDelta(mode, deltaX, exp) && scaledDeltaY == ScaledDelta(mode, deltaY, exp);
      var newCursorX := initialCursorPos.value.x + scaledDeltaX;
      var newCursorY := initialCursorPos.value.y + scaledDeltaY;
      newCursorX := Max(0, Min(screenWidth - 1, newCursorX));
      newCursorY := Max(0, Min(screenHeight - 1, newCursorY));
      lastMoveTime := now;
      if mode == Mode1 || mode == Mode3 {
        os.MoveTo(Point(newCursorX, newCursorY));
      }
      return Some(Point(newCursorX, newCursorY));
    }

  }
}
