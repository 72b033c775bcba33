/** Two-finger vertical scrolling: an anchor recorded on entering MODE_2, a
    cooldown between events, a dead zone of 20 px around the anchor, inverted
    ("natural") direction and a capped exponential speed
    (src/scroll_controller.py; hand_tracker.py differs only in its cooldown). */
module Scrolling {
  import opened Basics
  import opened Desktop

  /** `scroll_cooldown` in src/scroll_controller.py, in seconds. */
  const ScrollCooldown: real := 0.05
  /** `direction_threshold`: half the dead zone, in camera pixels. */
  const DirectionThreshold: int := 20
  const BaseSpeed: real := 2.5
  const GrowthFactor: real := 0.07
  const MaxSpeed: real := 50.0
  /** The multiplier assigned inside the dead zone. */
  const DeadZoneSpeed: real := 5.0

  /** `-1 if delta_y > 0 else 1` beyond the threshold, 0 inside it: moving the
      hand down scrolls up. */
  function Direction(deltaY: int): (d: int)
    ensures d == -1 <==> deltaY > DirectionThreshold
    ensures d == 1 <==> deltaY < -DirectionThreshold
    ensures d == 0 <==> -DirectionThreshold <= deltaY <= DirectionThreshold
  {
    if Abs(deltaY) > DirectionThreshold then (if deltaY > 0 then -1 else 1) else 0
  }

  /** `min(2.5 * exp(0.07 * |delta_y|), 50.0)` beyond the threshold, 5.0 inside it. */
  function SpeedMultiplier(deltaY: int, exp: ExpFn): (m: real)
    ensures Abs(deltaY) <= DirectionThreshold ==> m == DeadZoneSpeed
    ensures Abs(deltaY) > DirectionThreshold ==> BaseSpeed <= m <= MaxSpeed
  {
    var magnitude := Abs(deltaY);
    if magnitude > DirectionThreshold then
      var grown := exp(GrowthFactor * magnitude as real);
      assert grown >= 1.0;
      var speed := BaseSpeed * grown;
      if speed <= MaxSpeed then speed else MaxSpeed
    else DeadZoneSpeed
  }

  /** `int(scroll_direction_y * scroll_speed_multiplier)`: outside the dead zone a
      scroll of 2 to 50 notches against the hand's motion. */
  function ScrollAmount(deltaY: int, exp: ExpFn): (amount: int)
    ensures Direction(deltaY) == 0 ==> amount == 0
    ensures Direction(deltaY) != 0 ==> 2 <= Abs(amount) <= 50
    ensures Direction(deltaY) == -1 ==> amount < 0
    ensures Direction(deltaY) == 1 ==> amount > 0
  {
    var m := SpeedMultiplier(deltaY, exp);
    TruncNegate(m);
    TruncBetween(m, 2, 50);
    TruncOfInt(0);
    Trunc(Direction(deltaY) as real * m)
  }

  datatype ScrollState = ScrollState(
    initialPos: Option<Point>, speedMultiplier: real, directionY: int, lastScrollTime: real)

  /** The multiplier stays in [1, 50] and the direction in {-1, 0, 1}. */
  predicate ValidScroll(s: ScrollState) {
    1.0 <= s.speedMultiplier <= MaxSpeed && -1 <= s.directionY <= 1
  }

  /** What `handle_scroll_control` returns is `(None, None)` (here `None`) or
      `(0, y)` (here `Some(Point(0, y))`). */
  datatype ScrollOutcome = ScrollOutcome(state: ScrollState, result: Option<Point>, events: seq<Event>)

  /** One call of `handle_scroll_control` at time `now`, following its branches
      in order. */
  function ScrollStep(s: ScrollState, pos: Option<Point>, mode: Mode, now: real, cooldown: real, exp: ExpFn): ScrollOutcome {
    if mode != Mode2 then
      ScrollOutcome(ScrollState(None, 1.0, 0, s.lastScrollTime), None, [])
    else if s.initialPos.None? && pos.Some? then
      ScrollOutcome(ScrollState(pos, 1.0, s.directionY, now), Some(Point(0, 0)), [])
    else if pos.None? || s.initialPos.None? then
      ScrollOutcome(s, Some(Point(0, 0)), [])
    else if now - s.lastScrollTime < cooldown then
      ScrollOutcome(s, Some(Point(0, s.directionY)), [])
    else
      var deltaY := pos.value.y - s.initialPos.value.y;
      var direction := Direction(deltaY);
      var multiplier := SpeedMultiplier(deltaY, exp);
      var amount := ScrollAmount(deltaY, exp);
      var events := if direction != 0 && amount != 0 then [Scrolled(amount)] else [];
      var last := if direction != 0 then now else s.lastScrollTime;
      ScrollOutcome(ScrollState(s.initialPos, multiplier, direction, last), Some(Point(0, deltaY)), events)
  }

  lemma ScrollStepKeepsValid(s: ScrollState, pos: Option<Point>, mode: Mode, now: real, cooldown: real, exp: ExpFn)
    requires ValidScroll(s)
    ensures ValidScroll(ScrollStep(s, pos, mode, now, cooldown, exp).state)
  {
  }

  /** Leaving MODE_2 forgets the anchor, resets speed and direction, keeps the
      timestamp and scrolls nothing. */
  lemma ExitResetsScroll(s: ScrollState, pos: Option<Point>, mode: Mode, now: real, cooldown: real, exp: ExpFn)
    requires mode != Mode2
    ensures ScrollStep(s, pos, mode, now, cooldown, exp) ==
      ScrollOutcome(ScrollState(None, 1.0, 0, s.lastScrollTime), None, [])
  {
  }

  /** The first MODE_2 frame with a position anchors there, stamps the time and
      scrolls nothing. */
  lemma EntryAnchors(s: ScrollState, p: Point, now: real, cooldown: real, exp: ExpFn)
    requires s.initialPos.None?
    ensures var o := ScrollStep(s, Some(p), Mode2, now, cooldown, exp);
      && o.state == ScrollState(Some(p), 1.0, s.directionY, now)
      && o.result == Some(Point(0, 0)) && o.events == []
  {
  }

  /** Inside the cooldown nothing changes and the last direction is reported. */
  lemma CooldownHoldsState(s: ScrollState, p: Point, now: real, cooldown: real, exp: ExpFn)
    requires s.initialPos.Some? && now - s.lastScrollTime < cooldown
    ensures ScrollStep(s, Some(p), Mode2, now, cooldown, exp) ==
      ScrollOutcome(s, Some(Point(0, s.directionY)), [])
  {
  }

  /** A scroll is injected exactly when the hand is outside the dead zone after
      the cooldown; it moves against the hand by 2 to 50 notches, and only then
      does the timestamp advance. */
  lemma ScrollEmission(s: ScrollState, pos: Option<Point>, mode: Mode, now: real, cooldown: real, exp: ExpFn)
    ensures var o := ScrollStep(s, pos, mode, now, cooldown, exp);
      && (o.events != [] <==>
           mode == Mode2 && pos.Some? && s.initialPos.Some? && now - s.lastScrollTime >= cooldown &&
           Abs(pos.value.y - s.initialPos.value.y) > DirectionThreshold)
      && (o.events != [] ==>
           var deltaY := pos.value.y - s.initialPos.value.y;
           && o.events == [Scrolled(ScrollAmount(deltaY, exp))]
           && 2 <= Abs(ScrollAmount(deltaY, exp)) <= 50
           && (deltaY > 0 <==> ScrollAmount(deltaY, exp) < 0)
           && o.state.lastScrollTime == now)
      && (o.events == [] && mode == Mode2 && (s.initialPos.Some? || pos.None?) ==>
           o.state.lastScrollTime == s.lastScrollTime)
  {
  }

  /** Cooldown: whenever a call scrolls, at least `cooldown` seconds lie between
      it and the previous scroll or anchoring, and it restarts the clock. */
  lemma ScrollsAreSpaced(s: ScrollState, pos: Option<Point>, mode: Mode, now: real, cooldown: real, exp: ExpFn,
                         pos2: Option<Point>, now2: real)
    requires ScrollStep(s, pos, mode, now, cooldown, exp).events != []
    ensures now - s.lastScrollTime >= cooldown
    ensures var s1 := ScrollStep(s, pos, mode, now, cooldown, exp).state;
      now2 - now < cooldown ==> ScrollStep(s1, pos2, Mode2, now2, cooldown, exp).events == []
  {
    ScrollEmission(s, pos, mode, now, cooldown, exp);
  }

  /** While MODE_2 lasts, the anchor never moves once set, and a call past the
      cooldown reports the vertical offset from it. */
  lemma AnchorPersists(s: ScrollState, pos: Option<Point>, now: real, cooldown: real, exp: ExpFn)
    requires s.initialPos.Some?
    ensures var o := ScrollStep(s, pos, Mode2, now, cooldown, exp);
      && o.state.initialPos == s.initialPos
      && (pos.Some? && now - s.lastScrollTime >= cooldown ==>
            o.result == Some(Point(0, pos.value.y - s.initialPos.value.y)))
  {
  }

  /** `ScrollController` (src/scroll_controller.py). */
  class ScrollController {
    var scrollInitialPos: Option<Point>
    var scrollSpeedMultiplier: real
    var scrollDirectionY: int
    var lastScrollTime: real

    function State(): ScrollState
      reads this
    {
      ScrollState(scrollInitialPos, scrollSpeedMultiplier, scrollDirectionY, lastScrollTime)
    }

    /** `now` is the `time.time()` reading at construction. */
    constructor (now: real)
      ensures State() == ScrollState(None, 1.0, 0, now)
      ensures ValidScroll(State())
    {
      scrollInitialPos := None;
      scrollSpeedMultiplier := 1.0;
      scrollDirectionY := 0;
      lastScrollTime := now;
    }

    /** `handle_scroll_control`, with `now` the `time.time()` reading of the call. */
    method HandleScrollControl(currentCamPos: Option<Point>, mode: Mode, now: real, exp: ExpFn, os: PointerApi)
      returns (r: Option<Point>)
      modifies this, os
      ensures var o := ScrollStep(old(State()), currentCamPos, mode, now, ScrollCooldown, exp);
        State() == o.state && r == o.result && os.log == old(os.log) + o.events
    {
      if mode != Mode2 {
        scrollInitialPos := None;
        scrollSpeedMultiplier := 1.0;
        scrollDirectionY := 0;
        return None;
      }
      var currentTime := now;
      var scrollCooldown := ScrollCooldown;
      if scrollInitialPos.None? && currentCamPos.Some? {
        scrollInitialPos := currentCamPos;
        lastScrollTime := currentTime;
        scrollSpeedMultiplier := 1.0;
        return Some(Point(0, 0));
      }
      if currentCamPos.None? || scrollInitialPos.None? {
        return Some(Point(0, 0));
      }
      if currentTime - lastScrollTime < scrollCooldown {
        return Some(Point(0, scrollDirectionY));
      }
      var deltaY := currentCamPos.value.y - scrollInitialPos.value.y;
      ScrollBy(deltaY, currentTime, exp, os);
      return Some(Point(0, deltaY));
    }

    /** The part of `handle_scroll_control` past the cooldown check. */
    method ScrollBy(deltaY: int, currentTime: real, exp: ExpFn, os: PointerApi)
      modifies this, os
      ensures var direction := Direction(deltaY);
        && State() == old(State()).(speedMultiplier := SpeedMultiplier(deltaY, exp), directionY := direction,
                                    lastScrollTime := if direction != 0 then currentTime else old(lastScrollTime))
        && os.log == old(os.log) + (if direction != 0 && ScrollAmount(deltaY, exp) != 0
                                    then [Scrolled(ScrollAmount(deltaY, exp))] else [])
    {
      if Abs(deltaY) > DirectionThreshold {
        scrollDirectionY := if deltaY > 0 then -1 else 1;
      } else {
        scrollDirectionY := 0;
      }
      scrollSpeedMultiplier := SpeedMultiplier(deltaY, exp);
      var scrollY := Trunc(scrollDirectionY as real * scrollSpeedMultiplier);
      if scrollDirectionY != 0 {
        if scrollY != 0 {
          os.Scroll(scrollY);
        }
        lastScrollTime := currentTime;
      }
    }
  }
}
