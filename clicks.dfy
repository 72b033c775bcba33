/** Pinch-to-click: thumb and middle finger touching, and the `is_clicking` /
    `click_debounce` state machine that turns a touch and its release into one
    click (src/click_handler.py; hand_tracker.py holds a variant). */
module Clicks {
  import opened Basics
  import opened Desktop

  /** Tip distance below which thumb and middle finger touch (`click_threshold`). */
  const ClickThreshold: real := 0.03
  /** The joints get a 20% larger threshold. */
  const JointThreshold: real := ClickThreshold * 1.2
  /** Frames a TOUCH_START blocks the next one for. */
  const DebounceFrames: int := 5

  /** The strings "TOUCH_START", "SINGLE_CLICK", "TOUCHING" and "NONE". */
  datatype ClickAction = TouchStart | SingleClick | Touching | NoAction

  /** `detect_finger_touch`: thumb tip (4) near middle tip (12), or thumb IP (3)
      near middle PIP (10), with Euclidean distances compared squared. */
  predicate FingersTouching(landmarks: Option<Hand>) {
    landmarks.Some? &&
    var h := landmarks.value;
    DistanceBelow(SqDist(h[4], h[12]), ClickThreshold) || DistanceBelow(SqDist(h[3], h[10]), JointThreshold)
  }

  /** Given the two distances (any non-negative square roots of the squared
      distances), the squared test is the source's `tip < 0.03 or joint < 0.036`. */
  lemma FingersTouchingIsDistanceTest(h: Hand, tipDistance: real, jointDistance: real)
    requires tipDistance >= 0.0 && jointDistance >= 0.0
    requires tipDistance * tipDistance == SqDist(h[4], h[12])
    requires jointDistance * jointDistance == SqDist(h[3], h[10])
    ensures FingersTouching(Some(h)) <==> tipDistance < ClickThreshold || jointDistance < JointThreshold
  {
    DistanceBelowIsSound(tipDistance, ClickThreshold);
    DistanceBelowIsSound(jointDistance, JointThreshold);
  }

  datatype ClickState = ClickState(isClicking: bool, debounce: int)

  /** The debounce counter starts at 0 and is only ever set to 5 or decremented
      while positive. */
  predicate ValidClick(s: ClickState) {
    0 <= s.debounce <= DebounceFrames
  }

  datatype ClickOutcome = ClickOutcome(state: ClickState, action: ClickAction, events: seq<Event>)

  /** One MODE_1 frame of `handle_click_detection`, shared by both versions. */
  function Mode1ClickStep(s: ClickState, touching: bool): (o: ClickOutcome)
    ensures o.action == TouchStart <==> touching && !s.isClicking && s.debounce <= 0
    ensures o.action == SingleClick <==> !touching && s.isClicking
    ensures o.action == Touching <==> touching && s.isClicking
    ensures o.events == if o.action == SingleClick then [Clicked] else []
    ensures o.state.isClicking <==> o.action == TouchStart || o.action == Touching
    ensures o.action == TouchStart ==> o.state.debounce == DebounceFrames
    ensures o.action == SingleClick ==> o.state.debounce == s.debounce
    ensures o.action != TouchStart && o.action != SingleClick ==>
      o.state.debounce == if s.debounce > 0 then s.debounce - 1 else s.debounce
  {
    if touching && !s.isClicking && s.debounce <= 0 then
      ClickOutcome(ClickState(true, DebounceFrames), TouchStart, [])
    else if !touching && s.isClicking then
      ClickOutcome(ClickState(false, s.debounce), SingleClick, [Clicked])
    else
      var debounce := if s.debounce > 0 then s.debounce - 1 else s.debounce;
      ClickOutcome(ClickState(s.isClicking, debounce), if s.isClicking then Touching else NoAction, [])
  }

  /** src/click_handler.py: outside MODE_1 the state is left as it is. */
  function ClickStep(s: ClickState, landmarks: Option<Hand>, mode: Mode): (o: ClickOutcome)
    ensures mode != Mode1 ==> o == ClickOutcome(s, NoAction, [])
    ensures mode == Mode1 ==> o == Mode1ClickStep(s, FingersTouching(landmarks))
  {
    if mode != Mode1 then ClickOutcome(s, NoAction, [])
    else Mode1ClickStep(s, FingersTouching(landmarks))
  }

  /** hand_tracker.py: outside MODE_1 both fields are reset. */
  function LegacyClickStep(s: ClickState, landmarks: Option<Hand>, mode: Mode): (o: ClickOutcome)
    ensures mode != Mode1 ==> o == ClickOutcome(ClickState(false, 0), NoAction, [])
    ensures mode == Mode1 ==> o == Mode1ClickStep(s, FingersTouching(landmarks))
  {
    if mode != Mode1 then ClickOutcome(ClickState(false, 0), NoAction, [])
    else Mode1ClickStep(s, FingersTouching(landmarks))
  }

  lemma ClickStepsKeepValid(s: ClickState, landmarks: Option<Hand>, mode: Mode)
    requires ValidClick(s)
    ensures ValidClick(ClickStep(s, landmarks, mode).state)
    ensures ValidClick(LegacyClickStep(s, landmarks, mode).state)
  {
  }

  /** Without any touch in MODE_1 the counter runs down to 0 one frame at a time. */
  lemma DebounceCountsDown(s: ClickState)
    requires ValidClick(s) && !s.isClicking
    ensures var o := Mode1ClickStep(s, false);
      o.action == NoAction && o.state.debounce == Max(s.debounce - 1, 0) && o.events == []
  {
  }

  // ---------------------------------------------------------------------------
  // Runs of MODE_1 frames

  /** The action of each frame, for a run of touch readings. */
  function Actions(s: ClickState, touches: seq<bool>): (r: seq<ClickAction>)
    ensures |r| == |touches|
    decreases |touches|
  {
    if touches == [] then []
    else [Mode1ClickStep(s, touches[0]).action] + Actions(Mode1ClickStep(s, touches[0]).state, touches[1..])
  }

  /** The state after a run. */
  function Final(s: ClickState, touches: seq<bool>): ClickState
    decreases |touches|
  {
    if touches == [] then s else Final(Mode1ClickStep(s, touches[0]).state, touches[1..])
  }

  /** The clicks injected by a run. */
  function Clicks(s: ClickState, touches: seq<bool>): seq<Event>
    decreases |touches|
  {
    if touches == [] then []
    else Mode1ClickStep(s, touches[0]).events + Clicks(Mode1ClickStep(s, touches[0]).state, touches[1..])
  }

  /** A lower bound on the frames that must pass before the next TOUCH_START:
      the debounce frames left, plus one release frame while a touch is held. */
  function FramesToRearm(s: ClickState): int {
    (if s.isClicking then 1 else 0) + s.debounce
  }

  lemma {:induction false} TouchStartNeedsRearm(s: ClickState, touches: seq<bool>)
    requires ValidClick(s)
    ensures forall j :: 0 <= j < |touches| && Actions(s, touches)[j] == TouchStart ==> j >= FramesToRearm(s)
    decreases |touches|
  {
    if touches != [] {
      var next := Mode1ClickStep(s, touches[0]).state;
      assert FramesToRearm(next) >= FramesToRearm(s) - 1;
      TouchStartNeedsRearm(next, touches[1..]);
      forall j | 0 <= j < |touches| && Actions(s, touches)[j] == TouchStart
        ensures j >= FramesToRearm(s)
      {
        if j > 0 {
          assert Actions(s, touches)[j] == Actions(next, touches[1..])[j - 1];
        }
      }
    }
  }

  lemma {:induction false} ActionsSplit(s: ClickState, touches: seq<bool>, i: nat)
    requires i <= |touches|
    ensures Actions(s, touches) == Actions(s, touches[..i]) + Actions(Final(s, touches[..i]), touches[i..])
    ensures ValidClick(s) ==> ValidClick(Final(s, touches[..i]))
    decreases i
  {
    if i > 0 {
      var next := Mode1ClickStep(s, touches[0]).state;
      ActionsSplit(next, touches[1..], i - 1);
      assert touches[1..][..i - 1] == touches[..i][1..];
      assert touches[1..][i - 1..] == touches[i..];
    } else {
      assert touches[..0] == [];
      assert touches[0..] == touches;
    }
  }

  /** The action of frame `i` of a run, and the state after it, come from the
      state the first `i` frames leave. */
  lemma {:induction false} ActionAt(s: ClickState, touches: seq<bool>, i: nat)
    requires i < |touches|
    ensures var before := Final(s, touches[..i]);
      && Actions(s, touches)[i] == Mode1ClickStep(before, touches[i]).action
      && Final(s, touches[..i + 1]) == Mode1ClickStep(before, touches[i]).state
    decreases i
  {
    var next := Mode1ClickStep(s, touches[0]).state;
    if i > 0 {
      ActionAt(next, touches[1..], i - 1);
      assert touches[1..][..i - 1] == touches[..i][1..];
      assert touches[1..][..i] == touches[..i + 1][1..];
    } else {
      assert touches[..0] == [];
      assert touches[..1][1..] == [];
    }
  }

  /** Debounce: two TOUCH_STARTs in one MODE_1 run are at least seven frames
      apart (five debounce frames plus the release frame in between). */
  lemma NoRetriggerWithinDebounce(s: ClickState, touches: seq<bool>, i: nat, j: nat)
    requires ValidClick(s)
    requires i < j < |touches|
    requires Actions(s, touches)[i] == TouchStart && Actions(s, touches)[j] == TouchStart
    ensures j - i >= DebounceFrames + 2
  {
    ActionAt(s, touches, i);
    var mid := Final(s, touches[..i + 1]);
    assert mid == ClickState(true, DebounceFrames);
    ActionsSplit(s, touches, i + 1);
    TouchStartNeedsRearm(mid, touches[i + 1..]);
    assert Actions(mid, touches[i + 1..])[j - i - 1] == Actions(s, touches)[j];
  }

  /** A pinch held in MODE_1 never clicks. */
  lemma {:induction false} HoldingNeverClicks(s: ClickState, k: nat)
    ensures Clicks(s, seq(k, _ => true)) == []
    decreases k
  {
    if k > 0 {
      var touches := seq(k, _ => true);
      assert touches[1..] == seq(k - 1, _ => true);
      HoldingNeverClicks(Mode1ClickStep(s, true).state, k - 1);
    }
  }

  /** From rest, a touch and its release yield TOUCH_START, SINGLE_CLICK and
      exactly one click. */
  lemma TouchAndReleaseClicksOnce()
    ensures Actions(ClickState(false, 0), [true, false]) == [TouchStart, SingleClick]
    ensures Clicks(ClickState(false, 0), [true, false]) == [Clicked]
  {
    var s1 := Mode1ClickStep(ClickState(false, 0), true).state;
    assert [true, false][1..] == [false];
    assert Actions(s1, [false]) == [SingleClick];
    assert Clicks(s1, [false]) == [Clicked];
  }

  /** `ClickHandler` (src/click_handler.py). */
  class ClickHandler {
    var isClicking: bool
    var clickDebounce: int

    function State(): ClickState
      reads this
    {
      ClickState(isClicking, clickDebounce)
    }

    constructor ()
      ensures State() == ClickState(false, 0)
    {
      isClicking := false;
      clickDebounce := 0;
    }

    /** `handle_click_detection`; its `current_pos` argument is never read. */
    method HandleClickDetection(landmarks: Option<Hand>, mode: Mode, os: PointerApi) returns (action: ClickAction)
      modifies this, os
      ensures var o := ClickStep(old(State()), landmarks, mode);
        State() == o.state && action == o.action && os.log == old(os.log) + o.events
    {
      if mode != Mode1 {
        return NoAction;
      }
      var fingersTouching := FingersTouching(landmarks);
      if fingersTouching && !isClicking && clickDebounce <= 0 {
        isClicking := true;
        clickDebounce := DebounceFrames;
        return TouchStart;
      } else if !fingersTouching && isClicking {
        os.Click();
        isClicking := false;
        return SingleClick;
      }
      if clickDebounce > 0 {
        clickDebounce := clickDebounce - 1;
      }
      if isClicking {
        return Touching;
      } else {
        return NoAction;
      }
    }
  }
}
