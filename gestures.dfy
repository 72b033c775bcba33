/** Gesture classification (src/gesture_detector.py; the same rules appear in
    hand_tracker.py): which fingers are extended, whether index and middle point
    the same way, and which fingertip drives the pointer in each mode. */
module Gestures {
  import opened Basics

  /** Angular tolerance of the "fingers parallel" test, in radians (about 30 degrees). */
  const ParallelTolerance: real := 0.52

  /** A finger is extended when its tip is above its PIP joint (image y grows downward). */
  predicate IndexExtended(h: Hand) {
    h[8].y < h[6].y
  }

  predicate MiddleExtended(h: Hand) {
    h[12].y < h[10].y
  }

  predicate PinkyExtended(h: Hand) {
    h[20].y < h[18].y
  }

  /** Circular difference of two angles: `abs(a - b)`, folded back by `2*pi` when above pi. */
  function AngleDiff(a: real, b: real): (d: real)
    ensures -Pi <= a <= Pi && -Pi <= b <= Pi ==> 0.0 <= d <= Pi
    ensures a == b ==> d == 0.0
  {
    var diff := if a - b >= 0.0 then a - b else b - a;
    if diff > Pi then 2.0 * Pi - diff else diff
  }

  /** Wrap-around at work: directions just either side of the negative x axis are
      close, and a quarter-turn apart is far. */
  lemma AngleDiffExamples()
    ensures AngleDiff(0.0, 0.3) < ParallelTolerance
    ensures AngleDiff(0.0, Pi - 0.1) > ParallelTolerance
    ensures AngleDiff(3.0, -3.0) < ParallelTolerance
  {
  }

  /** The angle between the index and middle direction vectors (tip minus MCP). */
  function FingerAngleDiff(h: Hand, atan2: Atan2Fn): (d: real)
    ensures 0.0 <= d <= Pi
  {
    var indexAngle := atan2(h[8].y - h[5].y, h[8].x - h[5].x);
    var middleAngle := atan2(h[12].y - h[9].y, h[12].x - h[9].x);
    AngleDiff(indexAngle, middleAngle)
  }

  predicate FingersParallel(h: Hand, atan2: Atan2Fn) {
    FingerAngleDiff(h, atan2) < ParallelTolerance
  }

  /** `detect_gesture_mode`: no landmarks give Python `None`; otherwise the first
      matching rule of MODE_1, MODE_2, MODE_3 wins, and "NONE" when none matches.
      The contract states the outcome without reference to the rule order. */
  function DetectGestureMode(landmarks: Option<Hand>, atan2: Atan2Fn): (r: Option<Mode>)
    ensures r.None? <==> landmarks.None?
    ensures r == Some(Mode1) <==>
      landmarks.Some? && var h := landmarks.value;
      IndexExtended(h) && !MiddleExtended(h) && !PinkyExtended(h)
    ensures r == Some(Mode2) <==>
      landmarks.Some? && var h := landmarks.value;
      IndexExtended(h) && MiddleExtended(h) && !PinkyExtended(h) && FingersParallel(h, atan2)
    ensures r == Some(Mode3) <==>
      landmarks.Some? && var h := landmarks.value;
      PinkyExtended(h) && !IndexExtended(h) && !MiddleExtended(h)
  {
    match landmarks
    case None => None
    case Some(h) =>
      var indexExtended := IndexExtended(h);
      var middleExtended := MiddleExtended(h);
      var pinkyExtended := PinkyExtended(h);
      if indexExtended && !middleExtended && !pinkyExtended then Some(Mode1)
      else if indexExtended && middleExtended && !pinkyExtended && FingersParallel(h, atan2) then Some(Mode2)
      else if pinkyExtended && !indexExtended && !middleExtended then Some(Mode3)
      else Some(NoMode)
  }

  /** Two fingers extended but not parallel is "NONE", never MODE_3. */
  lemma SpreadFingersGiveNone(h: Hand, atan2: Atan2Fn)
    requires IndexExtended(h) && MiddleExtended(h) && !PinkyExtended(h)
    requires !FingersParallel(h, atan2)
    ensures DetectGestureMode(Some(h), atan2) == Some(NoMode)
  {
  }

  /** The three rule guards exclude each other, so their order never matters. */
  lemma RuleGuardsExclusive(h: Hand)
    ensures !((IndexExtended(h) && !MiddleExtended(h) && !PinkyExtended(h)) &&
              (IndexExtended(h) && MiddleExtended(h) && !PinkyExtended(h)))
    ensures !((IndexExtended(h) && !MiddleExtended(h) && !PinkyExtended(h)) &&
              (PinkyExtended(h) && !IndexExtended(h) && !MiddleExtended(h)))
    ensures !((IndexExtended(h) && MiddleExtended(h) && !PinkyExtended(h)) &&
              (PinkyExtended(h) && !IndexExtended(h) && !MiddleExtended(h)))
  {
  }

  /** `int(landmark.x * w), int(landmark.y * h)`: normalized to camera pixels. */
  function ToPixel(l: Landmark, frameWidth: nat, frameHeight: nat): (p: Point)
    ensures 0.0 <= l.x <= 1.0 ==> 0 <= p.x <= frameWidth
    ensures 0.0 <= l.y <= 1.0 ==> 0 <= p.y <= frameHeight
  {
    ScaleInto(l.x, frameWidth);
    ScaleInto(l.y, frameHeight);
    Point(Trunc(l.x * frameWidth as real), Trunc(l.y * frameHeight as real))
  }

  lemma ScaleInto(u: real, n: nat)
    ensures 0.0 <= u <= 1.0 ==> 0 <= Trunc(u * n as real) <= n
  {
    if 0.0 <= u <= 1.0 {
      var un, nn := u * n as real, n as real;
      assert 0.0 <= un <= nn;
      TruncBetween(un, 0, n);
    }
  }

  /** The landmark that drives the pointer: index tip (8) in MODE_1 and MODE_2,
      pinky tip (20) in MODE_3. */
  function TipIndex(mode: Mode): (i: nat)
    requires IsActive(mode)
    ensures i < 21
    ensures i == 8 <==> mode == Mode1 || mode == Mode2
    ensures i == 20 <==> mode == Mode3
  {
    if mode == Mode1 || mode == Mode2 then 8 else 20
  }

  /** `get_finger_tip_position`: `(None, None)` without landmarks or outside the
      active modes, otherwise the pixel position of the mode's fingertip. */
  function FingerTipPosition(landmarks: Option<Hand>, frameWidth: nat, frameHeight: nat, mode: Mode): (r: Option<Point>)
    ensures r.Some? <==> landmarks.Some? && IsActive(mode)
    ensures r.Some? ==> r.value == ToPixel(landmarks.value[TipIndex(mode)], frameWidth, frameHeight)
  {
    if landmarks.Some? then
      if mode == Mode1 || mode == Mode2 then Some(ToPixel(landmarks.value[8], frameWidth, frameHeight))
      else if mode == Mode3 then Some(ToPixel(landmarks.value[20], frameWidth, frameHeight))
      else None
    else None
  }

  /** Python list indexing on the 21 landmarks, negative indices counting from the end. */
  function LandmarkAt(h: Hand, i: int): Landmark
    requires -21 <= i < 21
  {
    if i < 0 then h[i + 21] else h[i]
  }

  predicate ValidIndexPairs(tips: seq<int>, pips: seq<int>) {
    forall k :: 0 <= k < |tips| && k < |pips| ==> -21 <= tips[k] < 21 && -21 <= pips[k] < 21
  }

  /** `is_finger_extended`: one flag per `zip(finger_tips, finger_pips)` pair, in order. */
  method IsFingerExtended(h: Hand, tips: seq<int>, pips: seq<int>) returns (extended: seq<bool>)
    requires ValidIndexPairs(tips, pips)
    ensures |extended| == Min(|tips|, |pips|)
    ensures forall k :: 0 <= k < |extended| ==>
      extended[k] == (LandmarkAt(h, tips[k]).y < LandmarkAt(h, pips[k]).y)
  {
    extended := [];
    var n := Min(|tips|, |pips|);
    var k := 0;
    while k < n
      invariant 0 <= k <= n
      invariant |extended| == k
      invariant forall j :: 0 <= j < k ==>
        extended[j] == (LandmarkAt(h, tips[j]).y < LandmarkAt(h, pips[j]).y)
    {
      var tipY := LandmarkAt(h, tips[k]).y;
      var pipY := LandmarkAt(h, pips[k]).y;
      extended := extended + [tipY < pipY];
      k := k + 1;
    }
  }
}
