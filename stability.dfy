/** Jitter smoothing and drift rejection of the camera-space fingertip stream
    (src/stability_filter.py; hand_tracker.py holds the same two algorithms, the
    second one over the tracker's own buffer). */
module Stability {
  import opened Basics

  /** Weight of the current sample in `smooth_position` (its default argument). */
  const SmoothingFactor: real := 0.7
  /** Constructor defaults of `StabilityFilter`, also the values hand_tracker.py uses. */
  const DefaultBufferSize: nat := 5
  const DefaultMovementThreshold: int := 20

  // ---------------------------------------------------------------------------
  // Jitter smoothing

  function SmoothAxis(c: int, p: int, alpha: real): int {
    Trunc(alpha * c as real + (1.0 - alpha) * p as real)
  }

  /** `smooth_position`: the current sample passes through when there is no
      previous one, the previous one is kept when the current one is missing,
      and otherwise each axis is `int(alpha*c + (1-alpha)*p)`. */
  function SmoothPosition(current: Option<Point>, previous: Option<Point>, alpha: real): (r: Option<Point>)
    ensures previous.None? ==> r == current
    ensures previous.Some? && current.None? ==> r == previous
    ensures current.Some? && previous.Some? ==> r.Some?
  {
    if previous.None? then current
    else if current.None? then previous
    else
      Some(Point(SmoothAxis(current.value.x, previous.value.x, alpha),
                 SmoothAxis(current.value.y, previous.value.y, alpha)))
  }

  lemma SmoothAxisBetween(c: int, p: int, alpha: real)
    requires 0.0 <= alpha <= 1.0
    ensures Min(c, p) <= SmoothAxis(c, p, alpha) <= Max(c, p)
  {
    var cr, pr := c as real, p as real;
    if c <= p {
      MulNonneg(alpha, pr - cr);
      MulNonneg(1.0 - alpha, pr - cr);
      assert alpha * (pr - cr) == alpha * pr - alpha * cr;
      assert (1.0 - alpha) * (pr - cr) == pr - cr - alpha * pr + alpha * cr;
      assert cr <= alpha * c as real + (1.0 - alpha) * p as real <= pr;
    } else {
      MulNonneg(alpha, cr - pr);
      MulNonneg(1.0 - alpha, cr - pr);
      assert alpha * (cr - pr) == alpha * cr - alpha * pr;
      assert (1.0 - alpha) * (cr - pr) == cr - pr - alpha * cr + alpha * pr;
      assert pr <= alpha * c as real + (1.0 - alpha) * p as real <= cr;
    }
  }

  /** For a weight in [0, 1] each smoothed axis lies between the two samples. */
  lemma SmoothPositionBetween(current: Point, previous: Point, alpha: real)
    requires 0.0 <= alpha <= 1.0
    ensures var r := SmoothPosition(Some(current), Some(previous), alpha).value;
      && Min(current.x, previous.x) <= r.x <= Max(current.x, previous.x)
      && Min(current.y, previous.y) <= r.y <= Max(current.y, previous.y)
  {
    SmoothAxisBetween(current.x, previous.x, alpha);
    SmoothAxisBetween(current.y, previous.y, alpha);
  }

  /** A hand held still is a fixed point of the smoothing. */
  lemma SmoothPositionFixedPoint(p: Point, alpha: real)
    ensures SmoothPosition(Some(p), Some(p), alpha) == Some(p)
  {
    assert alpha * p.x as real + (1.0 - alpha) * p.x as real == p.x as real;
    assert alpha * p.y as real + (1.0 - alpha) * p.y as real == p.y as real;
    TruncOfInt(p.x);
    TruncOfInt(p.y);
  }

  // ---------------------------------------------------------------------------
  // Drift rejection: the bounded FIFO buffer

  /** `append` followed by one `pop(0)` when the buffer has grown past its size. */
  function Push(buffer: seq<Point>, p: Point, size: nat): seq<Point> {
    var appended := buffer + [p];
    if |appended| > size then appended[1..] else appended
  }

  /** The last `n` elements of `s` (all of them when there are fewer). */
  function Window(s: seq<Point>, n: nat): (w: seq<Point>)
    ensures |w| == Min(|s|, n)
    ensures w == s[|s| - |w|..]
  {
    if |s| <= n then s else s[|s| - n..]
  }

  lemma PushIsWindow(buffer: seq<Point>, p: Point, size: nat)
    requires |buffer| <= size
    ensures Push(buffer, p, size) == Window(buffer + [p], size)
  {
  }

  lemma WindowOfSuffix(u: seq<Point>, v: seq<Point>, n: nat)
    requires Min(|v|, n) == Min(|u| + |v|, n)
    ensures Window(u + v, n) == Window(v, n)
  {
    var k := Min(|v|, n);
    assert (u + v)[|u| + |v| - k..] == v[|v| - k..];
  }

  lemma WindowOfWindow(s: seq<Point>, t: seq<Point>, n: nat)
    ensures Window(Window(s, n) + t, n) == Window(s + t, n)
  {
    var w := Window(s, n);
    var u := s[..|s| - |w|];
    assert s == u + w;
    assert s + t == u + (w + t);
    WindowOfSuffix(u, w + t, n);
  }

  /** The samples of a run of calls that are not `None`, in arrival order. */
  function Present(inputs: seq<Option<Point>>): seq<Point> {
    if inputs == [] then []
    else (if inputs[0].Some? then [inputs[0].value] else []) + Present(inputs[1..])
  }

  /** The buffer after a run of `apply_stability_filter` calls. */
  function Feed(buffer: seq<Point>, inputs: seq<Option<Point>>, size: nat): seq<Point>
    decreases |inputs|
  {
    if inputs == [] then buffer
    else
      var next := if inputs[0].Some? then Push(buffer, inputs[0].value, size) else buffer;
      Feed(next, inputs[1..], size)
  }

  /** FIFO: after any run of calls the buffer holds the most recent `size`
      samples, in arrival order. */
  lemma {:induction false} FeedKeepsMostRecent(buffer: seq<Point>, inputs: seq<Option<Point>>, size: nat)
    requires |buffer| <= size
    ensures Feed(buffer, inputs, size) == Window(buffer + Present(inputs), size)
    decreases |inputs|
  {
    if inputs == [] {
      assert buffer + Present(inputs) == buffer;
    } else {
      var rest := inputs[1..];
      if inputs[0].Some? {
        var p := inputs[0].value;
        var next := Push(buffer, p, size);
        PushIsWindow(buffer, p, size);
        assert Feed(buffer, inputs, size) == Feed(next, rest, size);
        FeedKeepsMostRecent(next, rest, size);
        WindowOfWindow(buffer + [p], Present(rest), size);
        assert Present(inputs) == [p] + Present(rest);
        assert buffer + Present(inputs) == (buffer + [p]) + Present(rest);
      } else {
        assert Feed(buffer, inputs, size) == Feed(buffer, rest, size);
        FeedKeepsMostRecent(buffer, rest, size);
        assert Present(inputs) == Present(rest);
      }
    }
  }

  // ---------------------------------------------------------------------------
  // Drift rejection: the output of one call

  function SumX(s: seq<Point>): int {
    if s == [] then 0 else s[0].x + SumX(s[1..])
  }

  function SumY(s: seq<Point>): int {
    if s == [] then 0 else s[0].y + SumY(s[1..])
  }

  /** Squared distance from `current` to the buffer mean, in exact arithmetic. */
  function MovementSq(buffer: seq<Point>, current: Point): real
    requires buffer != []
  {
    var n := |buffer| as real;
    var dx := current.x as real - SumX(buffer) as real / n;
    var dy := current.y as real - SumY(buffer) as real / n;
    dx * dx + dy * dy
  }

  /** `(int(avg_x), int(avg_y))` */
  function MeanPoint(buffer: seq<Point>): Point
    requires buffer != []
  {
    var n := |buffer| as real;
    Point(Trunc(SumX(buffer) as real / n), Trunc(SumY(buffer) as real / n))
  }

  function Sq(a: int): int {
    a * a
  }

  /** What `apply_stability_filter` returns once `buffer` (which already holds
      `current`) has been updated: the sample itself while the buffer is not yet
      full; otherwise the sample when it is farther than `threshold` from the
      buffer mean, and the truncated mean when it is not. The contract gives the
      same decision in integers alone. */
  function FilterOutput(buffer: seq<Point>, current: Point, size: nat, threshold: int): (r: Point)
    requires buffer != []
    ensures |buffer| < size ==> r == current
    ensures |buffer| >= size && threshold >= 0 ==>
      var n := |buffer|;
      r == if Sq(n * current.x - SumX(buffer)) + Sq(n * current.y - SumY(buffer)) > Sq(n * threshold)
           then current
           else Point(TruncDiv(SumX(buffer), n), TruncDiv(SumY(buffer), n))
  {
    if |buffer| < size then current
    else if threshold < 0 then RejectDrift(buffer, current, threshold)
    else
      IntegerDistanceTest(buffer, current, threshold);
      TruncOfQuotient(SumX(buffer), |buffer|);
      TruncOfQuotient(SumY(buffer), |buffer|);
      RejectDrift(buffer, current, threshold)
  }

  /** The full-buffer decision as the Python code computes it, in exact reals. */
  function RejectDrift(buffer: seq<Point>, current: Point, threshold: int): Point
    requires buffer != []
  {
    if DistanceExceeds(MovementSq(buffer, current), threshold as real) then current
    else MeanPoint(buffer)
  }

  /** `sqrt((cx - sx/n)^2 + (cy - sy/n)^2) > t`, squared and multiplied by `n^2`. */
  lemma ScaledDistance(cx: real, cy: real, sx: real, sy: real, n: real, t: real)
    requires n > 0.0
    ensures (cx - sx / n) * (cx - sx / n) + (cy - sy / n) * (cy - sy / n) > t * t
        <==> (n * cx - sx) * (n * cx - sx) + (n * cy - sy) * (n * cy - sy) > (n * t) * (n * t)
  {
    var a, b := n * cx - sx, n * cy - sy;
    DiffQuotient(n, cx, sx);
    DiffQuotient(n, cy, sy);
    QuotientProduct(a, a, n, n);
    QuotientProduct(b, b, n, n);
    DivAdd(a * a, b * b, n, n);
    DivGreater(a * a + b * b, n, n, t * t);
    Rearrange(t, t, n, n);
  }

  lemma IntegerDistanceTest(buffer: seq<Point>, current: Point, threshold: int)
    requires buffer != [] && threshold >= 0
    ensures DistanceExceeds(MovementSq(buffer, current), threshold as real) <==>
      var n := |buffer|;
      Sq(n * current.x - SumX(buffer)) + Sq(n * current.y - SumY(buffer)) > Sq(n * threshold)
  {
    var n := |buffer|;
    var sx, sy := SumX(buffer), SumY(buffer);
    var a, b := n * current.x - sx, n * current.y - sy;
    ScaledDistance(current.x as real, current.y as real, sx as real, sy as real, n as real, threshold as real);
    CastMul(n, current.x);
    CastMul(n, current.y);
    CastMul(n, threshold);
    CastMul(a, a);
    CastMul(b, b);
    CastMul(n * threshold, n * threshold);
  }

  lemma {:induction false} SumOfCopies(s: seq<Point>, p: Point)
    requires forall i :: 0 <= i < |s| ==> s[i] == p
    ensures SumX(s) == |s| * p.x && SumY(s) == |s| * p.y
  {
    if s != [] {
      SumOfCopies(s[1..], p);
    }
  }

  /** A buffer holding only copies of the current sample gives that sample back. */
  lemma UniformBufferReturnsSample(buffer: seq<Point>, p: Point, size: nat, threshold: int)
    requires buffer != []
    requires forall i :: 0 <= i < |buffer| ==> buffer[i] == p
    ensures FilterOutput(buffer, p, size, threshold) == p
  {
    var n := |buffer|;
    SumOfCopies(buffer, p);
    assert SumX(buffer) as real / n as real == p.x as real;
    assert SumY(buffer) as real / n as real == p.y as real;
    TruncOfInt(p.x);
    TruncOfInt(p.y);
    assert MeanPoint(buffer) == p;
  }

  /** Feeding the same sample at least `size` times in a row fills the buffer
      with it, and the call that completes the run returns it unchanged. */
  lemma RepeatedSampleIsReturned(buffer: seq<Point>, p: Point, size: nat, threshold: int, k: nat)
    requires 0 < size <= k && |buffer| <= size
    ensures var b := Feed(buffer, seq(k, _ => Some(p)), size);
      b == seq(size, _ => p) && FilterOutput(b, p, size, threshold) == p
  {
    var inputs := seq(k, _ => Some(p));
    PresentOfCopies(p, k);
    FeedKeepsMostRecent(buffer, inputs, size);
    var all := buffer + seq(k, _ => p);
    var b := Window(all, size);
    assert |b| == size;
    forall i | 0 <= i < size
      ensures b[i] == p
    {
      assert b[i] == all[|all| - size + i];
    }
    assert b == seq(size, _ => p);
    UniformBufferReturnsSample(b, p, size, threshold);
  }

  lemma {:induction false} PresentOfCopies(p: Point, k: nat)
    ensures Present(seq(k, _ => Some(p))) == seq(k, _ => p)
  {
    if k > 0 {
      var inputs := seq(k, _ => Some(p));
      assert inputs[1..] == seq(k - 1, _ => Some(p));
      PresentOfCopies(p, k - 1);
      assert seq(k, _ => p) == [p] + seq(k - 1, _ => p);
    }
  }

  // ---------------------------------------------------------------------------
  // The filter object

  /** `StabilityFilter`: a bounded buffer of recent camera points. */
  class StabilityFilter {
    var stabilityBuffer: seq<Point>
    const bufferSize: nat
    const movementThreshold: int

    ghost predicate Valid()
      reads this
    {
      0 < bufferSize && |stabilityBuffer| <= bufferSize
    }

    /** A buffer size of 0 would make the first sample divide by zero. */
    constructor (bufferSize: nat, movementThreshold: int)
      requires bufferSize > 0
      ensures Valid()
      ensures stabilityBuffer == []
      ensures this.bufferSize == bufferSize && this.movementThreshold == movementThreshold
    {
      stabilityBuffer := [];
      this.bufferSize := bufferSize;
      this.movementThreshold := movementThreshold;
    }

    /** `apply_stability_filter` */
    method ApplyStabilityFilter(currentPos: Option<Point>) returns (r: Option<Point>)
      requires Valid()
      modifies this
      ensures Valid()
      ensures currentPos.None? ==> r.None? && stabilityBuffer == old(stabilityBuffer)
      ensures currentPos.Some? ==>
        && stabilityBuffer == Push(old(stabilityBuffer), currentPos.value, bufferSize)
        && r == Some(FilterOutput(stabilityBuffer, currentPos.value, bufferSize, movementThreshold))
    {
      if currentPos.None? {
        return None;
      }
      var p := currentPos.value;
      stabilityBuffer := stabilityBuffer + [p];
      if |stabilityBuffer| > bufferSize {
        stabilityBuffer := stabilityBuffer[1..];
      }
      if |stabilityBuffer| < bufferSize {
        return Some(p);
      }
      var movement := MovementSq(stabilityBuffer, p);
      if DistanceExceeds(movement, movementThreshold as real) {
        return Some(p);
      }
      return Some(MeanPoint(stabilityBuffer));
    }
  }
}
