/** Camera-to-screen mapping: clamp a camera pixel into the tracking rectangle,
    then scale it affinely onto the screen and truncate (src/coordinate_mapper.py;
    the guarded variants live in src/cursor_controller.py and hand_tracker.py). */
module Mapping {
  import opened Basics

  /** The `tracking_area` dictionary. */
  datatype TrackingArea = TrackingArea(left: int, right: int, top: int, bottom: int) {
    /** Neither axis divides by zero. */
    predicate Divisible() {
      left != right && top != bottom
    }

    predicate NonDegenerate() {
      left < right && top < bottom
    }
  }

  /** Camera frame size and inset used by both trackers. */
  const CamWidth: int := 640
  const CamHeight: int := 480
  const Margin: int := 25

  /** The camera frame inset by `margin` on every side. */
  function InsetArea(camWidth: int, camHeight: int, margin: int): (a: TrackingArea)
    ensures a.right - a.left == camWidth - 2 * margin
    ensures a.bottom - a.top == camHeight - 2 * margin
    ensures 2 * margin < camWidth && 2 * margin < camHeight ==> a.NonDegenerate()
  {
    TrackingArea(margin, camWidth - margin, margin, camHeight - margin)
  }

  lemma DefaultAreaIsInset()
    ensures InsetArea(CamWidth, CamHeight, Margin) == TrackingArea(25, 615, 25, 455)
    ensures InsetArea(CamWidth, CamHeight, Margin).NonDegenerate()
  {
  }

  /** One axis of `map_to_screen`: `int((max(lo, min(hi, v)) - lo) / (hi - lo) * extent)`. */
  function ScaleAxis(v: int, lo: int, hi: int, extent: nat): int
    requires lo != hi
  {
    Trunc((Clamp(lo, hi, v) - lo) as real / (hi - lo) as real * extent as real)
  }

  /** With exact division the scaled axis is floor division in integers. */
  lemma ScaleAxisIsIntegerDivision(v: int, lo: int, hi: int, extent: nat)
    requires lo < hi
    ensures ScaleAxis(v, lo, hi, extent) == (Clamp(lo, hi, v) - lo) * extent / (hi - lo)
  {
    var a, d := Clamp(lo, hi, v) - lo, hi - lo;
    assert ScaleAxis(v, lo, hi, extent) == Trunc(a as real / d as real * extent as real);
    TruncScaledQuotient(a, d, extent);
  }

  /** A rectangle given backwards makes the clamp pin every input to `lo`, so the
      axis is 0 without a division by zero. */
  lemma ReversedAxisIsZero(v: int, lo: int, hi: int, extent: nat)
    requires hi < lo
    ensures ScaleAxis(v, lo, hi, extent) == 0
  {
    assert Clamp(lo, hi, v) == lo;
    TruncOfInt(0);
  }

  /** The two edges of the rectangle reach the two edges of the screen. */
  lemma ScaleAxisEdges(lo: int, hi: int, extent: nat)
    requires lo < hi
    ensures ScaleAxis(lo, lo, hi, extent) == 0
    ensures ScaleAxis(hi, lo, hi, extent) == extent
  {
    ScaleAxisIsIntegerDivision(lo, lo, hi, extent);
    ScaleAxisIsIntegerDivision(hi, lo, hi, extent);
    MulDivCancel(hi - lo, extent);
  }

  lemma MulDivCancel(d: int, e: int)
    requires d > 0
    ensures d * e / d == e
  {
    var n := d * e;
    var q, r := n / d, n % d;
    assert n == q * d + r;
    assert (e - q) * d == r;
    if e - q > 0 {
      MulNonnegInt(e - q - 1, d);
    } else if e - q < 0 {
      MulNonnegInt(q - e, d);
    }
  }

  lemma ScaleAxisRange(v: int, lo: int, hi: int, extent: nat)
    requires lo < hi
    ensures 0 <= ScaleAxis(v, lo, hi, extent) <= extent
  {
    ScaleAxisIsIntegerDivision(v, lo, hi, extent);
    var a, d := Clamp(lo, hi, v) - lo, hi - lo;
    MulNonnegInt(a, extent);
    MulNonnegInt(d - a, extent);
    assert (d - a) * extent == d * extent - a * extent;
    DivBelow(a * extent, d, extent);
  }

  lemma DivBelow(n: int, d: int, e: int)
    requires d > 0 && 0 <= n <= d * e
    ensures 0 <= n / d <= e
  {
    var q := n / d;
    assert n == q * d + n % d;
    if q > e {
      MulNonnegInt(q - e - 1, d);
    }
    if q < 0 {
      MulNonnegInt(-q - 1, d);
    }
  }

  lemma DivMonotone(m: int, n: int, d: int)
    requires d > 0 && m <= n
    ensures m / d <= n / d
  {
    var p, q := m / d, n / d;
    assert m == p * d + m % d;
    assert n == q * d + n % d;
    if p > q {
      MulNonnegInt(p - q - 1, d);
    }
  }

  /** Moving the hand right (down) never moves the pointer left (up); inputs
      beyond an edge all map like the edge. */
  lemma ScaleAxisMonotone(v: int, w: int, lo: int, hi: int, extent: nat)
    requires lo < hi && v <= w
    ensures ScaleAxis(v, lo, hi, extent) <= ScaleAxis(w, lo, hi, extent)
    ensures v <= lo ==> ScaleAxis(v, lo, hi, extent) == ScaleAxis(lo, lo, hi, extent)
    ensures w >= hi ==> ScaleAxis(w, lo, hi, extent) == ScaleAxis(hi, lo, hi, extent)
  {
    ScaleAxisIsIntegerDivision(v, lo, hi, extent);
    ScaleAxisIsIntegerDivision(w, lo, hi, extent);
    ScaleAxisIsIntegerDivision(lo, lo, hi, extent);
    ScaleAxisIsIntegerDivision(hi, lo, hi, extent);
    ClampMonotone(lo, hi, v, w);
    ScaledNumeratorMonotone(Clamp(lo, hi, v) - lo, Clamp(lo, hi, w) - lo, extent, hi - lo);
  }

  lemma ScaledNumeratorMonotone(a: int, b: int, e: int, d: int)
    requires 0 <= a <= b && e >= 0 && d > 0
    ensures a * e / d <= b * e / d
  {
    MulNonnegInt(b - a, e);
    assert (b - a) * e == b * e - a * e;
    DivMonotone(a * e, b * e, d);
  }

  /** `CoordinateMapper`: screen and camera sizes and the tracking area, fixed
      at construction. */
  datatype CoordinateMapper = CoordinateMapper(
    screenWidth: nat, screenHeight: nat, camWidth: int, camHeight: int, trackingArea: TrackingArea)
  {
    /** `map_to_screen`. The source divides by the rectangle's width and height
        without a guard, so those must not be zero. */
    function MapToScreen(camX: int, camY: int): (p: Point)
      requires trackingArea.Divisible()
      ensures trackingArea.NonDegenerate() ==>
        && p.x == (Clamp(trackingArea.left, trackingArea.right, camX) - trackingArea.left) * screenWidth
                  / (trackingArea.right - trackingArea.left)
        && p.y == (Clamp(trackingArea.top, trackingArea.bottom, camY) - trackingArea.top) * screenHeight
                  / (trackingArea.bottom - trackingArea.top)
      ensures trackingArea.NonDegenerate() ==> 0 <= p.x <= screenWidth && 0 <= p.y <= screenHeight
    {
      var a := trackingArea;
      if a.NonDegenerate() then
        ScaleAxisIsIntegerDivision(camX, a.left, a.right, screenWidth);
        ScaleAxisIsIntegerDivision(camY, a.top, a.bottom, screenHeight);
        ScaleAxisRange(camX, a.left, a.right, screenWidth);
        ScaleAxisRange(camY, a.top, a.bottom, screenHeight);
        Point(ScaleAxis(camX, a.left, a.right, screenWidth), ScaleAxis(camY, a.top, a.bottom, screenHeight))
      else
        Point(ScaleAxis(camX, a.left, a.right, screenWidth), ScaleAxis(camY, a.top, a.bottom, screenHeight))
    }
  }

  /** The corners of the tracking area reach the corners of the screen, both
      inclusive. */
  lemma MapToScreenCorners(m: CoordinateMapper)
    requires m.trackingArea.NonDegenerate()
    ensures m.MapToScreen(m.trackingArea.left, m.trackingArea.top) == Point(0, 0)
    ensures m.MapToScreen(m.trackingArea.right, m.trackingArea.bottom) == Point(m.screenWidth, m.screenHeight)
  {
    var a := m.trackingArea;
    ScaleAxisEdges(a.left, a.right, m.screenWidth);
    ScaleAxisEdges(a.top, a.bottom, m.screenHeight);
  }

  lemma MapToScreenMonotone(m: CoordinateMapper, x1: int, y1: int, x2: int, y2: int)
    requires m.trackingArea.NonDegenerate()
    requires x1 <= x2 && y1 <= y2
    ensures m.MapToScreen(x1, y1).x <= m.MapToScreen(x2, y2).x
    ensures m.MapToScreen(x1, y1).y <= m.MapToScreen(x2, y2).y
  {
    var a := m.trackingArea;
    ScaleAxisMonotone(x1, x2, a.left, a.right, m.screenWidth);
    ScaleAxisMonotone(y1, y2, a.top, a.bottom, m.screenHeight);
  }

  /** A camera point outside the rectangle maps like its clamped version. */
  lemma MapToScreenClamps(m: CoordinateMapper, camX: int, camY: int)
    requires m.trackingArea.NonDegenerate()
    ensures var a := m.trackingArea;
      m.MapToScreen(camX, camY) == m.MapToScreen(Clamp(a.left, a.right, camX), Clamp(a.top, a.bottom, camY))
  {
  }

  /** `map_to_screen_coordinates`, the guarded copy of the mapping
      (src/cursor_controller.py, and identically hand_tracker.py): the camera
      point is clamped first, and a rectangle without positive width and height
      maps everything to (0, 0). Each axis is then the same clamp-and-scale as
      `map_to_screen`. */
  function MapToScreenCoordinates(screenWidth: nat, screenHeight: nat, area: TrackingArea, camX: int, camY: int): (p: Point)
    ensures !area.NonDegenerate() ==> p == Point(0, 0)
    ensures area.NonDegenerate() ==>
      p == CoordinateMapper(screenWidth, screenHeight, CamWidth, CamHeight, area).MapToScreen(camX, camY)
    ensures 0 <= p.x <= screenWidth && 0 <= p.y <= screenHeight
  {
    var trackingWidth := area.right - area.left;
    var trackingHeight := area.bottom - area.top;
    if trackingWidth <= 0 || trackingHeight <= 0 then Point(0, 0)
    else Point(ScaleAxis(camX, area.left, area.right, screenWidth), ScaleAxis(camY, area.top, area.bottom, screenHeight))
  }
}
