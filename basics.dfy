/** Value types shared by every component of the gesture pipeline, the numeric
    conversions the Python code performs (`int()` on a float, `max(lo, min(hi, v))`),
    and the two library functions it calls (`np.exp`, `math.atan2`), which are
    taken as parameters whose ranges are stated by their types. */
module Basics {

  datatype Option<T> = None | Some(value: T)

  /** An integer pixel pair, in camera space or in screen space. */
  datatype Point = Point(x: int, y: int)

  /** The gesture labels "NONE", "MODE_1", "MODE_2" and "MODE_3". */
  datatype Mode = NoMode | Mode1 | Mode2 | Mode3

  /** `mode in ["MODE_1", "MODE_2", "MODE_3"]` */
  predicate IsActive(m: Mode) {
    m != NoMode
  }

  /** One normalized hand keypoint reported by the landmark detector. */
  datatype Landmark = Landmark(x: real, y: real, z: real)

  /** The 21 landmarks of one tracked hand, indexed by the anatomical scheme
      (wrist 0, thumb IP 3, thumb tip 4, index MCP 5, index PIP 6, index tip 8,
      middle MCP 9, middle PIP 10, middle tip 12, pinky PIP 18, pinky tip 20). */
  type Hand = s: seq<Landmark> | |s| == 21 witness seq(21, _ => Landmark(0.0, 0.0, 0.0))

  function Abs(n: int): (r: nat)
    ensures r == n || r == -n
  {
    if n < 0 then -n else n
  }

  function Min(a: int, b: int): (r: int)
    ensures r <= a && r <= b && (r == a || r == b)
  {
    if a <= b then a else b
  }

  function Max(a: int, b: int): (r: int)
    ensures r >= a && r >= b && (r == a || r == b)
  {
    if a >= b then a else b
  }

  /** Python's `int(r)` on a float: truncation toward zero. */
  function Trunc(r: real): (n: int)
    ensures r >= 0.0 ==> n as real <= r < n as real + 1.0
    ensures r < 0.0 ==> n as real - 1.0 < r <= n as real
  {
    if r >= 0.0 then r.Floor else -((-r).Floor)
  }

  /** Truncation is symmetric about zero. */
  lemma TruncNegate(r: real)
    ensures Trunc(-r) == -Trunc(r)
  {
  }

  lemma TruncOfInt(n: int)
    ensures Trunc(n as real) == n
  {
  }

  /** Truncation is monotone, and an integer bound on a real is kept by it. */
  lemma TruncMonotone(a: real, b: real)
    requires a <= b
    ensures Trunc(a) <= Trunc(b)
  {
  }

  lemma TruncBetween(r: real, lo: int, hi: int)
    requires lo as real <= r <= hi as real
    ensures lo <= Trunc(r) <= hi
  {
  }

  /** Integer division truncating toward zero, as `int(a / n)` does. */
  function TruncDiv(a: int, n: int): int
    requires n > 0
  {
    if a >= 0 then a / n else -((-a) / n)
  }

  /** `int(a / n)` on exact quotients is truncating integer division. */
  lemma TruncOfQuotient(a: int, n: int)
    requires n > 0
    ensures Trunc(a as real / n as real) == TruncDiv(a, n)
  {
    var m := if a >= 0 then a else -a;
    var q, r := m / n, m % n;
    var nr := n as real;
    assert m == q * n + r;
    CastMul(q, n);
    DivOfSum(q as real, r as real, nr);
    FractionBelowOne(r as real, nr);
    assert m as real / nr == q as real + r as real / nr;
    if a >= 0 {
      assert a as real / nr == m as real / nr;
    } else {
      assert a as real / nr == -(m as real / nr);
    }
  }

  /** `max(lo, min(hi, v))`, the clamping idiom used for tracking areas and screens. */
  function Clamp(lo: int, hi: int, v: int): (r: int)
    ensures lo <= r
    ensures lo <= hi ==> r <= hi
    ensures lo <= v <= hi ==> r == v
    ensures lo <= hi && v > hi ==> r == hi
    ensures v < lo ==> r == lo
  {
    Max(lo, Min(hi, v))
  }

  lemma ClampMonotone(lo: int, hi: int, a: int, b: int)
    requires a <= b
    ensures Clamp(lo, hi, a) <= Clamp(lo, hi, b)
  {
  }

  /** The range facts of `np.exp` that the core relies on. */
  ghost predicate ExpRange(f: real -> real) {
    && (forall x :: x >= 0.0 ==> f(x) >= 1.0)
    && (forall x :: x <= 0.0 ==> 0.0 < f(x) <= 1.0)
  }

  /** `np.exp`, known only through its range. */
  type ExpFn = f: real -> real | ExpRange(f) witness (x: real) => 1.0

  /** `math.pi` as a float literal. */
  const Pi: real := 3.141592653589793

  ghost predicate AngleRange(f: (real, real) -> real) {
    forall y, x :: -Pi <= f(y, x) <= Pi
  }

  /** `math.atan2(y, x)`, known only through its range [-pi, pi]. */
  type Atan2Fn = f: (real, real) -> real | AngleRange(f) witness (y: real, x: real) => 0.0

  /** Squared Euclidean distance of two landmarks in the image plane. */
  function SqDist(a: Landmark, b: Landmark): (d2: real)
    ensures d2 >= 0.0
  {
    (a.x - b.x) * (a.x - b.x) + (a.y - b.y) * (a.y - b.y)
  }

  /** `sqrt(d2) > t` without a square root. */
  predicate DistanceExceeds(d2: real, t: real) {
    t < 0.0 || d2 > t * t
  }

  /** `sqrt(d2) < t` without a square root. */
  predicate DistanceBelow(d2: real, t: real) {
    t > 0.0 && d2 < t * t
  }

  /** The square-free forms agree with the comparisons on the distance itself. */
  lemma DistanceExceedsIsSound(d: real, t: real)
    requires d >= 0.0
    ensures d > t <==> DistanceExceeds(d * d, t)
  {
    if t >= 0.0 {
      var dd, dt, tt := d * d, d * t, t * t;
      if d > t {
        assert dd > dt && dt >= tt;
      } else {
        assert dd <= dt && dt <= tt;
      }
    }
  }

  lemma DistanceBelowIsSound(d: real, t: real)
    requires d >= 0.0
    ensures d < t <==> DistanceBelow(d * d, t)
  {
    if t > 0.0 {
      var dd, dt, tt := d * d, d * t, t * t;
      if d < t {
        assert dd <= dt && dt < tt;
      } else {
        assert dd >= dt && dt >= tt;
      }
    }
  }

  // ---------------------------------------------------------------------------
  // Proof steps in exact real and integer arithmetic, used by the truncation
  // lemmas above, the drift test of the stability filter, the axis scaling of
  // the coordinate mapper and the gain bounds of the cursor. Each one states a
  // single step over distinct parameters, so that callers can instantiate it
  // with squares and products that the solver would otherwise not relate.

  lemma MulPos(a: real, b: real)
    requires a > 0.0 && b > 0.0
    ensures a * b > 0.0
  {
  }

  lemma MulNonneg(a: real, b: real)
    requires a >= 0.0 && b >= 0.0
    ensures a * b >= 0.0
  {
  }

  lemma CastMul(x: int, y: int)
    ensures (x * y) as real == x as real * y as real
  {
  }

  lemma DivOfSum(q: real, r: real, n: real)
    requires n > 0.0
    ensures (q * n + r) / n == q + r / n
  {
    var f := r / n;
    assert f * n == r;
    assert (q + f) * n == q * n + r;
  }

  lemma FractionBelowOne(r: real, n: real)
    requires n > 0.0 && 0.0 <= r < n
    ensures 0.0 <= r / n < 1.0
  {
    var f := r / n;
    assert f * n == r;
    if f < 0.0 {
      MulPos(-f, n);
    }
    if f >= 1.0 {
      MulNonneg(f - 1.0, n);
    }
  }

  lemma DiffQuotient(n: real, c: real, s: real)
    requires n > 0.0
    ensures c - s / n == (n * c - s) / n
  {
    var q := s / n;
    assert q * n == s;
    var r := (n * c - s) / n;
    assert r * n == n * c - s;
    assert (c - q) * n == n * c - s;
  }

  lemma QuotientProduct(a: real, b: real, n: real, m: real)
    requires n > 0.0 && m > 0.0
    ensures (a / n) * (b / m) == (a * b) / (n * m)
  {
    var p, q := a / n, b / m;
    assert p * n == a;
    assert q * m == b;
    MulPos(n, m);
    assert (p * q) * (n * m) == (p * n) * (q * m);
  }

  lemma DivAdd(x: real, y: real, n: real, m: real)
    requires n > 0.0 && m > 0.0
    ensures x / (n * m) + y / (n * m) == (x + y) / (n * m)
  {
    MulPos(n, m);
    var d := n * m;
    var p, q := x / d, y / d;
    assert p * d == x && q * d == y;
    assert (p + q) * d == x + y;
  }

  lemma DivGreater(x: real, n: real, m: real, y: real)
    requires n > 0.0 && m > 0.0
    ensures x / (n * m) > y <==> x > y * (n * m)
  {
    MulPos(n, m);
    var d := n * m;
    var q := x / d;
    assert q * d == x;
    if q > y {
      MulPos(q - y, d);
      assert (q - y) * d == q * d - y * d;
    } else {
      MulNonneg(y - q, d);
      assert (y - q) * d == y * d - q * d;
    }
  }

  lemma Rearrange(a: real, b: real, c: real, d: real)
    ensures (a * b) * (c * d) == (c * a) * (d * b)
  {
  }

  lemma MulNonnegInt(a: int, b: int)
    requires a >= 0 && b >= 0
    ensures a * b >= 0
  {
  }

  lemma QuotientTimes(a: real, d: real, e: real)
    requires d > 0.0
    ensures (a / d) * e == (a * e) / d
  {
    var p := a / d;
    assert p * d == a;
    assert (p * e) * d == (p * d) * e;
  }

  /** `int(a / d * e)` on exact quotients, for a non-negative ratio and factor. */
  lemma TruncScaledQuotient(a: int, d: int, e: int)
    requires d > 0 && a >= 0 && e >= 0
    ensures Trunc(a as real / d as real * e as real) == a * e / d
  {
    QuotientTimes(a as real, d as real, e as real);
    CastMul(a, e);
    assert a as real / d as real * e as real == (a * e) as real / d as real;
    MulNonnegInt(a, e);
    TruncOfQuotient(a * e, d);
  }
}
