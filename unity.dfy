/**
 * The engine services the controllers lean on, reduced to what the
 * controllers observe of them: Mathf's clamping and interpolation, C#'s
 * floating-point remainder, three-component vectors, and transforms that
 * are shared by reference.  Floats are modelled as reals.
 */
module Unity {

  datatype Option<+T> = None | Some(value: T)

  /** A Vector3; only the component-wise arithmetic is modelled. */
  datatype Vec3 = Vec3(x: real, y: real, z: real)

  /** A Vector2, used by the attribute records as a (cliff, hill) pair. */
  datatype Vec2 = Vec2(x: real, y: real)

  const Zero: Vec3 := Vec3(0.0, 0.0, 0.0)

  function Add(a: Vec3, b: Vec3): Vec3 { Vec3(a.x + b.x, a.y + b.y, a.z + b.z) }

  function Sub(a: Vec3, b: Vec3): Vec3 { Vec3(a.x - b.x, a.y - b.y, a.z - b.z) }

  function Scale(a: Vec3, k: real): Vec3 { Vec3(a.x * k, a.y * k, a.z * k) }

  function SqrMagnitude(a: Vec3): real { a.x * a.x + a.y * a.y + a.z * a.z }

  /** The vector with its vertical component dropped, as the camera does before normalising. */
  function Flatten(a: Vec3): Vec3 { Vec3(a.x, 0.0, a.z) }

  function Dot(a: Vec3, b: Vec3): real { a.x * b.x + a.y * b.y + a.z * b.z }

  /** Scaling twice is scaling once by the product of the factors. */
  lemma ScaleTwice(v: Vec3, a: real, b: real)
    ensures Scale(Scale(v, a), b) == Scale(v, a * b)
  {
    assert (v.x * a) * b == v.x * (a * b);
    assert (v.y * a) * b == v.y * (a * b);
    assert (v.z * a) * b == v.z * (a * b);
  }

  /** Scaling a vector scales its squared length by the square of the factor. */
  lemma ScaleSqrMagnitude(v: Vec3, k: real)
    ensures SqrMagnitude(Scale(v, k)) == (k * k) * SqrMagnitude(v)
  {
    assert (v.x * k) * (v.x * k) == (k * k) * (v.x * v.x);
    assert (v.y * k) * (v.y * k) == (k * k) * (v.y * v.y);
    assert (v.z * k) * (v.z * k) == (k * k) * (v.z * v.z);
  }

  /** The squared length of a difference, expanded through the dot product. */
  lemma SqrMagnitudeOfDifference(a: Vec3, b: Vec3)
    ensures SqrMagnitude(Sub(a, b)) == SqrMagnitude(a) - 2.0 * Dot(a, b) + SqrMagnitude(b)
  {
    assert (a.x - b.x) * (a.x - b.x) == a.x * a.x - 2.0 * (a.x * b.x) + b.x * b.x;
    assert (a.y - b.y) * (a.y - b.y) == a.y * a.y - 2.0 * (a.y * b.y) + b.y * b.y;
    assert (a.z - b.z) * (a.z - b.z) == a.z * a.z - 2.0 * (a.z * b.z) + b.z * b.z;
  }

  /** Scaling both sides of a dot product scales it by the product of the factors. */
  lemma DotOfScaled(a: Vec3, b: Vec3, j: real, k: real)
    ensures Dot(Scale(a, j), Scale(b, k)) == (j * k) * Dot(a, b)
  {
    assert (a.x * j) * (b.x * k) == (j * k) * (a.x * b.x);
    assert (a.y * j) * (b.y * k) == (j * k) * (a.y * b.y);
    assert (a.z * j) * (b.z * k) == (j * k) * (a.z * b.z);
  }

  /** The state a Mathf.SmoothDamp call leaves behind: the new value and the new velocity. */
  datatype Damped = Damped(value: real, velocity: real)

  /**
   * Mathf.SmoothDamp(current, target, ref velocity, smoothTime); its
   * critically damped internals are not modelled, so callers receive it
   * as a value.
   */
  type Damper = (real, real, real, real) -> Damped

  /** A hit reported by a linecast: where it struck and the (unit) surface normal there. */
  datatype Obstacle = Obstacle(point: Vec3, normal: Vec3)

  /** A Unity Transform, of which only the position is modelled; compared by reference. */
  class Transform {
    var position: Vec3

    constructor (p: Vec3)
      ensures position == p
    {
      position := p;
    }
  }

  function Abs(x: real): (r: real)
    ensures r >= 0.0 && (r == x || r == -x)
  {
    if x < 0.0 then -x else x
  }

  function Min(a: real, b: real): (r: real)
    ensures r <= a && r <= b && (r == a || r == b)
  {
    if a <= b then a else b
  }

  function Max(a: real, b: real): (r: real)
    ensures r >= a && r >= b && (r == a || r == b)
  {
    if a >= b then a else b
  }

  /** Mathf.Clamp(value, lo, hi). */
  function Clamp(value: real, lo: real, hi: real): (r: real)
    requires lo <= hi
    ensures lo <= r <= hi
    ensures lo <= value <= hi ==> r == value
    ensures value < lo ==> r == lo
    ensures value > hi ==> r == hi
  {
    if value < lo then lo else if value > hi then hi else value
  }

  /** Mathf.Clamp01(value). */
  function Clamp01(value: real): (r: real)
    ensures 0.0 <= r <= 1.0
    ensures 0.0 <= value <= 1.0 ==> r == value
    ensures value <= 0.0 ==> r == 0.0
    ensures value >= 1.0 ==> r == 1.0
  {
    Clamp(value, 0.0, 1.0)
  }

  /** Mathf.Lerp(a, b, t): the interpolation parameter is clamped to [0, 1] first. */
  function Lerp(a: real, b: real, t: real): (r: real)
    ensures t <= 0.0 ==> r == a
    ensures t >= 1.0 ==> r == b
    ensures Min(a, b) <= r <= Max(a, b)
  {
    var s := Clamp01(t);
    InterpolationBounds(a, b, s);
    a + (b - a) * s
  }

  /** Vector3.Lerp(a, b, t), which clamps t the same way. */
  function LerpVec(a: Vec3, b: Vec3, t: real): (r: Vec3)
    ensures t <= 0.0 ==> r == a
    ensures t >= 1.0 ==> r == b
    ensures Min(a.x, b.x) <= r.x <= Max(a.x, b.x)
    ensures Min(a.y, b.y) <= r.y <= Max(a.y, b.y)
    ensures Min(a.z, b.z) <= r.z <= Max(a.z, b.z)
  {
    Vec3(Lerp(a.x, b.x, t), Lerp(a.y, b.y, t), Lerp(a.z, b.z, t))
  }

  lemma InterpolationBounds(a: real, b: real, s: real)
    requires 0.0 <= s <= 1.0
    ensures Min(a, b) <= a + (b - a) * s <= Max(a, b)
  {
    if a <= b {
      var d := b - a;
      FractionOf(d, s);
      assert Max(a, b) == b && Min(a, b) == a;
      assert a + d * s <= b;
    } else {
      FractionOf(a - b, s);
      assert (b - a) * s == -((a - b) * s);
    }
  }

  /** How far an in-range interpolation lies from each endpoint, with `u` the complement of `t`. */
  lemma LerpOffsets(a: real, b: real, t: real, u: real)
    requires 0.0 <= t <= 1.0 && u == 1.0 - t
    ensures Lerp(a, b, t) - a == (b - a) * t
    ensures Lerp(a, b, t) - b == (a - b) * u
  {
    assert Clamp01(t) == t;
    var d := b - a;
    assert Lerp(a, b, t) == a + d * t;
    assert (a - b) * u == d * t - d;
  }

  /** The same distances as magnitudes: each a share of the gap between the endpoints. */
  lemma LerpDistances(a: real, b: real, t: real, u: real)
    requires 0.0 <= t <= 1.0 && u == 1.0 - t
    ensures Abs(Lerp(a, b, t) - a) == Abs(b - a) * t
    ensures Abs(Lerp(a, b, t) - b) == Abs(b - a) * u
  {
    LerpOffsets(a, b, t, u);
    ScaleAbs(b - a, t);
    ScaleAbs(a - b, u);
    assert Abs(a - b) == Abs(b - a);
  }

  lemma ScaleAbs(d: real, k: real)
    requires k >= 0.0
    ensures Abs(d * k) == Abs(d) * k
  {
    if d < 0.0 {
      assert d * k == -((-d) * k);
    }
  }

  /** A fraction of a non-negative quantity lies between zero and the quantity. */
  lemma FractionOf(d: real, s: real)
    requires d >= 0.0 && 0.0 <= s <= 1.0
    ensures 0.0 <= d * s <= d
    ensures d > 0.0 && s < 1.0 ==> d * s < d
  {
    assert d * (1.0 - s) >= 0.0;
    assert d > 0.0 && s < 1.0 ==> d * (1.0 - s) > 0.0;
  }

  lemma MulMonotone(a: real, b: real, m: real)
    requires a <= b && m >= 0.0
    ensures a * m <= b * m
    ensures m * a <= m * b
  {
    assert (b - a) * m >= 0.0;
    assert m * (b - a) >= 0.0;
  }

  /** How a quotient by a positive divisor compares with 0 and 1. */
  lemma NormalisedBounds(r: real, m: real, d: real)
    requires m > 0.0 && r == d / m
    ensures r * m == d
    ensures r <= 0.0 <==> d <= 0.0
    ensures r == 0.0 <==> d == 0.0
    ensures r >= 1.0 <==> d >= m
    ensures 0.0 <= r <= 1.0 <==> 0.0 <= d <= m
  {
    assert r * m == d;
    if r < 0.0 {
      assert r * m < 0.0;
    } else if r >= 1.0 {
      MulMonotone(1.0, r, m);
    } else {
      FractionOf(m, r);
      assert m * r == r * m;
      assert d < m;
    }
  }

  /** Truncation toward zero, the rounding C# applies in its remainder operator. */
  function Trunc(x: real): (n: int)
    ensures x >= 0.0 ==> 0.0 <= n as real <= x < n as real + 1.0
    ensures x < 0.0 ==> n as real - 1.0 < x <= n as real <= 0.0
  {
    if x >= 0.0 then x.Floor else -((-x).Floor)
  }

  predicate IsWhole(x: real) { x == x.Floor as real }

  /**
   * C#'s `%` on floats: the remainder of a division truncated toward
   * zero, so the result takes the sign of the dividend (unlike Dafny's
   * Euclidean `%`).
   */
  function FloatRem(x: real, m: real): (r: real)
    requires m > 0.0
    ensures -m < r < m
    ensures x >= 0.0 ==> r >= 0.0
    ensures x <= 0.0 ==> r <= 0.0
    ensures 0.0 <= x < m ==> r == x
  {
    var q := x / m;
    var f := q - Trunc(q) as real;
    RemainderBounds(x, m, q, f);
    f * m
  }

  /** `x - Trunc(x / m) * m` written as the fraction the truncation drops, scaled back by the divisor. */
  lemma RemainderBounds(x: real, m: real, q: real, f: real)
    requires m > 0.0 && q == x / m && f == q - Trunc(q) as real
    ensures -m < f * m < m
    ensures x >= 0.0 ==> f * m >= 0.0
    ensures x <= 0.0 ==> f * m <= 0.0
    ensures 0.0 <= x < m ==> f * m == x
  {
    NormalisedBounds(q, m, x);
    FractionBounds(q, Trunc(q));
    SignedFraction(f, m);
  }

  /** What truncation leaves of a quotient: a fraction of the quotient's sign, the quotient itself below 1. */
  lemma FractionBounds(q: real, t: int)
    requires t == Trunc(q)
    ensures -1.0 < q - t as real < 1.0
    ensures q >= 0.0 ==> q - t as real >= 0.0
    ensures q <= 0.0 ==> q - t as real <= 0.0
    ensures 0.0 <= q < 1.0 ==> t == 0
  {
    if 0.0 <= q < 1.0 {
      assert 0.0 <= t as real < 1.0;
    }
  }

  lemma SignedFraction(f: real, m: real)
    requires m > 0.0 && -1.0 < f < 1.0
    ensures -m < f * m < m
    ensures f >= 0.0 ==> f * m >= 0.0
    ensures f <= 0.0 ==> f * m <= 0.0
  {
    if f >= 0.0 {
      FractionOf(m, f);
      assert m * f == f * m;
    } else {
      FractionOf(m, -f);
      assert f * m == -(m * (-f));
    }
  }

  /** Division by a positive number keeps order. */
  lemma DivMonotone(a: real, b: real, m: real)
    requires a <= b && m > 0.0
    ensures a / m <= b / m
  {
    NormalisedBounds((b - a) / m, m, b - a);
    assert b / m - a / m == (b - a) / m;
  }

  /** With modulus 1 the remainder differs from the dividend by a whole number of turns. */
  lemma {:induction false} FloatRemOneWhole(x: real)
    ensures IsWhole(x - FloatRem(x, 1.0))
  {
    var t := Trunc(x / 1.0);
    assert x / 1.0 == x;
    assert FloatRem(x, 1.0) == (x - t as real) * 1.0;
    assert x - FloatRem(x, 1.0) == t as real;
    assert (t as real).Floor == t;
  }
}
