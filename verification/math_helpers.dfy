/** Scalar helpers shared by the whole simulation: interpolation, clamping,
    frame-rate independent exponential damping and angle wrapping. */
module MathHelpers {
  import opened Host

  /** Linear interpolation from `a` (t = 0) to `b` (t = 1). */
  function Lerp(a: real, b: real, t: real): (r: real)
    ensures t == 0.0 ==> r == a
    ensures t == 1.0 ==> r == b
    ensures 0.0 <= t <= 1.0 ==> Between(r, a, b)
  {
    var k := b - a;
    var kt := k * t;
    if 0.0 <= t <= 1.0 then
      ScaleBetween(k, t);
      assert Between(kt, 0.0, k);
      a + kt
    else a + kt
  }

  /** Scaling `k` by a fraction in [0, 1] lands between 0 and `k`. */
  lemma ScaleBetween(k: real, t: real)
    requires 0.0 <= t <= 1.0
    ensures Between(k * t, 0.0, k)
  {
    if k >= 0.0 {
      MulNonneg(k, t);
      MulNonneg(k, 1.0 - t);
      assert k - k * t == k * (1.0 - t);
    } else {
      MulNonneg(-k, t);
      MulNonneg(-k, 1.0 - t);
      assert k * t - k == (-k) * (1.0 - t);
    }
  }

  /** `r` lies on the closed segment between `a` and `b`, in either order. */
  predicate Between(r: real, a: real, b: real) {
    (a <= r <= b) || (b <= r <= a)
  }

  function Clamp(v: real, lo: real, hi: real): (r: real)
    ensures lo <= hi ==> lo <= r <= hi
    ensures lo <= v <= hi ==> r == v
    ensures r == lo || r == hi || r == v
  {
    if v < lo then lo else if v > hi then hi else v
  }

  function Clamp01(v: real): (r: real)
    ensures 0.0 <= r <= 1.0
    ensures 0.0 <= v <= 1.0 ==> r == v
    ensures v < 0.0 ==> r == 0.0
    ensures v > 1.0 ==> r == 1.0
  {
    if v < 0.0 then 0.0 else if v > 1.0 then 1.0 else v
  }

  /** Fraction of the remaining distance covered in one step of length `dt`
      by a first-order lag with snappiness `rate`. */
  function ExpDampFactor(env: Env, rate: real, dt: real): (r: real)
    requires Valid(env)
    ensures dt <= 0.0 ==> r == 0.0
    ensures 0.0 <= rate ==> 0.0 <= r < 1.0
    ensures r < 1.0
  {
    if dt <= 0.0 then 0.0
    else
      assert 0.0 <= rate ==> -rate * dt <= 0.0;
      1.0 - env.exp(-rate * dt)
  }

  /** Exponential damping of `a` towards `b`. */
  function Damp(env: Env, a: real, b: real, rate: real, dt: real): (r: real)
    requires Valid(env)
    ensures 0.0 <= rate ==> Between(r, a, b)
    ensures dt <= 0.0 ==> r == a
  {
    Lerp(a, b, ExpDampFactor(env, rate, dt))
  }

  /** `x` is a whole number of full turns (an integer multiple of 2*pi). */
  ghost predicate IsWholeTurns(x: real) {
    (x / TWO_PI).Floor as real == x / TWO_PI
  }

  lemma WholeTurnsZero()
    ensures IsWholeTurns(0.0)
  {
  }

  lemma FloorShift(q: real)
    ensures (q + 1.0).Floor == q.Floor + 1
  {
  }

  /** Adding one full turn keeps a whole number of turns. */
  lemma WholeTurnsShift(x: real)
    requires IsWholeTurns(x)
    ensures IsWholeTurns(x + TWO_PI)
  {
    var q := x / TWO_PI;
    assert (x + TWO_PI) / TWO_PI == q + 1.0;
    FloorShift(q);
  }

  /** Subtracting one full turn keeps a whole number of turns. */
  lemma WholeTurnsUnshift(x: real)
    requires IsWholeTurns(x)
    ensures IsWholeTurns(x - TWO_PI)
  {
    var q := (x - TWO_PI) / TWO_PI;
    assert x / TWO_PI == q + 1.0;
    FloorShift(q);
  }

  /** First loop of `angleDiff`: subtract full turns while above pi. */
  function WrapDown(d: real): (r: real)
    ensures r <= PI
    ensures d <= PI ==> r == d
    ensures d > PI ==> r > PI - TWO_PI
    ensures IsWholeTurns(d - r)
    decreases if d > PI then ((d - PI) / TWO_PI).Floor + 1 else 0
  {
    if d > PI then
      assert ((d - TWO_PI) - PI) / TWO_PI == (d - PI) / TWO_PI - 1.0;
      FloorShift(((d - TWO_PI) - PI) / TWO_PI);
      var r := WrapDown(d - TWO_PI);
      WholeTurnsShift(d - TWO_PI - r);
      r
    else
      WholeTurnsZero();
      d
  }

  /** Second loop of `angleDiff`: add full turns while below -pi. */
  function WrapUp(d: real): (r: real)
    ensures -PI <= r
    ensures -PI <= d ==> r == d
    ensures d < -PI ==> r < -PI + TWO_PI
    ensures IsWholeTurns(d - r)
    decreases if d < -PI then ((-PI - d) / TWO_PI).Floor + 1 else 0
  {
    if d < -PI then
      assert (-PI - (d + TWO_PI)) / TWO_PI == (-PI - d) / TWO_PI - 1.0;
      FloorShift((-PI - (d + TWO_PI)) / TWO_PI);
      var r := WrapUp(d + TWO_PI);
      WholeTurnsUnshift(d + TWO_PI - r);
      r
    else
      WholeTurnsZero();
      d
  }

  /** Smallest signed difference `b - a`, wrapped into [-pi, pi]. */
  function AngleDiff(a: real, b: real): (r: real)
    ensures -PI <= r <= PI
    ensures IsWholeTurns((b - a) - r)
    ensures -PI <= b - a <= PI ==> r == b - a
  {
    var d := WrapDown(b - a);
    var r := WrapUp(d);
    WholeTurnsAdd(b - a - d, d - r);
    r
  }

  lemma WholeTurnsAdd(x: real, y: real)
    requires IsWholeTurns(x) && IsWholeTurns(y)
    ensures IsWholeTurns(x + y)
  {
    var qx := (x / TWO_PI).Floor;
    var qy := (y / TWO_PI).Floor;
    assert (x + y) / TWO_PI == x / TWO_PI + y / TWO_PI;
    assert ((qx + qy) as real).Floor == qx + qy;
  }

  /** Damps angle `a` towards `b` along the shorter arc. */
  function DampAngle(env: Env, a: real, b: real, rate: real, dt: real): (r: real)
    requires Valid(env)
    ensures 0.0 <= rate ==> Between(r, a, a + AngleDiff(a, b))
    ensures dt <= 0.0 ==> r == a
  {
    var d := AngleDiff(a, b);
    var f := ExpDampFactor(env, rate, dt);
    if 0.0 <= rate then ScaleBetween(d, f); a + d * f
    else a + d * f
  }

  /** Hermite step from 0 (at `edge0`) to 1 (at `edge1`). */
  function Smoothstep(edge0: real, edge1: real, x: real): (r: real)
    requires edge0 != edge1
    ensures 0.0 <= r <= 1.0
    ensures edge0 < edge1 && x <= edge0 ==> r == 0.0
    ensures edge0 < edge1 && edge1 <= x ==> r == 1.0
  {
    var t := Clamp((x - edge0) / (edge1 - edge0), 0.0, 1.0);
    CubicStepRange(t);
    if edge0 < edge1 then QuotientBounds(x - edge0, edge1 - edge0); t * t * (3.0 - 2.0 * t)
    else t * t * (3.0 - 2.0 * t)
  }

  lemma QuotientBounds(n: real, w: real)
    requires 0.0 < w
    ensures n <= 0.0 ==> n / w <= 0.0
    ensures w <= n ==> 1.0 <= n / w
  {
    QuotientSign(n, w);
    if w <= n {
      QuotientAtLeastOne(n, w);
    }
  }

  lemma QuotientSign(n: real, w: real)
    requires 0.0 < w
    ensures n <= 0.0 ==> n / w <= 0.0
    ensures 0.0 <= n ==> 0.0 <= n / w
  {
  }

  lemma QuotientAtLeastOne(n: real, w: real)
    requires 0.0 < w <= n
    ensures 1.0 <= n / w
  {
  }

  lemma MulNonneg(a: real, b: real)
    requires 0.0 <= a && 0.0 <= b
    ensures 0.0 <= a * b
  {
  }

  lemma CubicStepRange(t: real)
    requires 0.0 <= t <= 1.0
    ensures 0.0 <= t * t * (3.0 - 2.0 * t) <= 1.0
  {
    MulNonneg(t, t);
    MulNonneg(t * t, 3.0 - 2.0 * t);
    assert 1.0 - t * t * (3.0 - 2.0 * t) == ((1.0 - t) * (1.0 - t)) * (1.0 + 2.0 * t);
    MulNonneg(1.0 - t, 1.0 - t);
    MulNonneg((1.0 - t) * (1.0 - t), 1.0 + 2.0 * t);
  }

  /** t*t*(3 - 2t) is nondecreasing on [0, 1]. */
  lemma CubicStepMonotone(s: real, t: real)
    requires 0.0 <= s <= t <= 1.0
    ensures s * s * (3.0 - 2.0 * s) <= t * t * (3.0 - 2.0 * t)
  {
    var diff := t * t * (3.0 - 2.0 * t) - s * s * (3.0 - 2.0 * s);
    assert diff == (t - s) * (3.0 * (s + t) - 2.0 * (s * s + s * t + t * t));
    MulNonneg(s, 1.0 - s);
    MulNonneg(t, 1.0 - t);
    MulNonneg(s, 1.0 - t);
    assert s - s * s == s * (1.0 - s);
    assert t - t * t == t * (1.0 - t);
    assert s - s * t == s * (1.0 - t);
    var m := 3.0 * (s + t) - 2.0 * (s * s + s * t + t * t);
    MulNonneg(t - s, m);
  }

  /** Smoothstep is nondecreasing in `x` for a rising edge pair. */
  lemma SmoothstepMonotone(edge0: real, edge1: real, x1: real, x2: real)
    requires edge0 < edge1
    requires x1 <= x2
    ensures Smoothstep(edge0, edge1, x1) <= Smoothstep(edge0, edge1, x2)
  {
    var w := edge1 - edge0;
    assert (x1 - edge0) / w <= (x2 - edge0) / w;
    CubicStepMonotone(Clamp((x1 - edge0) / w, 0.0, 1.0), Clamp((x2 - edge0) / w, 0.0, 1.0));
  }

  /** Parameter at which `v` lies on the line from `a` to `b`. */
  function InverseLerp(a: real, b: real, v: real): (r: real)
    requires a != b
    ensures r == 0.0 <==> v == a
    ensures r == 1.0 <==> v == b
    ensures a + (b - a) * r == v
  {
    var r := (v - a) / (b - a);
    assert r * (b - a) == v - a;
    assert r == 1.0 ==> v - a == b - a;
    assert v == b ==> r == (b - a) / (b - a) == 1.0;
    r
  }

  /** `InverseLerp` undoes `Lerp`, and `Lerp` undoes `InverseLerp`. */
  lemma LerpRoundTrip(a: real, b: real, t: real, v: real)
    requires a != b
    ensures InverseLerp(a, b, Lerp(a, b, t)) == t
    ensures Lerp(a, b, InverseLerp(a, b, v)) == v
  {
    assert (a + (b - a) * t - a) == (b - a) * t;
  }
}
