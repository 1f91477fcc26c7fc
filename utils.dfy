/** The animation helpers of src/lib/utils.ts: interpolation, easing, ranged
    random numbers, uniform points on a sphere, scroll progress and a call
    throttle. */
module Utils {
  import opened Js
  import ThreeUtils

  function Cube(x: real): real { x * x * x }

  function Quart(x: real): real { x * x * x * x }

  /** `lerp(start, end, t)`. */
  function Lerp(start: real, end: real, t: real): real {
    start + (end - start) * t
  }

  lemma LerpEndpoints(start: real, end: real)
    ensures Lerp(start, end, 0.0) == start
    ensures Lerp(start, end, 1.0) == end
  {
  }

  /** For t in [0, 1] the interpolated value lies between the two ends. */
  lemma LerpBetween(start: real, end: real, t: real)
    requires 0.0 <= t <= 1.0
    ensures Min(start, end) <= Lerp(start, end, t) <= Max(start, end)
  {
    if start <= end {
      var d := end - start;
      ScaleBelow(d, t);
      var m := d * t;
      assert 0.0 <= m <= d;
      assert Lerp(start, end, t) == start + m;
    } else {
      var e := start - end;
      ScaleBelow(e, t);
      var m := e * t;
      assert 0.0 <= m <= e;
      assert end <= start - m;
      assert Lerp(start, end, t) == start - m;
    }
  }

  lemma ScaleBelow(d: real, t: real)
    requires 0.0 <= d && 0.0 <= t <= 1.0
    ensures 0.0 <= d * t <= d
  {
    MulNonneg(d, 1.0 - t);
    MulNonneg(d, t);
  }

  /** `easeInOutCubic(t)`: 4t^3 below one half, 1 - (2 - 2t)^3 / 2 otherwise. */
  function EaseInOutCubic(t: real): real {
    if t < 0.5 then 4.0 * Cube(t) else 1.0 - Cube(-2.0 * t + 2.0) / 2.0
  }

  lemma CubeMonotone(a: real, b: real)
    requires 0.0 <= a <= b
    ensures 0.0 <= Cube(a) <= Cube(b)
  {
    MulMonotone(a, b, a, b);
    MulMonotone(a * a, b * b, a, b);
  }

  /** The cubic ease fixes 0, 1/2 and 1, maps [0, 1] into [0, 1] and is
      monotone there. */
  lemma EaseInOutCubicShape(s: real, t: real)
    requires 0.0 <= s <= t <= 1.0
    ensures EaseInOutCubic(0.0) == 0.0 && EaseInOutCubic(0.5) == 0.5 && EaseInOutCubic(1.0) == 1.0
    ensures 0.0 <= EaseInOutCubic(t) <= 1.0
    ensures EaseInOutCubic(s) <= EaseInOutCubic(t)
  {
    assert Cube(1.0) == 1.0;
    CubeHalfAtMostOne(s);
    CubeHalfAtMostOne(t);
    if s < 0.5 && 0.5 <= t {
      CubeMonotone(s, 0.5);
      CubeMonotone(-2.0 * t + 2.0, 1.0);
    } else if s < 0.5 {
      CubeMonotone(s, t);
    } else if 0.5 <= s {
      CubeMonotone(-2.0 * t + 2.0, -2.0 * s + 2.0);
    }
  }

  lemma CubeHalfAtMostOne(t: real)
    requires 0.0 <= t <= 1.0
    ensures t < 0.5 ==> 0.0 <= 4.0 * Cube(t) < 0.5
    ensures 0.5 <= t ==> 0.0 <= Cube(-2.0 * t + 2.0) <= 1.0
  {
    if t < 0.5 {
      CubeMonotone(t, 0.5);
      assert Cube(0.5) == 0.125;
      assert Cube(t) < 0.125 by {
        MulMonotone(t, t, t, 0.5);
        MulMonotone(t * t, t * 0.5, t, 0.5);
        assert t * t * t <= t * 0.25;
      }
    } else {
      CubeMonotone(-2.0 * t + 2.0, 1.0);
    }
  }

  /** `easeOutQuart(t) = 1 - (1 - t)^4`. */
  function EaseOutQuart(t: real): real {
    1.0 - Quart(1.0 - t)
  }

  /** The quartic ease fixes 0 and 1. */
  lemma EaseOutQuartEnds()
    ensures EaseOutQuart(0.0) == 0.0 && EaseOutQuart(1.0) == 1.0
  {
    assert Quart(1.0) == 1.0 && Quart(0.0) == 0.0;
  }

  /** The quartic ease maps [0, 1] into [0, 1] and is monotone there. */
  lemma EaseOutQuartShape(s: real, t: real)
    requires 0.0 <= s <= t <= 1.0
    ensures 0.0 <= EaseOutQuart(t) <= 1.0
    ensures EaseOutQuart(s) <= EaseOutQuart(t)
  {
    var a := 1.0 - t;
    var b := 1.0 - s;
    QuartMonotone(a, b);
    QuartMonotone(b, 1.0);
  }

  lemma QuartMonotone(a: real, b: real)
    requires 0.0 <= a <= b
    ensures 0.0 <= Quart(a) <= Quart(b)
  {
    MulMonotone(a, b, a, b);
    MulMonotone(a * a, b * b, a, b);
    MulMonotone(a * a * a, b * b * b, a, b);
  }

  /** `random(min, max)` for one draw `r` of `Math.random()`. */
  function Random(min: real, max: real, r: real): (v: real)
    requires IsRandom(r)
    ensures min < max ==> min <= v < max
    ensures min == max ==> v == min
  {
    var w := max - min;
    if 0.0 < w then
      ScaledDraw(r, w);
      r * w + min
    else
      r * w + min
  }

  /** `randomSphere(radius)` for two draws `u`, `v` of `Math.random()`: the
      azimuth is `2*PI*u` and the polar angle `acos(2v - 1)`. */
  function RandomSphere(m: Math, radius: real, u: real, v: real): ThreeUtils.Point {
    ThreeUtils.Spherical(m, radius, 2.0 * PI * u, m.acos(2.0 * v - 1.0))
  }

  /** The point lies on the sphere of radius `radius` wherever
      sin^2 + cos^2 = 1 holds at the two angles drawn. */
  lemma RandomSphereOnSphere(m: Math, radius: real, u: real, v: real)
    requires var t, f := 2.0 * PI * u, m.acos(2.0 * v - 1.0);
      m.sin(t) * m.sin(t) + m.cos(t) * m.cos(t) == 1.0 &&
      m.sin(f) * m.sin(f) + m.cos(f) * m.cos(f) == 1.0
    ensures var p := RandomSphere(m, radius, u, v);
      p.x * p.x + p.y * p.y + p.z * p.z == radius * radius
  {
    ThreeUtils.SphericalRadius(m, radius, 2.0 * PI * u, m.acos(2.0 * v - 1.0));
  }

  /** Every coordinate lies within `radius` of the centre, from the range of
      sin and cos alone. */
  lemma RandomSphereBox(m: Math, radius: real, u: real, v: real)
    requires Sane(m) && 0.0 <= radius
    ensures var p := RandomSphere(m, radius, u, v);
      -radius <= p.x <= radius && -radius <= p.y <= radius && -radius <= p.z <= radius
  {
    var t, f := 2.0 * PI * u, m.acos(2.0 * v - 1.0);
    var sf, cf, st, ct := m.sin(f), m.cos(f), m.sin(t), m.cos(t);
    UnitProduct(sf, ct);
    UnitProduct(sf, st);
    UnitScale(radius, sf * ct);
    UnitScale(radius, sf * st);
    UnitScale(radius, cf);
    assert RandomSphere(m, radius, u, v)
      == ThreeUtils.Point(radius * (sf * ct), radius * (sf * st), radius * cf);
  }

  lemma UnitProduct(a: real, b: real)
    requires -1.0 <= a <= 1.0 && -1.0 <= b <= 1.0
    ensures -1.0 <= a * b <= 1.0
  {
    MulMonotone(Abs(a), 1.0, Abs(b), 1.0);
    assert Abs(a * b) == Abs(a) * Abs(b);
  }

  lemma UnitScale(r: real, a: real)
    requires 0.0 <= r && -1.0 <= a <= 1.0
    ensures -r <= r * a <= r
  {
    MulNonneg(r, 1.0 - a);
    MulNonneg(r, 1.0 + a);
  }

  /** `getScrollProgress` given `window.scrollY` and
      `scrollHeight - innerHeight`. */
  function ScrollProgress(scrollTop: real, docHeight: real): (p: Number)
    ensures docHeight > 0.0 ==> p.Finite? && p.v <= 1.0
    ensures docHeight > 0.0 && 0.0 <= scrollTop ==> 0.0 <= p.v
    ensures docHeight > 0.0 && scrollTop <= docHeight ==> p == Finite(scrollTop / docHeight)
    ensures docHeight > 0.0 && scrollTop >= docHeight ==> p == Finite(1.0)
    ensures docHeight == 0.0 ==> (p.NaN? <==> scrollTop == 0.0)
    ensures docHeight == 0.0 && scrollTop > 0.0 ==> p == Finite(1.0)
    ensures docHeight == 0.0 && scrollTop < 0.0 ==> p.NegInf?
  {
    if docHeight > 0.0 then
      QuotientVersusOne(scrollTop, docHeight);
      MinNumber(Div(scrollTop, docHeight), 1.0)
    else
      MinNumber(Div(scrollTop, docHeight), 1.0)
  }

  lemma QuotientVersusOne(a: real, b: real)
    requires b > 0.0
    ensures a <= b ==> a / b <= 1.0
    ensures a >= b ==> a / b >= 1.0
    ensures a >= 0.0 ==> a / b >= 0.0
  {
  }

  /** One invocation of a throttled function at time `now`, given the time of
      the last forwarded call: forward iff at least `delay` has passed, and then
      remember `now`. */
  function ThrottleStep(lastCall: real, now: real, delay: real): (res: (bool, real))
    ensures res.0 <==> now - lastCall >= delay
    ensures res.1 == if res.0 then now else lastCall
  {
    if now - lastCall >= delay then (true, now) else (false, lastCall)
  }

  /** The times of the calls that a throttle starting at `lastCall` forwards,
      out of the calls made at the times in `calls` (in order). */
  function Forwarded(lastCall: real, calls: seq<real>, delay: real): seq<real>
    decreases |calls|
  {
    if calls == [] then []
    else
      var (fwd, last) := ThrottleStep(lastCall, calls[0], delay);
      (if fwd then [calls[0]] else []) + Forwarded(last, calls[1..], delay)
  }

  /** Every forwarded call is at least `delay` after the previous forwarded one
      (and the first at least `delay` after `lastCall`). */
  lemma {:induction false} ForwardedSpacing(lastCall: real, calls: seq<real>, delay: real)
    ensures var f := Forwarded(lastCall, calls, delay);
      (|f| > 0 ==> f[0] - lastCall >= delay) &&
      forall k :: 0 < k < |f| ==> f[k] - f[k - 1] >= delay
    decreases |calls|
  {
    if calls != [] {
      var (fwd, last) := ThrottleStep(lastCall, calls[0], delay);
      ForwardedSpacing(last, calls[1..], delay);
      var rest := Forwarded(last, calls[1..], delay);
      var f := Forwarded(lastCall, calls, delay);
      if fwd {
        assert f == [calls[0]] + rest;
        forall k | 0 < k < |f| ensures f[k] - f[k - 1] >= delay {
          if k == 1 { assert f[1] == rest[0]; } else { assert f[k] == rest[k - 1]; }
        }
      } else {
        assert f == rest;
      }
    }
  }

  /** The closure returned by `throttle(func, delay)`; `lastCall` is its only
      state and starts at 0. */
  class Throttle {
    const delay: real
    var lastCall: real

    constructor (delay: real)
      ensures this.delay == delay && lastCall == 0.0
    {
      this.delay := delay;
      lastCall := 0.0;
    }

    /** Calling the throttled function at `now` (the value of `Date.now()`);
        `forwarded` says whether `func` runs. */
    method Invoke(now: real) returns (forwarded: bool)
      modifies this
      ensures (forwarded, lastCall) == ThrottleStep(old(lastCall), now, delay)
    {
      if now - lastCall >= delay {
        lastCall := now;
        forwarded := true;
      } else {
        forwarded := false;
      }
    }
  }
}
