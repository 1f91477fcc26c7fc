/** The star-field helpers of src/lib/three-utils.ts: random star generation,
    the flat buffer layout of the star geometry, the camera path, the scroll
    parallax, the frame-rate sampler and the adaptive star count. */
module ThreeUtils {
  import opened Js

  /** One generated star; `color` is the CSS hex string. */
  datatype StarData = StarData(
    position: (real, real, real),
    size: real,
    brightness: real,
    color: string,
    twinkleSpeed: real)

  datatype Point = Point(x: real, y: real, z: real)

  /** The point at distance `radius` with azimuth `theta` and polar angle
      `phi`, as every star field in the program places its stars. */
  function Spherical(m: Math, radius: real, theta: real, phi: real): Point {
    Point(radius * m.sin(phi) * m.cos(theta), radius * m.sin(phi) * m.sin(theta), radius * m.cos(phi))
  }

  /** The spherical placement lies on the sphere of its radius whenever
      sin^2 + cos^2 = 1 at both angles. */
  lemma SphericalRadius(m: Math, radius: real, theta: real, phi: real)
    requires m.sin(theta) * m.sin(theta) + m.cos(theta) * m.cos(theta) == 1.0
    requires m.sin(phi) * m.sin(phi) + m.cos(phi) * m.cos(phi) == 1.0
    ensures var p := Spherical(m, radius, theta, phi);
      p.x * p.x + p.y * p.y + p.z * p.z == radius * radius
  {
    var sp, cp, st, ct := m.sin(phi), m.cos(phi), m.sin(theta), m.cos(theta);
    var rs := radius * sp;
    assert Spherical(m, radius, theta, phi) == Point(rs * ct, rs * st, radius * cp);
    assert (rs * ct) * (rs * ct) + (rs * st) * (rs * st) == (rs * rs) * (st * st + ct * ct);
    assert (rs * rs) * (st * st + ct * ct) == rs * rs;
    assert rs * rs + (radius * cp) * (radius * cp) == (radius * radius) * (sp * sp + cp * cp);
  }

  /** Number of `Math.random()` draws each star consumes. */
  const DrawsPerStar: nat := 7

  /** The colour chosen from the last draw: mostly white, with a slight blue
      tint below 0.1 and a slight purple tint below 0.15. */
  function StarColor(v: real): (c: string)
    ensures v < 0.1 ==> c == "#e0e7ff"
    ensures 0.1 <= v < 0.15 ==> c == "#ede9fe"
    ensures 0.15 <= v ==> c == "#ffffff"
  {
    if v < 0.1 then "#e0e7ff" else if v < 0.15 then "#ede9fe" else "#ffffff"
  }

  /** Star `i` of `generateStars`, built from draws 7i .. 7i+6 in the order
      radius, theta, phi, size, brightness, twinkle speed, colour. */
  function StarAt(m: Math, rand: nat -> real, i: nat): StarData {
    var k := DrawsPerStar * i;
    var radius := rand(k) * 500.0 + 50.0;
    var theta := rand(k + 1) * PI * 2.0;
    var phi := m.acos(2.0 * rand(k + 2) - 1.0);
    var p := Spherical(m, radius, theta, phi);
    StarData((p.x, p.y, p.z), rand(k + 3) * 2.0 + 0.5, rand(k + 4) * 0.8 + 0.2,
      StarColor(rand(k + 6)), rand(k + 5) * 0.02 + 0.01)
  }

  /** Every generated star has its properties in the documented ranges:
      radius in [50, 550), size in [0.5, 2.5), brightness in [0.2, 1.0) and
      twinkle speed in [0.01, 0.03). */
  lemma StarRanges(m: Math, rand: nat -> real, i: nat)
    requires IsRandomStream(rand)
    ensures var s := StarAt(m, rand, i);
      0.5 <= s.size < 2.5 && 0.2 <= s.brightness < 1.0
      && 0.01 <= s.twinkleSpeed < 0.03
    ensures 50.0 <= rand(DrawsPerStar * i) * 500.0 + 50.0 < 550.0
  {
    var k := DrawsPerStar * i;
    assert IsRandom(rand(k)) && IsRandom(rand(k + 3)) && IsRandom(rand(k + 4)) && IsRandom(rand(k + 5));
    ScaledDraw(rand(k), 500.0);
    ScaledDraw(rand(k + 3), 2.0);
    ScaledDraw(rand(k + 4), 0.8);
    ScaledDraw(rand(k + 5), 0.02);
  }

  /** `generateStars(count)` with the k-th `Math.random()` result `rand(k)`. */
  method GenerateStars(count: int, m: Math, rand: nat -> real) returns (stars: seq<StarData>)
    ensures |stars| == if count < 0 then 0 else count
    ensures forall i :: 0 <= i < |stars| ==> stars[i] == StarAt(m, rand, i)
  {
    stars := [];
    var i := 0;
    while i < count
      invariant 0 <= i && |stars| == i
      invariant if count >= 0 then i <= count else i == 0
      invariant forall j :: 0 <= j < i ==> stars[j] == StarAt(m, rand, j)
    {
      stars := stars + [StarAt(m, rand, i)];
      i := i + 1;
    }
  }

  /** `createStarGeometry(stars)`: three flat `Float32Array`s, positions and
      colours with three entries per star and sizes with one. `toRgb` stands for
      the `THREE.Color` conversion of the hex string. */
  method CreateStarGeometry(stars: seq<StarData>, toRgb: string -> (real, real, real))
    returns (positions: array<real>, sizes: array<real>, colors: array<real>)
    ensures fresh(positions) && fresh(sizes) && fresh(colors)
    ensures positions.Length == 3 * |stars| && sizes.Length == |stars| && colors.Length == 3 * |stars|
    ensures forall i :: 0 <= i < |stars| ==>
      positions[3 * i] == stars[i].position.0
      && positions[3 * i + 1] == stars[i].position.1
      && positions[3 * i + 2] == stars[i].position.2
    ensures forall i :: 0 <= i < |stars| ==> sizes[i] == stars[i].size
    ensures forall i :: 0 <= i < |stars| ==>
      colors[3 * i] == toRgb(stars[i].color).0
      && colors[3 * i + 1] == toRgb(stars[i].color).1
      && colors[3 * i + 2] == toRgb(stars[i].color).2
  {
    var n := |stars|;
    positions := new real[3 * n];
    sizes := new real[n];
    colors := new real[3 * n];
    for i := 0 to n
      invariant forall j :: 0 <= j < i ==>
        positions[3 * j] == stars[j].position.0
        && positions[3 * j + 1] == stars[j].position.1
        && positions[3 * j + 2] == stars[j].position.2
      invariant forall j :: 0 <= j < i ==> sizes[j] == stars[j].size
      invariant forall j :: 0 <= j < i ==>
        colors[3 * j] == toRgb(stars[j].color).0
        && colors[3 * j + 1] == toRgb(stars[j].color).1
        && colors[3 * j + 2] == toRgb(stars[j].color).2
    {
      StoreTriple(positions, i, stars[i].position);
      sizes[i] := stars[i].size;
      StoreTriple(colors, i, toRgb(stars[i].color));
    }
  }

  /** Writes the three components of `v` at entries `3 * i` to `3 * i + 2`
      of `a`, leaving every other entry alone. */
  method StoreTriple(a: array<real>, i: nat, v: (real, real, real))
    requires 3 * i + 2 < a.Length
    modifies a
    ensures a[3 * i] == v.0 && a[3 * i + 1] == v.1 && a[3 * i + 2] == v.2
    ensures forall j :: 0 <= j < a.Length && (j < 3 * i || 3 * i + 2 < j) ==> a[j] == old(a[j])
  {
    var i3 := 3 * i;
    a[i3] := v.0;
    a[i3 + 1] := v.1;
    a[i3 + 2] := v.2;
  }

  /** The angle of path point `i`: `(i / segments) * 2 pi`, a number only when
      `segments` is not 0. */
  function PathAngle(i: int, segments: int): (a: Number)
    ensures segments != 0 ==> a == Finite(i as real / segments as real * PI * 2.0)
    ensures segments == 0 && i == 0 ==> a.NaN?
  {
    match Div(i as real, segments as real)
    case Finite(q) => Finite(q * PI * 2.0)
    case PosInf => PosInf
    case NegInf => NegInf
    case NaN => NaN
  }

  /** Path point `i`, or `None` where the angle is not a finite number (its
      coordinates are then NaN). */
  function PathPoint(m: Math, radius: real, segments: int, i: int): Option<Point> {
    match PathAngle(i, segments)
    case Finite(a) => Some(Point(m.cos(a) * radius, m.sin(a) * radius * 0.3, m.sin(a) * radius))
    case _ => None
  }

  /** `createCameraPath(radius, segments)`. */
  method CreateCameraPath(m: Math, radius: real, segments: int) returns (path: seq<Option<Point>>)
    ensures |path| == if segments < 0 then 0 else segments + 1
    ensures forall i :: 0 <= i < |path| ==> path[i] == PathPoint(m, radius, segments, i)
  {
    path := [];
    var i := 0;
    while i <= segments
      invariant 0 <= i && |path| == i
      invariant if segments >= 0 then i <= segments + 1 else i == 0
      invariant forall j :: 0 <= j < i ==> path[j] == PathPoint(m, radius, segments, j)
    {
      path := path + [PathPoint(m, radius, segments, i)];
      i := i + 1;
    }
  }

  /** The path is a closed ellipse-like loop: with at least one segment it runs
      from angle 0 to angle 2 pi, every point is defined and its height is 0.3
      of its depth. With no segment it is the single undefined point. */
  lemma CameraPathShape(m: Math, radius: real, segments: int, i: int)
    requires 0 <= i <= segments
    ensures segments > 0 ==> PathAngle(0, segments) == Finite(0.0)
    ensures segments > 0 ==> PathAngle(segments, segments) == Finite(2.0 * PI)
    ensures segments > 0 ==>
      PathPoint(m, radius, segments, i).Some?
      && PathPoint(m, radius, segments, i).value.y == 0.3 * PathPoint(m, radius, segments, i).value.z
    ensures segments == 0 ==> PathPoint(m, radius, segments, i).None?
  {
    if segments > 0 {
      var s := segments as real;
      assert s / s == 1.0;
      var a := i as real / s * PI * 2.0;
      var v := m.sin(a) * radius;
      assert v * 0.3 == 0.3 * v;
    }
  }

  /** The parallax of star coordinate `k` of a flat position array: x moves by
      `s * |z| / 500 * 20`, y by minus half of that, z stays. */
  function ParallaxAt(original: seq<real>, s: real, k: nat): real
    requires |original| % 3 == 0 && k < |original|
  {
    var base := k - k % 3;
    var factor := Abs(original[base + 2]) / 500.0;
    if k % 3 == 0 then original[k] + s * factor * 20.0
    else if k % 3 == 1 then original[k] - s * factor * 10.0
    else original[k]
  }

  function Parallax(original: seq<real>, s: real): (r: seq<real>)
    requires |original| % 3 == 0
    ensures |r| == |original|
  {
    seq(|original|, k requires 0 <= k < |original| => ParallaxAt(original, s, k))
  }

  /** Parallax keeps every depth, shifts every star right by a non-negative
      amount for a non-negative scroll progress, shifts it up by exactly half
      of that, and is the identity at progress 0. */
  lemma ParallaxShape(original: seq<real>, s: real, i: nat)
    requires |original| % 3 == 0 && 3 * i + 2 < |original|
    ensures var r := Parallax(original, s);
      r[3 * i + 2] == original[3 * i + 2]
      && r[3 * i] - original[3 * i] == -2.0 * (r[3 * i + 1] - original[3 * i + 1])
      && (s >= 0.0 ==> r[3 * i] >= original[3 * i])
      && (s == 0.0 ==> r[3 * i] == original[3 * i] && r[3 * i + 1] == original[3 * i + 1])
  {
    var r := Parallax(original, s);
    var b := 3 * i;
    ParallaxTriple(original, s, b);
    var f := Abs(original[b + 2]) / 500.0;
    assert r[b] == original[b] + s * f * 20.0;
    assert r[b + 1] == original[b + 1] - s * f * 10.0;
    if s >= 0.0 {
      MulNonneg(s, f);
    }
  }

  /** `updateStarPositions(geometry, scrollProgress, originalPositions)` on the
      geometry's position array. */
  method UpdateStarPositions(positions: array<real>, scrollProgress: real, originalPositions: array<real>)
    requires positions != originalPositions
    requires positions.Length == originalPositions.Length && positions.Length % 3 == 0
    modifies positions
    ensures positions[..] == Parallax(originalPositions[..], scrollProgress)
  {
    ghost var orig := originalPositions[..];
    var i := 0;
    while i < positions.Length
      invariant 0 <= i <= positions.Length && i % 3 == 0
      invariant forall k :: 0 <= k < i ==> positions[k] == ParallaxAt(orig, scrollProgress, k)
    {
      var z := originalPositions[i + 2];
      var parallaxFactor := Abs(z) / 500.0;
      var x := originalPositions[i] + scrollProgress * parallaxFactor * 20.0;
      var y := originalPositions[i + 1] - scrollProgress * parallaxFactor * 10.0;
      ParallaxTriple(orig, scrollProgress, i);
      assert x == ParallaxAt(orig, scrollProgress, i) && y == ParallaxAt(orig, scrollProgress, i + 1);
      positions[i] := x;
      positions[i + 1] := y;
      positions[i + 2] := z;
      i := i + 3;
    }
    assert forall k :: 0 <= k < positions.Length ==>
      positions[..][k] == Parallax(orig, scrollProgress)[k];
  }

  lemma ParallaxTriple(original: seq<real>, s: real, i: nat)
    requires |original| % 3 == 0 && i % 3 == 0 && i + 2 < |original|
    ensures var f := Abs(original[i + 2]) / 500.0;
      ParallaxAt(original, s, i) == original[i] + s * f * 20.0
      && ParallaxAt(original, s, i + 1) == original[i + 1] - s * f * 10.0
      && ParallaxAt(original, s, i + 2) == original[i + 2]
  {
    assert (i + 1) % 3 == 1 && (i + 2) % 3 == 2;
    assert (i + 1) - (i + 1) % 3 == i && (i + 2) - (i + 2) % 3 == i;
  }

  /** `Math.round(frameCount * 1000 / elapsed)` once a second has passed: a
      whole rate within half a frame per second of the measured rate, ties
      rounded up, and never above the number of frames counted. */
  function FramesPerSecond(frameCount: nat, elapsed: real): (fps: int)
    requires elapsed >= 1000.0
    ensures fps as real - 0.5 <= frameCount as real * 1000.0 / elapsed < fps as real + 0.5
    ensures 0 <= fps <= frameCount
  {
    var n := frameCount as real;
    var q := n * 1000.0 / elapsed;
    var k := n * 1000.0;
    assert q * elapsed == k;
    MulMonotone(n, n, 1000.0, elapsed);
    CancelPositive(q, n, elapsed);
    Round(q)
  }

  /** The closure state of `getFrameRate`. */
  datatype FrameRate = FrameRate(lastTime: real, frameCount: nat, fps: int)

  const InitialFrameRate := FrameRate(0.0, 0, 60)

  /** One call `getFrameRate(currentTime)`. */
  function FrameRateStep(s: FrameRate, currentTime: real): (r: FrameRate)
    ensures currentTime - s.lastTime >= 1000.0 ==>
      r.frameCount == 0 && r.lastTime == currentTime
      && r.fps == FramesPerSecond(s.frameCount + 1, currentTime - s.lastTime)
      && 0 <= r.fps <= s.frameCount + 1
    ensures currentTime - s.lastTime < 1000.0 ==>
      r.frameCount == s.frameCount + 1 && r.lastTime == s.lastTime && r.fps == s.fps
  {
    var count := s.frameCount + 1;
    if currentTime - s.lastTime >= 1000.0 then
      FrameRate(currentTime, 0, FramesPerSecond(count, currentTime - s.lastTime))
    else
      FrameRate(s.lastTime, count, s.fps)
  }

  /** Before the first full second the sampler reports the initial 60. */
  lemma FirstSecondReports60(times: seq<real>)
    requires forall k :: 0 <= k < |times| ==> times[k] < 1000.0
    ensures FrameRateRun(InitialFrameRate, times).fps == 60
    ensures FrameRateRun(InitialFrameRate, times).frameCount == |times|
  {
    FirstSecondRun(InitialFrameRate, times);
  }

  lemma {:induction false} FirstSecondRun(s: FrameRate, times: seq<real>)
    requires forall k :: 0 <= k < |times| ==> times[k] - s.lastTime < 1000.0
    ensures FrameRateRun(s, times) == FrameRate(s.lastTime, s.frameCount + |times|, s.fps)
    decreases |times|
  {
    if times != [] {
      FirstSecondRun(FrameRateStep(s, times[0]), times[1..]);
    }
  }

  function FrameRateRun(s: FrameRate, times: seq<real>): FrameRate
    decreases |times|
  {
    if times == [] then s else FrameRateRun(FrameRateStep(s, times[0]), times[1..])
  }

  /** The `getFrameRate` closure. */
  class FrameRateMeter {
    var lastTime: real
    var frameCount: nat
    var fps: int

    constructor ()
      ensures FrameRate(lastTime, frameCount, fps) == InitialFrameRate
    {
      lastTime := 0.0;
      frameCount := 0;
      fps := 60;
    }

    method GetFrameRate(currentTime: real) returns (rate: int)
      modifies this
      ensures FrameRate(lastTime, frameCount, fps)
        == FrameRateStep(old(FrameRate(lastTime, frameCount, fps)), currentTime)
      ensures rate == fps
    {
      frameCount := frameCount + 1;
      if currentTime - lastTime >= 1000.0 {
        fps := FramesPerSecond(frameCount, currentTime - lastTime);
        frameCount := 0;
        lastTime := currentTime;
      }
      rate := fps;
    }
  }

  /** `getAdaptiveStarCount(fps, baseCount)`. */
  function GetAdaptiveStarCount(fps: real, baseCount: int): int {
    if fps < 30.0 then Floor(baseCount as real * 0.5)
    else if fps < 45.0 then Floor(baseCount as real * 0.75)
    else baseCount
  }

  /** The adaptive count is half the base below 30 fps, three quarters below
      45 and the base otherwise (rounded down), never more than the base and
      never negative for a non-negative base, and it does not decrease as the
      frame rate rises. */
  lemma AdaptiveStarCountShape(f1: real, f2: real, baseCount: int)
    requires 0 <= baseCount && f1 <= f2
    ensures 0 <= GetAdaptiveStarCount(f1, baseCount) <= baseCount
    ensures GetAdaptiveStarCount(f1, baseCount) <= GetAdaptiveStarCount(f2, baseCount)
    ensures f1 < 30.0 ==> 2 * GetAdaptiveStarCount(f1, baseCount) <= baseCount < 2 * GetAdaptiveStarCount(f1, baseCount) + 2
    ensures 30.0 <= f1 < 45.0 ==>
      4 * GetAdaptiveStarCount(f1, baseCount) <= 3 * baseCount < 4 * GetAdaptiveStarCount(f1, baseCount) + 4
    ensures f1 >= 45.0 ==> GetAdaptiveStarCount(f1, baseCount) == baseCount
  {
    var b := baseCount as real;
    assert Floor(b * 0.5) <= Floor(b * 0.75) by {
      FloorMonotone(b * 0.5, b * 0.75);
    }
    assert Floor(b * 0.75) <= baseCount by {
      FloorMonotone(b * 0.75, b);
    }
  }

  lemma FloorMonotone(x: real, y: real)
    requires x <= y
    ensures Floor(x) <= Floor(y)
  {
  }
}
