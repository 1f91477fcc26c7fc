/** The three.js star field of src/components/three/SimpleStarField.tsx: a star
    count proportional to the screen area, buffers filled from the index hash,
    and a rotation that speeds up while the pointer moves or after a click. */
module SimpleStarField {
  import opened Js
  import Utils
  import StarField2D
  import ThreeUtils

  /** `Math.floor((width * height / 1000) * 0.6)`: 0.6 stars per 1000 square
      pixels. */
  function StarCount(width: real, height: real): (count: int)
    ensures 0.0 <= width && 0.0 <= height ==> 0 <= count
    ensures count as real <= width * height / 1000.0 * 0.6 < count as real + 1.0
  {
    var area := width * height;
    if 0.0 <= width && 0.0 <= height then
      MulNonneg(width, height);
      Floor(area / 1000.0 * 0.6)
    else
      Floor(area / 1000.0 * 0.6)
  }

  datatype Color = Color(r: real, g: real, b: real)

  /** The palette by threshold, as fractions. */
  function StarColor(choice: real): Color {
    if choice < 0.5 then Color(1.0, 1.0, 1.0)
    else if choice < 0.7 then Color(0.6, 0.8, 1.0)
    else if choice < 0.85 then Color(1.0, 0.8, 0.4)
    else Color(0.8, 0.6, 1.0)
  }

  /** White below 0.5, blue below 0.7, orange below 0.85, purple otherwise;
      every component lies in [0.4, 1]. */
  lemma StarColorShape(choice: real)
    ensures var c := StarColor(choice);
      (choice < 0.5 ==> c == Color(1.0, 1.0, 1.0))
      && (0.5 <= choice < 0.7 ==> c == Color(0.6, 0.8, 1.0))
      && (0.7 <= choice < 0.85 ==> c == Color(1.0, 0.8, 0.4))
      && (0.85 <= choice ==> c == Color(0.8, 0.6, 1.0))
      && 0.4 <= c.r <= 1.0 && 0.4 <= c.g <= 1.0 && 0.4 <= c.b <= 1.0
  {
  }

  /** The canvas star field uses the same palette in bytes: each of its
      components is 255 times the fraction used here. */
  lemma PaletteMatchesCanvas(choice: real)
    ensures var c := StarColor(choice);
      var b := StarField2D.StarColor(choice);
      b.r as real == 255.0 * c.r && b.g as real == 255.0 * c.g && b.b as real == 255.0 * c.b
  {
  }

  /** Radius, polar and azimuth angle of star `i`. */
  function Radius(m: Math, i: int): (r: real)
    ensures 50.0 <= r < 150.0
  {
    var s := StarField2D.Seed(m, i);
    ScaledDraw(s, 100.0);
    50.0 + s * 100.0
  }

  /** The position of star `i` on the sphere of its radius. */
  function Position(m: Math, i: int): ThreeUtils.Point {
    var theta := StarField2D.Seed(m, i + 1000) * PI * 2.0;
    var phi := m.acos(2.0 * StarField2D.Seed(m, i + 2000) - 1.0);
    ThreeUtils.Spherical(m, Radius(m, i), theta, phi)
  }

  /** The size of star `i`, from the same thresholds as the canvas field. */
  function Size(m: Math, i: int): real {
    StarField2D.StarSize(StarField2D.Seed(m, i + 4000), StarField2D.Seed(m, i + 5000),
      StarField2D.Seed(m, i + 6000))
  }

  /** The first `n` stars' coordinates are in place in `ps`. */
  ghost predicate PositionsStored(m: Math, ps: seq<real>, n: nat) {
    3 * n <= |ps|
    && forall j :: 0 <= j < n ==> ThreeUtils.Point(ps[3 * j], ps[3 * j + 1], ps[3 * j + 2]) == Position(m, j)
  }

  /** The first `n` stars' colour components are in place in `cs`. */
  ghost predicate ColorsStored(m: Math, cs: seq<real>, n: nat) {
    3 * n <= |cs|
    && forall j :: 0 <= j < n ==> Color(cs[3 * j], cs[3 * j + 1], cs[3 * j + 2]) == StarColor(StarField2D.Seed(m, j + 3000))
  }

  /** The first `n` stars' sizes are in place in `ss`. */
  ghost predicate SizesStored(m: Math, ss: seq<real>, n: nat) {
    n <= |ss| && forall j :: 0 <= j < n ==> ss[j] == Size(m, j)
  }

  /** The `useMemo` fill loop for `count` stars (`StarCount` of the screen):
      three coordinates and three colour components per star, one size. */
  method FillBuffers(m: Math, count: nat)
    returns (particles: array<real>, colors: array<real>, sizes: array<real>)
    ensures fresh(particles) && fresh(colors) && fresh(sizes)
    ensures particles.Length == 3 * count && colors.Length == 3 * count && sizes.Length == count
    ensures forall i :: 0 <= i < sizes.Length ==>
      ThreeUtils.Point(particles[3 * i], particles[3 * i + 1], particles[3 * i + 2]) == Position(m, i)
    ensures forall i :: 0 <= i < sizes.Length ==>
      Color(colors[3 * i], colors[3 * i + 1], colors[3 * i + 2]) == StarColor(StarField2D.Seed(m, i + 3000))
    ensures forall i :: 0 <= i < sizes.Length ==> sizes[i] == Size(m, i)
  {
    particles := new real[3 * count];
    colors := new real[3 * count];
    sizes := new real[count];
    for i := 0 to count
      invariant PositionsStored(m, particles[..], i)
      invariant ColorsStored(m, colors[..], i)
      invariant SizesStored(m, sizes[..], i)
    {
      StorePosition(m, i, particles);
      StoreColor(m, i, colors);
      StoreSize(m, i, sizes);
    }
    assert PositionsStored(m, particles[..], count);
    assert ColorsStored(m, colors[..], count);
    assert SizesStored(m, sizes[..], count);
  }

  /** The coordinates of star `i`, written after those of the stars before it. */
  method StorePosition(m: Math, i: nat, particles: array<real>)
    requires 3 * i + 3 <= particles.Length && PositionsStored(m, particles[..], i)
    modifies particles
    ensures PositionsStored(m, particles[..], i + 1)
  {
    var i3 := 3 * i;
    var p := Position(m, i);
    particles[i3] := p.x;
    particles[i3 + 1] := p.y;
    particles[i3 + 2] := p.z;
  }

  /** The colour of star `i`, written after those of the stars before it. */
  method StoreColor(m: Math, i: nat, colors: array<real>)
    requires 3 * i + 3 <= colors.Length && ColorsStored(m, colors[..], i)
    modifies colors
    ensures ColorsStored(m, colors[..], i + 1)
  {
    var i3 := 3 * i;
    var c := StarColor(StarField2D.Seed(m, i + 3000));
    colors[i3] := c.r;
    colors[i3 + 1] := c.g;
    colors[i3 + 2] := c.b;
  }

  /** The size of star `i`, written after those of the stars before it. */
  method StoreSize(m: Math, i: nat, sizes: array<real>)
    requires i < sizes.Length && SizesStored(m, sizes[..], i)
    modifies sizes
    ensures SizesStored(m, sizes[..], i + 1)
  {
    sizes[i] := Size(m, i);
  }

  /** The interaction target: 4.5 times while the pointer moves, and up to
      5.3 times more within 1.2 s of a click, decaying linearly. */
  function TargetSpeed(isMoving: bool, timeSinceClick: real): real {
    var moving := if isMoving then 4.5 else 1.0;
    if timeSinceClick < 1200.0 then moving * (1.0 + 4.3 * (1.0 - timeSinceClick / 1200.0))
    else moving
  }

  /** The target never drops below 1, is exactly 1 for an idle pointer long
      after a click, is at most 4.5 * 5.3 for a click in the past, and a
      later click never gives a smaller target. */
  lemma TargetSpeedRange(isMoving: bool, t: real, u: real)
    ensures TargetSpeed(isMoving, t) >= 1.0
    ensures !isMoving && t >= 1200.0 ==> TargetSpeed(isMoving, t) == 1.0
    ensures isMoving && t >= 1200.0 ==> TargetSpeed(isMoving, t) == 4.5
    ensures 0.0 <= t ==> TargetSpeed(isMoving, t) <= 23.85
    ensures t <= u ==> TargetSpeed(isMoving, u) <= TargetSpeed(isMoving, t)
  {
    var moving := if isMoving then 4.5 else 1.0;
    var boostT := 1.0 + 4.3 * (1.0 - t / 1200.0);
    var boostU := 1.0 + 4.3 * (1.0 - u / 1200.0);
    if t < 1200.0 {
      assert boostT > 1.0;
      MulMonotone(1.0, moving, 1.0, boostT);
      if 0.0 <= t {
        MulMonotone(moving, 4.5, boostT, 5.3);
      }
    }
    if t <= u && u < 1200.0 {
      assert boostU <= boostT;
      MulMonotone(moving, moving, boostU, boostT);
    }
    if t < 1200.0 && 1200.0 <= u {
      MulMonotone(moving, moving, 1.0, boostT);
    }
  }

  /** The component's per-frame state. */
  datatype Spin = Spin(lastFrameTime: real, speedMultiplier: real, rotationX: real, rotationY: real)

  const InitialSpin := Spin(0.0, 1.0, 0.0, 0.0)

  /** `deltaTime`: a nominal 16 ms on the very first frame, otherwise the
      time since the previous frame. */
  function DeltaTime(lastFrameTime: real, currentFrameTime: real): (dt: real)
    ensures lastFrameTime == 0.0 ==> dt == 0.016
    ensures lastFrameTime != 0.0 ==> dt == currentFrameTime - lastFrameTime
  {
    if lastFrameTime == 0.0 then 0.016 else currentFrameTime - lastFrameTime
  }

  /** One `useFrame` call with a mesh, at clock time `elapsedTime` (seconds)
      and wall time `now` (milliseconds). */
  function Frame(s: Spin, elapsedTime: real, now: real, isMoving: bool, clickTime: real): Spin {
    var dt := DeltaTime(s.lastFrameTime, elapsedTime);
    var m := Utils.Lerp(s.speedMultiplier, TargetSpeed(isMoving, now - clickTime), 0.2);
    Spin(elapsedTime, m, s.rotationX + 0.02 * m * dt, s.rotationY + 0.01 * m * dt)
  }

  /** Smoothing moves the multiplier a fifth of the way to the target, so it
      stays at least 1 once it is; for a non-negative frame time the
      rotations never go back, and X turns exactly twice as fast as Y. */
  lemma FrameShape(s: Spin, elapsedTime: real, now: real, isMoving: bool, clickTime: real)
    requires s.speedMultiplier >= 1.0
    ensures var r := Frame(s, elapsedTime, now, isMoving, clickTime);
      var target := TargetSpeed(isMoving, now - clickTime);
      r.speedMultiplier >= 1.0 && r.lastFrameTime == elapsedTime
      && Min(s.speedMultiplier, target) <= r.speedMultiplier <= Max(s.speedMultiplier, target)
      && r.rotationX - s.rotationX == 2.0 * (r.rotationY - s.rotationY)
      && (DeltaTime(s.lastFrameTime, elapsedTime) >= 0.0 ==>
            r.rotationX >= s.rotationX && r.rotationY >= s.rotationY)
  {
    var target := TargetSpeed(isMoving, now - clickTime);
    TargetSpeedRange(isMoving, now - clickTime, now - clickTime);
    Utils.LerpBetween(s.speedMultiplier, target, 0.2);
    var m := Utils.Lerp(s.speedMultiplier, target, 0.2);
    var dt := DeltaTime(s.lastFrameTime, elapsedTime);
    var k := m * dt;
    assert 0.02 * m * dt == 0.02 * k && 0.01 * m * dt == 0.01 * k;
    if dt >= 0.0 {
      MulNonneg(m, dt);
    }
  }

  /** The `Stars` component's refs. */
  class Stars {
    var lastFrameTime: real
    var speedMultiplier: real
    var rotationX: real
    var rotationY: real

    constructor ()
      ensures Spin(lastFrameTime, speedMultiplier, rotationX, rotationY) == InitialSpin
    {
      lastFrameTime, speedMultiplier, rotationX, rotationY := 0.0, 1.0, 0.0, 0.0;
    }

    /** The `useFrame` callback; nothing happens without a mesh. */
    method OnFrame(hasMesh: bool, elapsedTime: real, now: real, isMoving: bool, clickTime: real)
      modifies this
      ensures !hasMesh ==>
        Spin(lastFrameTime, speedMultiplier, rotationX, rotationY)
        == old(Spin(lastFrameTime, speedMultiplier, rotationX, rotationY))
      ensures hasMesh ==>
        Spin(lastFrameTime, speedMultiplier, rotationX, rotationY)
        == Frame(old(Spin(lastFrameTime, speedMultiplier, rotationX, rotationY)), elapsedTime, now, isMoving, clickTime)
    {
      if hasMesh {
        var deltaTime := DeltaTime(lastFrameTime, elapsedTime);
        var speed := FrameSpeed(isMoving, now - clickTime);
        var multiplier := Utils.Lerp(speedMultiplier, speed, 0.2);
        lastFrameTime, speedMultiplier := elapsedTime, multiplier;
        rotationX, rotationY := rotationX + 0.02 * multiplier * deltaTime, rotationY + 0.01 * multiplier * deltaTime;
      }
    }
  }

  /** The callback's target speed: 4.5 times faster while the pointer
      moves, boosted up to 5.3 times for 1.2 s after a click. */
  method FrameSpeed(isMoving: bool, timeSinceClick: real) returns (speed: real)
    ensures speed == TargetSpeed(isMoving, timeSinceClick)
  {
    speed := 1.0;
    if isMoving {
      speed := speed * 4.5;
    }
    if timeSinceClick < 1200.0 {
      var clickDecay := 1.0 - timeSinceClick / 1200.0;
      var clickBoost := 1.0 + 4.3 * clickDecay;
      speed := speed * clickBoost;
    }
  }
}
