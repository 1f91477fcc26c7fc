/** The roaming rocket of src/components/three/SpaceRocket.tsx: the random
    start velocity, and the `useFrame` step that moves the rocket, bounces it
    off the viewport edges with a random kick, keeps its speed constant,
    turns it smoothly toward its heading and sets its scale and material
    opacity. */
module SpaceRocket {
  import opened Js

  /** A `{ x, y, z }` ref value or a three.js vector. */
  datatype Vec = Vec(x: real, y: real, z: real)

  const Origin: Vec := Vec(0.0, 0.0, 0.0)

  /** `isMobile`: a viewport narrower than 10 world units. */
  function IsMobile(viewportWidth: real): bool {
    viewportWidth < 10.0
  }

  /** The cruising speed in world units per frame. */
  function Speed(isMobile: bool): real {
    if isMobile then 0.02 else 0.03
  }

  /** The start velocity for a draw `r` of `Math.random()`: the cruising
      speed in the direction of angle `2 * pi * r`, with no z component. */
  function StartVelocity(m: Math, isMobile: bool, r: real): (v: Vec)
    ensures v.z == 0.0
  {
    var angle := r * PI * 2.0;
    Vec(m.cos(angle) * Speed(isMobile), m.sin(angle) * Speed(isMobile), 0.0)
  }

  /** Neither start component exceeds the cruising speed. */
  lemma StartVelocityBounded(m: Math, isMobile: bool, r: real)
    requires Sane(m)
    ensures var v := StartVelocity(m, isMobile, r);
      -Speed(isMobile) <= v.x <= Speed(isMobile) && -Speed(isMobile) <= v.y <= Speed(isMobile)
  {
    var angle := r * PI * 2.0;
    assert -1.0 <= m.cos(angle) <= 1.0 && -1.0 <= m.sin(angle) <= 1.0;
  }

  // ------------------------------------------------------------ motion

  /** The extent the rocket may reach from the centre along an axis of the
      given viewport size: half of it less 2 units. */
  function Boundary(viewportSize: real): real {
    viewportSize / 2.0 - 2.0
  }

  /** The position and velocity refs. */
  datatype Motion = Motion(position: Vec, velocity: Vec)

  /** The `Math.random()` results a frame may use: the reflection factor
      and the sideways kick of an x crossing, then those of a y crossing. */
  datatype FrameDraws = FrameDraws(xFactor: real, xKick: real, yFactor: real, yKick: real)

  predicate ValidDraws(d: FrameDraws) {
    IsRandom(d.xFactor) && IsRandom(d.xKick) && IsRandom(d.yFactor) && IsRandom(d.yKick)
  }

  /** `position += velocity` in x and y. */
  function Advance(mo: Motion): Motion {
    mo.(position := mo.position.(x := mo.position.x + mo.velocity.x, y := mo.position.y + mo.velocity.y))
  }

  /** The factor `0.8 + r * 0.4` a reflection scales the speed by. */
  function ReflectFactor(r: real): real {
    0.8 + r * 0.4
  }

  /** The sideways kick `(r - 0.5) * 0.01` of a reflection. */
  function Kick(r: real): real {
    (r - 0.5) * 0.01
  }

  /** The x crossing: past `boundaryX` the x velocity reverses and is
      rescaled by the factor, the y velocity gets the kick, and x is put
      back on the boundary on its own side. */
  function BounceX(mo: Motion, boundaryX: real, factor: real, kick: real): Motion {
    if Abs(mo.position.x) > boundaryX then
      Motion(mo.position.(x := Sign(mo.position.x) * boundaryX),
             mo.velocity.(x := -mo.velocity.x * ReflectFactor(factor), y := mo.velocity.y + Kick(kick)))
    else mo
  }

  /** The y crossing, with the roles of x and y exchanged. */
  function BounceY(mo: Motion, boundaryY: real, factor: real, kick: real): Motion {
    if Abs(mo.position.y) > boundaryY then
      Motion(mo.position.(y := Sign(mo.position.y) * boundaryY),
             mo.velocity.(y := -mo.velocity.y * ReflectFactor(factor), x := mo.velocity.x + Kick(kick)))
    else mo
  }

  /** The velocity rescaled to length `desired` when it is not zero. */
  function Renormalise(m: Math, v: Vec, desired: real): Vec {
    var currentSpeed := m.sqrt(Sq(v.x) + Sq(v.y));
    if currentSpeed > 0.0 then v.(x := (v.x / currentSpeed) * desired, y := (v.y / currentSpeed) * desired)
    else v
  }

  /** The motion part of one frame: advance, the two crossings, and the
      speed renormalisation. */
  function MotionStep(m: Math, mo: Motion, boundaryX: real, boundaryY: real, d: FrameDraws, desired: real): Motion {
    var bounced := BounceY(BounceX(Advance(mo), boundaryX, d.xFactor, d.xKick), boundaryY, d.yFactor, d.yKick);
    bounced.(velocity := Renormalise(m, bounced.velocity, desired))
  }

  /** A reflection reverses and rescales by a factor in [0.8, 1.2). */
  lemma ReflectFactorRange(r: real)
    requires IsRandom(r)
    ensures 0.8 <= ReflectFactor(r) < 1.2
  {
    ScaledDraw(r, 0.4);
  }

  /** An x crossing flips the sign of the x velocity, scales its size by a
      factor in [0.8, 1.2), moves the y velocity by a kick in [-0.005,
      0.005) and leaves y and z alone; without one nothing changes. */
  lemma BounceXShape(mo: Motion, boundaryX: real, factor: real, kick: real)
    requires IsRandom(factor) && IsRandom(kick)
    ensures var b := BounceX(mo, boundaryX, factor, kick);
      && b.position.y == mo.position.y && b.position.z == mo.position.z && b.velocity.z == mo.velocity.z
      && (Abs(mo.position.x) <= boundaryX ==> b == mo)
      && (Abs(mo.position.x) > boundaryX ==>
            && (mo.velocity.x > 0.0 ==> b.velocity.x < 0.0)
            && (mo.velocity.x < 0.0 ==> b.velocity.x > 0.0)
            && 0.8 * Abs(mo.velocity.x) <= Abs(b.velocity.x) <= 1.2 * Abs(mo.velocity.x)
            && -0.005 <= b.velocity.y - mo.velocity.y < 0.005)
  {
    ReflectFactorRange(factor);
    ReflectScale(mo.velocity.x, ReflectFactor(factor));
  }

  /** The y crossing's counterpart of BounceXShape. */
  lemma BounceYShape(mo: Motion, boundaryY: real, factor: real, kick: real)
    requires IsRandom(factor) && IsRandom(kick)
    ensures var b := BounceY(mo, boundaryY, factor, kick);
      && b.position.x == mo.position.x && b.position.z == mo.position.z && b.velocity.z == mo.velocity.z
      && (Abs(mo.position.y) <= boundaryY ==> b == mo)
      && (Abs(mo.position.y) > boundaryY ==>
            && (mo.velocity.y > 0.0 ==> b.velocity.y < 0.0)
            && (mo.velocity.y < 0.0 ==> b.velocity.y > 0.0)
            && 0.8 * Abs(mo.velocity.y) <= Abs(b.velocity.y) <= 1.2 * Abs(mo.velocity.y)
            && -0.005 <= b.velocity.x - mo.velocity.x < 0.005)
  {
    ReflectFactorRange(factor);
    ReflectScale(mo.velocity.y, ReflectFactor(factor));
  }

  /** `-v * f` for a factor in [0.8, 1.2): the opposite sign, and a size
      between 0.8 and 1.2 times that of `v`. */
  lemma ReflectScale(v: real, f: real)
    requires 0.8 <= f < 1.2
    ensures v > 0.0 ==> -v * f < 0.0
    ensures v < 0.0 ==> -v * f > 0.0
    ensures 0.8 * Abs(v) <= Abs(-v * f) <= 1.2 * Abs(v)
  {
    AbsReflect(v, f);
    Magnitude(Abs(v), f);
    if v > 0.0 {
      MulPos(v, f);
    } else if v < 0.0 {
      MulPos(-v, f);
    }
  }

  /** The size of `-v * f` for a positive factor. */
  lemma AbsReflect(v: real, f: real)
    requires 0.0 < f
    ensures Abs(-v * f) == Abs(v) * f
  {
    if v >= 0.0 {
      MulNonneg(v, f);
    } else {
      MulPos(-v, f);
    }
  }

  /** Scaling a non-negative size by a factor in [0.8, 1.2). */
  lemma Magnitude(a: real, f: real)
    requires 0.0 <= a && 0.8 <= f < 1.2
    ensures 0.8 * a <= a * f <= 1.2 * a
    ensures 0.0 < a ==> 0.0 < a * f
  {
    MulMonotone(a, a, 0.8, f);
    MulMonotone(a, a, f, 1.2);
    if 0.0 < a {
      MulPos(a, f);
    }
  }

  /** After the frame's motion the rocket lies inside both boundaries when
      they are not negative, whatever it did before; z never moves. */
  lemma MotionStepInside(m: Math, mo: Motion, boundaryX: real, boundaryY: real, d: FrameDraws, desired: real)
    requires 0.0 <= boundaryX && 0.0 <= boundaryY
    ensures var r := MotionStep(m, mo, boundaryX, boundaryY, d, desired);
      Abs(r.position.x) <= boundaryX && Abs(r.position.y) <= boundaryY && r.position.z == mo.position.z
  {
    var a := Advance(mo);
    var bx := BounceX(a, boundaryX, d.xFactor, d.xKick);
    assert Abs(bx.position.x) <= boundaryX;
    var bxy := BounceY(bx, boundaryY, d.yFactor, d.yKick);
    assert bxy.position.x == bx.position.x;
    assert Abs(bxy.position.y) <= boundaryY;
  }

  /** On a viewport smaller than the margin a boundary is negative: every
      frame then counts as a crossing, and the rocket is put on the mirror
      line `Sign(x) * boundary`, on the opposite side of the centre (or on
      the centre line itself). */
  lemma MotionStepNegativeBoundary(m: Math, mo: Motion, boundaryX: real, boundaryY: real, d: FrameDraws, desired: real)
    ensures var r := MotionStep(m, mo, boundaryX, boundaryY, d, desired);
      boundaryX < 0.0 ==>
        r.position.x == Sign(mo.position.x + mo.velocity.x) * boundaryX
        && (r.position.x == 0.0 || Abs(r.position.x) == -boundaryX)
        && (mo.position.x + mo.velocity.x) * r.position.x <= 0.0
    ensures var r := MotionStep(m, mo, boundaryX, boundaryY, d, desired);
      boundaryY < 0.0 ==>
        r.position.y == Sign(mo.position.y + mo.velocity.y) * boundaryY
        && (r.position.y == 0.0 || Abs(r.position.y) == -boundaryY)
        && (mo.position.y + mo.velocity.y) * r.position.y <= 0.0
  {
    var a := Advance(mo);
    var bx := BounceX(a, boundaryX, d.xFactor, d.xKick);
    var bxy := BounceY(bx, boundaryY, d.yFactor, d.yKick);
    assert bxy.position.x == bx.position.x;
    assert bxy.position.y == (if boundaryY < 0.0 then Sign(a.position.y) * boundaryY else bxy.position.y);
    if boundaryX < 0.0 {
      SignProduct(a.position.x, boundaryX);
    }
    if boundaryY < 0.0 {
      SignProduct(a.position.y, boundaryY);
    }
  }

  lemma SignProduct(x: real, b: real)
    requires b < 0.0
    ensures x * (Sign(x) * b) <= 0.0
  {
    if x > 0.0 {
      MulPos(x, -b);
    } else if x < 0.0 {
      MulPos(-x, -b);
    }
  }

  /** `a ** 2`. */
  function Sq(a: real): real {
    a * a
  }

  /** The planar speed `Math.sqrt(v.x ** 2 + v.y ** 2)`. */
  function PlanarSpeed(m: Math, v: Vec): real {
    m.sqrt(Sq(v.x) + Sq(v.y))
  }

  /** When the measured planar speed is positive, the velocity is scaled by
      one non-negative factor so that its length becomes `desired` exactly;
      it then stays parallel to the old one and no component changes sign.
      Otherwise it is left as it is, and a zero velocity stays zero in any
      case. z is kept. */
  lemma RenormaliseShape(m: Math, v: Vec, desired: real)
    requires Sane(m) && 0.0 <= desired
    ensures var r := Renormalise(m, v, desired);
      && r.z == v.z
      && (v.x == 0.0 && v.y == 0.0 ==> r == v)
      && (PlanarSpeed(m, v) <= 0.0 ==> r == v)
      && (0.0 < PlanarSpeed(m, v) ==>
            && Sq(r.x) + Sq(r.y) == Sq(desired)
            && r.x * v.y == r.y * v.x
            && 0.0 <= r.x * v.x && 0.0 <= r.y * v.y)
  {
    if 0.0 < PlanarSpeed(m, v) {
      PlanarSpeedSquared(m, v);
      Rescale(v.x, v.y, PlanarSpeed(m, v), desired);
    }
  }

  /** The square of the planar speed is the sum of the squared components. */
  lemma PlanarSpeedSquared(m: Math, v: Vec)
    requires Sane(m)
    ensures Sq(PlanarSpeed(m, v)) == Sq(v.x) + Sq(v.y)
  {
    assert 0.0 <= Sq(v.x) + Sq(v.y);
  }

  /** The arithmetic of RenormaliseShape: dividing (x, y) by its length s
      and scaling by d gives a vector of length d along (x, y). Each step
      is a small identity of its own, so that the solver never has to
      factor the whole expression at once. */
  lemma Rescale(x: real, y: real, s: real, d: real)
    requires 0.0 < s && Sq(s) == Sq(x) + Sq(y) && 0.0 <= d
    ensures var a := (x / s) * d; var b := (y / s) * d;
      && Sq(a) + Sq(b) == Sq(d)
      && a * y == b * x
      && 0.0 <= a * x && 0.0 <= b * y
  {
    var k := d / s;
    DivScale(x, s, d);
    DivScale(y, s, d);
    SumSquares(x, y, k);
    ProductSquare(s, k);
    DivCancel(s, d);
    assert (x * k) * y == (y * k) * x;
    SameSide(x, k);
    SameSide(y, k);
  }

  lemma DivScale(x: real, s: real, d: real)
    requires 0.0 < s
    ensures (x / s) * d == x * (d / s)
  {
  }

  lemma SumSquares(x: real, y: real, k: real)
    ensures Sq(x * k) + Sq(y * k) == (Sq(x) + Sq(y)) * Sq(k)
  {
  }

  lemma ProductSquare(s: real, k: real)
    ensures Sq(s) * Sq(k) == Sq(s * k)
  {
  }

  lemma DivCancel(s: real, d: real)
    requires 0.0 < s
    ensures s * (d / s) == d
  {
  }

  lemma SameSide(x: real, k: real)
    requires 0.0 <= k
    ensures 0.0 <= (x * k) * x
  {
    assert (x * k) * x == Sq(x) * k;
    MulNonneg(Sq(x), k);
  }

  // ------------------------------------------------------------ rotation

  /** The rotation the rocket turns toward: a wobble of at most 0.05 in x
      and y, and the heading less a quarter turn in z (the model points
      up). */
  function TargetRotation(m: Math, velocity: Vec, time: real): Vec {
    Vec(m.sin(time * 2.0) * 0.05, m.cos(time * 1.5) * 0.05, m.atan2(velocity.y, velocity.x) - PI / 2.0)
  }

  lemma TargetWobble(m: Math, velocity: Vec, time: real)
    requires Sane(m)
    ensures var t := TargetRotation(m, velocity, time);
      -0.05 <= t.x <= 0.05 && -0.05 <= t.y <= 0.05
  {
    assert -1.0 <= m.sin(time * 2.0) <= 1.0 && -1.0 <= m.cos(time * 1.5) <= 1.0;
  }

  /** The interpolation rate of the rotation. */
  const RotationSpeed: real := 0.1

  /** `current += (target - current) * 0.1`. */
  function Lerp(current: real, target: real): real {
    current + (target - current) * RotationSpeed
  }

  function LerpAll(current: Vec, target: Vec): Vec {
    Vec(Lerp(current.x, target.x), Lerp(current.y, target.y), Lerp(current.z, target.z))
  }

  /** A step moves 10% of the way: the new value lies between the old value
      and the target, its distance to the target is 0.9 of the old one, and
      a value at the target stays there. */
  lemma LerpShape(current: real, target: real)
    ensures Min(current, target) <= Lerp(current, target) <= Max(current, target)
    ensures Lerp(current, target) - target == 0.9 * (current - target)
    ensures current == target ==> Lerp(current, target) == target
  {
  }

  /** `n` steps toward a fixed target, starting from `current`. */
  function LerpTimes(current: real, target: real, n: nat): real {
    if n == 0 then current else Lerp(LerpTimes(current, target, n - 1), target)
  }

  /** Toward a fixed target the gap after n frames is 0.9^n of the first
      one, so it never grows and never overshoots. */
  lemma {:induction false} LerpConverges(current: real, target: real, n: nat)
    ensures LerpTimes(current, target, n) - target == Decay(n) * (current - target)
    ensures 0.0 < Decay(n) <= 1.0
  {
    if n > 0 {
      LerpConverges(current, target, n - 1);
      LerpShape(LerpTimes(current, target, n - 1), target);
      MulPos(0.9, Decay(n - 1));
    }
  }

  /** `0.9^n`. */
  function Decay(n: nat): real {
    if n == 0 then 1.0 else 0.9 * Decay(n - 1)
  }

  // ------------------------------------------------------------ looks

  function BaseScale(isMobile: bool): real { if isMobile then 0.25 else 0.35 }
  function MinScale(isMobile: bool): real { if isMobile then 0.8 else 1.0 }
  function MaxScale(isMobile: bool): real { if isMobile then 1.5 else 2.0 }

  /** The scale multiplier at the fixed normalised depth 0.5: halfway
      between the minimum and maximum scale. */
  function ScaleMultiplier(isMobile: bool): real {
    var normalizedZ := 0.5;
    MinScale(isMobile) + normalizedZ * (MaxScale(isMobile) - MinScale(isMobile))
  }

  function DynamicScale(isMobile: bool): real {
    BaseScale(isMobile) * ScaleMultiplier(isMobile)
  }

  /** The rocket's scale is the constant 0.525 on desktop and 0.2875 on
      mobile, and the exhaust's scale factor `dynamicScale / baseScale` is
      the multiplier, 1.5 and 1.15. */
  lemma ScaleValues()
    ensures DynamicScale(false) == 0.525 && DynamicScale(true) == 0.2875
    ensures DynamicScale(false) / BaseScale(false) == 1.5 && DynamicScale(true) / BaseScale(true) == 1.15
    ensures forall mobile: bool :: MinScale(mobile) <= ScaleMultiplier(mobile) <= MaxScale(mobile)
  {
  }

  /** The exhaust's x and y scale at clock time `time`. */
  function ExhaustScale(m: Math, isMobile: bool, time: real): (real, real) {
    var exhaustIntensity := 1.0 + m.sin(time * 2.0) * 0.2;
    var scaleX := (exhaustIntensity + m.sin(time * 8.0) * 0.2) * (DynamicScale(isMobile) / BaseScale(isMobile));
    (scaleX, scaleX * (0.8 + m.sin(time * 12.0) * 0.2))
  }

  /** The flame's x scale swings between 0.6 and 1.4 times the scale
      multiplier. */
  lemma ExhaustScaleRange(m: Math, isMobile: bool, time: real)
    requires Sane(m)
    ensures 0.6 * ScaleMultiplier(isMobile) <= ExhaustScale(m, isMobile, time).0 <= 1.4 * ScaleMultiplier(isMobile)
  {
    var a := m.sin(time * 2.0);
    var b := m.sin(time * 8.0);
    assert -1.0 <= a <= 1.0 && -1.0 <= b <= 1.0;
    assert DynamicScale(isMobile) / BaseScale(isMobile) == ScaleMultiplier(isMobile);
    var k := ScaleMultiplier(isMobile);
    assert 1.0 <= k;
    MulMonotone(0.6, 1.0 + a * 0.2 + b * 0.2, k, k);
    MulMonotone(1.0 + a * 0.2 + b * 0.2, 1.4, k, k);
  }

  /** The opacity the traversal gives every mesh: 0.9 clamped to [0.8, 1]. */
  function MaterialOpacity(): real {
    Max(0.8, Min(1.0, 0.9))
  }

  lemma MaterialOpacityValue()
    ensures MaterialOpacity() == 0.9 && 0.8 <= MaterialOpacity() <= 1.0
  {
  }

  /** The opacities of the rocket's meshes as declared, in traversal order:
      body, upper body, the nose's three parts, the band, the engine, three
      fins of two meshes each, three nozzles, and the exhaust's four flame
      meshes (0.4, 0.8, 0.2 and 0.1, the only transparent ones). */
  const DeclaredOpacities: seq<real> := [
    1.0, 1.0, 1.0, 1.0, 1.0, 1.0, 1.0,
    1.0, 1.0, 1.0, 1.0, 1.0, 1.0,
    1.0, 1.0, 1.0,
    0.4, 0.8, 0.2, 0.1]

  const DeclaredTransparent: seq<bool> := [
    false, false, false, false, false, false, false,
    false, false, false, false, false, false,
    false, false, false,
    true, true, true, true]

  // ------------------------------------------------------------ the component

  /** The rocket's refs and the three.js state the frame callback writes. */
  class Rocket {
    var velocity: Vec
    var targetRotation: Vec
    var currentRotation: Vec
    var position: Vec
    var isInitialized: bool
    /** The group's position, rotation and uniform scale. */
    var meshPosition: Vec
    var meshRotation: Vec
    var scale: real
    /** The exhaust group's x and y scale. */
    var exhaustScaleX: real
    var exhaustScaleY: real
    /** Each mesh material's opacity and `transparent` flag. */
    var opacities: seq<real>
    var transparent: seq<bool>

    ghost predicate Valid()
      reads this
    {
      |opacities| == |transparent|
    }

    /** The refs' starting values and the group as declared: at the origin,
        unrotated, at scale 0.3, not yet initialised. */
    constructor ()
      ensures Valid() && !isInitialized
      ensures velocity == Origin && position == Origin && targetRotation == Origin && currentRotation == Origin
      ensures meshPosition == Origin && meshRotation == Origin && scale == 0.3
      ensures exhaustScaleX == 1.0 && exhaustScaleY == 1.0
      ensures opacities == DeclaredOpacities && transparent == DeclaredTransparent
    {
      velocity, targetRotation, currentRotation, position := Origin, Origin, Origin, Origin;
      isInitialized := false;
      meshPosition, meshRotation, scale := Origin, Origin, 0.3;
      exhaustScaleX, exhaustScaleY := 1.0, 1.0;
      opacities, transparent := DeclaredOpacities, DeclaredTransparent;
    }

    /** The mount effect: a random heading at the cruising speed, the
        position back at the centre, and the rocket marked initialised. */
    method Initialize(m: Math, viewportWidth: real, r: real)
      modifies this
      ensures velocity == StartVelocity(m, IsMobile(viewportWidth), r)
      ensures position == Origin && isInitialized
      ensures targetRotation == old(targetRotation) && currentRotation == old(currentRotation)
      ensures meshPosition == old(meshPosition) && meshRotation == old(meshRotation) && scale == old(scale)
      ensures exhaustScaleX == old(exhaustScaleX) && exhaustScaleY == old(exhaustScaleY)
      ensures opacities == old(opacities) && transparent == old(transparent)
    {
      var speed := if IsMobile(viewportWidth) then 0.02 else 0.03;
      var angle := r * PI * 2.0;
      velocity := Vec(m.cos(angle) * speed, m.sin(angle) * speed, 0.0);
      position := Origin;
      isInitialized := true;
    }

    /** The `useFrame` callback. Before initialisation or without the group
        nothing happens. Otherwise the motion step runs on the refs, the
        group takes the position, the rotation moves 10% toward the
        target, and the scale, flame and material opacities are set. */
    method Frame(m: Math, hasGroup: bool, viewportWidth: real, viewportHeight: real, time: real, d: FrameDraws)
      requires Valid()
      modifies this
      ensures Valid()
      ensures !hasGroup || !old(isInitialized) ==>
        && velocity == old(velocity) && position == old(position)
        && targetRotation == old(targetRotation) && currentRotation == old(currentRotation)
        && meshPosition == old(meshPosition) && meshRotation == old(meshRotation) && scale == old(scale)
        && exhaustScaleX == old(exhaustScaleX) && exhaustScaleY == old(exhaustScaleY)
        && opacities == old(opacities) && transparent == old(transparent)
      ensures isInitialized == old(isInitialized)
      ensures hasGroup && old(isInitialized) ==>
        && Motion(position, velocity) == MotionStep(m, Motion(old(position), old(velocity)),
             Boundary(viewportWidth), Boundary(viewportHeight), d, Speed(IsMobile(viewportWidth)))
        && meshPosition == position
        && targetRotation == TargetRotation(m, velocity, time)
        && currentRotation == LerpAll(old(currentRotation), targetRotation)
        && meshRotation == currentRotation
        && scale == DynamicScale(IsMobile(viewportWidth))
        && (exhaustScaleX, exhaustScaleY) == ExhaustScale(m, IsMobile(viewportWidth), time)
        && |opacities| == |old(opacities)|
        && (forall k :: 0 <= k < |opacities| ==> opacities[k] == MaterialOpacity() && transparent[k])
    {
      if !hasGroup || !isInitialized {
        return;
      }
      var isMobile := IsMobile(viewportWidth);
      Move(m, Boundary(viewportWidth), Boundary(viewportHeight), d, Speed(isMobile));
      meshPosition := position;
      Turn(m, time);
      meshRotation := currentRotation;
      scale := DynamicScale(isMobile);
      exhaustScaleX, exhaustScaleY := ExhaustScale(m, isMobile, time).0, ExhaustScale(m, isMobile, time).1;
      SetOpacities();
    }

    /** The motion part of the callback on the position and velocity refs,
        in the order the source writes them. */
    method Move(m: Math, boundaryX: real, boundaryY: real, d: FrameDraws, desiredSpeed: real)
      modifies this
      ensures Motion(position, velocity) == MotionStep(m, Motion(old(position), old(velocity)), boundaryX, boundaryY, d, desiredSpeed)
      ensures targetRotation == old(targetRotation) && currentRotation == old(currentRotation)
      ensures meshPosition == old(meshPosition) && meshRotation == old(meshRotation) && scale == old(scale)
      ensures exhaustScaleX == old(exhaustScaleX) && exhaustScaleY == old(exhaustScaleY)
      ensures isInitialized == old(isInitialized) && opacities == old(opacities) && transparent == old(transparent)
    {
      var p, v := position, velocity;
      ghost var start := Motion(p, v);
      p := p.(x := p.x + v.x, y := p.y + v.y);
      ghost var advanced := Motion(p, v);
      assert advanced == Advance(start);
      if Abs(p.x) > boundaryX {
        v := v.(x := -v.x * ReflectFactor(d.xFactor), y := v.y + Kick(d.xKick));
        p := p.(x := Sign(p.x) * boundaryX);
      }
      ghost var bouncedX := Motion(p, v);
      assert bouncedX == BounceX(advanced, boundaryX, d.xFactor, d.xKick);
      if Abs(p.y) > boundaryY {
        v := v.(y := -v.y * ReflectFactor(d.yFactor), x := v.x + Kick(d.yKick));
        p := p.(y := Sign(p.y) * boundaryY);
      }
      assert Motion(p, v) == BounceY(bouncedX, boundaryY, d.yFactor, d.yKick);
      v := Renormalise(m, v, desiredSpeed);
      position, velocity := p, v;
    }

    /** The heading target and the interpolation of the current rotation. */
    method Turn(m: Math, time: real)
      modifies this
      ensures targetRotation == TargetRotation(m, velocity, time)
      ensures currentRotation == LerpAll(old(currentRotation), targetRotation)
      ensures velocity == old(velocity) && position == old(position) && isInitialized == old(isInitialized)
      ensures meshPosition == old(meshPosition) && meshRotation == old(meshRotation) && scale == old(scale)
      ensures exhaustScaleX == old(exhaustScaleX) && exhaustScaleY == old(exhaustScaleY)
      ensures opacities == old(opacities) && transparent == old(transparent)
    {
      var angle := m.atan2(velocity.y, velocity.x);
      targetRotation := targetRotation.(z := angle - PI / 2.0);
      targetRotation := targetRotation.(x := m.sin(time * 2.0) * 0.05);
      targetRotation := targetRotation.(y := m.cos(time * 1.5) * 0.05);
      var rotationSpeed := 0.1;
      currentRotation := currentRotation.(x := currentRotation.x + (targetRotation.x - currentRotation.x) * rotationSpeed);
      currentRotation := currentRotation.(y := currentRotation.y + (targetRotation.y - currentRotation.y) * rotationSpeed);
      currentRotation := currentRotation.(z := currentRotation.z + (targetRotation.z - currentRotation.z) * rotationSpeed);
    }

    /** The `traverse`: every mesh gets opacity `max(0.8, min(1, 0.9))` and
        becomes transparent. */
    method SetOpacities()
      requires Valid()
      modifies this
      ensures Valid() && |opacities| == |old(opacities)|
      ensures forall k :: 0 <= k < |opacities| ==> opacities[k] == MaterialOpacity() && transparent[k]
      ensures velocity == old(velocity) && position == old(position) && isInitialized == old(isInitialized)
      ensures targetRotation == old(targetRotation) && currentRotation == old(currentRotation)
      ensures meshPosition == old(meshPosition) && meshRotation == old(meshRotation) && scale == old(scale)
      ensures exhaustScaleX == old(exhaustScaleX) && exhaustScaleY == old(exhaustScaleY)
    {
      var os := opacities;
      var ts := transparent;
      for k := 0 to |os|
        invariant |os| == |opacities| && |ts| == |os|
        invariant forall j :: 0 <= j < k ==> os[j] == MaterialOpacity() && ts[j]
      {
        var opacity := 0.9;
        os := os[k := Max(0.8, Min(1.0, opacity))];
        ts := ts[k := true];
      }
      opacities, transparent := os, ts;
    }
  }
}
