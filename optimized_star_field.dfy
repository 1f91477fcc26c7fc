/** The performance-aware three.js star field of
    src/components/three/OptimizedStarField.tsx: the star budget cut by the
    published performance flags, the `Float32Array` buffers filled from
    `Math.random()`, and the clock-driven rotation. */
module OptimizedStarField {
  import opened Js
  import ThreeUtils

  /** The `count` prop's default. */
  const DefaultCount: real := 3000.0

  /** `adjustedCount`: low performance keeps 30% of the stars, at most 500;
      otherwise reduced animations keep 60%, at most 1500. The result is a
      number that need not be whole. */
  function AdjustedCount(count: real, isLowPerformance: bool, reducedAnimations: bool): real {
    if isLowPerformance then Min(count * 0.3, 500.0)
    else if reducedAnimations then Min(count * 0.6, 1500.0)
    else count
  }

  /** Low performance overrides reduced animations; the budget never exceeds
      the requested count when that is non-negative, stays non-negative then,
      and is capped at 500 under low performance and 1500 under reduced
      animations. */
  lemma AdjustedCountShape(count: real, isLowPerformance: bool, reducedAnimations: bool)
    ensures isLowPerformance ==>
      AdjustedCount(count, true, reducedAnimations) == AdjustedCount(count, true, !reducedAnimations)
    ensures 0.0 <= count ==> 0.0 <= AdjustedCount(count, isLowPerformance, reducedAnimations) <= count
    ensures isLowPerformance ==> AdjustedCount(count, isLowPerformance, reducedAnimations) <= 500.0
    ensures reducedAnimations ==> AdjustedCount(count, isLowPerformance, reducedAnimations) <= 1500.0
    ensures !isLowPerformance && !reducedAnimations ==> AdjustedCount(count, false, false) == count
  {
  }

  /** The length `new Float32Array(n)` gets: `n` truncated toward zero, or a
      `RangeError` (`None`) when that truncation is negative. */
  function Float32Length(n: real): (len: Option<nat>)
    ensures n <= -1.0 <==> len.None?
    ensures 0.0 <= n ==> len == Some(Floor(n))
    ensures -1.0 < n < 0.0 ==> len == Some(0)
  {
    if n <= -1.0 then None else if n < 0.0 then Some(0) else Some(Floor(n))
  }

  /** Star `i` uses draws 4i .. 4i+3: radius, azimuth, polar angle, size. */
  function Radius(rand: nat -> real, i: nat): real {
    100.0 + rand(4 * i) * 300.0
  }

  function Position(m: Math, rand: nat -> real, i: nat): ThreeUtils.Point {
    ThreeUtils.Spherical(m, Radius(rand, i), rand(4 * i + 1) * PI * 2.0, m.acos(2.0 * rand(4 * i + 2) - 1.0))
  }

  function Size(rand: nat -> real, i: nat): real {
    0.5 + rand(4 * i + 3) * 1.5
  }

  /** Radii lie in [100, 400) and sizes in [0.5, 2.0). */
  lemma StarRanges(rand: nat -> real, i: nat)
    requires IsRandomStream(rand)
    ensures 100.0 <= Radius(rand, i) < 400.0
    ensures 0.5 <= Size(rand, i) < 2.0
  {
    assert IsRandom(rand(4 * i)) && IsRandom(rand(4 * i + 3));
    ScaledDraw(rand(4 * i), 300.0);
    ScaledDraw(rand(4 * i + 3), 1.5);
  }

  /** Coordinate `d` (0, 1 or 2) of a point. */
  function Component(p: ThreeUtils.Point, d: int): real {
    if d == 0 then p.x else if d == 1 then p.y else p.z
  }

  /** Every entry of `ps` that belongs to one of the first `n` stars holds
      its coordinate. */
  ghost predicate PositionsStored(m: Math, rand: nat -> real, ps: seq<real>, n: nat) {
    forall k :: 0 <= k < |ps| && k < 3 * n ==> ps[k] == Component(Position(m, rand, k / 3), k % 3)
  }

  ghost predicate SizesStored(rand: nat -> real, ss: seq<real>, n: nat) {
    forall k :: 0 <= k < |ss| && k < n ==> ss[k] == Size(rand, k)
  }

  /** The `useMemo` buffer fill for `adjustedCount` stars. The loop runs while
      `i < adjustedCount`, so a fractional budget runs one more star than the
      truncated buffer lengths hold; a typed array ignores those writes past
      its end. `ok` is false where an allocation throws. */
  method FillBuffers(m: Math, rand: nat -> real, adjustedCount: real)
    returns (ok: bool, positions: array<real>, sizes: array<real>)
    ensures fresh(positions) && fresh(sizes)
    ensures ok <==> Float32Length(adjustedCount * 3.0).Some? && Float32Length(adjustedCount).Some?
    ensures ok ==>
      positions.Length == Float32Length(adjustedCount * 3.0).value
      && sizes.Length == Float32Length(adjustedCount).value
    ensures forall k :: 0 <= k < positions.Length ==>
      positions[k] == Component(Position(m, rand, k / 3), k % 3)
    ensures forall i :: 0 <= i < sizes.Length ==> sizes[i] == Size(rand, i)
  {
    var positionsLength := Float32Length(adjustedCount * 3.0);
    var sizesLength := Float32Length(adjustedCount);
    if positionsLength.None? || sizesLength.None? {
      ok := false;
      positions := new real[0];
      sizes := new real[0];
      return;
    }
    ok := true;
    positions := new real[positionsLength.value];
    sizes := new real[sizesLength.value];
    var i: nat := 0;
    while (i as real) < adjustedCount
      invariant PositionsStored(m, rand, positions[..], i)
      invariant SizesStored(rand, sizes[..], i)
      decreases Floor(adjustedCount) - i
    {
      StorePosition(m, rand, i, positions);
      StoreSize(rand, i, sizes);
      i := i + 1;
    }
    assert 3 * i >= positions.Length && i >= sizes.Length;
    assert PositionsStored(m, rand, positions[..], i);
    assert SizesStored(rand, sizes[..], i);
  }

  /** One iteration's coordinate writes, each dropped past the end. */
  method StorePosition(m: Math, rand: nat -> real, i: nat, positions: array<real>)
    requires PositionsStored(m, rand, positions[..], i)
    modifies positions
    ensures PositionsStored(m, rand, positions[..], i + 1)
  {
    var i3 := 3 * i;
    var p := Position(m, rand, i);
    if i3 < positions.Length {
      positions[i3] := p.x;
    }
    if i3 + 1 < positions.Length {
      positions[i3 + 1] := p.y;
    }
    if i3 + 2 < positions.Length {
      positions[i3 + 2] := p.z;
    }
    forall k | 0 <= k < positions.Length && k < 3 * (i + 1)
      ensures positions[k] == Component(Position(m, rand, k / 3), k % 3)
    {
      if k >= i3 {
        assert k / 3 == i && k % 3 == k - i3;
      }
    }
  }

  /** One iteration's size write, dropped past the end. */
  method StoreSize(rand: nat -> real, i: nat, sizes: array<real>)
    requires SizesStored(rand, sizes[..], i)
    modifies sizes
    ensures SizesStored(rand, sizes[..], i + 1)
  {
    if i < sizes.Length {
      sizes[i] := Size(rand, i);
    }
  }

  /** A non-negative budget allocates `floor(3 * adjustedCount)` coordinates
      and `floor(adjustedCount)` sizes; one of -1/3 or less throws. */
  lemma BufferLengths(adjustedCount: real)
    ensures 0.0 <= adjustedCount ==>
      Float32Length(adjustedCount * 3.0) == Some(Floor(adjustedCount * 3.0))
      && Float32Length(adjustedCount) == Some(Floor(adjustedCount))
    ensures adjustedCount * 3.0 <= -1.0 ==> Float32Length(adjustedCount * 3.0).None?
  {
  }

  /** The rotation speed in radians per second of clock time. */
  function Speed(reducedAnimations: bool): real {
    if reducedAnimations then 0.01 else 0.02
  }

  /** The rotation set from the clock: `(x, y) = (t * speed / 2, t * speed)`. */
  function Rotation(elapsedTime: real, reducedAnimations: bool): (real, real) {
    var speed := Speed(reducedAnimations);
    (elapsedTime * (speed * 0.5), elapsedTime * speed)
  }

  /** The X rotation is always half the Y rotation, reduced animations turn
      at half the full speed, and for a running clock the angles never go
      back. */
  lemma RotationShape(t: real, u: real, reducedAnimations: bool)
    ensures Rotation(t, reducedAnimations).1 == 2.0 * Rotation(t, reducedAnimations).0
    ensures Rotation(t, false).1 == 2.0 * Rotation(t, true).1
    ensures t <= u ==>
      Rotation(t, reducedAnimations).0 <= Rotation(u, reducedAnimations).0
      && Rotation(t, reducedAnimations).1 <= Rotation(u, reducedAnimations).1
  {
  }

  /** The points object's rotation. */
  class Points {
    var rotationX: real
    var rotationY: real

    constructor ()
      ensures rotationX == 0.0 && rotationY == 0.0
    {
      rotationX, rotationY := 0.0, 0.0;
    }

    /** The `useFrame` callback: nothing moves without a mesh, under reduced
        motion or under low performance; otherwise the rotation is set from
        the clock. */
    method OnFrame(hasMesh: bool, prefersReducedMotion: bool, isLowPerformance: bool,
                   reducedAnimations: bool, elapsedTime: real)
      modifies this
      ensures !hasMesh || prefersReducedMotion || isLowPerformance ==>
        rotationX == old(rotationX) && rotationY == old(rotationY)
      ensures hasMesh && !prefersReducedMotion && !isLowPerformance ==>
        (rotationX, rotationY) == Rotation(elapsedTime, reducedAnimations)
    {
      if !hasMesh || prefersReducedMotion || isLowPerformance {
        return;
      }
      var speed := if reducedAnimations then 0.01 else 0.02;
      rotationY := elapsedTime * speed;
      rotationX := elapsedTime * (speed * 0.5);
    }
  }
}
