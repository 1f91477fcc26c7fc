/** The three.js star field of src/components/three/StarField.tsx: the star
    budget by viewport width, the reduced-motion shader settings, the
    per-frame scroll parallax with adaptive star count, and the renders that
    follow a width change or a new star count. */
module StarField {
  import opened Js
  import ThreeUtils

  /** `baseStarCount`: 500 stars on a phone, 800 on a tablet, 1200 on a
      desktop. */
  function BaseStarCount(width: real): (n: int)
    ensures width < 768.0 ==> n == 500
    ensures 768.0 <= width < 1024.0 ==> n == 800
    ensures 1024.0 <= width ==> n == 1200
  {
    if width < 768.0 then 500 else if width < 1024.0 then 800 else 1200
  }

  /** A wider viewport never gets a smaller budget, and the budget is one of
      the three tiers. */
  lemma BaseStarCountMonotone(w1: real, w2: real)
    requires w1 <= w2
    ensures BaseStarCount(w1) <= BaseStarCount(w2)
    ensures BaseStarCount(w1) in {500, 800, 1200}
  {
  }

  /** The `opacity` uniform: dimmed to 0.6 under reduced motion. */
  function OpacityUniform(prefersReducedMotion: bool): (o: real)
    ensures prefersReducedMotion ==> o == 0.6
    ensures !prefersReducedMotion ==> o == 1.0
  {
    if prefersReducedMotion then 0.6 else 1.0
  }

  /** The fragment shader's twinkle factor: constant 1 under reduced motion,
      otherwise `sin(time * 2 + fragX * 0.01) * 0.2 + 0.8`. */
  function Twinkle(m: Math, prefersReducedMotion: bool, time: real, fragX: real): real {
    if prefersReducedMotion then 1.0 else m.sin(time * 2.0 + fragX * 0.01) * 0.2 + 0.8
  }

  /** Twinkling only ever dims a star, by at most 40%, and never under
      reduced motion. */
  lemma TwinkleRange(m: Math, prefersReducedMotion: bool, time: real, fragX: real)
    requires Sane(m)
    ensures 0.6 <= Twinkle(m, prefersReducedMotion, time, fragX) <= 1.0
    ensures prefersReducedMotion ==> Twinkle(m, prefersReducedMotion, time, fragX) == 1.0
  {
    var v := m.sin(time * 2.0 + fragX * 0.01);
    assert -1.0 <= v <= 1.0;
  }

  /** `a` is the position array of a geometry built from `count` stars of
      `generateStars` drawing from `rand`: three coordinates per star. */
  ghost predicate HoldsStars(a: seq<real>, m: Math, rand: nat -> real, count: int) {
    0 <= count && |a| == 3 * count
    && forall i :: 0 <= i < count ==>
      a[3 * i] == ThreeUtils.StarAt(m, rand, i).position.0
      && a[3 * i + 1] == ThreeUtils.StarAt(m, rand, i).position.1
      && a[3 * i + 2] == ThreeUtils.StarAt(m, rand, i).position.2
  }

  /** The `Stars` component between renders and frames: the budget memoised
      from the width, the star-count state, the star count the memoised
      geometry was built for, the geometry's position array, the copy of it
      taken when the geometry was built, and the shared frame-rate sampler. */
  class Stars {
    var baseStarCount: int
    var starCount: int
    var geometryCount: int
    var time: real
    var positions: array<real>
    var originalPositions: array<real>
    const meter: ThreeUtils.FrameRateMeter

    ghost predicate Valid()
      reads this
    {
      positions != originalPositions
      && 0 <= baseStarCount && 0 <= starCount && 0 <= geometryCount
      && positions.Length == originalPositions.Length == 3 * geometryCount
    }

    /** The first render: the budget from the width, `starCount` starting at
        it, and the geometry built for that many stars, with
        `originalPositions` a copy of its positions. */
    constructor (width: real, m: Math, rand: nat -> real, toRgb: string -> (real, real, real),
                 meter: ThreeUtils.FrameRateMeter)
      ensures Valid()
      ensures baseStarCount == BaseStarCount(width) && starCount == baseStarCount
      ensures geometryCount == starCount && time == 0.0 && this.meter == meter
      ensures fresh(positions) && fresh(originalPositions)
      ensures HoldsStars(originalPositions[..], m, rand, starCount)
      ensures positions[..] == originalPositions[..]
    {
      var n := BaseStarCount(width);
      baseStarCount := n;
      starCount := n;
      geometryCount := n;
      time := 0.0;
      this.meter := meter;
      var stars := ThreeUtils.GenerateStars(n, m, rand);
      var ps, sizes, colors := ThreeUtils.CreateStarGeometry(stars, toRgb);
      var copy := CopyPositions(ps);
      positions := ps;
      originalPositions := copy;
      HoldsBuilt(stars, ps[..], m, rand, n);
    }

    /** A render after the viewport width changed: the `baseStarCount` memo
        follows the width, while the `starCount` state keeps its value. */
    method ViewportChanged(width: real)
      requires Valid()
      modifies this
      ensures Valid()
      ensures baseStarCount == BaseStarCount(width)
      ensures starCount == old(starCount) && geometryCount == old(geometryCount) && time == old(time)
      ensures positions == old(positions) && originalPositions == old(originalPositions)
    {
      baseStarCount := BaseStarCount(width);
    }

    /** A render after `setStarCount`: when the count differs from the one
        the geometry was built for, the `stars`, `geometry` and
        `originalPositions` memos are recomputed for the new count, drawing
        fresh `Math.random()` results from `rand`; otherwise nothing changes. */
    method Rerender(m: Math, rand: nat -> real, toRgb: string -> (real, real, real))
      requires Valid()
      modifies this
      ensures Valid()
      ensures geometryCount == starCount
      ensures baseStarCount == old(baseStarCount) && starCount == old(starCount) && time == old(time)
      ensures old(starCount) == old(geometryCount) ==>
        positions == old(positions) && originalPositions == old(originalPositions)
      ensures old(starCount) != old(geometryCount) ==>
        fresh(positions) && fresh(originalPositions)
        && HoldsStars(originalPositions[..], m, rand, starCount)
        && positions[..] == originalPositions[..]
    {
      if starCount == geometryCount {
        return;
      }
      var n := starCount;
      var stars := ThreeUtils.GenerateStars(n, m, rand);
      var ps, sizes, colors := ThreeUtils.CreateStarGeometry(stars, toRgb);
      var copy := CopyPositions(ps);
      positions := ps;
      originalPositions := copy;
      geometryCount := n;
      HoldsBuilt(stars, ps[..], m, rand, n);
    }

    /** The `useFrame` callback. Without a mesh or under reduced motion it
        returns at once; otherwise it applies the scroll parallax, samples the
        frame rate and asks for a new star count (`requested`) exactly when
        the adaptive count differs from the current one. The geometry is not
        rebuilt here: that happens at the next render, in `Rerender`. */
    method Frame(hasMesh: bool, prefersReducedMotion: bool, scrollProgress: real,
                 elapsedTime: real, now: real) returns (requested: bool)
      requires Valid()
      modifies this, positions, meter
      ensures Valid()
      ensures positions == old(positions) && originalPositions == old(originalPositions)
      ensures baseStarCount == old(baseStarCount) && geometryCount == old(geometryCount)
      ensures !hasMesh || prefersReducedMotion ==>
        !requested && starCount == old(starCount) && time == old(time)
        && positions[..] == old(positions[..])
        && meter.lastTime == old(meter.lastTime) && meter.frameCount == old(meter.frameCount)
        && meter.fps == old(meter.fps)
      ensures hasMesh && !prefersReducedMotion ==>
        time == elapsedTime
        && positions[..] == ThreeUtils.Parallax(originalPositions[..], scrollProgress)
        && ThreeUtils.FrameRate(meter.lastTime, meter.frameCount, meter.fps)
           == ThreeUtils.FrameRateStep(old(ThreeUtils.FrameRate(meter.lastTime, meter.frameCount, meter.fps)), now)
        && starCount == ThreeUtils.GetAdaptiveStarCount(meter.fps as real, baseStarCount)
        && (requested <==> starCount != old(starCount))
      ensures originalPositions[..] == old(originalPositions[..])
    {
      requested := false;
      if !hasMesh || prefersReducedMotion {
        return;
      }
      time := elapsedTime;
      ThreeUtils.UpdateStarPositions(positions, scrollProgress, originalPositions);
      var fps := meter.GetFrameRate(now);
      var adaptiveCount := ThreeUtils.GetAdaptiveStarCount(fps as real, baseStarCount);
      ThreeUtils.AdaptiveStarCountShape(fps as real, fps as real, baseStarCount);
      if adaptiveCount != starCount {
        starCount := adaptiveCount;
        requested := true;
      }
    }
  }

  /** `new Float32Array(positions)`: a fresh array with the same entries. */
  method CopyPositions(a: array<real>) returns (copy: array<real>)
    ensures fresh(copy) && copy[..] == a[..]
  {
    copy := new real[a.Length];
    forall k | 0 <= k < a.Length {
      copy[k] := a[k];
    }
  }

  /** The geometry built from the generated stars holds their positions. */
  lemma HoldsBuilt(stars: seq<ThreeUtils.StarData>, a: seq<real>, m: Math, rand: nat -> real, n: int)
    requires 0 <= n && |stars| == n && |a| == 3 * n
    requires forall i :: 0 <= i < n ==> stars[i] == ThreeUtils.StarAt(m, rand, i)
    requires forall i :: 0 <= i < n ==>
      a[3 * i] == stars[i].position.0 && a[3 * i + 1] == stars[i].position.1
      && a[3 * i + 2] == stars[i].position.2
    ensures HoldsStars(a, m, rand, n)
  {
  }
}
