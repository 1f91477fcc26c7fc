/** The canvas shooting stars of src/components/effects/ShootingStars2D.tsx: a
    pool of 8 stars built on the first resize, a new star every 3-8 seconds
    into the first free slot, and the per-frame flight of each active star
    from 50 px outside one edge to 50 px outside the opposite edge, fading in
    over the first tenth and out over the last fifth of its life. */
module ShootingStars2D {
  import opened Js
  import Utils

  const StarCount: nat := 8
  const MinSpawnInterval: real := 3000.0
  const MaxSpawnInterval: real := 8000.0

  datatype Rgb = Rgb(r: int, g: int, b: int)

  datatype ShootingStar = ShootingStar(
    x: real, y: real,
    startX: real, startY: real, endX: real, endY: real,
    speed: real, size: real, color: Rgb,
    life: real, maxLife: real, opacity: real,
    angle: real, tailLength: real, isActive: bool)

  /** `createInactiveShootingStar()`. */
  const Inactive := ShootingStar(0.0, 0.0, 0.0, 0.0, 0.0, 0.0, 0.0, 0.0, Rgb(255, 255, 255),
    0.0, 0.0, 0.0, 0.0, 0.0, false)

  // ------------------------------------------------------------ creation

  /** The `Math.random()` results `createShootingStar` draws, in order: the
      side, the two free coordinates (start then end), speed, size, lifetime,
      tail length and colour. */
  datatype StarDraws = StarDraws(side: real, start: real, end: real, speed: real, size: real,
                                 life: real, tail: real, color: real)

  predicate ValidDraws(d: StarDraws) {
    IsRandom(d.side) && IsRandom(d.start) && IsRandom(d.end) && IsRandom(d.speed)
    && IsRandom(d.size) && IsRandom(d.life) && IsRandom(d.tail) && IsRandom(d.color)
  }

  /** `Math.floor(Math.random() * 4)`: 0 top, 1 right, 2 bottom, 3 left. */
  function Side(r: real): int {
    Floor(r * 4.0)
  }

  /** A draw picks each side on a quarter of [0, 1). */
  lemma SideRange(r: real)
    requires IsRandom(r)
    ensures 0 <= Side(r) <= 3
    ensures Side(r) == 0 <==> r < 0.25
    ensures Side(r) == 1 <==> 0.25 <= r < 0.5
    ensures Side(r) == 2 <==> 0.5 <= r < 0.75
    ensures Side(r) == 3 <==> 0.75 <= r
  {
  }

  function StarColor(choice: real): Rgb {
    if choice < 0.6 then Rgb(255, 255, 255)
    else if choice < 0.8 then Rgb(200, 220, 255)
    else Rgb(255, 245, 200)
  }

  /** Where a star on `side` starts and ends: 50 px outside that edge and
      50 px outside the opposite one, at the drawn fractions `start` and `end`
      along it. Any side other than 0, 1 and 2 takes the `default` (left)
      branch. */
  datatype Path = Path(startX: real, startY: real, endX: real, endY: real)

  function Endpoints(side: int, w: real, h: real, start: real, end: real): Path {
    if side == 0 then Path(start * w, -50.0, end * w, h + 50.0)
    else if side == 1 then Path(w + 50.0, start * h, -50.0, end * h)
    else if side == 2 then Path(start * w, h + 50.0, end * w, -50.0)
    else Path(-50.0, start * h, w + 50.0, end * h)
  }

  /** The free coordinates lie within the canvas. */
  lemma EndpointsWithin(side: int, w: real, h: real, start: real, end: real)
    requires IsRandom(start) && IsRandom(end) && 0.0 <= w && 0.0 <= h
    ensures var p := Endpoints(side, w, h, start, end);
      side == 0 || side == 2 ==> 0.0 <= p.startX <= w && 0.0 <= p.endX <= w
    ensures var p := Endpoints(side, w, h, start, end);
      side != 0 && side != 2 ==> 0.0 <= p.startY <= h && 0.0 <= p.endY <= h
  {
    Within(start, w);
    Within(end, w);
    Within(start, h);
    Within(end, h);
  }

  /** `createShootingStar(width, height)`. */
  function Create(m: Math, width: nat, height: nat, d: StarDraws): ShootingStar {
    var p := Endpoints(Side(d.side), width as real, height as real, d.start, d.end);
    ShootingStar(p.startX, p.startY, p.startX, p.startY, p.endX, p.endY,
      0.3 + d.speed * 0.5, 2.0 + d.size * 3.0, StarColor(d.color),
      0.0, 5000.0 + d.life * 8000.0, 1.0,
      m.atan2(p.endY - p.startY, p.endX - p.startX), 80.0 + d.tail * 120.0, true)
  }

  /** A new star is active at its start with age 0 and full opacity; speed,
      size, lifetime and tail lie in [0.3, 0.8), [2, 5), [5000, 13000) and
      [80, 200); the colour follows the thresholds 0.6 and 0.8. */
  lemma CreateRanges(m: Math, width: nat, height: nat, d: StarDraws)
    requires ValidDraws(d)
    ensures var s := Create(m, width, height, d);
      s.isActive && s.life == 0.0 && s.opacity == 1.0 && s.x == s.startX && s.y == s.startY
      && 0.3 <= s.speed < 0.8 && 2.0 <= s.size < 5.0
      && 5000.0 <= s.maxLife < 13000.0 && 80.0 <= s.tailLength < 200.0
      && (d.color < 0.6 ==> s.color == Rgb(255, 255, 255))
      && (0.6 <= d.color < 0.8 ==> s.color == Rgb(200, 220, 255))
      && (0.8 <= d.color ==> s.color == Rgb(255, 245, 200))
  {
    ScaledDraw(d.speed, 0.5);
    ScaledDraw(d.size, 3.0);
    ScaledDraw(d.life, 8000.0);
    ScaledDraw(d.tail, 120.0);
  }

  /** A top star starts 50 px above the canvas and ends 50 px below it, a
      right one starts 50 px right and ends 50 px left, and so on; the free
      coordinates lie within the canvas. */
  lemma CreateEdges(m: Math, width: nat, height: nat, d: StarDraws)
    requires ValidDraws(d)
    ensures var s := Create(m, width, height, d);
      d.side < 0.25 ==> s.startY == -50.0 && s.endY == height as real + 50.0
                        && 0.0 <= s.startX <= width as real && 0.0 <= s.endX <= width as real
    ensures var s := Create(m, width, height, d);
      0.25 <= d.side < 0.5 ==> s.startX == width as real + 50.0 && s.endX == -50.0
                               && 0.0 <= s.startY <= height as real && 0.0 <= s.endY <= height as real
    ensures var s := Create(m, width, height, d);
      0.5 <= d.side < 0.75 ==> s.startY == height as real + 50.0 && s.endY == -50.0
                               && 0.0 <= s.startX <= width as real && 0.0 <= s.endX <= width as real
    ensures var s := Create(m, width, height, d);
      0.75 <= d.side ==> s.startX == -50.0 && s.endX == width as real + 50.0
                         && 0.0 <= s.startY <= height as real && 0.0 <= s.endY <= height as real
  {
    SideRange(d.side);
    EndpointsWithin(Side(d.side), width as real, height as real, d.start, d.end);
  }

  /** A draw scaled by a non-negative extent stays within it. */
  lemma Within(r: real, extent: real)
    requires IsRandom(r) && 0.0 <= extent
    ensures 0.0 <= r * extent <= extent
  {
    MulNonneg(r, extent);
    MulMonotone(r, 1.0, extent, extent);
  }

  // --------------------------------------------------------------- flight

  /** `Math.min(life / maxLife, 1)`. */
  function Progress(life: real, maxLife: real): real
    requires maxLife > 0.0
  {
    Min(life / maxLife, 1.0)
  }

  /** Fade in below 0.1, full on [0.1, 0.8], fade out above 0.8. */
  function Opacity(progress: real): real {
    if progress < 0.1 then progress / 0.1
    else if progress > 0.8 then (1.0 - progress) / 0.2
    else 1.0
  }

  /** On [0, 1] the opacity stays in [0, 1]; it is 0 at both ends and 1 on
      the plateau [0.1, 0.8]. */
  lemma OpacityShape(p: real)
    ensures 0.0 <= p <= 1.0 ==> 0.0 <= Opacity(p) <= 1.0
    ensures Opacity(0.0) == 0.0 && Opacity(1.0) == 0.0
    ensures 0.1 <= p <= 0.8 ==> Opacity(p) == 1.0
    ensures 0.0 < p < 1.0 ==> Opacity(p) > 0.0
  {
  }

  /** `updateShootingStar(star, deltaTime)`. An active star always has a
      positive lifetime, since only `Create` activates one. */
  function Update(s: ShootingStar, deltaTime: real): ShootingStar
    requires s.isActive ==> s.maxLife > 0.0
  {
    if !s.isActive then s
    else
      var life := s.life + deltaTime;
      var progress := Progress(life, s.maxLife);
      s.(life := life,
         x := Utils.Lerp(s.startX, s.endX, progress),
         y := Utils.Lerp(s.startY, s.endY, progress),
         opacity := Opacity(progress),
         isActive := !(progress >= 1.0))
  }

  /** An inactive star is untouched. An active one ages by `deltaTime`, sits
      at the start at progress 0 and at the end at progress 1, retires
      exactly when its age reaches `maxLife` (with opacity 0 then), and has an
      opacity in [0, 1] while its age is not negative. */
  lemma UpdateShape(s: ShootingStar, deltaTime: real)
    requires s.isActive ==> s.maxLife > 0.0
    ensures !s.isActive ==> Update(s, deltaTime) == s
    ensures s.isActive ==>
      var r := Update(s, deltaTime);
      var progress := Progress(s.life + deltaTime, s.maxLife);
      r.life == s.life + deltaTime && progress <= 1.0
      && r == s.(life := r.life, x := r.x, y := r.y, opacity := r.opacity, isActive := r.isActive)
      && (progress == 0.0 ==> r.x == s.startX && r.y == s.startY)
      && (progress == 1.0 ==> r.x == s.endX && r.y == s.endY)
      && (!r.isActive <==> s.life + deltaTime >= s.maxLife)
      && (!r.isActive ==> r.opacity == 0.0)
      && (0.0 <= s.life + deltaTime ==> 0.0 <= r.opacity <= 1.0)
  {
    if s.isActive {
      var life := s.life + deltaTime;
      var q := life / s.maxLife;
      var progress := Progress(life, s.maxLife);
      Utils.LerpEndpoints(s.startX, s.endX);
      Utils.LerpEndpoints(s.startY, s.endY);
      assert q * s.maxLife == life;
      if q >= 1.0 {
        MulMonotone(1.0, q, s.maxLife, s.maxLife);
      }
      if life >= s.maxLife {
        assert 1.0 * s.maxLife <= q * s.maxLife;
        CancelPositive(1.0, q, s.maxLife);
      }
      if 0.0 <= life {
        DivNonneg(life, s.maxLife);
      }
      OpacityShape(progress);
    }
  }

  lemma DivNonneg(a: real, b: real)
    requires 0.0 <= a && 0.0 < b
    ensures 0.0 <= a / b
  {
  }

  /** `drawShootingStar` draws nothing for an inactive or invisible star. */
  predicate Drawn(s: ShootingStar) {
    s.isActive && s.opacity > 0.0
  }

  /** After an update, a star that is drawn is strictly inside its flight:
      neither at its start nor at its end. */
  lemma DrawnInFlight(s: ShootingStar, deltaTime: real)
    requires s.isActive && s.maxLife > 0.0 && 0.0 <= s.life + deltaTime
    ensures Drawn(Update(s, deltaTime)) ==> 0.0 < s.life + deltaTime < s.maxLife
  {
    UpdateShape(s, deltaTime);
    var life := s.life + deltaTime;
    if life == 0.0 {
      assert Progress(life, s.maxLife) == 0.0;
    }
  }

  // ------------------------------------------------------------- the pool

  function FirstInactive(stars: seq<ShootingStar>): (r: Option<nat>)
    ensures r.None? <==> forall i :: 0 <= i < |stars| ==> stars[i].isActive
    ensures r.Some? ==>
      r.value < |stars| && !stars[r.value].isActive
      && forall i :: 0 <= i < r.value ==> stars[i].isActive
  {
    Find(stars, (s: ShootingStar) => !s.isActive)
  }

  /** The spawn check of one frame: the pool and the two spawn timers. */
  datatype Schedule = Schedule(stars: seq<ShootingStar>, lastSpawnTime: real, nextSpawnDelay: real)

  function SpawnPhase(s: Schedule, m: Math, width: nat, height: nat, currentTime: real,
                      d: StarDraws, delayDraw: real): Schedule
  {
    if currentTime - s.lastSpawnTime >= s.nextSpawnDelay then
      match FirstInactive(s.stars)
      case Some(i) =>
        Schedule(s.stars[i := Create(m, width, height, d)], currentTime,
          MinSpawnInterval + delayDraw * (MaxSpawnInterval - MinSpawnInterval))
      case None => s
    else s
  }

  /** A spawn happens only when the delay has elapsed and a slot is free; it
      takes the first free slot, restarts the timer at `currentTime` and
      picks the next delay in [3000, 8000). Otherwise nothing changes, in
      particular not the timers. */
  lemma SpawnPhaseShape(s: Schedule, m: Math, width: nat, height: nat, currentTime: real,
                        d: StarDraws, delayDraw: real)
    requires IsRandom(delayDraw)
    ensures var r := SpawnPhase(s, m, width, height, currentTime, d, delayDraw);
      |r.stars| == |s.stars|
      && (r != s ==>
            currentTime - s.lastSpawnTime >= s.nextSpawnDelay
            && r.lastSpawnTime == currentTime
            && MinSpawnInterval <= r.nextSpawnDelay < MaxSpawnInterval
            && exists i :: 0 <= i < |s.stars| && !s.stars[i].isActive
                 && (forall k :: 0 <= k < i ==> s.stars[k].isActive)
                 && r.stars == s.stars[i := Create(m, width, height, d)])
    ensures currentTime - s.lastSpawnTime >= s.nextSpawnDelay
      && (exists i :: 0 <= i < |s.stars| && !s.stars[i].isActive)
      ==> SpawnPhase(s, m, width, height, currentTime, d, delayDraw).lastSpawnTime == currentTime
    ensures (forall i :: 0 <= i < |s.stars| ==> s.stars[i].isActive) ==>
      SpawnPhase(s, m, width, height, currentTime, d, delayDraw) == s
    ensures currentTime - s.lastSpawnTime < s.nextSpawnDelay ==>
      SpawnPhase(s, m, width, height, currentTime, d, delayDraw) == s
    ensures currentTime - s.lastSpawnTime >= s.nextSpawnDelay && FirstInactive(s.stars).Some? ==>
      var r := SpawnPhase(s, m, width, height, currentTime, d, delayDraw);
      r.stars == s.stars[FirstInactive(s.stars).value := Create(m, width, height, d)]
      && r.lastSpawnTime == currentTime
      && MinSpawnInterval <= r.nextSpawnDelay < MaxSpawnInterval
  {
    ScaledDraw(delayDraw, MaxSpawnInterval - MinSpawnInterval);
    var f := FirstInactive(s.stars);
    if currentTime - s.lastSpawnTime >= s.nextSpawnDelay && f.Some? {
      var r := SpawnPhase(s, m, width, height, currentTime, d, delayDraw);
      assert r.stars == s.stars[f.value := Create(m, width, height, d)];
    }
  }

  /** Every active star has a positive lifetime. */
  ghost predicate Lifetimes(stars: seq<ShootingStar>) {
    forall i :: 0 <= i < |stars| ==> stars[i].isActive ==> stars[i].maxLife > 0.0
  }

  /** Every star of a frame updated by `deltaTime`. */
  function UpdateAll(stars: seq<ShootingStar>, deltaTime: real): (r: seq<ShootingStar>)
    requires Lifetimes(stars)
    ensures |r| == |stars| && Lifetimes(r)
    ensures forall i :: 0 <= i < |r| ==> !stars[i].isActive ==> r[i] == stars[i]
  {
    seq(|stars|, i requires 0 <= i < |stars| => Update(stars[i], deltaTime))
  }

  /** The component's refs and its canvas size. */
  class ShootingStars {
    var width: nat
    var height: nat
    var stars: seq<ShootingStar>
    var lastSpawnTime: real
    var nextSpawnDelay: real
    var lastTime: real

    ghost predicate Valid()
      reads this
    {
      Lifetimes(stars)
    }

    /** Mounting, before the first `resizeCanvas`. */
    constructor ()
      ensures Valid() && stars == [] && lastSpawnTime == 0.0 && nextSpawnDelay == 0.0 && lastTime == 0.0
      ensures width == 0 && height == 0
    {
      width, height := 0, 0;
      stars := [];
      lastSpawnTime, nextSpawnDelay, lastTime := 0.0, 0.0, 0.0;
    }

    /** `resizeCanvas`: the pool of 8 inactive stars is built only when none
        exists yet. */
    method Resize(innerWidth: nat, innerHeight: nat)
      requires Valid()
      modifies this
      ensures Valid() && width == innerWidth && height == innerHeight
      ensures old(stars) == [] ==> stars == seq(StarCount, _ => Inactive)
      ensures old(stars) != [] ==> stars == old(stars)
      ensures lastSpawnTime == old(lastSpawnTime) && nextSpawnDelay == old(nextSpawnDelay)
        && lastTime == old(lastTime)
    {
      width, height := innerWidth, innerHeight;
      if |stars| == 0 {
        stars := seq(StarCount, _ => Inactive);
      }
    }

    /** One `animate(currentTime)` frame: the time step, the spawn check,
        then the update of every star. */
    method Animate(m: Math, currentTime: real, d: StarDraws, delayDraw: real)
      requires Valid() && ValidDraws(d)
      modifies this
      ensures Valid()
      ensures lastTime == currentTime && width == old(width) && height == old(height)
      ensures var spawned := SpawnPhase(old(Schedule(stars, lastSpawnTime, nextSpawnDelay)),
                                        m, width, height, currentTime, d, delayDraw);
        lastSpawnTime == spawned.lastSpawnTime && nextSpawnDelay == spawned.nextSpawnDelay
        && Lifetimes(spawned.stars)
        && stars == UpdateAll(spawned.stars, currentTime - old(lastTime))
    {
      var deltaTime := currentTime - lastTime;
      lastTime := currentTime;
      SpawnCheck(m, currentTime, d, delayDraw);
      UpdateStars(deltaTime);
    }

    /** The spawn check: when the delay has elapsed, the first free slot gets
        a new star and the timers restart. */
    method SpawnCheck(m: Math, currentTime: real, d: StarDraws, delayDraw: real)
      requires Valid() && ValidDraws(d)
      modifies this
      ensures Valid()
      ensures Schedule(stars, lastSpawnTime, nextSpawnDelay)
        == SpawnPhase(old(Schedule(stars, lastSpawnTime, nextSpawnDelay)),
                      m, width, height, currentTime, d, delayDraw)
      ensures lastTime == old(lastTime) && width == old(width) && height == old(height)
    {
      var timeSinceLastSpawn := currentTime - lastSpawnTime;
      if timeSinceLastSpawn >= nextSpawnDelay {
        var inactive := FirstInactive(stars);
        if inactive.Some? {
          var newStar := Create(m, width, height, d);
          CreateRanges(m, width, height, d);
          stars := stars[inactive.value := newStar];
          lastSpawnTime := currentTime;
          nextSpawnDelay := MinSpawnInterval + delayDraw * (MaxSpawnInterval - MinSpawnInterval);
        }
      }
    }

    /** The update loop over the whole pool. */
    method UpdateStars(deltaTime: real)
      requires Valid()
      modifies this
      ensures Valid() && stars == UpdateAll(old(stars), deltaTime)
      ensures lastSpawnTime == old(lastSpawnTime) && nextSpawnDelay == old(nextSpawnDelay)
      ensures lastTime == old(lastTime) && width == old(width) && height == old(height)
    {
      ghost var spawned := stars;
      var i := 0;
      while i < |stars|
        invariant 0 <= i <= |stars| == |spawned| && Lifetimes(stars) && Lifetimes(spawned)
        invariant forall k :: 0 <= k < i ==> stars[k] == Update(spawned[k], deltaTime)
        invariant forall k :: i <= k < |stars| ==> stars[k] == spawned[k]
        invariant lastSpawnTime == old(lastSpawnTime) && nextSpawnDelay == old(nextSpawnDelay)
        invariant lastTime == old(lastTime) && width == old(width) && height == old(height)
      {
        stars := stars[i := Update(stars[i], deltaTime)];
        i := i + 1;
      }
      assert stars == UpdateAll(spawned, deltaTime);
    }
  }
}
