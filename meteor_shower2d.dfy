/** The canvas meteor shower of src/components/effects/MeteorShower2D.tsx: a
    fixed pool of 20 meteors that are recycled, a spawn into the first free
    slot, and the per-frame update of every active meteor (motion, a trail of
    at most 30 points, short-lived sparkles, retirement off screen, and the
    fade of the glow near the edges and at the end of life). */
module MeteorShower2D {
  import opened Js

  const MeteorCount: nat := 20
  const TrailLength: nat := 30
  const SpawnRate: real := 0.035
  /** Sparkles are only added while fewer than this many exist. */
  const SparkleCap: nat := 15
  /** A sparkle survives while its age is below this many frames. */
  const SparkleLife: nat := 40

  datatype Kind = Cool | Warm | Bright

  datatype Rgb = Rgb(r: int, g: int, b: int)

  datatype TrailPoint = TrailPoint(x: real, y: real, opacity: real)

  datatype Particle = Particle(x: real, y: real, vx: real, vy: real, life: int, size: real, color: Rgb)

  datatype Meteor = Meteor(
    x: real, y: real, vx: real, vy: real,
    trail: seq<TrailPoint>,
    life: nat, maxLife: int,
    size: real, speed: real, angle: real,
    color: Rgb, glowColor: Rgb, glowIntensity: real,
    active: bool, kind: Kind,
    particles: seq<Particle>)

  /** A slot of the freshly built pool. */
  const Idle := Meteor(0.0, 0.0, 0.0, 0.0, [], 0, 100, 1.0, 1.0, 0.0,
    Rgb(255, 255, 255), Rgb(255, 255, 255), 1.0, false, Cool, [])

  // ---------------------------------------------------------------- spawn

  /** The seven `Math.random()` results `spawnMeteor` draws, in order. */
  datatype SpawnDraws = SpawnDraws(side: real, place: real, angle: real, speed: real,
                                   size: real, kind: real, glow: real)

  predicate ValidSpawnDraws(d: SpawnDraws) {
    IsRandom(d.side) && IsRandom(d.place) && IsRandom(d.angle) && IsRandom(d.speed)
    && IsRandom(d.size) && IsRandom(d.kind) && IsRandom(d.glow)
  }

  function KindOf(r: real): Kind {
    if r < 0.4 then Cool else if r < 0.7 then Warm else Bright
  }

  function CoreColor(k: Kind): Rgb {
    match k
    case Cool => Rgb(220, 240, 255)
    case Warm => Rgb(255, 200, 150)
    case Bright => Rgb(255, 255, 255)
  }

  function GlowColor(k: Kind): Rgb {
    match k
    case Cool => Rgb(150, 200, 255)
    case Warm => Rgb(255, 150, 100)
    case Bright => Rgb(200, 220, 255)
  }

  function InitialGlow(k: Kind, r: real): real {
    match k
    case Cool => 0.8 + r * 0.3
    case Warm => 0.9 + r * 0.4
    case Bright => 1.2 + r * 0.3
  }

  /** `spawnMeteor` on a `width` x `height` canvas: it overwrites every field
      of the slot, so the result does not depend on the slot's old value. */
  function Spawn(m: Math, width: nat, height: nat, d: SpawnDraws): Meteor
    requires IsRandom(d.speed)
  {
    var top := d.side < 0.7;
    var w, h := width as real, height as real;
    var x := if top then d.place * w else w + 10.0;
    var y := if top then -10.0 else d.place * h * 0.5;
    var angle := if top then 45.0 + d.angle * 30.0 else 135.0 + d.angle * 30.0;
    var speed := 0.8 + d.speed * 1.2;
    var angleRad := angle * PI / 180.0;
    var size := 0.3 + d.size * 0.7;
    var kind := KindOf(d.kind);
    Meteor(x, y, m.cos(angleRad) * speed, m.sin(angleRad) * speed, [], 0, MaxLife(m, w, h, speed),
      if kind == Bright then size * 1.2 else size, speed, angle,
      CoreColor(kind), GlowColor(kind), InitialGlow(kind, d.glow), true, kind, [])
  }

  /** The frames a meteor of this speed needs to cross the canvas diagonal
      one and a half times, plus 60. */
  function MaxLife(m: Math, w: real, h: real, speed: real): int
    requires 0.0 < speed
  {
    Floor(m.sqrt(w * w + h * h) * 1.5 / speed) + 60
  }

  lemma MaxLifeBound(m: Math, w: real, h: real, speed: real)
    requires Sane(m) && 0.0 < speed
    ensures MaxLife(m, w, h, speed) >= 60
  {
    assert 0.0 <= w * w + h * h;
    var diagonal := m.sqrt(w * w + h * h);
    assert 0.0 <= diagonal;
    DivNonneg(diagonal * 1.5, speed);
  }

  lemma DivNonneg(a: real, b: real)
    requires 0.0 <= a && 0.0 < b
    ensures 0.0 <= a / b
  {
  }

  /** A spawned meteor is active and fresh (age 0, no trail, no sparkles),
      moves at a speed in [0.8, 2.0), and lives at least 60 frames. */
  lemma SpawnResets(m: Math, width: nat, height: nat, d: SpawnDraws)
    requires Sane(m) && ValidSpawnDraws(d)
    ensures var s := Spawn(m, width, height, d);
      s.active && s.life == 0 && s.trail == [] && s.particles == []
      && 0.8 <= s.speed < 2.0 && s.maxLife >= 60
  {
    ScaledDraw(d.speed, 1.2);
    MaxLifeBound(m, width as real, height as real, 0.8 + d.speed * 1.2);
  }

  /** The meteor type follows the thresholds 0.4 and 0.7; only a bright
      meteor is 1.2 times larger; a top spawn starts 10 px above the canvas
      heading at 45-75 degrees, a right spawn 10 px right of it at 135-165. */
  lemma SpawnKind(m: Math, width: nat, height: nat, d: SpawnDraws)
    requires ValidSpawnDraws(d)
    ensures var s := Spawn(m, width, height, d);
      (d.kind < 0.4 ==> s.kind == Cool) && (0.4 <= d.kind < 0.7 ==> s.kind == Warm)
      && (0.7 <= d.kind ==> s.kind == Bright)
      && (s.kind == Bright ==> s.size == 1.2 * (0.3 + d.size * 0.7))
      && (s.kind != Bright ==> s.size == 0.3 + d.size * 0.7)
      && 0.3 <= s.size < 1.2
      && s.color == CoreColor(s.kind) && s.glowColor == GlowColor(s.kind)
    ensures var s := Spawn(m, width, height, d);
      (d.side < 0.7 ==> s.y == -10.0 && 45.0 <= s.angle < 75.0)
      && (0.7 <= d.side ==> s.x == width as real + 10.0 && 135.0 <= s.angle < 165.0)
  {
    ScaledDraw(d.size, 0.7);
    ScaledDraw(d.angle, 30.0);
  }

  // ------------------------------------------------------------- the pool

  /** `meteors.find(m => !m.active)`: the index of the first inactive slot. */
  function FirstInactive(pool: seq<Meteor>): (r: Option<nat>)
    ensures r.None? <==> forall i :: 0 <= i < |pool| ==> pool[i].active
    ensures r.Some? ==>
      r.value < |pool| && !pool[r.value].active
      && forall i :: 0 <= i < r.value ==> pool[i].active
  {
    Find(pool, (mt: Meteor) => !mt.active)
  }

  /** The spawn at the start of a frame: with a roll below the spawn rate, the
      first inactive slot (if any) receives a new meteor. */
  function SpawnPhase(pool: seq<Meteor>, m: Math, width: nat, height: nat,
                      spawnRoll: real, d: SpawnDraws): seq<Meteor>
    requires IsRandom(d.speed)
  {
    if spawnRoll < SpawnRate then
      match FirstInactive(pool)
      case Some(i) => pool[i := Spawn(m, width, height, d)]
      case None => pool
    else pool
  }

  /** At most one slot changes, and only the first inactive one, into the
      spawned meteor; nothing changes for a high roll or a full pool; with a
      low roll and a free slot the first free slot is taken. */
  lemma SpawnPhaseShape(pool: seq<Meteor>, m: Math, width: nat, height: nat,
                        spawnRoll: real, d: SpawnDraws)
    requires IsRandom(d.speed)
    ensures var r := SpawnPhase(pool, m, width, height, spawnRoll, d);
      |r| == |pool|
      && (forall j :: 0 <= j < |pool| && r[j] != pool[j] ==>
            !pool[j].active && (forall k :: 0 <= k < j ==> pool[k].active)
            && r[j] == Spawn(m, width, height, d))
    ensures (SpawnRate <= spawnRoll || forall j :: 0 <= j < |pool| ==> pool[j].active) ==>
      SpawnPhase(pool, m, width, height, spawnRoll, d) == pool
    ensures spawnRoll < SpawnRate && (exists j :: 0 <= j < |pool| && !pool[j].active) ==>
      var r := SpawnPhase(pool, m, width, height, spawnRoll, d);
      exists j :: 0 <= j < |pool| && !pool[j].active && (forall k :: 0 <= k < j ==> pool[k].active)
        && r[j] == Spawn(m, width, height, d)
  {
    var f := FirstInactive(pool);
    if spawnRoll < SpawnRate && f.Some? {
      var r := SpawnPhase(pool, m, width, height, spawnRoll, d);
      assert r[f.value] == Spawn(m, width, height, d);
    }
  }

  // ------------------------------------------------------- per-meteor step

  /** `unshift` of the new head then `pop` when longer than 30. */
  function PushTrail(trail: seq<TrailPoint>, x: real, y: real): seq<TrailPoint> {
    var t := [TrailPoint(x, y, 1.0)] + trail;
    if |t| > TrailLength then t[..|t| - 1] else t
  }

  /** The opacity pass: point `i` gets `1 - i / 30`. */
  function Faded(trail: seq<TrailPoint>): seq<TrailPoint> {
    seq(|trail|, i requires 0 <= i < |trail| => trail[i].(opacity := 1.0 - i as real / TrailLength as real))
  }

  /** The new trail is the head followed by the old trail, newest first, with
      the oldest point dropped once 30 are kept; every opacity is `1 - i/30`
      and, for a trail of at most 30 points, lies in (0, 1]. */
  lemma TrailShape(trail: seq<TrailPoint>, x: real, y: real)
    requires |trail| <= TrailLength
    ensures var r := Faded(PushTrail(trail, x, y));
      |r| == (if |trail| == TrailLength then TrailLength else |trail| + 1)
      && r[0] == TrailPoint(x, y, 1.0)
      && (forall i :: 1 <= i < |r| ==> r[i].x == trail[i - 1].x && r[i].y == trail[i - 1].y)
      && (forall i :: 0 <= i < |r| ==> r[i].opacity == 1.0 - i as real / 30.0)
      && (forall i :: 0 <= i < |r| ==> 0.0 < r[i].opacity <= 1.0)
  {
    var r := Faded(PushTrail(trail, x, y));
    forall i | 0 <= i < |r|
      ensures 0.0 < r[i].opacity <= 1.0
    {
      assert i < 30;
      assert i as real / 30.0 < 1.0;
    }
  }

  /** The five `Math.random()` results of one sparkle after its position
      draws: x, y, vx, vy, size. */
  datatype SparkleDraw = SparkleDraw(dx: real, dy: real, dvx: real, dvy: real, dsize: real)

  /** The gate roll and the draws for up to two sparkles of one meteor in a
      frame. */
  datatype MeteorDraws = MeteorDraws(sparkleRoll: real, first: SparkleDraw, second: SparkleDraw)

  /** A sparkle born at the meteor's new head (`a` is the meteor after its
      motion and gravity). */
  function Sparkle(a: Meteor, s: SparkleDraw): Particle {
    Particle(a.x + (s.dx - 0.5) * a.size * 2.0, a.y + (s.dy - 0.5) * a.size * 2.0,
      (s.dvx - 0.5) * 0.3 - a.vx * 0.05, (s.dvy - 0.5) * 0.3 - a.vy * 0.05,
      0, a.size * (0.15 + s.dsize * 0.25), a.color)
  }

  /** One sparkle (two for a bright meteor) when the roll is below 0.2 and
      fewer than 15 exist. */
  function NumberOfSparkles(ps: seq<Particle>, a: Meteor, roll: real): nat {
    if roll < 0.2 && |ps| < SparkleCap then (if a.kind == Bright then 2 else 1) else 0
  }

  function WithSparkles(ps: seq<Particle>, a: Meteor, d: MeteorDraws): seq<Particle> {
    var n := NumberOfSparkles(ps, a, d.sparkleRoll);
    if n == 0 then ps
    else if n == 1 then ps + [Sparkle(a, d.first)]
    else ps + [Sparkle(a, d.first), Sparkle(a, d.second)]
  }

  /** A sparkle after one frame of motion, gravity and ageing. */
  function Aged(p: Particle): Particle {
    p.(x := p.x + p.vx, y := p.y + p.vy, vy := p.vy + 0.005, life := p.life + 1)
  }

  /** The `filter`: every sparkle is aged and kept while its age is below 40. */
  function Survivors(ps: seq<Particle>): seq<Particle> {
    if ps == [] then []
    else
      var a := Aged(ps[|ps| - 1]);
      Survivors(ps[..|ps| - 1]) + (if a.life < SparkleLife as int then [a] else [])
  }

  /** The filter keeps exactly the aged sparkles younger than 40:
      every survivor is the aged form of some sparkle, it is younger than 40,
      and there are no more survivors than sparkles. */
  lemma {:induction false} SurvivorsShape(ps: seq<Particle>)
    ensures var r := Survivors(ps);
      |r| <= |ps|
      && (forall i :: 0 <= i < |r| ==> r[i].life < SparkleLife as int)
      && (forall i :: 0 <= i < |r| ==> exists j :: 0 <= j < |ps| && r[i] == Aged(ps[j]))
      && (forall j :: 0 <= j < |ps| && Aged(ps[j]).life < SparkleLife as int ==> Aged(ps[j]) in r)
  {
    if ps != [] {
      var init := ps[..|ps| - 1];
      SurvivorsShape(init);
      var r := Survivors(ps);
      var a := Aged(ps[|ps| - 1]);
      var tail := if a.life < SparkleLife as int then [a] else [];
      assert r == Survivors(init) + tail;
      forall i | 0 <= i < |r|
        ensures exists j :: 0 <= j < |ps| && r[i] == Aged(ps[j])
      {
        if i < |Survivors(init)| {
          var j :| 0 <= j < |init| && Survivors(init)[i] == Aged(init[j]);
          assert r[i] == Aged(ps[j]);
        } else {
          assert r[i] == Aged(ps[|ps| - 1]);
        }
      }
      forall j | 0 <= j < |ps| && Aged(ps[j]).life < SparkleLife as int
        ensures Aged(ps[j]) in r
      {
        if j < |init| {
          assert ps[j] == init[j];
          assert Aged(ps[j]) in Survivors(init);
        } else {
          assert r[|r| - 1] == Aged(ps[j]);
        }
      }
    }
  }

  /** Sparkles only join a meteor that has fewer than 15, at most two at a
      time, so one that had at most 16 has at most 16 afterwards. */
  lemma SparkleCount(ps: seq<Particle>, a: Meteor, d: MeteorDraws)
    requires |ps| <= SparkleCap + 1
    ensures |WithSparkles(ps, a, d)| <= SparkleCap + 1
    ensures |ps| >= SparkleCap || 0.2 <= d.sparkleRoll ==> WithSparkles(ps, a, d) == ps
    ensures |WithSparkles(ps, a, d)| == |ps| + NumberOfSparkles(ps, a, d.sparkleRoll)
  {
  }

  /** The margin beyond the canvas a meteor may reach before it retires. */
  function Margin(size: real): real {
    100.0 + size * 20.0
  }

  /** The retirement test on the updated meteor `b`. */
  predicate Gone(b: Meteor, width: nat, height: nat) {
    var margin := Margin(b.size);
    b.x < -margin || b.x > width as real + margin || b.y > height as real + margin
    || b.life > b.maxLife
  }

  /** `Math.min(x + margin, width + margin - x, height + margin - y)`. */
  function EdgeDistance(b: Meteor, width: nat, height: nat): real {
    var margin := Margin(b.size);
    Min(Min(b.x + margin, width as real + margin - b.x), height as real + margin - b.y)
  }

  /** The glow strength a type fades from. */
  function BaseIntensity(k: Kind): real {
    match k
    case Bright => 1.35
    case Warm => 1.1
    case Cool => 0.95
  }

  /** The fade near an edge (within 50 px) or in the last tenth of life; a
      meteor outside both keeps its glow. The division by `maxLife` is safe
      because a meteor that is not gone has `1 <= life <= maxLife`. */
  function Glow(b: Meteor, width: nat, height: nat): real
    requires !Gone(b, width, height) && b.life >= 1
  {
    var edge := EdgeDistance(b, width, height);
    var lifeRatio := b.life as real / b.maxLife as real;
    if edge < 50.0 || lifeRatio > 0.9 then
      var fade := if edge < 50.0 then edge / 50.0 else 1.0 - (lifeRatio - 0.9) / 0.1;
      BaseIntensity(b.kind) * fade
    else b.glowIntensity
  }

  /** A meteor that stays has `edgeDistance >= 0`; a fading one gets a glow
      between 0 and its type's base intensity; otherwise the glow is kept. */
  lemma GlowRange(b: Meteor, width: nat, height: nat)
    requires !Gone(b, width, height) && b.life >= 1
    ensures 0.0 <= EdgeDistance(b, width, height)
    ensures var lifeRatio := b.life as real / b.maxLife as real;
      EdgeDistance(b, width, height) < 50.0 || lifeRatio > 0.9 ==>
      0.0 <= Glow(b, width, height) <= BaseIntensity(b.kind)
    ensures var lifeRatio := b.life as real / b.maxLife as real;
      !(EdgeDistance(b, width, height) < 50.0 || lifeRatio > 0.9) ==>
      Glow(b, width, height) == b.glowIntensity
  {
    var edge := EdgeDistance(b, width, height);
    var lifeRatio := b.life as real / b.maxLife as real;
    var ml := b.maxLife as real;
    assert lifeRatio * ml == b.life as real;
    CancelPositive(lifeRatio, 1.0, ml);
    assert lifeRatio <= 1.0;
    var fade := if edge < 50.0 then edge / 50.0 else 1.0 - (lifeRatio - 0.9) / 0.1;
    if edge < 50.0 || lifeRatio > 0.9 {
      assert 0.0 <= fade <= 1.0;
      var base := BaseIntensity(b.kind);
      assert Glow(b, width, height) == base * fade;
      MulNonneg(base, fade);
      MulMonotone(fade, 1.0, base, base);
    }
  }

  /** The first half of the callback: move, fall, extend and fade the trail,
      shed sparkles and age by one frame. */
  function Advanced(mt: Meteor, d: MeteorDraws): Meteor {
    var a := mt.(x := mt.x + mt.vx, y := mt.y + mt.vy, vy := mt.vy + 0.01);
    a.(trail := Faded(PushTrail(mt.trail, a.x, a.y)),
       particles := Survivors(WithSparkles(mt.particles, a, d)),
       life := mt.life + 1)
  }

  /** The second half: retire a meteor that has left or outlived its life,
      otherwise refresh its glow. */
  function Settled(b: Meteor, width: nat, height: nat): Meteor
    requires b.life >= 1
  {
    if Gone(b, width, height) then b.(active := false)
    else b.(glowIntensity := Glow(b, width, height))
  }

  /** One `forEach` callback for meteor `mt` with its draws. */
  function Step(mt: Meteor, width: nat, height: nat, d: MeteorDraws): Meteor {
    if !mt.active then mt
    else Settled(Advanced(mt, d), width, height)
  }

  /** The invariant every slot keeps: a trail of at most 30 points faded by
      position, and at most 16 sparkles, all younger than 40 frames. */
  ghost predicate WellFormed(mt: Meteor) {
    |mt.trail| <= TrailLength
    && (forall i :: 0 <= i < |mt.trail| ==> mt.trail[i].opacity == 1.0 - i as real / 30.0)
    && |mt.particles| <= SparkleCap + 1
    && (forall i :: 0 <= i < |mt.particles| ==> mt.particles[i].life < SparkleLife as int)
  }

  /** An inactive meteor is skipped. An active one moves by its velocity,
      gains 0.01 of downward speed and one frame of age, and retires exactly
      when it leaves the canvas by its margin or outlives `maxLife`, keeping
      its glow then. A well-formed meteor stays well-formed. */
  lemma StepShape(mt: Meteor, width: nat, height: nat, d: MeteorDraws)
    requires WellFormed(mt)
    ensures !mt.active ==> Step(mt, width, height, d) == mt
    ensures WellFormed(Step(mt, width, height, d))
    ensures mt.active ==>
      var r := Step(mt, width, height, d);
      r.x == mt.x + mt.vx && r.y == mt.y + mt.vy && r.vy == mt.vy + 0.01 && r.life == mt.life + 1
      && r.vx == mt.vx && r.maxLife == mt.maxLife && r.size == mt.size && r.kind == mt.kind
      && (!r.active <==> Gone(r, width, height))
      && (!r.active ==> r.glowIntensity == mt.glowIntensity)
  {
    if mt.active {
      var a := mt.(x := mt.x + mt.vx, y := mt.y + mt.vy, vy := mt.vy + 0.01);
      TrailShape(mt.trail, a.x, a.y);
      SparkleCount(mt.particles, a, d);
      SurvivorsShape(WithSparkles(mt.particles, a, d));
    }
  }

  /** A new meteor and a slot of the initial pool are well-formed. */
  lemma FreshWellFormed(m: Math, width: nat, height: nat, d: SpawnDraws)
    requires IsRandom(d.speed)
    ensures WellFormed(Spawn(m, width, height, d)) && WellFormed(Idle)
    ensures !Idle.active
  {
  }

  /** A whole frame: the spawn, then every slot's step. */
  function Frame(pool: seq<Meteor>, m: Math, width: nat, height: nat, spawnRoll: real,
                 spawn: SpawnDraws, draws: seq<MeteorDraws>): (r: seq<Meteor>)
    requires IsRandom(spawn.speed) && |draws| == |pool|
    ensures |r| == |pool|
  {
    SpawnPhaseShape(pool, m, width, height, spawnRoll, spawn);
    StepAll(SpawnPhase(pool, m, width, height, spawnRoll, spawn), width, height, draws)
  }

  /** The `forEach` over the pool, each slot with its own draws. */
  function StepAll(p: seq<Meteor>, width: nat, height: nat, draws: seq<MeteorDraws>): (r: seq<Meteor>)
    requires |draws| == |p|
    ensures |r| == |p|
  {
    seq(|p|, i requires 0 <= i < |p| => Step(p[i], width, height, draws[i]))
  }

  /** Frames keep every slot well-formed. */
  lemma FrameKeepsWellFormed(pool: seq<Meteor>, m: Math, width: nat, height: nat, spawnRoll: real,
                             spawn: SpawnDraws, draws: seq<MeteorDraws>)
    requires IsRandom(spawn.speed) && |draws| == |pool|
    requires forall i :: 0 <= i < |pool| ==> WellFormed(pool[i])
    ensures var r := Frame(pool, m, width, height, spawnRoll, spawn, draws);
      forall i :: 0 <= i < |r| ==> WellFormed(r[i])
  {
    var p := SpawnPhase(pool, m, width, height, spawnRoll, spawn);
    SpawnPhaseShape(pool, m, width, height, spawnRoll, spawn);
    FreshWellFormed(m, width, height, spawn);
    var r := Frame(pool, m, width, height, spawnRoll, spawn, draws);
    forall i | 0 <= i < |r|
      ensures WellFormed(r[i])
    {
      assert WellFormed(p[i]);
      StepShape(p[i], width, height, draws[i]);
    }
  }

  /** The trail's `forEach` that sets point `i`'s opacity to `1 - i/30`. */
  method FadeTrail(pushed: seq<TrailPoint>) returns (trail: seq<TrailPoint>)
    ensures trail == Faded(pushed)
  {
    trail := pushed;
    var i := 0;
    while i < |trail|
      invariant 0 <= i <= |trail| == |pushed|
      invariant forall k :: 0 <= k < i ==> trail[k] == Faded(pushed)[k]
      invariant forall k :: i <= k < |trail| ==> trail[k] == pushed[k]
    {
      trail := trail[i := trail[i].(opacity := 1.0 - i as real / TrailLength as real)];
      i := i + 1;
    }
  }

  /** The sparkle `push` loop: `sparkleCount` new sparkles at the head. */
  method AddSparkles(ps: seq<Particle>, a: Meteor, d: MeteorDraws) returns (particles: seq<Particle>)
    ensures particles == WithSparkles(ps, a, d)
  {
    particles := ps;
    if d.sparkleRoll < 0.2 && |particles| < SparkleCap {
      var sparkleCount := if a.kind == Bright then 2 else 1;
      for k := 0 to sparkleCount
        invariant particles == ps + (if k == 0 then [] else if k == 1 then [Sparkle(a, d.first)]
                                     else [Sparkle(a, d.first), Sparkle(a, d.second)])
      {
        particles := particles + [Sparkle(a, if k == 0 then d.first else d.second)];
      }
    }
  }

  /** The sparkle `filter`: age every sparkle and keep the young ones. */
  method FilterSparkles(particles: seq<Particle>) returns (kept: seq<Particle>)
    ensures kept == Survivors(particles)
  {
    kept := [];
    for k := 0 to |particles|
      invariant kept == Survivors(particles[..k])
    {
      assert particles[..k + 1][..k] == particles[..k];
      var p := Aged(particles[k]);
      if p.life < SparkleLife as int {
        kept := kept + [p];
      }
    }
    assert particles[..|particles|] == particles;
  }

  /** One callback of the `forEach`, step by step as the component does it,
      on an active meteor. */
  method UpdateMeteor(mt: Meteor, width: nat, height: nat, d: MeteorDraws) returns (r: Meteor)
    requires mt.active
    ensures r == Step(mt, width, height, d)
  {
    var b := MoveMeteor(mt, d);
    r := SettleMeteor(b, width, height);
  }

  /** One slot of the pool: an inactive meteor is skipped. */
  method StepSlot(mt: Meteor, width: nat, height: nat, d: MeteorDraws) returns (r: Meteor)
    ensures r == Step(mt, width, height, d)
  {
    r := mt;
    if mt.active {
      r := UpdateMeteor(mt, width, height, d);
    }
  }

  /** Position, fall, trail, sparkles and age, in the order of the source. */
  method MoveMeteor(mt: Meteor, d: MeteorDraws) returns (r: Meteor)
    ensures r == Advanced(mt, d)
  {
    r := mt.(x := mt.x + mt.vx, y := mt.y + mt.vy);
    r := r.(vy := r.vy + 0.01);
    var trail := [TrailPoint(r.x, r.y, 1.0)] + r.trail;
    if |trail| > TrailLength {
      trail := trail[..|trail| - 1];
    }
    assert trail == PushTrail(mt.trail, r.x, r.y);
    trail := FadeTrail(trail);
    var particles := AddSparkles(r.particles, r, d);
    particles := FilterSparkles(particles);
    r := r.(trail := trail, particles := particles);
    r := r.(life := r.life + 1);
  }

  /** The bounds test and the edge or end-of-life fade. */
  method SettleMeteor(b: Meteor, width: nat, height: nat) returns (r: Meteor)
    requires b.life >= 1
    ensures r == Settled(b, width, height)
  {
    r := b;
    var margin := 100.0 + r.size * 20.0;
    if r.x < -margin || r.x > width as real + margin || r.y > height as real + margin || r.life > r.maxLife {
      r := r.(active := false);
      return;
    }
    var edgeDistance := Min(Min(r.x + margin, width as real + margin - r.x), height as real + margin - r.y);
    assert edgeDistance == EdgeDistance(b, width, height);
    var lifeRatio := r.life as real / r.maxLife as real;
    if edgeDistance < 50.0 || lifeRatio > 0.9 {
      var fadeOpacity := if edgeDistance < 50.0 then edgeDistance / 50.0 else 1.0 - (lifeRatio - 0.9) / 0.1;
      var baseIntensity := if r.kind == Bright then 1.35 else if r.kind == Warm then 1.1 else 0.95;
      assert baseIntensity == BaseIntensity(b.kind);
      r := r.(glowIntensity := baseIntensity * fadeOpacity);
    }
  }

  /** The component's canvas size and its meteor pool. */
  class MeteorShower {
    var width: nat
    var height: nat
    const meteors: array<Meteor>

    /** Mounting: the canvas takes the window size and the pool is built with
        20 inactive meteors. */
    constructor (innerWidth: nat, innerHeight: nat)
      ensures width == innerWidth && height == innerHeight
      ensures fresh(meteors) && meteors.Length == MeteorCount
      ensures forall i :: 0 <= i < meteors.Length ==> meteors[i] == Idle
    {
      width, height := innerWidth, innerHeight;
      meteors := new Meteor[MeteorCount](_ => Idle);
    }

    /** `resizeCanvas`: the canvas follows the window; the pool is kept. */
    method Resize(innerWidth: nat, innerHeight: nat)
      modifies this
      ensures width == innerWidth && height == innerHeight
    {
      width, height := innerWidth, innerHeight;
    }

    /** One `animate` frame with its random draws. */
    method Animate(m: Math, spawnRoll: real, spawn: SpawnDraws, draws: seq<MeteorDraws>)
      requires IsRandom(spawn.speed) && |draws| == meteors.Length
      modifies meteors
      ensures meteors[..] == Frame(old(meteors[..]), m, width, height, spawnRoll, spawn, draws)
    {
      SpawnInto(m, spawnRoll, spawn);
      StepEach(draws);
    }

    /** The spawn roll: a new meteor in the first free slot, if any. */
    method SpawnInto(m: Math, spawnRoll: real, spawn: SpawnDraws)
      requires IsRandom(spawn.speed)
      modifies meteors
      ensures meteors[..] == SpawnPhase(old(meteors[..]), m, width, height, spawnRoll, spawn)
    {
      if spawnRoll < SpawnRate {
        var inactive := FirstInactive(meteors[..]);
        if inactive.Some? {
          meteors[inactive.value] := Spawn(m, width, height, spawn);
        }
      }
    }

    /** The update pass over every slot of the pool. */
    method StepEach(draws: seq<MeteorDraws>)
      requires |draws| == meteors.Length
      modifies meteors
      ensures meteors[..] == StepAll(old(meteors[..]), width, height, draws)
    {
      ghost var start := meteors[..];
      var j := 0;
      while j < meteors.Length
        invariant 0 <= j <= meteors.Length
        invariant forall k :: 0 <= k < j ==> meteors[k] == Step(start[k], width, height, draws[k])
        invariant forall k :: j <= k < meteors.Length ==> meteors[k] == start[k]
      {
        var updated := StepSlot(meteors[j], width, height, draws[j]);
        meteors[j] := updated;
        j := j + 1;
      }
      assert forall k :: 0 <= k < meteors.Length ==>
        meteors[..][k] == StepAll(start, width, height, draws)[k];
    }
  }
}
