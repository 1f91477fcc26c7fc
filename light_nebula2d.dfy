/** The light nebula of src/components/effects/LightNebula2D.tsx: six soft
    clouds created on the first resize and orbiting the canvas centre. The
    orbit radius is rescaled on every resize, and the orbit speed follows
    the pointer: three times faster while it moves, up to five times faster
    just after a click, smoothed from frame to frame. Frames are throttled to
    one per 33 ms, drawn largest cloud first, and faint glows mark the pairs
    of clouds that overlap. */
module LightNebula2D {
  import opened Js
  import Utils

  datatype Rgb = Rgb(r: int, g: int, b: int)

  // ------------------------------------------------------------ creation

  datatype PaletteKind = Pink | Blue | Purple | Cyan

  /** The three shades of each palette. */
  function Palette(kind: PaletteKind): (shades: seq<Rgb>)
    ensures |shades| == 3
  {
    match kind
    case Pink => [Rgb(255, 100, 200), Rgb(255, 120, 180), Rgb(240, 80, 220)]
    case Blue => [Rgb(100, 200, 255), Rgb(80, 180, 240), Rgb(120, 220, 255)]
    case Purple => [Rgb(200, 150, 255), Rgb(180, 130, 240), Rgb(220, 170, 255)]
    case Cyan => [Rgb(150, 255, 255), Rgb(130, 240, 240), Rgb(170, 255, 255)]
  }

  datatype CloudConfig = CloudConfig(kind: PaletteKind, sizeMult: real, baseOpacity: real)

  /** `cloudConfigs`. */
  const Configs: seq<CloudConfig> := [
    CloudConfig(Pink, 0.4, 0.09),
    CloudConfig(Blue, 0.35, 0.06),
    CloudConfig(Purple, 0.3, 0.05),
    CloudConfig(Cyan, 0.25, 0.04),
    CloudConfig(Pink, 0.32, 0.03),
    CloudConfig(Blue, 0.28, 0.04)
  ]

  datatype Cloud = Cloud(
    radius: real, baseOpacity: real, color: Rgb,
    orbitRadius: real, orbitAngle: real, orbitSpeed: real,
    timeOffset: real, opacityPhase: real, morphPhase: real,
    x: real, y: real, currentOpacity: real, scaleX: real, scaleY: real)

  /** The six `Math.random()` results one cloud draws, in order: size
      variation, shade, opacity variation, orbit angle, orbit speed and time
      offset. */
  datatype CloudDraws = CloudDraws(size: real, shade: real, opacity: real, angle: real,
                                   speed: real, offset: real)

  predicate ValidDraws(d: CloudDraws) {
    IsRandom(d.size) && IsRandom(d.shade) && IsRandom(d.opacity) && IsRandom(d.angle)
    && IsRandom(d.speed) && IsRandom(d.offset)
  }

  /** `Math.floor(Math.random() * palette.length)`. */
  function ShadeIndex(r: real): int {
    Floor(r * 3.0)
  }

  lemma ShadeIndexRange(r: real)
    requires IsRandom(r)
    ensures 0 <= ShadeIndex(r) < 3
  {
  }

  /** `radius / (baseSize * 0.4)`, the cloud's size relative to the largest
      configured one. */
  function SizeInfluence(radius: real, baseSize: real): real
    requires baseSize > 0.0
  {
    radius / (baseSize * 0.4)
  }

  /** The orbit radius for a canvas of `width` by `height`. */
  function OrbitRadius(radius: real, width: real, height: real): real
    requires width > 0.0 && height > 0.0
  {
    (width + height) * (0.15 + SizeInfluence(radius, Min(width, height)) * 0.1)
  }

  /** `baseSize * config.sizeMult * sizeVariation`. */
  function CloudRadius(baseSize: real, config: CloudConfig, d: CloudDraws): real {
    baseSize * config.sizeMult * (0.8 + d.size * 0.4)
  }

  /** A new cloud's radius is `min(w, h) * sizeMult` scaled by [0.8, 1.2), so
      its size influence lies in [0.5, 1.2) whatever the canvas size. */
  lemma CloudRadiusRange(baseSize: real, i: nat, d: CloudDraws)
    requires baseSize > 0.0 && i < |Configs| && ValidDraws(d)
    ensures var sizeMult := Configs[i].sizeMult;
      var radius := CloudRadius(baseSize, Configs[i], d);
      baseSize * sizeMult * 0.8 <= radius < baseSize * sizeMult * 1.2
      && 0.5 <= SizeInfluence(radius, baseSize) < 1.2
  {
    var config := Configs[i];
    var variation := 0.8 + d.size * 0.4;
    ScaledDraw(d.size, 0.4);
    var bm := baseSize * config.sizeMult;
    MulPos(baseSize, config.sizeMult);
    var radius := CloudRadius(baseSize, config, d);
    assert radius == bm * variation;
    MulMonotone(0.8, variation, bm, bm);
    assert bm * variation < bm * 1.2 by {
      MulPos(1.2 - variation, bm);
    }
    var product := config.sizeMult * variation;
    var ratio := 2.5 * product;
    assert radius == baseSize * product;
    assert (baseSize * 0.4) * ratio == baseSize * product;
    assert SizeInfluence(radius, baseSize) == ratio;
    MulMonotone(0.25, config.sizeMult, 0.8, variation);
    assert config.sizeMult * variation < 0.48 by {
      MulMonotone(config.sizeMult, 0.4, variation, 1.2);
      MulPos(config.sizeMult, 1.2 - variation);
    }
  }

  /** The host square root of a positive number is positive. */
  lemma SqrtPositive(m: Math, x: real)
    requires Sane(m) && x > 0.0
    ensures m.sqrt(x) > 0.0
  {
    var r := m.sqrt(x);
    assert r * r == x;
  }

  /** The point at angle `angle` on the orbit of radius `radius` around the
      canvas centre, along x (of a canvas `w` wide) and along y. */
  function OrbitX(m: Math, angle: real, radius: real, w: real): real {
    w / 2.0 + m.cos(angle) * radius
  }

  function OrbitY(m: Math, angle: real, radius: real, h: real): real {
    h / 2.0 + m.sin(angle) * radius
  }

  /** `(0.5 + Math.random() * 0.3) / Math.sqrt(sizeInfluence)`. */
  function OrbitSpeed(m: Math, draw: real, sizeInfluence: real): real
    requires Sane(m) && sizeInfluence > 0.0
  {
    SqrtPositive(m, sizeInfluence);
    (0.5 + draw * 0.3) / m.sqrt(sizeInfluence)
  }

  /** The `cloudConfigs.map` callback for configuration `i`. */
  function NewCloud(m: Math, width: nat, height: nat, i: nat, d: CloudDraws): Cloud
    requires Sane(m) && width > 0 && height > 0 && i < |Configs| && ValidDraws(d)
  {
    var config := Configs[i];
    var w, h := width as real, height as real;
    var baseSize := Min(w, h);
    var radius := CloudRadius(baseSize, config, d);
    ShadeIndexRange(d.shade);
    var color := Palette(config.kind)[ShadeIndex(d.shade)];
    var baseOpacity := config.baseOpacity * (0.7 + d.opacity * 0.6);
    CloudRadiusRange(baseSize, i, d);
    var sizeInfluence := SizeInfluence(radius, baseSize);
    var orbitRadius := OrbitRadius(radius, w, h);
    var orbitAngle := d.angle * PI * 2.0;
    Cloud(radius, baseOpacity, color, orbitRadius, orbitAngle, OrbitSpeed(m, d.speed, sizeInfluence),
      d.offset * 100.0, 0.0, 0.0,
      OrbitX(m, orbitAngle, orbitRadius, w), OrbitY(m, orbitAngle, orbitRadius, h),
      baseOpacity, 1.0, 1.0)
  }

  /** The six clouds, one per configuration. */
  function InitialClouds(m: Math, width: nat, height: nat, draws: seq<CloudDraws>): (clouds: seq<Cloud>)
    requires Sane(m) && width > 0 && height > 0 && |draws| == |Configs|
    requires forall i :: 0 <= i < |draws| ==> ValidDraws(draws[i])
    ensures |clouds| == |Configs|
    ensures forall i :: 0 <= i < |clouds| ==> clouds[i] == NewCloud(m, width, height, i, draws[i])
  {
    seq(|Configs|, i requires 0 <= i < |Configs| => NewCloud(m, width, height, i, draws[i]))
  }

  /** A new cloud's base opacity is the configured one scaled by [0.7, 1.3)
      and its shade one of its palette's three; it starts with both phases at
      0, unscaled, at its base opacity and orbiting forwards. */
  lemma NewCloudShape(m: Math, width: nat, height: nat, i: nat, d: CloudDraws)
    requires Sane(m) && width > 0 && height > 0 && ValidDraws(d) && i < |Configs|
    ensures var config := Configs[i];
      var c := NewCloud(m, width, height, i, d);
      && c.radius == CloudRadius(Min(width as real, height as real), config, d)
      && config.baseOpacity * 0.7 <= c.baseOpacity < config.baseOpacity * 1.3
      && c.color in Palette(config.kind)
      && c.opacityPhase == 0.0 && c.morphPhase == 0.0
      && c.currentOpacity == c.baseOpacity && c.scaleX == 1.0 && c.scaleY == 1.0
      && c.orbitSpeed > 0.0
  {
    var config := Configs[i];
    var c := NewCloud(m, width, height, i, d);
    ScaledDraw(d.opacity, 0.6);
    ShadeIndexRange(d.shade);
    var variation := 0.7 + d.opacity * 0.6;
    assert c.baseOpacity == config.baseOpacity * variation;
    MulMonotone(0.7, variation, config.baseOpacity, config.baseOpacity);
    MulPos(1.3 - variation, config.baseOpacity);
    MulNonneg(d.speed, 0.3);
    var baseSize := Min(width as real, height as real);
    CloudRadiusRange(baseSize, i, d);
    var si := SizeInfluence(c.radius, baseSize);
    SqrtPositive(m, si);
    assert c.orbitSpeed == (0.5 + d.speed * 0.3) / m.sqrt(si);
    DivPositive(0.5 + d.speed * 0.3, m.sqrt(si));
  }

  lemma DivPositive(a: real, b: real)
    requires 0.0 < a && 0.0 < b
    ensures 0.0 < a / b
  {
  }

  // -------------------------------------------------------------- resizing

  /** The resize `forEach` for one cloud: the orbit radius follows the new
      canvas size and the cloud moves to the same angle on the new orbit. */
  function Rescale(m: Math, c: Cloud, width: nat, height: nat): Cloud
    requires width > 0 && height > 0
  {
    var w, h := width as real, height as real;
    var orbitRadius := OrbitRadius(c.radius, w, h);
    c.(orbitRadius := orbitRadius,
       x := OrbitX(m, c.orbitAngle, orbitRadius, w),
       y := OrbitY(m, c.orbitAngle, orbitRadius, h))
  }

  /** Rescaling changes only the orbit radius and the position, is
      idempotent, and does nothing to a cloud just created for that size. */
  lemma RescaleShape(m: Math, c: Cloud, width: nat, height: nat)
    requires width > 0 && height > 0
    ensures var r := Rescale(m, c, width, height);
      r == c.(orbitRadius := r.orbitRadius, x := r.x, y := r.y)
      && r.orbitRadius == OrbitRadius(c.radius, width as real, height as real)
      && Rescale(m, r, width, height) == r
  {
  }

  lemma RescaleNew(m: Math, width: nat, height: nat, i: nat, d: CloudDraws)
    requires Sane(m) && width > 0 && height > 0 && i < |Configs| && ValidDraws(d)
    ensures var c := NewCloud(m, width, height, i, d);
      Rescale(m, c, width, height) == c
  {
  }

  /** For a cloud of size influence in [0.5, 1.2) the orbit radius is 20% to
      27% of the canvas width plus height. */
  lemma OrbitRadiusRange(radius: real, width: real, height: real)
    requires width > 0.0 && height > 0.0
    requires 0.5 <= SizeInfluence(radius, Min(width, height)) < 1.2
    ensures (width + height) * 0.2 <= OrbitRadius(radius, width, height) < (width + height) * 0.27
  {
    var f := 0.15 + SizeInfluence(radius, Min(width, height)) * 0.1;
    Between(width + height, f, 0.2, 0.27);
  }

  lemma Between(s: real, f: real, lo: real, hi: real)
    requires 0.0 < s && 0.0 <= lo <= f < hi
    ensures s * lo <= s * f < s * hi
  {
    MulNonneg(s, f - lo);
    MulPos(s, hi - f);
  }

  function RescaleAll(m: Math, clouds: seq<Cloud>, width: nat, height: nat): (r: seq<Cloud>)
    requires width > 0 && height > 0
    ensures |r| == |clouds|
    ensures forall i :: 0 <= i < |r| ==> r[i] == Rescale(m, clouds[i], width, height)
  {
    seq(|clouds|, i requires 0 <= i < |clouds| => Rescale(m, clouds[i], width, height))
  }

  // -------------------------------------------------------------- speed

  /** The target speed multiplier: 3 while the pointer moves, times
      `1 + 4 * (1 - t / 1200)` within 1200 ms of a click. */
  function TargetSpeed(isMoving: bool, timeSinceClick: real): real {
    var moving := if isMoving then 3.0 else 1.0;
    if timeSinceClick < 1200.0 then moving * (1.0 + 4.0 * (1.0 - timeSinceClick / 1200.0))
    else moving
  }

  /** The target is at least 1, at most 15 when the click lies in the past,
      exactly 1 when idle long after a click, 3 while moving then, and never
      grows as the click recedes. */
  lemma TargetSpeedShape(isMoving: bool, t: real, u: real)
    ensures 1.0 <= TargetSpeed(isMoving, t)
    ensures 0.0 <= t ==> TargetSpeed(isMoving, t) <= 15.0
    ensures 1200.0 <= t ==> TargetSpeed(isMoving, t) == (if isMoving then 3.0 else 1.0)
    ensures t <= u ==> TargetSpeed(isMoving, u) <= TargetSpeed(isMoving, t)
    ensures TargetSpeed(false, t) <= TargetSpeed(isMoving, t)
  {
  }

  /** `speedMultiplier += (target - speedMultiplier) * 0.2`. */
  function Smooth(current: real, target: real): real {
    Utils.Lerp(current, target, 0.2)
  }

  /** Smoothing lands between the old multiplier and the target, keeps the
      target in place, and removes a fifth of the gap each frame. */
  lemma SmoothShape(current: real, target: real)
    ensures Min(current, target) <= Smooth(current, target) <= Max(current, target)
    ensures Smooth(target, target) == target
    ensures Abs(Smooth(current, target) - target) == 0.8 * Abs(current - target)
  {
    Utils.LerpBetween(current, target, 0.2);
  }

  // -------------------------------------------------------------- motion

  /** The frame's `deltaTime`: 0.008 per unit of speed multiplier. */
  function FrameStep(speedMultiplier: real): real {
    0.008 * speedMultiplier
  }

  /** Half a canvas dimension: the orbit centre's coordinate. */
  function Center(size: nat): real {
    size as real / 2.0
  }

  /** The animate `forEach` for one cloud, with `deltaTime` and the canvas
      centre. */
  function Advance(m: Math, c: Cloud, deltaTime: real, centerX: real, centerY: real): Cloud {
    var orbitAngle := c.orbitAngle + c.orbitSpeed * deltaTime;
    var opacityPhase := c.opacityPhase + deltaTime * 2.0;
    var morphPhase := c.morphPhase + deltaTime * 0.8;
    c.(orbitAngle := orbitAngle,
       x := centerX + m.cos(orbitAngle) * c.orbitRadius,
       y := centerY + m.sin(orbitAngle) * c.orbitRadius,
       opacityPhase := opacityPhase,
       currentOpacity := c.baseOpacity * (m.sin(opacityPhase + c.timeOffset) * 0.3 + 1.0),
       morphPhase := morphPhase,
       scaleX := m.sin(morphPhase + c.timeOffset) * 0.15 + 1.0,
       scaleY := m.cos(morphPhase * 1.1 + c.timeOffset) * 0.15 + 1.0)
  }

  /** A frame keeps a cloud's size, colour, orbit and offset; with a
      non-negative step and a forward orbit speed no phase goes back;
      the opacity pulses within [0.7, 1.3] of its base and both scales
      within [0.85, 1.15]. */
  lemma AdvanceShape(m: Math, c: Cloud, deltaTime: real, centerX: real, centerY: real)
    requires Sane(m)
    ensures var r := Advance(m, c, deltaTime, centerX, centerY);
      && r.radius == c.radius && r.baseOpacity == c.baseOpacity && r.color == c.color
      && r.orbitRadius == c.orbitRadius && r.orbitSpeed == c.orbitSpeed
      && r.timeOffset == c.timeOffset
      && r.opacityPhase == c.opacityPhase + 2.0 * deltaTime
      && r.morphPhase == c.morphPhase + 0.8 * deltaTime
      && (0.0 <= deltaTime && 0.0 < c.orbitSpeed ==>
            c.orbitAngle <= r.orbitAngle && c.opacityPhase <= r.opacityPhase
            && c.morphPhase <= r.morphPhase)
      && (0.0 <= c.baseOpacity ==>
            c.baseOpacity * 0.7 <= r.currentOpacity <= c.baseOpacity * 1.3)
      && 0.85 <= r.scaleX <= 1.15 && 0.85 <= r.scaleY <= 1.15
  {
    var r := Advance(m, c, deltaTime, centerX, centerY);
    if 0.0 <= deltaTime && 0.0 < c.orbitSpeed {
      MulNonneg(c.orbitSpeed, deltaTime);
    }
    var pulse := m.sin(r.opacityPhase + c.timeOffset) * 0.3 + 1.0;
    assert 0.7 <= pulse <= 1.3;
    if 0.0 <= c.baseOpacity {
      MulMonotone(c.baseOpacity, c.baseOpacity, 0.7, pulse);
      MulMonotone(c.baseOpacity, c.baseOpacity, pulse, 1.3);
    }
  }

  /** The cloud stays on its orbit: its distance from the centre is the
      orbit radius when sine and cosine agree at its angle. */
  lemma AdvanceOnOrbit(m: Math, c: Cloud, deltaTime: real, centerX: real, centerY: real)
    requires var a := Advance(m, c, deltaTime, centerX, centerY).orbitAngle;
      m.sin(a) * m.sin(a) + m.cos(a) * m.cos(a) == 1.0
    ensures var r := Advance(m, c, deltaTime, centerX, centerY);
      (r.x - centerX) * (r.x - centerX) + (r.y - centerY) * (r.y - centerY)
        == c.orbitRadius * c.orbitRadius
  {
    var r := Advance(m, c, deltaTime, centerX, centerY);
    var s, k, o := m.sin(r.orbitAngle), m.cos(r.orbitAngle), c.orbitRadius;
    assert r.x - centerX == k * o && r.y - centerY == s * o;
    assert (k * o) * (k * o) + (s * o) * (s * o) == (s * s + k * k) * (o * o);
  }

  function AdvanceAll(m: Math, clouds: seq<Cloud>, deltaTime: real, centerX: real, centerY: real)
    : (r: seq<Cloud>)
    ensures |r| == |clouds|
    ensures forall i :: 0 <= i < |r| ==> r[i] == Advance(m, clouds[i], deltaTime, centerX, centerY)
  {
    seq(|clouds|, i requires 0 <= i < |clouds| => Advance(m, clouds[i], deltaTime, centerX, centerY))
  }

  // ------------------------------------------------------------ layering

  /** Radii never increase along `s`. */
  predicate SortedByRadius(s: seq<Cloud>) {
    forall i, j :: 0 <= i < j < |s| ==> s[j].radius <= s[i].radius
  }

  /** Places `c` before the first cloud that is not larger. */
  function Insert(c: Cloud, s: seq<Cloud>): seq<Cloud> {
    if s == [] || c.radius >= s[0].radius then [c] + s
    else [s[0]] + Insert(c, s[1..])
  }

  /** `[...clouds].sort((a, b) => b.radius - a.radius)`: a copy, largest
      first. */
  function SortByRadius(s: seq<Cloud>): seq<Cloud> {
    if s == [] then [] else Insert(s[0], SortByRadius(s[1..]))
  }

  lemma InsertShape(c: Cloud, s: seq<Cloud>)
    requires SortedByRadius(s)
    ensures SortedByRadius(Insert(c, s))
    ensures multiset(Insert(c, s)) == multiset(s) + multiset{c}
    ensures |Insert(c, s)| == |s| + 1
    ensures Insert(c, s)[0] == c || (s != [] && Insert(c, s)[0] == s[0])
  {
    InsertContents(c, s);
    InsertSorted(c, s);
  }

  /** Insertion adds exactly `c`, and the new head is `c` or the old one. */
  lemma {:induction false} InsertContents(c: Cloud, s: seq<Cloud>)
    ensures multiset(Insert(c, s)) == multiset(s) + multiset{c}
    ensures |Insert(c, s)| == |s| + 1
    ensures Insert(c, s)[0] == c || (s != [] && Insert(c, s)[0] == s[0])
  {
    if s != [] && c.radius < s[0].radius {
      InsertContents(c, s[1..]);
      assert s == [s[0]] + s[1..];
    }
  }

  lemma {:induction false} InsertSorted(c: Cloud, s: seq<Cloud>)
    requires SortedByRadius(s)
    ensures SortedByRadius(Insert(c, s))
  {
    if s == [] || c.radius >= s[0].radius {
      ConsSorted(c, s);
    } else {
      var t := s[1..];
      TailSorted(s);
      InsertSorted(c, t);
      InsertContents(c, t);
      var rest := Insert(c, t);
      assert rest[0] == c || rest[0] == s[1];
      ConsSorted(s[0], rest);
    }
  }

  lemma TailSorted(s: seq<Cloud>)
    requires SortedByRadius(s) && s != []
    ensures SortedByRadius(s[1..])
  {
    var t := s[1..];
    forall i, j | 0 <= i < j < |t| ensures t[j].radius <= t[i].radius {
      assert t[i] == s[i + 1] && t[j] == s[j + 1];
    }
  }

  /** A cloud at least as large as the head of a sorted sequence may go in
      front of it. */
  lemma ConsSorted(c: Cloud, s: seq<Cloud>)
    requires SortedByRadius(s) && (s != [] ==> s[0].radius <= c.radius)
    ensures SortedByRadius([c] + s)
  {
    var r := [c] + s;
    forall i, j | 0 <= i < j < |r| ensures r[j].radius <= r[i].radius {
      assert r[j] == s[j - 1];
      if i == 0 {
        assert s[0].radius >= s[j - 1].radius;
      } else {
        assert r[i] == s[i - 1];
      }
    }
  }

  /** The render order is a permutation of the clouds, largest first; the
      stored order is a separate value and stays as it was. */
  lemma {:induction false} SortByRadiusShape(s: seq<Cloud>)
    ensures SortedByRadius(SortByRadius(s))
    ensures multiset(SortByRadius(s)) == multiset(s)
    ensures |SortByRadius(s)| == |s|
  {
    if s != [] {
      SortByRadiusShape(s[1..]);
      InsertShape(s[0], SortByRadius(s[1..]));
      assert s == [s[0]] + s[1..];
    }
  }

  // ------------------------------------------------------------- overlaps

  lemma SquareNonneg(x: real)
    ensures 0.0 <= x * x
  {
    if x < 0.0 {
      MulNonneg(-x, -x);
    } else {
      MulNonneg(x, x);
    }
  }

  /** The distance between two cloud centres. */
  function Distance(m: Math, a: Cloud, b: Cloud): (d: real)
    requires Sane(m)
    ensures 0.0 <= d
  {
    var dx, dy := a.x - b.x, a.y - b.y;
    SquareNonneg(dx);
    SquareNonneg(dy);
    m.sqrt(dx * dx + dy * dy)
  }

  function CombinedRadius(a: Cloud, b: Cloud): real {
    (a.radius + b.radius) * 0.8
  }

  predicate Overlapping(m: Math, a: Cloud, b: Cloud)
    requires Sane(m)
  {
    Distance(m, a, b) < CombinedRadius(a, b)
  }

  /** One overlap glow: the pair's positions in the render order, its
      strength and the glow's centre and radius. */
  datatype Glow = Glow(first: nat, second: nat, strength: real, midX: real, midY: real, size: real)

  /** The glow of an overlapping pair (i, j) of the render order. */
  function PairGlow(m: Math, s: seq<Cloud>, i: nat, j: nat): (g: Glow)
    requires Sane(m) && i < |s| && j < |s| && Overlapping(m, s[i], s[j])
    ensures g.first == i && g.second == j && 0.0 < g.strength <= 1.0
  {
    var a, b := s[i], s[j];
    var combined := CombinedRadius(a, b);
    var distance := Distance(m, a, b);
    StrengthRange(distance, combined);
    Glow(i, j, 1.0 - distance / combined, (a.x + b.x) / 2.0, (a.y + b.y) / 2.0, combined * 0.3)
  }

  /** `1 - distance / combinedRadius` lies in (0, 1] for an overlap. */
  lemma StrengthRange(distance: real, combined: real)
    requires 0.0 <= distance < combined
    ensures 0.0 < 1.0 - distance / combined <= 1.0
  {
    var q := distance / combined;
    assert q * combined == distance;
    if q >= 1.0 {
      MulMonotone(1.0, q, combined, combined);
    }
    if q < 0.0 {
      MulPos(-q, combined);
    }
  }

  /** What the pair (i, j) contributes: its glow when it overlaps. */
  function GlowOf(m: Math, s: seq<Cloud>, i: nat, j: nat): seq<Glow>
    requires Sane(m) && i < |s| && j < |s|
  {
    if Overlapping(m, s[i], s[j]) then [PairGlow(m, s, i, j)] else []
  }

  /** The glows of the pairs (i, j) with i < j < k. */
  function RowGlows(m: Math, s: seq<Cloud>, i: nat, k: nat): seq<Glow>
    requires Sane(m) && i < |s| && k <= |s|
  {
    if k <= i + 1 then [] else RowGlows(m, s, i, k - 1) + GlowOf(m, s, i, k - 1)
  }

  /** The glows of the first `n` rows of the double loop. */
  function Glows(m: Math, s: seq<Cloud>, n: nat): seq<Glow>
    requires Sane(m) && n <= |s|
  {
    if n == 0 then [] else Glows(m, s, n - 1) + RowGlows(m, s, n - 1, |s|)
  }

  /** What a glow promises: its pair is ordered, inside the render order,
      overlapping, and its strength lies in (0, 1]. */
  ghost predicate GlowSound(m: Math, s: seq<Cloud>, g: Glow)
    requires Sane(m)
  {
    g.first < g.second < |s| && Overlapping(m, s[g.first], s[g.second])
    && 0.0 < g.strength <= 1.0
  }

  /** The glows of row `i` belong to overlapping pairs (i, j) with j < k. */
  lemma {:induction false} RowGlowsSound(m: Math, s: seq<Cloud>, i: nat, k: nat)
    requires Sane(m) && i < |s| && k <= |s|
    ensures forall g :: g in RowGlows(m, s, i, k) ==> GlowSound(m, s, g) && g.first == i && g.second < k
  {
    if k > i + 1 {
      RowGlowsSound(m, s, i, k - 1);
      assert RowGlows(m, s, i, k) == RowGlows(m, s, i, k - 1) + GlowOf(m, s, i, k - 1);
    }
  }

  /** Row `i` holds the glow of every overlapping pair (i, j) with j < k. */
  lemma {:induction false} RowGlowsComplete(m: Math, s: seq<Cloud>, i: nat, k: nat)
    requires Sane(m) && i < |s| && k <= |s|
    ensures forall j :: i < j < k && Overlapping(m, s[i], s[j]) ==> PairGlow(m, s, i, j) in RowGlows(m, s, i, k)
  {
    if k > i + 1 {
      RowGlowsComplete(m, s, i, k - 1);
      assert RowGlows(m, s, i, k) == RowGlows(m, s, i, k - 1) + GlowOf(m, s, i, k - 1);
    }
  }

  /** Every glow belongs to an overlapping ordered pair with strength in
      (0, 1]. */
  lemma {:induction false} GlowsSound(m: Math, s: seq<Cloud>, n: nat)
    requires Sane(m) && n <= |s|
    ensures forall g :: g in Glows(m, s, n) ==> GlowSound(m, s, g) && g.first < n
  {
    if n > 0 {
      GlowsSound(m, s, n - 1);
      RowGlowsSound(m, s, n - 1, |s|);
      var earlier, row := Glows(m, s, n - 1), RowGlows(m, s, n - 1, |s|);
      assert Glows(m, s, n) == earlier + row;
      forall g | g in earlier + row ensures GlowSound(m, s, g) && g.first < n {
        if g !in earlier {
          assert g in row;
        }
      }
    }
  }

  /** Every overlapping pair i < j of the first `n` rows gets its glow. */
  lemma {:induction false} GlowsComplete(m: Math, s: seq<Cloud>, n: nat)
    requires Sane(m) && n <= |s|
    ensures forall i, j :: 0 <= i < n && i < j < |s| && Overlapping(m, s[i], s[j]) ==>
      PairGlow(m, s, i, j) in Glows(m, s, n)
  {
    if n > 0 {
      GlowsComplete(m, s, n - 1);
      RowGlowsComplete(m, s, n - 1, |s|);
      var earlier, row := Glows(m, s, n - 1), RowGlows(m, s, n - 1, |s|);
      assert Glows(m, s, n) == earlier + row;
      forall i, j | 0 <= i < n && i < j < |s| && Overlapping(m, s[i], s[j])
        ensures PairGlow(m, s, i, j) in earlier + row
      {
        if i < n - 1 {
          assert PairGlow(m, s, i, j) in earlier;
        } else {
          assert PairGlow(m, s, i, j) in row;
        }
      }
    }
  }

  /** The overlap double loop over the render order. */
  method OverlapGlows(m: Math, sorted: seq<Cloud>) returns (glows: seq<Glow>)
    requires Sane(m)
    ensures glows == Glows(m, sorted, |sorted|)
  {
    glows := [];
    for i := 0 to |sorted|
      invariant glows == Glows(m, sorted, i)
    {
      var row := OverlapRow(m, sorted, i);
      glows := glows + row;
    }
  }

  /** The inner loop: the glows of cloud `i` with every later cloud. */
  method OverlapRow(m: Math, sorted: seq<Cloud>, i: nat) returns (row: seq<Glow>)
    requires Sane(m) && i < |sorted|
    ensures row == RowGlows(m, sorted, i, |sorted|)
  {
    row := [];
    for j := i + 1 to |sorted|
      invariant row == RowGlows(m, sorted, i, j)
    {
      var cloud1, cloud2 := sorted[i], sorted[j];
      var distance := Distance(m, cloud1, cloud2);
      var combinedRadius := (cloud1.radius + cloud2.radius) * 0.8;
      if distance < combinedRadius {
        var overlapStrength := 1.0 - distance / combinedRadius;
        var g := Glow(i, j, overlapStrength, (cloud1.x + cloud2.x) / 2.0,
                      (cloud1.y + cloud2.y) / 2.0, combinedRadius * 0.3);
        assert g == PairGlow(m, sorted, i, j);
        row := row + [g];
      }
      assert RowGlows(m, sorted, i, j + 1) == RowGlows(m, sorted, i, j) + GlowOf(m, sorted, i, j);
    }
  }

  // ----------------------------------------------------------- the effect

  /** The minimum time between two processed frames. */
  const FrameInterval: real := 33.0

  /** Every cloud orbits forwards. */
  ghost predicate Orbiting(clouds: seq<Cloud>) {
    forall i :: 0 <= i < |clouds| ==> clouds[i].orbitSpeed > 0.0
  }

  /** What one processed frame draws. */
  datatype Picture = Picture(order: seq<Cloud>, glows: seq<Glow>)

  /** The component's refs, the animation's `lastTime` and the canvas size. */
  class LightNebula {
    var width: nat
    var height: nat
    var clouds: seq<Cloud>
    var speedMultiplier: real
    var isMoving: bool
    var clickBoost: real
    var lastTime: real

    /** The multiplier never falls below 1 and every cloud orbits forwards. */
    ghost predicate Valid()
      reads this
    {
      1.0 <= speedMultiplier && Orbiting(clouds)
    }

    constructor ()
      ensures Valid() && clouds == [] && speedMultiplier == 1.0 && !isMoving
      ensures clickBoost == 0.0 && lastTime == 0.0 && width == 0 && height == 0
    {
      width, height := 0, 0;
      clouds := [];
      speedMultiplier := 1.0;
      isMoving := false;
      clickBoost := 0.0;
      lastTime := 0.0;
    }

    /** `resizeCanvas`: the six clouds are created only when there are none;
        then every cloud's orbit follows the new size. */
    method Resize(m: Math, innerWidth: nat, innerHeight: nat, draws: seq<CloudDraws>)
      requires Valid() && Sane(m) && innerWidth > 0 && innerHeight > 0 && |draws| == |Configs|
      requires forall i :: 0 <= i < |draws| ==> ValidDraws(draws[i])
      modifies this
      ensures Valid() && width == innerWidth && height == innerHeight
      ensures old(clouds) == [] ==> clouds == InitialClouds(m, width, height, draws)
      ensures old(clouds) != [] ==> clouds == RescaleAll(m, old(clouds), width, height)
      ensures speedMultiplier == old(speedMultiplier) && isMoving == old(isMoving)
        && clickBoost == old(clickBoost) && lastTime == old(lastTime)
    {
      var created := clouds;
      if |created| == 0 {
        created := InitialClouds(m, innerWidth, innerHeight, draws);
        InitialOrbiting(m, innerWidth, innerHeight, draws);
        InitialRescaled(m, innerWidth, innerHeight, draws);
      }
      var rescaled := RescaleEach(m, created, innerWidth, innerHeight);
      width, height, clouds := innerWidth, innerHeight, rescaled;
    }

    /** `handleMouseMove`, also used for scrolling. */
    method PointerMoved()
      modifies this
      ensures isMoving
      ensures width == old(width) && height == old(height) && clouds == old(clouds)
        && speedMultiplier == old(speedMultiplier) && clickBoost == old(clickBoost)
        && lastTime == old(lastTime)
    {
      isMoving := true;
    }

    /** The timeout that fires 100 ms after the last movement. */
    method PointerStopped()
      modifies this
      ensures !isMoving
      ensures width == old(width) && height == old(height) && clouds == old(clouds)
        && speedMultiplier == old(speedMultiplier) && clickBoost == old(clickBoost)
        && lastTime == old(lastTime)
    {
      isMoving := false;
    }

    /** `handleClick` at `Date.now()` = `now`. */
    method Clicked(now: real)
      modifies this
      ensures clickBoost == now
      ensures width == old(width) && height == old(height) && clouds == old(clouds)
        && speedMultiplier == old(speedMultiplier) && isMoving == old(isMoving)
        && lastTime == old(lastTime)
    {
      clickBoost := now;
    }

    /** One `animate(currentTime)` call, with `Date.now()` = `now`. A frame
        within 33 ms of the last processed one changes nothing and draws
        nothing; otherwise the multiplier moves towards its target, every
        cloud advances by `0.008 * multiplier`, and the picture is the
        clouds largest first with their overlap glows. */
    method Animate(m: Math, currentTime: real, now: real) returns (picture: Option<Picture>)
      requires Valid() && Sane(m)
      modifies this
      ensures Valid()
      ensures currentTime - old(lastTime) < FrameInterval ==>
        picture.None? && lastTime == old(lastTime) && clouds == old(clouds)
        && speedMultiplier == old(speedMultiplier)
      ensures currentTime - old(lastTime) >= FrameInterval ==>
        lastTime == currentTime
        && speedMultiplier == Smooth(old(speedMultiplier), TargetSpeed(isMoving, now - clickBoost))
        && clouds == AdvanceAll(m, old(clouds), FrameStep(speedMultiplier), Center(width), Center(height))
        && var order := SortByRadius(clouds);
           picture == Some(Picture(order, Glows(m, order, |order|)))
      ensures width == old(width) && height == old(height) && isMoving == old(isMoving)
        && clickBoost == old(clickBoost)
    {
      if currentTime - lastTime < FrameInterval {
        return None;
      }
      var drawn := Process(m, currentTime, now);
      picture := Some(drawn);
    }

    /** A frame that is due: the clock, the multiplier and the clouds move
        on, and the stored clouds are drawn. */
    method Process(m: Math, currentTime: real, now: real) returns (picture: Picture)
      requires Valid() && Sane(m)
      modifies this
      ensures Valid()
      ensures lastTime == currentTime
      ensures speedMultiplier == Smooth(old(speedMultiplier), TargetSpeed(isMoving, now - clickBoost))
      ensures clouds == AdvanceAll(m, old(clouds), FrameStep(speedMultiplier), Center(width), Center(height))
      ensures var order := SortByRadius(clouds); picture == Picture(order, Glows(m, order, |order|))
      ensures width == old(width) && height == old(height) && isMoving == old(isMoving)
        && clickBoost == old(clickBoost)
    {
      var current := clouds;
      lastTime := currentTime;
      UpdateSpeed(now);
      clouds := AdvanceEach(m, current, FrameStep(speedMultiplier), Center(width), Center(height));
      picture := Draw(m);
    }

    /** The speed multiplier's step towards the frame's target. */
    method UpdateSpeed(now: real)
      requires Valid()
      modifies this
      ensures Valid()
      ensures speedMultiplier == Smooth(old(speedMultiplier), TargetSpeed(isMoving, now - clickBoost))
      ensures width == old(width) && height == old(height) && clouds == old(clouds)
        && isMoving == old(isMoving) && clickBoost == old(clickBoost) && lastTime == old(lastTime)
    {
      var target := TargetSpeed(isMoving, now - clickBoost);
      TargetSpeedShape(isMoving, now - clickBoost, now - clickBoost);
      SmoothShape(speedMultiplier, target);
      speedMultiplier := speedMultiplier + (target - speedMultiplier) * 0.2;
    }

    /** The render order and the overlap glows of the stored clouds. */
    method Draw(m: Math) returns (picture: Picture)
      requires Sane(m)
      ensures var order := SortByRadius(clouds);
        picture == Picture(order, Glows(m, order, |order|))
    {
      var sortedClouds := SortByRadius(clouds);
      var glows := OverlapGlows(m, sortedClouds);
      picture := Picture(sortedClouds, glows);
    }
  }

  /** The animate `forEach` over the clouds: one orbit step each, in
      place. */
  method AdvanceEach(m: Math, clouds: seq<Cloud>, deltaTime: real, centerX: real, centerY: real)
    returns (moved: seq<Cloud>)
    ensures moved == AdvanceAll(m, clouds, deltaTime, centerX, centerY)
    ensures Orbiting(clouds) ==> Orbiting(moved)
  {
    moved := clouds;
    var i := 0;
    while i < |moved|
      invariant 0 <= i <= |moved| == |clouds|
      invariant forall k :: 0 <= k < i ==> moved[k] == Advance(m, clouds[k], deltaTime, centerX, centerY)
      invariant forall k :: i <= k < |moved| ==> moved[k] == clouds[k]
      invariant Orbiting(clouds) ==> Orbiting(moved)
    {
      moved := moved[i := Advance(m, moved[i], deltaTime, centerX, centerY)];
      i := i + 1;
    }
  }

  /** The resize loop over the clouds: each is rescaled to the new size, in
      place. */
  method RescaleEach(m: Math, clouds: seq<Cloud>, width: nat, height: nat) returns (rescaled: seq<Cloud>)
    requires width > 0 && height > 0
    ensures rescaled == RescaleAll(m, clouds, width, height)
    ensures Orbiting(clouds) ==> Orbiting(rescaled)
  {
    rescaled := clouds;
    var i := 0;
    while i < |rescaled|
      invariant 0 <= i <= |rescaled| == |clouds|
      invariant forall k :: 0 <= k < i ==> rescaled[k] == Rescale(m, clouds[k], width, height)
      invariant forall k :: i <= k < |rescaled| ==> rescaled[k] == clouds[k]
      invariant Orbiting(clouds) ==> Orbiting(rescaled)
    {
      rescaled := rescaled[i := Rescale(m, rescaled[i], width, height)];
      i := i + 1;
    }
  }

  /** Every cloud just created orbits forwards. */
  lemma InitialOrbiting(m: Math, width: nat, height: nat, draws: seq<CloudDraws>)
    requires Sane(m) && width > 0 && height > 0 && |draws| == |Configs|
    requires forall i :: 0 <= i < |draws| ==> ValidDraws(draws[i])
    ensures Orbiting(InitialClouds(m, width, height, draws))
  {
    var created := InitialClouds(m, width, height, draws);
    forall i | 0 <= i < |created| ensures created[i].orbitSpeed > 0.0 {
      NewCloudShape(m, width, height, i, draws[i]);
    }
  }

  /** Rescaling the clouds just created for a size to that size changes
      nothing. */
  lemma InitialRescaled(m: Math, width: nat, height: nat, draws: seq<CloudDraws>)
    requires Sane(m) && width > 0 && height > 0 && |draws| == |Configs|
    requires forall i :: 0 <= i < |draws| ==> ValidDraws(draws[i])
    ensures RescaleAll(m, InitialClouds(m, width, height, draws), width, height)
      == InitialClouds(m, width, height, draws)
  {
    var created := InitialClouds(m, width, height, draws);
    forall k | 0 <= k < |created| ensures Rescale(m, created[k], width, height) == created[k] {
      RescaleNew(m, width, height, k, draws[k]);
    }
  }
}
