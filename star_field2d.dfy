/** The canvas star field of src/components/effects/StarField2D.tsx: a fixed
    set of 1000 stars placed by a deterministic hash of their index, built once
    on the first resize, and slowly rotated about the canvas centre on frames
    at most about 60 per second. */
module StarField2D {
  import opened Js

  const StarCount: nat := 1000

  /** The minimum spacing of processed frames, in milliseconds. */
  const FrameSpacing: real := 16.0

  /** `seed(i)`: the fractional part of `sin(i * 12.9898 + 78.233) * 43758.5453`,
      a value in [0, 1) that depends only on `i`. The same hash places the
      stars of src/components/three/SimpleStarField.tsx. */
  function Seed(m: Math, i: int): (r: real)
    ensures 0.0 <= r < 1.0
  {
    Frac(m.sin(i as real * 12.9898 + 78.233) * 43758.5453)
  }

  datatype Rgb = Rgb(r: int, g: int, b: int)

  datatype Star = Star(
    x: real, y: real, z: real,
    initialX: real, initialY: real, initialZ: real,
    size: real,
    color: Rgb,
    brightness: real,
    canSparkle: bool,
    sparkleOffset: real)

  /** The palette by threshold: white below 0.5, blue below 0.7, orange below
      0.85, purple otherwise. */
  function StarColor(choice: real): (c: Rgb)
    ensures choice < 0.5 ==> c == Rgb(255, 255, 255)
    ensures 0.5 <= choice < 0.7 ==> c == Rgb(153, 204, 255)
    ensures 0.7 <= choice < 0.85 ==> c == Rgb(255, 204, 102)
    ensures 0.85 <= choice ==> c == Rgb(204, 153, 255)
  {
    if choice < 0.5 then Rgb(255, 255, 255)
    else if choice < 0.7 then Rgb(153, 204, 255)
    else if choice < 0.85 then Rgb(255, 204, 102)
    else Rgb(204, 153, 255)
  }

  /** The size by threshold: a small star below 0.7, a medium one otherwise;
      `small` and `medium` are the two further seeds. */
  function StarSize(sizeRandom: real, small: real, medium: real): (s: real)
    requires 0.0 <= small < 1.0 && 0.0 <= medium < 1.0
    ensures sizeRandom < 0.7 ==> 1.0 <= s < 2.5
    ensures sizeRandom >= 0.7 ==> 2.5 <= s < 4.5
  {
    if sizeRandom < 0.7 then 1.0 + small * 1.5 else 2.5 + medium * 2.0
  }

  /** The centre of cluster `c` (stars `20c .. 20c+19`). */
  function ClusterCenter(m: Math, c: int, width: real, height: real): (real, real) {
    (Seed(m, c * 1000) * width, Seed(m, c * 2000) * height)
  }

  predicate Clustered(m: Math, i: int) {
    Seed(m, i + 10000) < 0.3
  }

  /** The initial position of star `i`: an offset from its cluster centre
      when it is clustered, otherwise a point of the canvas widened by 10% on
      every side. */
  function Placement(m: Math, i: int, width: real, height: real): (real, real) {
    if Clustered(m, i) then
      var (cx, cy) := ClusterCenter(m, i / 20, width, height);
      var (ox, oy) := ClusterOffset(m, i, width);
      (cx + ox, cy + oy)
    else
      (Seed(m, i) * width * 1.2 - width * 0.1, Seed(m, i + 1000) * height * 1.2 - height * 0.1)
  }

  /** The offset of a clustered star from its centre: a random direction and
      a distance below a tenth of the canvas width. */
  function ClusterOffset(m: Math, i: int, width: real): (o: (real, real))
    ensures Sane(m) && 0.0 < width ==> Abs(o.0) <= 0.1 * width && Abs(o.1) <= 0.1 * width
  {
    var angle := Seed(m, i + 3000) * PI * 2.0;
    var distance := ClusterDistance(Seed(m, i + 4000), width);
    OffsetBound(m, angle, Seed(m, i + 4000), width);
    (m.cos(angle) * distance, m.sin(angle) * distance)
  }

  /** The cluster radius `seed(i + 4000) * width * 0.1`. */
  function ClusterDistance(s: real, width: real): real {
    s * width * 0.1
  }

  lemma OffsetBound(m: Math, angle: real, s: real, width: real)
    requires 0.0 <= s < 1.0
    ensures Sane(m) && 0.0 < width ==>
      Abs(m.cos(angle) * ClusterDistance(s, width)) <= 0.1 * width
      && Abs(m.sin(angle) * ClusterDistance(s, width)) <= 0.1 * width
  {
    if Sane(m) && 0.0 < width {
      ScaledOffset(m.cos(angle), s, width);
      ScaledOffset(m.sin(angle), s, width);
    }
  }

  /** A direction component times a distance below a tenth of the width. */
  lemma ScaledOffset(c: real, s: real, width: real)
    requires -1.0 <= c <= 1.0 && 0.0 <= s < 1.0 && 0.0 < width
    ensures Abs(c * ClusterDistance(s, width)) <= 0.1 * width
  {
    var d := ClusterDistance(s, width);
    TenthBound(s, width);
    BoundedScale(c, d);
    assert Abs(c * d) <= d;
    assert d <= width * 0.1;
    assert d <= 0.1 * width;
    assert Abs(c * d) <= 0.1 * width;
  }

  lemma TenthBound(s: real, width: real)
    requires 0.0 <= s < 1.0 && 0.0 < width
    ensures 0.0 <= s * width * 0.1 <= width * 0.1
  {
    var k := s * width;
    ScaledDraw(s, width);
    assert 0.0 <= k <= width;
  }

  /** Star `i` of `initializeStars(width, height)`. */
  function StarAt(m: Math, i: int, width: real, height: real): Star {
    var (x, y) := Placement(m, i, width, height);
    var z := Seed(m, i + 2000);
    var size := StarSize(Seed(m, i + 4000), Seed(m, i + 5000), Seed(m, i + 6000));
    Star(x, y, z, x, y, z, size, StarColor(Seed(m, i + 3000)),
      0.5 + Seed(m, i + 7000) * 0.3,
      size > 3.0 && Seed(m, i + 8000) < 0.4,
      Seed(m, i + 9000) * 40.0)
  }

  /** The seeded attributes of every star lie in their documented ranges:
      depth in [0, 1), size in [1, 2.5) or [2.5, 4.5) by the size seed,
      brightness in [0.5, 0.8), a sparkle offset in [0, 40), and only stars
      larger than 3 may sparkle. */
  lemma StarAttributes(m: Math, i: int, width: real, height: real)
    ensures var s := StarAt(m, i, width, height);
      0.0 <= s.z < 1.0 && s.initialX == s.x && s.initialY == s.y && s.initialZ == s.z
      && (Seed(m, i + 4000) < 0.7 ==> 1.0 <= s.size < 2.5)
      && (Seed(m, i + 4000) >= 0.7 ==> 2.5 <= s.size < 4.5)
      && 0.5 <= s.brightness < 0.8
      && 0.0 <= s.sparkleOffset < 40.0
      && (s.canSparkle ==> s.size > 3.0)
      && s.color == StarColor(Seed(m, i + 3000))
  {
    var b := Seed(m, i + 7000);
    ScaledDraw(b, 0.3);
    var o := Seed(m, i + 9000);
    ScaledDraw(o, 40.0);
  }

  /** Clustered stars with the same `floor(i / 20)` share their cluster
      centre, and each lies within `0.1 * width` of it in each axis. */
  lemma ClusterShape(m: Math, i: int, j: int, width: real, height: real)
    requires Sane(m) && 0.0 < width
    requires Clustered(m, i) && Clustered(m, j) && i / 20 == j / 20
    ensures ClusterCenter(m, j / 20, width, height) == ClusterCenter(m, i / 20, width, height)
    ensures var (cx, cy) := ClusterCenter(m, i / 20, width, height);
      Abs(Placement(m, i, width, height).0 - cx) <= 0.1 * width
      && Abs(Placement(m, i, width, height).1 - cy) <= 0.1 * width
  {
    var (cx, cy) := ClusterCenter(m, i / 20, width, height);
    var (ox, oy) := ClusterOffset(m, i, width);
    assert Placement(m, i, width, height) == (cx + ox, cy + oy);
  }

  /** Stars outside clusters lie in [-0.1w, 1.1w) x [-0.1h, 1.1h). */
  lemma SpreadShape(m: Math, i: int, width: real, height: real)
    requires 0.0 < width && 0.0 < height && !Clustered(m, i)
    ensures -0.1 * width <= Placement(m, i, width, height).0 < 1.1 * width
    ensures -0.1 * height <= Placement(m, i, width, height).1 < 1.1 * height
  {
    var sx := Seed(m, i);
    var sy := Seed(m, i + 1000);
    var w := width * 1.2;
    var h := height * 1.2;
    ScaledDraw(sx, w);
    ScaledDraw(sy, h);
    assert sx * width * 1.2 == sx * w;
    assert sy * height * 1.2 == sy * h;
  }

  /** A factor in [-1, 1] scales a non-negative length to at most itself. */
  lemma BoundedScale(c: real, d: real)
    requires -1.0 <= c <= 1.0 && 0.0 <= d
    ensures Abs(c * d) <= d
  {
    MulNonneg(1.0 - c, d);
    MulNonneg(1.0 + c, d);
  }

  /** `initializeStars(width, height)`: the push loop over all 1000 indices. */
  method InitializeStars(m: Math, width: real, height: real) returns (stars: seq<Star>)
    ensures |stars| == StarCount
    ensures forall i :: 0 <= i < |stars| ==> stars[i] == StarAt(m, i, width, height)
  {
    stars := [];
    var i := 0;
    while i < StarCount
      invariant 0 <= i <= StarCount && |stars| == i
      invariant forall j :: 0 <= j < i ==> stars[j] == StarAt(m, j, width, height)
    {
      stars := stars + [StarAt(m, i, width, height)];
      i := i + 1;
    }
  }

  /** One star of a processed frame at `elapsedTime` seconds: its initial
      position rotated about the centre by an angle that grows with time,
      faster for nearer stars; nothing but `x` and `y` changes. */
  function Rotated(m: Math, star: Star, centerX: real, centerY: real, elapsedTime: real): (s: Star)
    ensures s == star.(x := s.x, y := s.y)
  {
    var distance := OrbitDistance(m, star, centerX, centerY);
    var newAngle := OrbitAngle(m, star, centerX, centerY, elapsedTime);
    star.(x := centerX + m.cos(newAngle) * distance, y := centerY + m.sin(newAngle) * distance)
  }

  /** The squared distance of the star's initial position from the centre. */
  function InitialDistanceSquared(star: Star, centerX: real, centerY: real): real {
    var dx := star.initialX - centerX;
    var dy := star.initialY - centerY;
    dx * dx + dy * dy
  }

  function OrbitDistance(m: Math, star: Star, centerX: real, centerY: real): real {
    m.sqrt(InitialDistanceSquared(star, centerX, centerY))
  }

  /** The initial angle plus `elapsedTime * 0.0001 * (1 - 0.5 z)`. */
  function OrbitAngle(m: Math, star: Star, centerX: real, centerY: real, elapsedTime: real): real {
    var rotSpeed := 0.0001 * (1.0 - star.z * 0.5);
    m.atan2(star.initialY - centerY, star.initialX - centerX) + elapsedTime * rotSpeed
  }

  /** A rotated star keeps the distance of its initial position from the
      centre, wherever sin^2 + cos^2 = 1 holds at its new angle. */
  lemma RotatedKeepsDistance(m: Math, star: Star, centerX: real, centerY: real, elapsedTime: real)
    requires Sane(m)
    requires var a := OrbitAngle(m, star, centerX, centerY, elapsedTime);
      m.sin(a) * m.sin(a) + m.cos(a) * m.cos(a) == 1.0
    ensures var s := Rotated(m, star, centerX, centerY, elapsedTime);
      (s.x - centerX) * (s.x - centerX) + (s.y - centerY) * (s.y - centerY)
      == InitialDistanceSquared(star, centerX, centerY)
  {
    var d := OrbitDistance(m, star, centerX, centerY);
    var a := OrbitAngle(m, star, centerX, centerY, elapsedTime);
    var c, sn := m.cos(a), m.sin(a);
    var dx, dy := star.initialX - centerX, star.initialY - centerY;
    MulNonneg(Abs(dx), Abs(dx));
    MulNonneg(Abs(dy), Abs(dy));
    assert dx * dx == Abs(dx) * Abs(dx) && dy * dy == Abs(dy) * Abs(dy);
    assert d * d == InitialDistanceSquared(star, centerX, centerY);
    assert (c * d) * (c * d) + (sn * d) * (sn * d) == (d * d) * (c * c + sn * sn);
  }

  /** Each coordinate of a rotated star lies within its orbit distance of the
      centre, from the range of sin and cos alone. */
  lemma RotatedWithinOrbit(m: Math, star: Star, centerX: real, centerY: real, elapsedTime: real)
    requires Sane(m)
    ensures 0.0 <= OrbitDistance(m, star, centerX, centerY)
    ensures Abs(Rotated(m, star, centerX, centerY, elapsedTime).x - centerX)
      <= OrbitDistance(m, star, centerX, centerY)
    ensures Abs(Rotated(m, star, centerX, centerY, elapsedTime).y - centerY)
      <= OrbitDistance(m, star, centerX, centerY)
  {
    var d := OrbitDistance(m, star, centerX, centerY);
    var a := OrbitAngle(m, star, centerX, centerY, elapsedTime);
    var dx, dy := star.initialX - centerX, star.initialY - centerY;
    MulNonneg(Abs(dx), Abs(dx));
    MulNonneg(Abs(dy), Abs(dy));
    assert dx * dx == Abs(dx) * Abs(dx) && dy * dy == Abs(dy) * Abs(dy);
    var s := Rotated(m, star, centerX, centerY, elapsedTime);
    UnitOffset(m.cos(a), d, s.x - centerX);
    UnitOffset(m.sin(a), d, s.y - centerY);
  }

  lemma UnitOffset(c: real, d: real, offset: real)
    requires -1.0 <= c <= 1.0 && 0.0 <= d && offset == c * d
    ensures Abs(offset) <= d
  {
    MulMonotone(Abs(c), 1.0, d, d);
    assert Abs(c * d) == Abs(c) * d;
  }


  /** The drawn point size `size * (0.8 + 0.2 z)`: nearer stars (small z) are
      drawn smaller, never below 80% of the size nor reaching it. */
  function PointSize(star: Star): real {
    star.size * (0.8 + star.z * 0.2)
  }

  lemma PointSizeRange(star: Star)
    requires 0.0 <= star.z < 1.0 && 0.0 < star.size
    ensures 0.8 * star.size <= PointSize(star) < star.size
  {
    var f := 0.8 + star.z * 0.2;
    assert 0.8 <= f < 1.0;
    assert PointSize(star) == star.size * f;
    var g := f - 0.8;
    var h := 1.0 - f;
    MulNonneg(star.size, g);
    MulPos(star.size, h);
    assert star.size * g == star.size * f - 0.8 * star.size;
    assert star.size * h == star.size - star.size * f;
  }

  /** The effect's state: the canvas size, the star list and the time of the
      last processed frame. */
  class StarField2DCanvas {
    var width: real
    var height: real
    var stars: seq<Star>
    var lastTime: real

    constructor ()
      ensures stars == [] && lastTime == 0.0
    {
      width, height := 0.0, 0.0;
      stars := [];
      lastTime := 0.0;
    }

    /** `resizeCanvas()` on a window of the given size: the stars are built on
        the first call only. */
    method Resize(m: Math, innerWidth: real, innerHeight: real)
      modifies this
      ensures width == innerWidth && height == innerHeight && lastTime == old(lastTime)
      ensures old(stars) != [] ==> stars == old(stars)
      ensures old(stars) == [] ==>
        |stars| == StarCount && forall i :: 0 <= i < |stars| ==> stars[i] == StarAt(m, i, innerWidth, innerHeight)
    {
      width := innerWidth;
      height := innerHeight;
      if |stars| == 0 {
        stars := InitializeStars(m, width, height);
      }
    }

    /** `animate(currentTime)`. A frame less than 16 ms after the last
        processed one changes nothing; otherwise every star is rotated and
        `lastTime` advances. */
    method Animate(m: Math, currentTime: real)
      modifies this
      ensures width == old(width) && height == old(height)
      ensures currentTime - old(lastTime) < FrameSpacing ==>
        stars == old(stars) && lastTime == old(lastTime)
      ensures currentTime - old(lastTime) >= FrameSpacing ==>
        lastTime == currentTime && |stars| == |old(stars)|
        && forall k :: 0 <= k < |stars| ==>
          stars[k] == Rotated(m, old(stars[k]), width / 2.0, height / 2.0, currentTime / 1000.0)
    {
      if currentTime - lastTime < FrameSpacing {
        return;
      }
      lastTime := currentTime;
      var elapsedTime := currentTime / 1000.0;
      var centerX := width / 2.0;
      var centerY := height / 2.0;
      var index := 0;
      while index < |stars|
        invariant 0 <= index <= |stars| == |old(stars)|
        invariant width == old(width) && height == old(height) && lastTime == currentTime
        invariant forall k :: 0 <= k < index ==>
          stars[k] == Rotated(m, old(stars[k]), centerX, centerY, elapsedTime)
        invariant forall k :: index <= k < |stars| ==> stars[k] == old(stars[k])
      {
        stars := stars[index := Rotated(m, stars[index], centerX, centerY, elapsedTime)];
        index := index + 1;
      }
    }
  }
}
