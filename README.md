# huzi.dev background effects, modelled in Dafny

This project models the animated backgrounds of the huzi.dev portfolio site:
- the canvas effects: meteor shower, light nebula, noise nebula, shooting stars and 2D star field;
- the three.js scenes: the simple, adaptive and optimised star fields and the space rocket;
- the helpers they share: `three-utils.ts` and `utils.ts`;
- the responsive and performance providers.

Each TypeScript component becomes one Dafny module:

| module | file | models |
|---|---|---|
| `Js` | js.dfy | the host numbers: `Math.floor`, `round`, `min`, `max`, `abs`, `sign`, `%`, `/` with NaN and Infinity, `Array.prototype.find`, `Uint8ClampedArray` stores, and a `Math` record of trigonometry, square root and power |
| `Utils` | utils.dfy | `src/lib/utils.ts` |
| `Responsive` | responsive.dfy | `src/components/providers/ResponsiveProvider.tsx` |
| `Performance` | performance.dfy | `src/components/providers/PerformanceProvider.tsx` |
| `ThreeUtils` | three_utils.dfy | `src/lib/three-utils.ts` |
| `StarField` | star_field.dfy | `src/components/three/StarField.tsx` |
| `OptimizedStarField` | optimized_star_field.dfy | `src/components/three/OptimizedStarField.tsx` |
| `SimpleStarField` | simple_star_field.dfy | `src/components/three/SimpleStarField.tsx` |
| `SpaceRocket` | space_rocket.dfy | `src/components/three/SpaceRocket.tsx` |
| `StarField2D` | star_field2d.dfy | `src/components/effects/StarField2D.tsx` |
| `ShootingStars2D` | shooting_stars2d.dfy | `src/components/effects/ShootingStars2D.tsx` |
| `MeteorShower2D` | meteor_shower2d.dfy | `src/components/effects/MeteorShower2D.tsx` |
| `LightNebula2D` | light_nebula2d.dfy | `src/components/effects/LightNebula2D.tsx` |
| `Nebula2D` | nebula2d.dfy | `src/components/effects/Nebula2D.tsx` |

How the source maps onto Dafny:
- State that the components keep in refs and mutate frame by frame becomes a `class`:
  - a pool of particles is an `array` of datatype values;
  - each handler (resize, pointer, `requestAnimationFrame` callback) is a method;
  - each method is proved equal to a specification function of the old state, such as `Frame`, `AdvanceAll` or `StepAll`.
- Values that the source computes in one go become functions, with lemmas for what the effect relies on:
  - ranges of sizes, speeds, opacities and colours;
  - which particles retire;
  - that a buffer layout is a bijection;
  - that a shuffle is a permutation;
  - that rescaling keeps a speed.
- Every `Math.random()` result is a parameter, together with the fact that it lies in [0, 1).
- `Math.sin`, `cos`, `sqrt`, `acos`, `atan2` and `pow` are fields of a `Math` value that callers pass in.
  - The predicate `Js.Sane` states the only facts the proofs use: sine and cosine lie in [-1, 1], square roots are exact and non-negative, `acos` lies in [0, π], and a power of [0, 1] with a positive exponent stays in [0, 1].
- Clocks (`performance.now()`, `Date.now()`, the three.js clock) and the window size are parameters of the handler methods.

## Model

| member | source | states |
|---|---|---|
| Js.Floor | src/components/effects/Nebula2D.tsx:21 | `Math.floor(x)` is the integer r with r <= x < r + 1 |
| Js.Round | src/components/providers/PerformanceProvider.tsx:44 | `Math.round(x)` lies within half a unit of x, with ties rounded up |
| Js.JsMod | src/components/effects/Nebula2D.tsx:20 | JavaScript `%` keeps the sign of the dividend: a result in [0, m) for x >= 0 and in (-m, 0] for x < 0, and `x` minus the result is a whole multiple of m |
| Js.Find | src/components/effects/MeteorShower2D.tsx:159 | `find` returns the first element that satisfies the predicate, and `undefined` exactly when no element does |
| Js.Div | src/lib/utils.ts:21 | JavaScript `/` is the real quotient for a non-zero divisor, NaN exactly for 0/0, and +Infinity or -Infinity for a positive or negative number over 0 |
| Js.MinNumber | src/lib/utils.ts:21 | `Math.min(n, c)` is NaN exactly when n is NaN, the smaller of n and c for a finite n, c for +Infinity and -Infinity for -Infinity |
| Js.ToUint8Clamped | src/components/effects/Nebula2D.tsx:241 | a store into a `Uint8ClampedArray` yields a byte: 0 at or below 0, 255 at or above 255, the nearest integer in between, and the even neighbour at a tie |
| Utils.LerpEndpoints | src/lib/utils.ts:24-26 | `lerp` gives `start` at t = 0 and `end` at t = 1 |
| Utils.LerpBetween | src/lib/utils.ts:24-26 | for t in [0, 1] the interpolated value lies between the two ends |
| Utils.EaseInOutCubicShape | src/lib/utils.ts:9-11 | `easeInOutCubic` fixes 0, 1/2 and 1, maps [0, 1] into [0, 1] and is monotone there |
| Utils.EaseOutQuartEnds | src/lib/utils.ts:13-15 | `easeOutQuart` fixes 0 and 1 |
| Utils.EaseOutQuartShape | src/lib/utils.ts:13-15 | `easeOutQuart` maps [0, 1] into [0, 1] and is monotone there |
| Utils.Random | src/lib/utils.ts:35-37 | `random(min, max)` lies in [min, max) when min < max, and is min when they are equal |
| Utils.RandomSphereOnSphere | src/lib/utils.ts:39-50 | the point `randomSphere` builds from its two draws lies on the sphere of the given radius, wherever sin² + cos² = 1 at the two angles |
| Utils.RandomSphereBox | src/lib/utils.ts:39-50 | each coordinate of that point lies in [-radius, radius] |
| Utils.ScrollProgress | src/lib/utils.ts:18-22 | the scroll progress is at most 1 and, for a scrollable page, at least 0; it is the plain quotient below the end and exactly 1 past it; on a page that cannot scroll it is NaN exactly when `scrollY` is 0, 1 for a positive `scrollY` and -Infinity for a negative one |
| Utils.ThrottleStep | src/lib/utils.ts:69-75 | a call is forwarded exactly when `delay` has passed since the last forwarded one, which then becomes `now` |
| Utils.ForwardedSpacing | src/lib/utils.ts:64-76 | over any sequence of calls, forwarded calls are at least `delay` apart, the first at least `delay` after the start |
| Utils.Throttle.Invoke | src/lib/utils.ts:69-75 | the closure's `lastCall` and its decision follow `ThrottleStep` |
| Utils.Throttle.constructor | src/lib/utils.ts:67-68 | the closure keeps its delay and starts with `lastCall` 0 |
| Responsive.Compute | src/components/providers/ResponsiveProvider.tsx:26-57 | exactly one device class holds, by the 768 and 1024 breakpoints; reduced motion forces the minimal tier (100 stars, speed 0); otherwise mobile gets 500 stars at 0.5, tablet 1000 at 0.75 and desktop the full 2000 at 1 |
| Responsive.FullIffDesktop | src/components/providers/ResponsiveProvider.tsx:27-47 | the full effects level is reached exactly on a desktop without reduced motion |
| Responsive.MonotoneInWidth | src/components/providers/ResponsiveProvider.tsx:27-47 | without reduced motion a wider viewport never gets fewer stars or a slower animation |
| Performance.Merge | src/components/providers/PerformanceProvider.tsx:30-32 | `{ ...prev, ...data }`: each supplied field wins, each absent field keeps its old value |
| Performance.MergeLaws | src/components/providers/PerformanceProvider.tsx:30-32 | an empty update changes nothing, and applying the same update twice is the same as once |
| Performance.MemoryMiB | src/components/providers/PerformanceProvider.tsx:48 | the heap size in MiB, and 0 when the browser reports none |
| Performance.Sample | src/components/providers/PerformanceProvider.tsx:43-55 | a sample publishes all four fields; the fps is a whole number between 0 and the frames counted; the performance is low exactly below 30 fps; animations are reduced exactly below 45 fps |
| Performance.MeasurePublishes | src/components/providers/PerformanceProvider.tsx:39-59 | a frame publishes exactly when a second has passed, and then resets the counter and the reference time; otherwise it only counts the frame |
| Performance.MeasureKeepsConsistent | src/components/providers/PerformanceProvider.tsx:39-59 | from a consistent state, any run of frames keeps the published flags in agreement with the published fps |
| Performance.InitialConsistent | src/components/providers/PerformanceProvider.tsx:23-28 | the initial state (60 fps, no memory, no flags) is consistent |
| Performance.PerformanceProvider.UpdatePerformance | src/components/providers/PerformanceProvider.tsx:30-32 | the state becomes the merge of the old state with the update; the sampler is untouched |
| Performance.PerformanceProvider.MeasurePerformance | src/components/providers/PerformanceProvider.tsx:39-59 | one frame of the sampler, as `Measure` |
| Performance.PerformanceProvider.constructor | src/components/providers/PerformanceProvider.tsx:23-36 | the state starts at 60 fps, no memory reading and no low-performance flags; the sampler starts with no frames at the mount time |
| StarField.BaseStarCount | src/components/three/StarField.tsx:18-22 | 500 stars below 768 px, 800 below 1024 px and 1200 otherwise |
| StarField.BaseStarCountMonotone | src/components/three/StarField.tsx:18-22 | a wider viewport never gets a smaller budget, which is one of the three tiers |
| StarField.OpacityUniform | src/components/three/StarField.tsx:40 | the opacity uniform is 0.6 under reduced motion and 1 otherwise |
| StarField.TwinkleRange | src/components/three/StarField.tsx:66-69 | twinkling dims a star by at most 40%, and not at all under reduced motion |
| StarField.Stars.constructor | src/components/three/StarField.tsx:18-33 | the first render takes the budget from the width, starts `starCount` at it, and builds the geometry for that many stars; `originalPositions` is a fresh copy holding star i's position at entries 3i..3i+2 |
| StarField.Stars.ViewportChanged | src/components/three/StarField.tsx:18-24 | a new width changes the budget but not the `starCount` state, whose initial value only applies at mount, nor the geometry |
| StarField.Stars.Rerender | src/components/three/StarField.tsx:27-33 | a render after the count changed rebuilds the stars, the geometry and `originalPositions` for the new count; with the count unchanged the memoised arrays are kept; either way the geometry then matches `starCount` |
| StarField.CopyPositions | src/components/three/StarField.tsx:31-33 | `new Float32Array(array)` is a fresh array with the same entries |
| StarField.Stars.Frame | src/components/three/StarField.tsx:82-109 | without a mesh, or under reduced motion, nothing changes; otherwise the positions become the parallax of the originals, the frame-rate sampler takes one step, and a new star count is requested exactly when the adaptive count differs; the geometry keeps its count until the next render |
| ThreeUtils.SphericalRadius | src/lib/three-utils.ts:21-23 | a star placed by radius, azimuth and polar angle lies on the sphere of that radius |
| ThreeUtils.StarColor | src/lib/three-utils.ts:31-38 | the colour draw picks the blue tint below 0.1, the purple tint below 0.15 and white otherwise |
| ThreeUtils.StarRanges | src/lib/three-utils.ts:17-28 | every generated star has radius in [50, 550), size in [0.5, 2.5), brightness in [0.2, 1) and twinkle speed in [0.01, 0.03) |
| ThreeUtils.GenerateStars | src/lib/three-utils.ts:12-50 | `generateStars(count)` returns `count` stars (none for a negative count), star i made from its own seven draws in the source's order |
| ThreeUtils.CreateStarGeometry | src/lib/three-utils.ts:53-82 | three fresh flat buffers: star i's position and colour at entries 3i to 3i+2, its size at entry i |
| ThreeUtils.StoreTriple | src/lib/three-utils.ts:63-65 | the three components go to entries 3i to 3i+2 and no other entry changes |
| ThreeUtils.PathAngle | src/lib/three-utils.ts:127 | the angle is `(i / segments) * 2π`, and NaN for `0 / 0` |
| ThreeUtils.CreateCameraPath | src/lib/three-utils.ts:124-135 | `segments + 1` points (none for a negative count), point i on the path formula |
| ThreeUtils.CameraPathShape | src/lib/three-utils.ts:124-135 | with at least one segment the path runs from angle 0 to 2π, every point is a number, and its height is 0.3 of its depth; with no segment the one point is NaN |
| ThreeUtils.ParallaxShape | src/lib/three-utils.ts:145-153 | parallax keeps every depth, moves y by minus half of x's shift, moves x right for a non-negative scroll, and is the identity at scroll 0 |
| ThreeUtils.ParallaxTriple | src/lib/three-utils.ts:147-152 | each star moves right by `scroll * |z| / 500 * 20` and down by half of that, and keeps its depth |
| ThreeUtils.Parallax | src/lib/three-utils.ts:145-153 | the parallax keeps the number of coordinates |
| ThreeUtils.UpdateStarPositions | src/lib/three-utils.ts:138-156 | the position array becomes the parallax of the original positions |
| ThreeUtils.FramesPerSecond | src/lib/three-utils.ts:168 | over at least a second, the reported rate is `frames * 1000 / elapsed` rounded to the nearest whole number with ties up, and lies between 0 and the frames counted |
| ThreeUtils.FrameRateStep | src/lib/three-utils.ts:164-174 | after a second, the counter and reference time restart and the rate becomes `FramesPerSecond` of the frames seen, this one included, over the time elapsed; before that the frame is only counted and the rate is kept |
| ThreeUtils.FirstSecondReports60 | src/lib/three-utils.ts:159-175 | every call before the first full second reports the initial 60 fps and counts its frame |
| ThreeUtils.FirstSecondRun | src/lib/three-utils.ts:164-174 | a run of calls within a second of the reference time only adds to the frame count |
| ThreeUtils.FrameRateMeter.GetFrameRate | src/lib/three-utils.ts:164-174 | the closure takes a `FrameRateStep` and returns the new rate |
| ThreeUtils.FrameRateMeter.constructor | src/lib/three-utils.ts:160-162 | the meter starts at time 0 with no frames counted and a rate of 60 |
| ThreeUtils.AdaptiveStarCountShape | src/lib/three-utils.ts:178-182 | the adaptive count is half the base below 30 fps, the base from 45 fps up and three quarters in between, rounded down; it lies between 0 and the base and never decreases as the rate rises |
| OptimizedStarField.AdjustedCountShape | src/components/three/OptimizedStarField.tsx:19-23 | low performance overrides reduced animations; a non-negative budget never exceeds the requested count; the caps are 500 under low performance and 1500 under reduced animations; with neither flag the count is kept |
| OptimizedStarField.Float32Length | src/components/three/OptimizedStarField.tsx:26-27 | `new Float32Array(n)` truncates n toward zero and throws exactly when n <= -1 |
| OptimizedStarField.StarRanges | src/components/three/OptimizedStarField.tsx:31-39 | radii lie in [100, 400) and sizes in [0.5, 2) |
| OptimizedStarField.FillBuffers | src/components/three/OptimizedStarField.tsx:25-43 | the buffers get the truncated lengths, or the allocation fails exactly when a length is negative; every stored coordinate and size is the one of its own star's draws, and writes past the end of a fractional-length buffer are dropped |
| OptimizedStarField.StorePosition | src/components/three/OptimizedStarField.tsx:30-37 | one iteration extends the stored prefix of coordinates by one star |
| OptimizedStarField.StoreSize | src/components/three/OptimizedStarField.tsx:39 | one iteration extends the stored prefix of sizes by one star |
| OptimizedStarField.BufferLengths | src/components/three/OptimizedStarField.tsx:26-27 | a non-negative budget allocates `floor(3n)` coordinates and `floor(n)` sizes; a budget of -1/3 or less throws |
| OptimizedStarField.RotationShape | src/components/three/OptimizedStarField.tsx:48-50 | the X rotation is half the Y rotation, reduced animations turn at half speed, and a running clock never turns back |
| OptimizedStarField.Points.OnFrame | src/components/three/OptimizedStarField.tsx:45-51 | nothing moves without a mesh, under reduced motion or under low performance; otherwise the rotation is set from the clock |
| OptimizedStarField.Points.constructor | src/components/three/OptimizedStarField.tsx:14 | the points start unrotated |
| SimpleStarField.StarCount | src/components/three/SimpleStarField.tsx:76-78 | 0.6 stars per 1000 square pixels, rounded down, and never negative for a real screen |
| SimpleStarField.StarColorShape | src/components/three/SimpleStarField.tsx:103-124 | white below 0.5, blue below 0.7, orange below 0.85 and purple otherwise; every component lies in [0.4, 1] |
| SimpleStarField.PaletteMatchesCanvas | src/components/three/SimpleStarField.tsx:103-124 | the palette is the canvas star field's palette, each byte divided by 255 |
| SimpleStarField.Radius | src/components/three/SimpleStarField.tsx:94 | star radii lie in [50, 150) |
| SimpleStarField.FillBuffers | src/components/three/SimpleStarField.tsx:74-138 | fresh buffers for `count` stars: star i's position, colour and size at its own entries, each from its own index hash |
| SimpleStarField.StorePosition | src/components/three/SimpleStarField.tsx:98-100 | one iteration extends the stored prefix of positions by one star |
| SimpleStarField.StoreColor | src/components/three/SimpleStarField.tsx:103-124 | one iteration extends the stored prefix of colours by one star |
| SimpleStarField.StoreSize | src/components/three/SimpleStarField.tsx:127-134 | one iteration extends the stored prefix of sizes by one star |
| SimpleStarField.TargetSpeedRange | src/components/three/SimpleStarField.tsx:220-233 | the target speed is never below 1; long after a click it is 1, or 4.5 while the pointer moves; for a past click it is at most 4.5 × 5.3; an older click never gives a larger target |
| SimpleStarField.DeltaTime | src/components/three/SimpleStarField.tsx:214-215 | the first frame counts as 16 ms, and every later frame as the time since the previous one |
| SimpleStarField.FrameShape | src/components/three/SimpleStarField.tsx:210-254 | the smoothed multiplier moves toward the target and stays between the two, so it stays at least 1; X turns exactly twice as far as Y; for a non-negative frame time neither rotation goes back |
| SimpleStarField.Stars.OnFrame | src/components/three/SimpleStarField.tsx:210-261 | without a mesh nothing changes; otherwise the refs take one `Frame` step |
| SimpleStarField.Stars.constructor | src/components/three/SimpleStarField.tsx:16-25 | the refs start with multiplier 1, no rotation and no frame time |
| SimpleStarField.FrameSpeed | src/components/three/SimpleStarField.tsx:220-236 | the callback's branches compute `TargetSpeed` |
| StarField2D.Seed | src/components/effects/StarField2D.tsx:42-45 | the index hash lies in [0, 1) |
| StarField2D.StarColor | src/components/effects/StarField2D.tsx:70-84 | white below 0.5, blue below 0.7, orange below 0.85 and purple otherwise, as bytes |
| StarField2D.StarSize | src/components/effects/StarField2D.tsx:87-95 | small stars have sizes in [1, 2.5), medium ones in [2.5, 4.5) |
| StarField2D.ClusterOffset | src/components/effects/StarField2D.tsx:57-60 | a clustered star's offset from its centre is at most a tenth of the canvas width on each axis |
| StarField2D.StarAttributes | src/components/effects/StarField2D.tsx:67-109 | each star starts at its initial position; depth lies in [0, 1), brightness in [0.5, 0.8) and the sparkle offset in [0, 40); the size range follows the size seed; only stars larger than 3 can sparkle; the colour follows the palette |
| StarField2D.ClusterShape | src/components/effects/StarField2D.tsx:52-60 | clustered stars in the same block of 20 share a centre, and each lies within a tenth of the width of it on each axis |
| StarField2D.SpreadShape | src/components/effects/StarField2D.tsx:61-65 | stars outside clusters lie in the canvas widened by 10% on every side |
| StarField2D.InitializeStars | src/components/effects/StarField2D.tsx:38-113 | `initializeStars` builds the 1000 stars, star i from its own index hashes |
| StarField2D.Rotated | src/components/effects/StarField2D.tsx:156-166 | a frame moves a star to its rotated position and changes nothing else about it |
| StarField2D.RotatedKeepsDistance | src/components/effects/StarField2D.tsx:156-165 | a rotated star stays at the distance of its initial position from the centre, wherever sin² + cos² = 1 at its new angle |
| StarField2D.RotatedWithinOrbit | src/components/effects/StarField2D.tsx:156-165 | each coordinate of a rotated star lies within its orbit distance of the centre, and that distance is non-negative |
| StarField2D.PointSizeRange | src/components/effects/StarField2D.tsx:174 | the drawn size is at least 80% of the star's size and below it |
| StarField2D.StarField2DCanvas.Resize | src/components/effects/StarField2D.tsx:116-124 | the canvas takes the window size; the stars are built on the first resize only, and kept afterwards |
| StarField2D.StarField2DCanvas.constructor | src/components/effects/StarField2D.tsx:24-25 | no stars and no processed frame yet |
| StarField2D.StarField2DCanvas.Animate | src/components/effects/StarField2D.tsx:130-166 | a frame less than 16 ms after the last processed one changes nothing; otherwise every star is rotated about the canvas centre for the elapsed seconds, and the frame time is recorded |
| ShootingStars2D.SideRange | src/components/effects/ShootingStars2D.tsx:72 | `floor(random * 4)` picks each of the four sides on its own quarter of [0, 1) |
| ShootingStars2D.EndpointsWithin | src/components/effects/ShootingStars2D.tsx:76-102 | the drawn start and end coordinates along the entry and exit edges lie within the canvas |
| ShootingStars2D.CreateRanges | src/components/effects/ShootingStars2D.tsx:104-145 | a new star is active at its start, with age 0 and full opacity; speed, size, lifetime and tail lie in [0.3, 0.8), [2, 5), [5000, 13000) and [80, 200); the colour follows the 0.6 and 0.8 thresholds |
| ShootingStars2D.CreateEdges | src/components/effects/ShootingStars2D.tsx:70-102 | a star entering from the top starts 50 px above the canvas and leaves 50 px below it, and likewise from the right, the bottom and the left |
| ShootingStars2D.OpacityShape | src/components/effects/ShootingStars2D.tsx:161-170 | on [0, 1] the opacity stays in [0, 1]; it is 0 at both ends, positive in between and 1 on [0.1, 0.8] |
| ShootingStars2D.UpdateShape | src/components/effects/ShootingStars2D.tsx:148-176 | an inactive star is untouched; an active one ages by the time step and moves along its path, from the start at progress 0 to the end at progress 1; it retires exactly when its age reaches its lifetime, with opacity 0 then; its opacity stays in [0, 1] for a non-negative age; nothing else about it changes |
| ShootingStars2D.DrawnInFlight | src/components/effects/ShootingStars2D.tsx:148-180 | a star that is drawn after its update is strictly inside its flight |
| ShootingStars2D.FirstInactive | src/components/effects/ShootingStars2D.tsx:259 | the reused slot is the first inactive star, and there is none exactly when all are active |
| ShootingStars2D.SpawnPhaseShape | src/components/effects/ShootingStars2D.tsx:255-269 | a spawn happens exactly when the delay has elapsed and a slot is free: then it fills the first free slot with the created star, restarts the timer at the current time and draws the next delay in [3000, 8000); before the delay, or with every slot active, nothing changes, the timers included |
| ShootingStars2D.UpdateAll | src/components/effects/ShootingStars2D.tsx:272-275 | the update pass keeps the pool size, keeps every lifetime of an active star positive and leaves inactive stars alone |
| ShootingStars2D.ShootingStars.Resize | src/components/effects/ShootingStars2D.tsx:234-242 | the pool of 8 inactive stars is built on the first resize only; the timers are untouched |
| ShootingStars2D.ShootingStars.constructor | src/components/effects/ShootingStars2D.tsx:30-33 | no stars, both spawn timers at 0 and no frame yet |
| ShootingStars2D.ShootingStars.Animate | src/components/effects/ShootingStars2D.tsx:248-278 | one frame: the time step since the last frame, the spawn check, then the update of every star |
| ShootingStars2D.ShootingStars.SpawnCheck | src/components/effects/ShootingStars2D.tsx:256-269 | the pool and the timers take one `SpawnPhase` step |
| ShootingStars2D.ShootingStars.UpdateStars | src/components/effects/ShootingStars2D.tsx:272-275 | the pool becomes `UpdateAll` of the old pool |
| MeteorShower2D.MaxLifeBound | src/components/effects/MeteorShower2D.tsx:119-122 | every meteor lives at least 60 frames, whatever the canvas size |
| MeteorShower2D.SpawnResets | src/components/effects/MeteorShower2D.tsx:97-151 | a spawned meteor is active, of age 0, with no trail and no sparkles; its speed lies in [0.8, 2) and it lives at least 60 frames |
| MeteorShower2D.SpawnKind | src/components/effects/MeteorShower2D.tsx:98-148 | a top spawn starts 10 px above the canvas heading at 45-75 degrees, a right spawn 10 px right of it at 135-165; the type follows the 0.4 and 0.7 thresholds; only a bright meteor is 1.2 times larger; its colours are its type's |
| MeteorShower2D.FirstInactive | src/components/effects/MeteorShower2D.tsx:159 | the chosen slot is the first inactive meteor, and there is none exactly when all are active |
| MeteorShower2D.SpawnPhaseShape | src/components/effects/MeteorShower2D.tsx:158-163 | at most the first inactive slot changes, into the spawned meteor; a roll of at least 0.035 or a full pool changes nothing; a lower roll with a free slot fills the first free slot |
| MeteorShower2D.TrailShape | src/components/effects/MeteorShower2D.tsx:177-191 | the trail gains the new head in front and keeps the older points in order, dropping the oldest once 30 are kept; point i has opacity 1 - i/30, which lies in (0, 1] |
| MeteorShower2D.SurvivorsShape | src/components/effects/MeteorShower2D.tsx:210-216 | the filter keeps exactly the aged sparkles younger than 40 frames, each the aged form of an old sparkle |
| MeteorShower2D.SparkleCount | src/components/effects/MeteorShower2D.tsx:194-207 | sparkles are added only below a roll of 0.2 and while fewer than 15 exist, one at a time or two for a bright meteor, so the count never exceeds 16 |
| MeteorShower2D.GlowRange | src/components/effects/MeteorShower2D.tsx:360-376 | a meteor still on screen has a non-negative edge distance; near an edge or in the last tenth of its life its glow lies between 0 and its type's base intensity; otherwise the glow is kept |
| MeteorShower2D.StepShape | src/components/effects/MeteorShower2D.tsx:166-232 | an inactive meteor is skipped; an active one moves by its velocity, gains 0.01 of downward speed and one frame of age, and retires exactly when it is beyond its margin or past its life; a well-formed meteor stays well-formed |
| MeteorShower2D.FreshWellFormed | src/components/effects/MeteorShower2D.tsx:77-151 | a slot of the initial pool is inactive, and it and every spawned meteor are well-formed |
| MeteorShower2D.Frame | src/components/effects/MeteorShower2D.tsx:154-377 | a frame keeps the pool at its size |
| MeteorShower2D.StepAll | src/components/effects/MeteorShower2D.tsx:166-377 | the update pass keeps the pool at its size |
| MeteorShower2D.FrameKeepsWellFormed | src/components/effects/MeteorShower2D.tsx:154-377 | a frame keeps every slot's trail within 30 faded points and its sparkles within 16 young ones |
| MeteorShower2D.FadeTrail | src/components/effects/MeteorShower2D.tsx:189-191 | the loop gives point i the opacity 1 - i/30 |
| MeteorShower2D.AddSparkles | src/components/effects/MeteorShower2D.tsx:194-207 | the push loop adds the sparkles `WithSparkles` describes |
| MeteorShower2D.FilterSparkles | src/components/effects/MeteorShower2D.tsx:210-216 | the filter computes `Survivors` |
| MeteorShower2D.UpdateMeteor | src/components/effects/MeteorShower2D.tsx:170-376 | the callback on an active meteor computes `Step` |
| MeteorShower2D.StepSlot | src/components/effects/MeteorShower2D.tsx:166-377 | one callback, with the skip of an inactive meteor, computes `Step` |
| MeteorShower2D.MoveMeteor | src/components/effects/MeteorShower2D.tsx:170-219 | motion, gravity, trail, sparkles and ageing compute `Advanced` |
| MeteorShower2D.SettleMeteor | src/components/effects/MeteorShower2D.tsx:220-376 | the retirement test and the fade compute `Settled` |
| MeteorShower2D.MeteorShower.constructor | src/components/effects/MeteorShower2D.tsx:69-94 | the canvas takes the window size and the pool holds 20 idle meteors |
| MeteorShower2D.MeteorShower.Resize | src/components/effects/MeteorShower2D.tsx:69-72 | the canvas takes the window size |
| MeteorShower2D.MeteorShower.Animate | src/components/effects/MeteorShower2D.tsx:154-377 | the pool takes one `Frame` step |
| MeteorShower2D.MeteorShower.SpawnInto | src/components/effects/MeteorShower2D.tsx:158-163 | the pool takes one `SpawnPhase` step |
| MeteorShower2D.MeteorShower.StepEach | src/components/effects/MeteorShower2D.tsx:166-377 | the pool becomes `StepAll` of the old pool |
| LightNebula2D.Palette | src/components/effects/LightNebula2D.tsx:65-86 | each palette has three shades |
| LightNebula2D.ShadeIndexRange | src/components/effects/LightNebula2D.tsx:104 | the shade index `floor(random * 3)` lies in [0, 3) |
| LightNebula2D.CloudRadiusRange | src/components/effects/LightNebula2D.tsx:99-112 | a cloud's radius is `min(w, h) * sizeMult` scaled by [0.8, 1.2), and its size influence lies in [0.5, 1.2) |
| LightNebula2D.InitialClouds | src/components/effects/LightNebula2D.tsx:97-136 | six clouds, cloud i built from configuration i with its own draws |
| LightNebula2D.NewCloudShape | src/components/effects/LightNebula2D.tsx:97-135 | a new cloud has its configuration's radius, a base opacity scaled by [0.7, 1.3), a shade of its palette, both phases at 0, no scaling, its base opacity, and a positive orbit speed |
| LightNebula2D.RescaleShape | src/components/effects/LightNebula2D.tsx:144-153 | a resize changes only the orbit radius and the position, to the orbit radius of the new size, and a second resize to the same size changes nothing |
| LightNebula2D.RescaleNew | src/components/effects/LightNebula2D.tsx:113-153 | the resize right after creation leaves a new cloud unchanged |
| LightNebula2D.OrbitRadiusRange | src/components/effects/LightNebula2D.tsx:113 | for a size influence in [0.5, 1.2) the orbit radius is 20% to 27% of width plus height |
| LightNebula2D.RescaleAll | src/components/effects/LightNebula2D.tsx:144-153 | the resize pass rescales every cloud and keeps their number |
| LightNebula2D.InitialOrbiting | src/components/effects/LightNebula2D.tsx:97-136 | every cloud just created orbits forwards |
| LightNebula2D.InitialRescaled | src/components/effects/LightNebula2D.tsx:58-154 | the first resize's rescaling of the clouds it has just created changes nothing |
| LightNebula2D.TargetSpeedShape | src/components/effects/LightNebula2D.tsx:237-250 | the target multiplier is at least 1, at most 15 for a click in the past, back to 3 or 1 from 1200 ms after a click, never larger for a later time, and never smaller while the pointer moves |
| LightNebula2D.SmoothShape | src/components/effects/LightNebula2D.tsx:253-254 | the smoothed multiplier lies between the old one and the target, the target is a fixed point, and the distance to the target shrinks to 80% |
| LightNebula2D.AdvanceShape | src/components/effects/LightNebula2D.tsx:263-280 | a frame keeps a cloud's size, colour, orbit and offset; the phases advance by 2 and 0.8 times the step; with a forward orbit and a non-negative step no angle or phase goes back; the opacity stays within [0.7, 1.3] of its base and both scales in [0.85, 1.15] |
| LightNebula2D.AdvanceOnOrbit | src/components/effects/LightNebula2D.tsx:265-267 | the cloud's distance from the centre is its orbit radius |
| LightNebula2D.AdvanceAll | src/components/effects/LightNebula2D.tsx:263-280 | the frame advances every cloud and keeps their number |
| LightNebula2D.InsertShape | src/components/effects/LightNebula2D.tsx:283 | inserting into a sequence sorted largest first keeps it sorted, adds exactly the new cloud and puts either it or the old head first |
| LightNebula2D.InsertContents | src/components/effects/LightNebula2D.tsx:283 | insertion adds exactly the new cloud |
| LightNebula2D.InsertSorted | src/components/effects/LightNebula2D.tsx:283 | insertion keeps the order largest first |
| LightNebula2D.SortByRadiusShape | src/components/effects/LightNebula2D.tsx:283 | the render order is a permutation of the clouds, largest radius first |
| LightNebula2D.Distance | src/components/effects/LightNebula2D.tsx:298-300 | the distance between two cloud centres is never negative |
| LightNebula2D.PairGlow | src/components/effects/LightNebula2D.tsx:303-314 | the glow of an overlapping pair records the pair and has strength in (0, 1] |
| LightNebula2D.StrengthRange | src/components/effects/LightNebula2D.tsx:304 | `1 - distance / combinedRadius` lies in (0, 1] for an overlap |
| LightNebula2D.RowGlowsSound | src/components/effects/LightNebula2D.tsx:294-328 | every glow of row i belongs to an overlapping pair (i, j) with i < j |
| LightNebula2D.RowGlowsComplete | src/components/effects/LightNebula2D.tsx:294-328 | row i holds the glow of every later cloud that overlaps cloud i |
| LightNebula2D.GlowsSound | src/components/effects/LightNebula2D.tsx:293-329 | every glow belongs to an ordered overlapping pair and has strength in (0, 1] |
| LightNebula2D.GlowsComplete | src/components/effects/LightNebula2D.tsx:293-329 | every overlapping pair i < j gets its glow |
| LightNebula2D.OverlapGlows | src/components/effects/LightNebula2D.tsx:293-329 | the double loop computes `Glows` over the render order |
| LightNebula2D.OverlapRow | src/components/effects/LightNebula2D.tsx:294-328 | the inner loop computes the glows of cloud i with every later cloud |
| LightNebula2D.AdvanceEach | src/components/effects/LightNebula2D.tsx:263-280 | the loop computes `AdvanceAll` and keeps every cloud orbiting forwards |
| LightNebula2D.RescaleEach | src/components/effects/LightNebula2D.tsx:144-153 | the loop computes `RescaleAll` and keeps every cloud orbiting forwards |
| LightNebula2D.LightNebula.constructor | src/components/effects/LightNebula2D.tsx:12-18 | the multiplier starts at 1, the pointer at rest, no click, no clouds and no processed frame |
| LightNebula2D.LightNebula.Resize | src/components/effects/LightNebula2D.tsx:54-155 | the canvas takes the window size; the six clouds are created when there are none, and otherwise every cloud's orbit is rescaled; the multiplier stays at least 1 and every cloud orbits forwards |
| LightNebula2D.LightNebula.PointerMoved | src/components/effects/LightNebula2D.tsx:160-163 | moving or scrolling marks the pointer as moving and changes nothing else |
| LightNebula2D.LightNebula.PointerStopped | src/components/effects/LightNebula2D.tsx:170-172 | the timeout marks the pointer as at rest and changes nothing else |
| LightNebula2D.LightNebula.Clicked | src/components/effects/LightNebula2D.tsx:175-178 | a click records its time and changes nothing else |
| LightNebula2D.LightNebula.Animate | src/components/effects/LightNebula2D.tsx:225-332 | a frame within 33 ms of the last processed one changes and draws nothing; otherwise the clock is recorded, the multiplier takes one smoothing step towards its target, every cloud advances by 0.008 times the multiplier, and the clouds are drawn largest first with their overlap glows |
| LightNebula2D.LightNebula.Process | src/components/effects/LightNebula2D.tsx:231-329 | a due frame records the clock, smooths the multiplier, advances the clouds and draws them |
| LightNebula2D.LightNebula.UpdateSpeed | src/components/effects/LightNebula2D.tsx:236-254 | the multiplier takes one smoothing step towards its target and stays at least 1 |
| LightNebula2D.LightNebula.Draw | src/components/effects/LightNebula2D.tsx:283-329 | the picture is the clouds largest first with the glows of their overlapping pairs |
| Nebula2D.Identity | src/components/effects/Nebula2D.tsx:12-15 | the starting table holds k at position k for k < 256 |
| Nebula2D.NextState | src/components/effects/Nebula2D.tsx:20 | the shuffle state `(n + 31) % 256` lies in [0, 256) |
| Nebula2D.SwapIndexRange | src/components/effects/Nebula2D.tsx:21 | the swap partner of position i is one of positions 0 .. i |
| Nebula2D.SwapDrawBound | src/components/effects/Nebula2D.tsx:21 | the scaled draw `(n / 256) * (i + 1)` lies in [0, i + 1) |
| Nebula2D.SwapPermutes | src/components/effects/Nebula2D.tsx:22 | an exchange keeps the table's entries |
| Nebula2D.Swap | src/components/effects/Nebula2D.tsx:22 | an exchange keeps the table length |
| Nebula2D.ShuffleFromPermutes | src/components/effects/Nebula2D.tsx:19-23 | the swap loop keeps the table's entries, and a table of bytes stays one |
| Nebula2D.ShuffleFrom | src/components/effects/Nebula2D.tsx:19-23 | the remaining rounds of the swap loop keep a table of 256 entries |
| Nebula2D.Shuffle | src/components/effects/Nebula2D.tsx:12-23 | the shuffled table has 256 entries |
| Nebula2D.ShufflePermutation | src/components/effects/Nebula2D.tsx:12-23 | the shuffled table of every seed is a permutation of 0 .. 255 |
| Nebula2D.PermTable | src/components/effects/Nebula2D.tsx:25-26 | `perm` has 512 entries |
| Nebula2D.Perm12Table | src/components/effects/Nebula2D.tsx:27 | `perm12` has as many entries as `perm` |
| Nebula2D.TablesShape | src/components/effects/Nebula2D.tsx:25-28 | the second half of `perm` repeats the first, `perm[i] = p[i & 255]`, `perm12` is `perm` mod 12, and the entries lie in [0, 256) and [0, 12) |
| Nebula2D.CellLookup | src/components/effects/Nebula2D.tsx:53-66 | for every cell `ii` and `jj` are the cell coordinates mod 256, every `perm` and `perm12` read lies inside the 512 entries, and every gradient index is below 12 |
| Nebula2D.IdentityTable | src/components/effects/Nebula2D.tsx:12-15 | the loop fills a new table with the identity |
| Nebula2D.ShuffleTable | src/components/effects/Nebula2D.tsx:17-23 | the in-place swap loop from 255 down to 1 leaves the table `Shuffle(seed)` |
| Nebula2D.ShuffleRound | src/components/effects/Nebula2D.tsx:19-22 | one round advances the state and exchanges position i with its partner, as the recursive description does |
| Nebula2D.ShuffleStep | src/components/effects/Nebula2D.tsx:19-22 | the recursive shuffle unfolds into one exchange followed by the remaining rounds |
| Nebula2D.SwapStep | src/components/effects/Nebula2D.tsx:21-22 | the destructuring exchange swaps positions i and j of the array, with j in 0 .. i |
| Nebula2D.FillTables | src/components/effects/Nebula2D.tsx:25-28 | the loop writes `PermTable` and `Perm12Table` |
| Nebula2D.SimplexNoise.constructor | src/components/effects/Nebula2D.tsx:11-29 | the tables are those of the seed, have the shape `noise2D` needs, and `noise2D` computes the simplex formula over them |
| Nebula2D.PowStep | src/components/effects/Nebula2D.tsx:101-102 | multiplying the k-th power by the base gives the next one |
| Nebula2D.PowNonneg | src/components/effects/Nebula2D.tsx:101 | the amplitude stays non-negative for a non-negative persistence |
| Nebula2D.GeomSumAtLeastOne | src/components/effects/Nebula2D.tsx:98-100 | for one or more octaves and a non-negative persistence `maxValue` is at least 1, so the division is defined |
| Nebula2D.GeomSumClosed | src/components/effects/Nebula2D.tsx:98-100 | `(1 - p) * maxValue = 1 - p^k` |
| Nebula2D.PowOne | src/components/effects/Nebula2D.tsx:101 | with persistence 1 the amplitude stays 1 |
| Nebula2D.GeomSumUnit | src/components/effects/Nebula2D.tsx:98-100 | with persistence 1 `maxValue` is the number of octaves |
| Nebula2D.WeightedNext | src/components/effects/Nebula2D.tsx:99 | one octave adds its amplitude times its sample to the sum |
| Nebula2D.WeightedStep | src/components/effects/Nebula2D.tsx:98-103 | an octave whose sample lies in [-1, 1] keeps the sum within the amplitude sum |
| Nebula2D.WeightedSumBounded | src/components/effects/Nebula2D.tsx:98-103 | samples in [-1, 1] give a sum within the amplitude sum |
| Nebula2D.WeightedMeanBounded | src/components/effects/Nebula2D.tsx:98-105 | samples in [-1, 1] give a quotient in [-1, 1] for one or more octaves |
| Nebula2D.SimplexNoise.Fbm | src/components/effects/Nebula2D.tsx:92-106 | after the loop the amplitude, frequency, `maxValue` and `value` are the k-th powers, the amplitude sum and the weighted sample sum; the result is their quotient, `NaN` for zero octaves and finite for one or more with a non-negative persistence |
| Nebula2D.FbmNoOctaves | src/components/effects/Nebula2D.tsx:105 | with no octaves `fbm` returns 0 / 0, which is `NaN` |
| Nebula2D.FbmValue | src/components/effects/Nebula2D.tsx:105 | for one or more octaves and a non-negative persistence the quotient is finite |
| Nebula2D.FbmSumBounded | src/components/effects/Nebula2D.tsx:98-103 | noise in [-1, 1] keeps the weighted sum within the amplitude sum |
| Nebula2D.FbmNormalised | src/components/effects/Nebula2D.tsx:92-106 | noise in [-1, 1] gives an `fbm` value in [-1, 1] |
| Nebula2D.SamplesBounded | src/components/effects/Nebula2D.tsx:99 | noise in [-1, 1] gives samples in [-1, 1] at every frequency |
| Nebula2D.InitialLayersShape | src/components/effects/Nebula2D.tsx:127-131 | three layers start unrotated at their base opacities, and the finer the noise scale the lighter the layer |
| Nebula2D.DriftShape | src/components/effects/Nebula2D.tsx:281-293 | a frame moves each offset by at most 0.1 and turns layer k by `0.00005 * (k + 1)`; it keeps scale and colour mix; the new opacity lies within 10% of the base opacity and does not depend on the old one |
| Nebula2D.DriftAll | src/components/effects/Nebula2D.tsx:281-293 | layer k drifts with index k, and the number of layers is kept |
| Nebula2D.Half | src/components/effects/Nebula2D.tsx:151-152 | the offscreen size is half the canvas size rounded down |
| Nebula2D.ShadeRange | src/components/effects/Nebula2D.tsx:234-241 | the alpha lies between 0 and `255 * opacity`, and clamping the value first changes nothing |
| Nebula2D.LevelRange | src/components/effects/Nebula2D.tsx:241 | a contrast-adjusted value in [0, 1] gives an alpha between 0 and `255 * opacity` |
| Nebula2D.Image | src/components/effects/Nebula2D.tsx:205-243 | the buffer has 4 bytes per pixel |
| Nebula2D.Mask | src/components/effects/Nebula2D.tsx:205-243 | the mask of a w x h canvas has `w * h * 4` bytes |
| Nebula2D.ImageLayout | src/components/effects/Nebula2D.tsx:237-241 | byte `(y * w + x) * 4 + c` holds channel c of pixel (x, y): 255 for red, green and blue, the alpha otherwise |
| Nebula2D.ImageIsImage | src/components/effects/Nebula2D.tsx:237-241 | every pixel of the image holds its four channels |
| Nebula2D.ImageDetermined | src/components/effects/Nebula2D.tsx:205-243 | a buffer in which every pixel holds its four channels is the image |
| Nebula2D.ImageByte | src/components/effects/Nebula2D.tsx:205-243 | every byte of such a buffer is the image's byte |
| Nebula2D.PixelInBounds | src/components/effects/Nebula2D.tsx:237 | the index of a pixel inside the canvas lies inside the buffer |
| Nebula2D.PixelIndexInjective | src/components/effects/Nebula2D.tsx:237 | two pixels never share an index |
| Nebula2D.FbmCall | src/components/effects/Nebula2D.tsx:214-215 | the call computes `FbmValue` |
| Nebula2D.PixelValue | src/components/effects/Nebula2D.tsx:210-231 | the loop body computes the pixel's unclamped value |
| Nebula2D.NoiseSamples | src/components/effects/Nebula2D.tsx:214-231 | the two `fbm` calls, the turbulence and the falloff compute `NoiseValue` |
| Nebula2D.PixelAlpha | src/components/effects/Nebula2D.tsx:234-241 | the stored alpha is the clamped byte of the shade |
| Nebula2D.StorePixel | src/components/effects/Nebula2D.tsx:237-241 | writing one pixel extends the stored prefix by that pixel |
| Nebula2D.RenderRow | src/components/effects/Nebula2D.tsx:209-242 | the inner loop stores row y |
| Nebula2D.RenderMask | src/components/effects/Nebula2D.tsx:205-243 | a new buffer holding exactly the layer's mask |
| Nebula2D.RenderRows | src/components/effects/Nebula2D.tsx:208-243 | the double loop leaves every pixel holding its four channels |
| Nebula2D.Nebula.constructor | src/components/effects/Nebula2D.tsx:120-131 | the noise of seed 42, frame counter 0, the three starting layers and no offscreen canvas |
| Nebula2D.Nebula.Resize | src/components/effects/Nebula2D.tsx:143-153 | the canvas takes the window size, and the offscreen canvas, created on first use, half of it rounded down; the layers and the counter are kept |
| Nebula2D.Nebula.Animate | src/components/effects/Nebula2D.tsx:267-320 | without an offscreen canvas nothing changes; otherwise the counter goes up by one and every layer drifts; a zero-sized offscreen canvas throws, and any other size gets one mask per layer, in new buffers |
| Nebula2D.Nebula.DriftLayers | src/components/effects/Nebula2D.tsx:281-293 | the layers become `DriftAll` of the old layers |
| Nebula2D.RenderLayers | src/components/effects/Nebula2D.tsx:296-298 | mask k is the mask of layer k, in a new buffer |
| SpaceRocket.StartVelocity | src/components/three/SpaceRocket.tsx:24-31 | the start velocity has no z component |
| SpaceRocket.StartVelocityBounded | src/components/three/SpaceRocket.tsx:25-31 | neither start component exceeds the cruising speed, 0.02 on mobile and 0.03 otherwise |
| SpaceRocket.ReflectFactorRange | src/components/three/SpaceRocket.tsx:59 | the reflection factor `0.8 + random * 0.4` lies in [0.8, 1.2) |
| SpaceRocket.BounceXShape | src/components/three/SpaceRocket.tsx:57-64 | an x crossing reverses the x velocity, scaling its size by [0.8, 1.2), kicks the y velocity by at most 0.005 and leaves y and z alone; without a crossing nothing changes |
| SpaceRocket.BounceYShape | src/components/three/SpaceRocket.tsx:66-73 | a y crossing reverses the y velocity, scaling its size by [0.8, 1.2), kicks the x velocity by at most 0.005 and leaves x and z alone; without a crossing nothing changes |
| SpaceRocket.MotionStepInside | src/components/three/SpaceRocket.tsx:49-73 | for non-negative boundaries (a viewport at least 4 units wide and high), after a frame's motion the rocket lies within both boundaries, whatever it did before, and z never moves |
| SpaceRocket.MotionStepNegativeBoundary | src/components/three/SpaceRocket.tsx:49-73 | on an axis whose boundary is negative (a viewport under 4 units), every frame puts the rocket on the mirror line `Sign(x) * boundary`, on the side opposite its advanced position or on the centre line |
| SpaceRocket.RenormaliseShape | src/components/three/SpaceRocket.tsx:75-81 | a velocity with positive measured speed is rescaled to exactly the cruising speed, parallel to the old one and with no component changing sign; otherwise, and for a zero velocity, it is kept; z is kept |
| SpaceRocket.PlanarSpeedSquared | src/components/three/SpaceRocket.tsx:76 | the square of the measured speed is the sum of the squared components |
| SpaceRocket.TargetWobble | src/components/three/SpaceRocket.tsx:92-94 | the x and y wobble of the target rotation stay within 0.05 |
| SpaceRocket.LerpShape | src/components/three/SpaceRocket.tsx:96-100 | each step of the rotation lands between the old value and the target, 0.9 of the old distance from the target, and the target is a fixed point |
| SpaceRocket.LerpConverges | src/components/three/SpaceRocket.tsx:96-100 | toward a fixed target the gap after n frames is 0.9^n of the first one |
| SpaceRocket.ScaleValues | src/components/three/SpaceRocket.tsx:107-117 | the rocket's scale is 0.525 on desktop and 0.2875 on mobile, the exhaust factor `dynamicScale / baseScale` is 1.5 and 1.15, and the multiplier lies between the minimum and maximum scale |
| SpaceRocket.ExhaustScaleRange | src/components/three/SpaceRocket.tsx:119-126 | the flame's x scale lies between 0.6 and 1.4 times the scale multiplier |
| SpaceRocket.MaterialOpacityValue | src/components/three/SpaceRocket.tsx:129-135 | every mesh gets opacity 0.9, inside [0.8, 1] |
| SpaceRocket.Rocket.constructor | src/components/three/SpaceRocket.tsx:16-21 | the refs start at zero, the group at scale 0.3 and the meshes with their declared opacities, before initialisation |
| SpaceRocket.Rocket.Initialize | src/components/three/SpaceRocket.tsx:24-36 | the velocity is the start velocity, the position the origin, the rocket is initialised and nothing else changes |
| SpaceRocket.Rocket.Frame | src/components/three/SpaceRocket.tsx:38-137 | without a group or before initialisation nothing changes; otherwise the position and velocity take one `MotionStep`, the group takes the position, the rotation moves 10% toward the target, and the scale, flame and material opacities are set |
| SpaceRocket.Rocket.Move | src/components/three/SpaceRocket.tsx:48-81 | the position and velocity take one `MotionStep` and nothing else changes |
| SpaceRocket.Rocket.Turn | src/components/three/SpaceRocket.tsx:88-100 | the target rotation follows the heading and the wobble, and the current rotation takes one interpolation step toward it |
| SpaceRocket.Rocket.SetOpacities | src/components/three/SpaceRocket.tsx:129-135 | every mesh becomes transparent with opacity 0.9 and nothing else changes |

## Left out

- Canvas drawing is not modelled, because it is rendering through browser APIs no proof can observe. This covers every `ctx.*` call: gradients, arcs, `quadraticCurveTo`, composite modes, `drawImage` and `putImageData`. `LightNebula2D` records what it would draw as `Picture` values, and `Nebula2D` the bytes of its `ImageData` mask, but not how they are painted.
- Three.js objects and the GPU side are not modelled, because they are library and driver code. This covers `THREE.Color`, `BufferGeometry`, mesh traversal and `TextureLoader`, the GLSL shader strings of `createStarMaterial` and of the star fields, and the JSX geometry of the rocket. Only the uniforms and buffers that the TypeScript writes are modelled.
- The numeric value of `noise2D` is not bounded. The gradient contributions use `Math.sqrt(3)` constants and a quartic falloff, which exact reals cannot settle. The table lookups and index bounds are proved.
- `Nebula2D.FbmSumBounded` and `Nebula2D.FbmNormalised` take the noise bound, a value in [-1, 1], as a hypothesis, for that reason.
- `Math.sin`, `cos`, `sqrt`, `acos`, `atan2` and `pow` are uninterpreted. The proofs use only the range facts of `Js.Sane`, so no orbit position, camera path coordinate or meteor angle is computed.
- IEEE-754 doubles are exact reals and integers here, so rounding error, overflow to Infinity and `-0` are not modelled.
  - Where JavaScript semantics matter, they are written out: `%` on negative dividends (`Js.JsMod`), 0/0 (`Js.Div`), `& 255` on any integer cell coordinate, negative ones included (Euclidean `% 256`), `Uint8ClampedArray` stores (`Js.ToUint8Clamped`) and `Float32Array` lengths (`OptimizedStarField.Float32Length`).
- Host scheduling and events are not modelled, because they are host I/O. This covers `requestAnimationFrame`, `cancelAnimationFrame`, `setTimeout`, and window and pointer listeners. The handlers are methods that take the event's time and values as parameters, and the order of calls is the caller's.
- `Math.random()`, `Date.now()`, `performance.now()`, `performance.memory` and the three.js clock are inputs, because they are nondeterministic or host state.
- The early returns of the 2D effects are not modelled: on `prefersReducedMotion`, on a missing canvas and on a null `getContext`. The component then renders no animation, so the model starts once a context exists. Reduced motion is modelled where it changes values (`Responsive`, `StarField`, `OptimizedStarField`).
- React plumbing is outside the model, because it is framework behaviour:
  - when React re-renders: `setIsInitialized` is taken as immediate, and the `StarField` renders that follow a width change or `setStarCount` are methods (`ViewportChanged`, `Rerender`) whose order is the caller's; the material memo that depends on reduced motion is not rebuilt;
  - context providers and the throw in `usePerformance` and `useResponsive`;
  - `src/hooks/useScrollProgress.ts`, `src/hooks/useViewportSize.ts` and `useReducedMotion`.
- `cn` is not modelled: it merges CSS class names and no effect depends on it.
- `getViewportSize` is not modelled: it only reads `window`, and the sizes are parameters instead.
- `debounce` is not modelled, because its behaviour is timer scheduling.
- The `bounds` prop of `SpaceRocket` is not modelled, because the component never reads it: the edges come from the viewport.
- Pure UI and content components are outside the model: the sections, navigation, `PerformanceMonitor`, the CSS-animated `MeteorShower.tsx`, `TestCube`, the loading spinner, the page and layout files, the type declarations and `next.config.ts`.
- `SpaceRocket.RenormaliseShape`: the speed is restored on condition that the measured speed is positive, rather than that the velocity is non-zero. The two agree only when `sqrt` is exact on a positive sum of squares.
- `SpaceRocket.MotionStepInside`: holds only for non-negative boundaries. On a viewport under 4 units wide or high, a boundary `viewport / 2 - 2` is negative. Every frame then counts as a crossing: the position is put at `Sign(x) * boundary`, on the mirrored side, and the velocity is reversed, so the rocket is not kept inside. `SpaceRocket.MotionStepNegativeBoundary` states that behaviour.
- `MeteorShower2D.MaxLife`: requires a positive speed, which every spawned meteor has. The source would divide by zero otherwise.
- `MeteorShower2D.Frame` and `MeteorShower2D.StepAll`: their own `ensures` state only that the pool keeps its size. What a frame does to each slot is stated separately, by `MeteorShower2D.FrameKeepsWellFormed` and `MeteorShower2D.StepShape`.
- `LightNebula2D.LightNebula.Resize`: requires a non-empty window. On a zero-size window the source computes `sizeInfluence` as NaN and sets every cloud's orbit to NaN.
- `Nebula2D.SimplexNoise.constructor`: requires `seed * 256 + 31 >= 0`. Both seeds the program uses satisfy it: `Math.random()` and 42. A negative seed would make the first `%` negative and index `p` out of range.
