/** The layered noise nebula of src/components/effects/Nebula2D.tsx: the
    seeded `SimplexNoise` permutation tables, the table lookups of
    `noise2D`, the `fbm` octave loop, the noise mask written into an
    `ImageData` buffer at half resolution, and the per-frame layer drift. */
module Nebula2D {
  import opened Js

  // ------------------------------------------------------------ permutation

  /** The table `p` starts from: `p[k] = k` for k < 256. */
  function Identity(): (p: seq<int>)
    ensures |p| == 256 && forall k :: 0 <= k < 256 ==> p[k] == k
  {
    seq(256, k => k)
  }

  /** The state after one step of the shuffle: `n = (n + 31) % 256`. */
  function NextState(n: real): (r: real)
    requires 0.0 <= n + 31.0
    ensures 0.0 <= r < 256.0
  {
    JsMod(n + 31.0, 256.0)
  }

  /** `Math.floor((n / 256) * (i + 1))`, the swap partner of position `i`. */
  function SwapIndex(n: real, i: nat): int {
    Floor((n / 256.0) * (i as real + 1.0))
  }

  /** With the state in [0, 256) the partner is one of positions 0 .. i, so
      the swap stays inside the table. */
  lemma SwapIndexRange(n: real, i: nat)
    requires 0.0 <= n < 256.0
    ensures 0 <= SwapIndex(n, i) <= i
  {
    SwapDrawBound(n, i);
  }

  /** The scaled draw `(n / 256) * (i + 1)` lies in [0, i + 1). */
  lemma SwapDrawBound(n: real, i: nat)
    requires 0.0 <= n < 256.0
    ensures 0.0 <= (n / 256.0) * (i as real + 1.0) < i as real + 1.0
  {
    MulNonneg(n, i as real);
    MulMonotone(n, 256.0, i as real, i as real);
  }

  /** `p` with positions `i` and `j` exchanged. */
  function Swap(p: seq<int>, i: nat, j: nat): (r: seq<int>)
    requires i < |p| && j < |p|
    ensures |r| == |p|
  {
    p[i := p[j]][j := p[i]]
  }

  lemma SwapPermutes(p: seq<int>, i: nat, j: nat)
    requires i < |p| && j < |p|
    ensures multiset(Swap(p, i, j)) == multiset(p)
  {
  }

  /** Every entry lies in [0, 256). */
  ghost predicate Bytes(p: seq<int>) {
    forall k :: 0 <= k < |p| ==> 0 <= p[k] < 256
  }

  /** The steps of the shuffle loop for positions `i` down to 1, starting
      from table `p` and state `n` (the value before position `i`'s step). */
  function ShuffleFrom(p: seq<int>, n: real, i: nat): (r: seq<int>)
    requires |p| == 256 && i < 256 && 0.0 <= n + 31.0
    ensures |r| == 256
    decreases i
  {
    if i == 0 then p
    else
      var n' := NextState(n);
      SwapIndexRange(n', i);
      var j := SwapIndex(n', i);
      ShuffleFrom(Swap(p, i, j), n', i - 1)
  }

  /** Every step is a swap inside the table, so the steps hold the same
      entries they start from, and a table of bytes stays one. */
  lemma {:induction false} ShuffleFromPermutes(p: seq<int>, n: real, i: nat)
    requires |p| == 256 && i < 256 && 0.0 <= n + 31.0
    ensures multiset(ShuffleFrom(p, n, i)) == multiset(p)
    ensures Bytes(p) ==> Bytes(ShuffleFrom(p, n, i))
    decreases i
  {
    if i > 0 {
      var n' := NextState(n);
      SwapIndexRange(n', i);
      var j := SwapIndex(n', i);
      SwapPermutes(p, i, j);
      ShuffleFromPermutes(Swap(p, i, j), n', i - 1);
    }
  }

  /** The table `p` the constructor builds for `seed`. Seeds come from
      `Math.random()` or are the constant 42, so the first state is never
      below -31. */
  function Shuffle(seed: real): (p: seq<int>)
    requires 0.0 <= seed * 256.0 + 31.0
    ensures |p| == 256
  {
    var id := Identity();
    ShuffleFrom(id, seed * 256.0, |id| - 1)
  }

  /** The table of every seed is a permutation of 0 .. 255. */
  lemma ShufflePermutation(seed: real)
    requires 0.0 <= seed * 256.0 + 31.0
    ensures multiset(Shuffle(seed)) == multiset(Identity())
    ensures forall k :: 0 <= k < 256 ==> 0 <= Shuffle(seed)[k] < 256
  {
    var id := Identity();
    assert Bytes(id);
    ShuffleFromPermutes(id, seed * 256.0, |id| - 1);
  }

  /** `perm[i] = p[i & 255]` for i < 512. */
  function PermTable(p: seq<int>): (perm: seq<int>)
    requires |p| == 256
    ensures |perm| == 512
  {
    seq(512, i requires 0 <= i < 512 => p[i % 256])
  }

  /** `perm12[i] = perm[i] % 12`. */
  function Perm12Table(perm: seq<int>): (perm12: seq<int>)
    ensures |perm12| == |perm|
  {
    seq(|perm|, i requires 0 <= i < |perm| => perm[i] % 12)
  }

  /** The shape `noise2D` relies on: 512 entries each, `perm` values in
      [0, 256) and `perm12` values in [0, 12). */
  ghost predicate Tables(perm: seq<int>, perm12: seq<int>) {
    && |perm| == 512 && |perm12| == 512
    && (forall i :: 0 <= i < 512 ==> 0 <= perm[i] < 256)
    && (forall i :: 0 <= i < 512 ==> 0 <= perm12[i] < 12)
  }

  /** The tables of every seed: the second half of `perm` repeats the first,
      `perm12` is `perm` mod 12, and both have the shape `noise2D` needs. */
  lemma TablesShape(seed: real)
    requires 0.0 <= seed * 256.0 + 31.0
    ensures forall i :: 0 <= i < 256 ==> PermTable(Shuffle(seed))[i + 256] == PermTable(Shuffle(seed))[i]
    ensures forall i :: 0 <= i < 512 ==> PermTable(Shuffle(seed))[i] == Shuffle(seed)[i % 256]
    ensures forall i :: 0 <= i < 512 ==>
      Perm12Table(PermTable(Shuffle(seed)))[i] == PermTable(Shuffle(seed))[i] % 12
    ensures Tables(PermTable(Shuffle(seed)), Perm12Table(PermTable(Shuffle(seed))))
  {
    ShufflePermutation(seed);
    var p := Shuffle(seed);
    var perm := PermTable(p);
    forall i | 0 <= i < 512
      ensures perm[i] == p[i % 256] && 0 <= perm[i] < 256
    {
    }
    forall i | 0 <= i < 256
      ensures perm[i + 256] == perm[i]
    {
      assert (i + 256) % 256 == i % 256;
    }
  }

  // ------------------------------------------------------------------ noise

  /** `grad3`: the 12 gradient directions. */
  const Grad3: seq<(int, int, int)> := [
    (1, 1, 0), (-1, 1, 0), (1, -1, 0), (-1, -1, 0),
    (1, 0, 1), (-1, 0, 1), (1, 0, -1), (-1, 0, -1),
    (0, 1, 1), (0, -1, 1), (0, 1, -1), (0, -1, -1)]

  /** The table positions `noise2D` reads for skewed cell (i, j); `upper`
      is `x0 > y0`, which picks the middle corner (1, 0) over (0, 1). */
  datatype Lookup = Lookup(ii: int, jj: int, k0: int, k1: int, k2: int, gi0: int, gi1: int, gi2: int)

  /** `ii = i & 255`, `jj = j & 255` and the three `perm12` reads. For any
      cell, `ii` and `jj` lie in [0, 255], every `perm` and `perm12` index
      is below 512 and every gradient index below 12. */
  function CellLookup(perm: seq<int>, perm12: seq<int>, i: int, j: int, upper: bool): (r: Lookup)
    requires Tables(perm, perm12)
    ensures 0 <= r.ii <= 255 && 0 <= r.jj <= 255
    ensures r.ii == i % 256 && r.jj == j % 256
    ensures 0 <= r.k0 < 512 && 0 <= r.k1 < 512 && 0 <= r.k2 < 512
    ensures r.jj + 1 < 512
    ensures 0 <= r.gi0 < |Grad3| && 0 <= r.gi1 < |Grad3| && 0 <= r.gi2 < |Grad3|
  {
    var i1 := if upper then 1 else 0;
    var j1 := if upper then 0 else 1;
    var ii := i % 256;
    var jj := j % 256;
    var k0 := ii + perm[jj];
    var k1 := ii + i1 + perm[jj + j1];
    var k2 := ii + 1 + perm[jj + 1];
    Lookup(ii, jj, k0, k1, k2, perm12[k0], perm12[k1], perm12[k2])
  }

  /** The contribution of one simplex corner: `t^4 * dot(g, x, y)` where
      `t = 0.5 - x^2 - y^2` is not negative, otherwise 0. */
  function Corner(g: (int, int, int), x: real, y: real): real {
    var t := 0.5 - x * x - y * y;
    if t >= 0.0 then (t * t) * (t * t) * (g.0 as real * x + g.1 as real * y) else 0.0
  }

  // ------------------------------------------------------------ fbm helpers

  function Pow(b: real, k: nat): real {
    if k == 0 then 1.0 else Pow(b, k - 1) * b
  }

  /** Multiplying the power `v = b^k` by `b` gives the next power. */
  lemma PowStep(b: real, k: nat, v: real)
    requires v == Pow(b, k)
    ensures v * b == Pow(b, k + 1)
  {
  }

  /** `maxValue` after k octaves: the sum of `persistence^i` for i < k. */
  function GeomSum(p: real, k: nat): real {
    if k == 0 then 0.0 else GeomSum(p, k - 1) + Pow(p, k - 1)
  }

  lemma {:induction false} PowNonneg(b: real, k: nat)
    requires 0.0 <= b
    ensures 0.0 <= Pow(b, k)
  {
    if k > 0 {
      PowNonneg(b, k - 1);
      MulNonneg(Pow(b, k - 1), b);
    }
  }

  /** With a non-negative persistence the amplitudes of one or more octaves
      sum to at least 1, so `fbm` never divides by zero. */
  lemma {:induction false} GeomSumAtLeastOne(p: real, k: nat)
    requires 0.0 <= p && 1 <= k
    ensures 1.0 <= GeomSum(p, k)
  {
    if k > 1 {
      GeomSumAtLeastOne(p, k - 1);
      PowNonneg(p, k - 1);
    }
  }

  /** The closed form of the amplitude sum: `(1 - p) * sum = 1 - p^k`. */
  lemma {:induction false} GeomSumClosed(p: real, k: nat)
    ensures (1.0 - p) * GeomSum(p, k) == 1.0 - Pow(p, k)
  {
    if k > 0 {
      GeomSumClosed(p, k - 1);
      assert (1.0 - p) * GeomSum(p, k) == (1.0 - p) * GeomSum(p, k - 1) + (1.0 - p) * Pow(p, k - 1);
    }
  }

  lemma {:induction false} PowOne(k: nat)
    ensures Pow(1.0, k) == 1.0
  {
    if k > 0 {
      PowOne(k - 1);
    }
  }

  /** The first loop of the constructor: `p[i] = i`. */
  method IdentityTable() returns (p: array<int>)
    ensures fresh(p) && p[..] == Identity()
  {
    p := new int[256];
    for k := 0 to 256
      invariant forall q :: 0 <= q < k ==> p[q] == q
    {
      p[k] := k;
    }
  }

  /** The seeded swap loop over positions 255 down to 1. */
  method ShuffleTable(p: array<int>, seed: real)
    requires p[..] == Identity() && 0.0 <= seed * 256.0 + 31.0
    modifies p
    ensures p[..] == Shuffle(seed)
  {
    var n := seed * 256.0;
    var i: nat := p.Length - 1;
    while i > 0
      invariant p.Length == 256 && i < 256 && 0.0 <= n + 31.0
      invariant ShuffleFrom(p[..], n, i) == Shuffle(seed)
      decreases i
    {
      n := ShuffleRound(p, n, i);
      i := i - 1;
    }
  }

  /** One round of the swap loop at position `i`: the next state, its swap
      partner and the swap, which leaves the rest of the shuffle to do. */
  method ShuffleRound(p: array<int>, n: real, i: nat) returns (n': real)
    requires p.Length == 256 && 0 < i < 256 && 0.0 <= n + 31.0
    modifies p
    ensures 0.0 <= n' + 31.0
    ensures ShuffleFrom(p[..], n', i - 1) == ShuffleFrom(old(p[..]), n, i)
  {
    ghost var before := p[..];
    n' := NextState(n);
    var j := SwapIndex(n', i);
    SwapStep(p, n', i, j);
    ShuffleStep(before, n, i, j);
  }

  lemma ShuffleStep(p: seq<int>, n: real, i: nat, j: int)
    requires |p| == 256 && 0 < i < 256 && 0.0 <= n + 31.0
    requires j == SwapIndex(NextState(n), i) && 0 <= j <= i
    ensures ShuffleFrom(p, n, i) == ShuffleFrom(Swap(p, i, j), NextState(n), i - 1)
  {
  }

  /** One swap `[p[i], p[j]] = [p[j], p[i]]` of the loop. */
  method SwapStep(p: array<int>, n: real, i: nat, j: int)
    requires p.Length == 256 && 0 < i < 256 && 0.0 <= n < 256.0 && j == SwapIndex(n, i)
    modifies p
    ensures 0 <= j <= i && p[..] == Swap(old(p[..]), i, j)
  {
    SwapIndexRange(n, i);
    var t := p[i];
    p[i] := p[j];
    p[j] := t;
  }

  /** The last loop of the constructor: `perm[i] = p[i & 255]` and
      `perm12[i] = perm[i] % 12` for i < 512. */
  method FillTables(p: array<int>) returns (perm: seq<int>, perm12: seq<int>)
    requires p.Length == 256
    ensures perm == PermTable(p[..]) && perm12 == Perm12Table(perm)
  {
    var permArr := new int[512];
    var perm12Arr := new int[512];
    for k := 0 to 512
      invariant forall q :: 0 <= q < k ==> permArr[q] == p[q % 256]
      invariant forall q :: 0 <= q < k ==> perm12Arr[q] == permArr[q] % 12
    {
      permArr[k] := p[k % 256];
      perm12Arr[k] := permArr[k] % 12;
    }
    perm := permArr[..];
    perm12 := perm12Arr[..];
  }

  /** The weighted sum of the first k samples `f(i)`, sample i weighted by
      `p^i`. */
  function WeightedSum(f: nat -> real, p: real, k: nat): real {
    if k == 0 then 0.0 else WeightedSum(f, p, k - 1) + Pow(p, k - 1) * f(k - 1)
  }

  /** The next weighted sum adds sample i times its weight `a = p^i`. */
  lemma WeightedNext(f: nat -> real, p: real, i: nat, a: real, sample: real)
    requires a == Pow(p, i) && sample == f(i)
    ensures WeightedSum(f, p, i + 1) == WeightedSum(f, p, i) + a * sample
  {
  }

  /** Adding a sample in [-1, 1] with weight `a >= 0` widens the bound by
      `a`. */
  lemma UnitStep(rest: real, a: real, sample: real, g: real)
    requires -g <= rest <= g && 0.0 <= a && -1.0 <= sample <= 1.0
    ensures -(g + a) <= rest + a * sample <= g + a
  {
    MulNonneg(a, 1.0 - sample);
    MulNonneg(a, sample + 1.0);
  }

  lemma WeightedStep(f: nat -> real, p: real, k: nat)
    requires 0.0 <= p && 0 < k
    requires -1.0 <= f(k - 1) <= 1.0
    requires -GeomSum(p, k - 1) <= WeightedSum(f, p, k - 1) <= GeomSum(p, k - 1)
    ensures -GeomSum(p, k) <= WeightedSum(f, p, k) <= GeomSum(p, k)
  {
    PowNonneg(p, k - 1);
    UnitStep(WeightedSum(f, p, k - 1), Pow(p, k - 1), f(k - 1), GeomSum(p, k - 1));
  }

  /** Samples in [-1, 1] give a weighted sum within the weight sum. */
  lemma {:induction false} WeightedSumBounded(f: nat -> real, p: real, k: nat)
    requires 0.0 <= p
    requires forall i :: -1.0 <= f(i) <= 1.0
    ensures -GeomSum(p, k) <= WeightedSum(f, p, k) <= GeomSum(p, k)
  {
    if k > 0 {
      WeightedSumBounded(f, p, k - 1);
      WeightedStep(f, p, k);
    }
  }

  /** Dividing by the weight sum of one or more samples in [-1, 1] gives a
      value in [-1, 1]. */
  lemma WeightedMeanBounded(f: nat -> real, p: real, k: nat)
    requires 0.0 <= p && 1 <= k
    requires forall i :: -1.0 <= f(i) <= 1.0
    ensures 1.0 <= GeomSum(p, k)
    ensures -1.0 <= WeightedSum(f, p, k) / GeomSum(p, k) <= 1.0
  {
    WeightedSumBounded(f, p, k);
    GeomSumAtLeastOne(p, k);
    UnitQuotient(WeightedSum(f, p, k), GeomSum(p, k));
  }

  lemma UnitQuotient(s: real, g: real)
    requires 0.0 < g && -g <= s <= g
    ensures -1.0 <= s / g <= 1.0
  {
  }

  // ------------------------------------------------------------ the noise

  /** `noise2D(x, y)` over the tables: the skewed cell of (x, y), its three
      corner contributions taken from the gradient table, scaled by 70. */
  function Noise2DAt(perm: seq<int>, perm12: seq<int>, m: Math, x: real, y: real): real
    requires Tables(perm, perm12)
  {
    var sqrt3 := m.sqrt(3.0);
    var f2 := 0.5 * (sqrt3 - 1.0);
    var g2 := (3.0 - sqrt3) / 6.0;
    var s := (x + y) * f2;
    var i := Floor(x + s);
    var j := Floor(y + s);
    var t := (i + j) as real * g2;
    var x0 := x - (i as real - t);
    var y0 := y - (j as real - t);
    var upper := x0 > y0;
    var i1 := if upper then 1.0 else 0.0;
    var j1 := if upper then 0.0 else 1.0;
    var x1 := x0 - i1 + g2;
    var y1 := y0 - j1 + g2;
    var x2 := x0 - 1.0 + 2.0 * g2;
    var y2 := y0 - 1.0 + 2.0 * g2;
    var c := CellLookup(perm, perm12, i, j, upper);
    70.0 * (Corner(Grad3[c.gi0], x0, y0) + Corner(Grad3[c.gi1], x1, y1) + Corner(Grad3[c.gi2], x2, y2))
  }

  /** The seeded noise generator: its two lookup tables never change after
      construction. */
  class SimplexNoise {
    const perm: seq<int>
    const perm12: seq<int>
    /** `noise2D`, for each `Math` object: the formula over this instance's
        tables, fixed when they are. */
    const noise2D: Math -> (real, real) -> real

    ghost predicate Valid() {
      Tables(perm, perm12)
    }

    /** `noise2D` computes the formula over `perm` and `perm12`. */
    ghost predicate NoiseFormula() {
      Tables(perm, perm12) &&
      forall m: Math, x: real, y: real :: noise2D(m)(x, y) == Noise2DAt(perm, perm12, m, x, y)
    }

    /** Fills `p` with the identity, runs the seeded swap loop from position
        255 down to 1, and writes `perm` and `perm12` from it. */
    constructor (seed: real)
      requires 0.0 <= seed * 256.0 + 31.0
      ensures perm == PermTable(Shuffle(seed))
      ensures perm12 == Perm12Table(perm)
      ensures Valid() && NoiseFormula()
    {
      var p := IdentityTable();
      ShuffleTable(p, seed);
      var permTable, perm12Table := FillTables(p);
      TablesShape(seed);
      perm := permTable;
      perm12 := perm12Table;
      noise2D := (m: Math) => (x: real, y: real) => Noise2DAt(permTable, perm12Table, m, x, y);
    }

    /** The noise at (x, y) scaled by `frequency`. */
    function Sample(m: Math, x: real, y: real, frequency: real): real
    {
      noise2D(m)(x * frequency, y * frequency)
    }

    /** The sample sequence `fbm` weighs: sample i at frequency
        `lacunarity^i`. */
    function Samples(m: Math, x: real, y: real, lacunarity: real): nat -> real
    {
      (i: nat) => Sample(m, x, y, Pow(lacunarity, i))
    }

    /** `value` after k octaves: the samples at frequency `lacunarity^i`
        weighted by amplitude `persistence^i`, summed over i < k. */
    function FbmSum(m: Math, x: real, y: real, k: nat, persistence: real, lacunarity: real): real
    {
      WeightedSum(Samples(m, x, y, lacunarity), persistence, k)
    }

    /** `fbm`: after the loop, amplitude, frequency, `maxValue` and `value`
        are the k-octave power, power, amplitude sum and weighted noise sum;
        the result is their quotient, NaN for zero octaves. */
    method Fbm(m: Math, x: real, y: real, octaves: nat, persistence: real, lacunarity: real)
      returns (r: Number)
      ensures r == Div(FbmSum(m, x, y, octaves, persistence, lacunarity), GeomSum(persistence, octaves))
      ensures 1 <= octaves && 0.0 <= persistence ==>
        r == Finite(FbmValue(this, m, x, y, octaves, persistence, lacunarity))
    {
      var value := 0.0;
      var amplitude := 1.0;
      var frequency := 1.0;
      var maxValue := 0.0;
      for i := 0 to octaves
        invariant amplitude == Pow(persistence, i)
        invariant frequency == Pow(lacunarity, i)
        invariant maxValue == GeomSum(persistence, i)
        invariant value == FbmSum(m, x, y, i, persistence, lacunarity)
      {
        var sample := Sample(m, x, y, frequency);
        WeightedNext(Samples(m, x, y, lacunarity), persistence, i, amplitude, sample);
        PowStep(persistence, i, amplitude);
        PowStep(lacunarity, i, frequency);
        value := value + amplitude * sample;
        maxValue := maxValue + amplitude;
        amplitude := amplitude * persistence;
        frequency := frequency * lacunarity;
      }
      r := Div(value, maxValue);
    }
  }

  /** With no octaves `fbm` is 0 / 0, which is NaN. */
  lemma FbmNoOctaves(noise: SimplexNoise, m: Math, x: real, y: real, p: real, l: real)
    ensures Div(noise.FbmSum(m, x, y, 0, p, l), GeomSum(p, 0)).NaN?
  {
  }

  /** The value `fbm` returns for one or more octaves and a non-negative
      persistence, where the division is by a positive amplitude sum. */
  function FbmValue(noise: SimplexNoise, m: Math, x: real, y: real, octaves: nat, p: real, l: real): (r: real)
    requires 1 <= octaves && 0.0 <= p
    ensures Div(noise.FbmSum(m, x, y, octaves, p, l), GeomSum(p, octaves)) == Finite(r)
  {
    GeomSumAtLeastOne(p, octaves);
    noise.FbmSum(m, x, y, octaves, p, l) / GeomSum(p, octaves)
  }

  /** When the noise lies in [-1, 1] everywhere, the weighted sum of k
      octaves lies within the amplitude sum. */
  lemma FbmSumBounded(noise: SimplexNoise, m: Math, x: real, y: real, k: nat, p: real, l: real)
    requires 0.0 <= p
    requires forall u, v :: -1.0 <= noise.noise2D(m)(u, v) <= 1.0
    ensures -GeomSum(p, k) <= noise.FbmSum(m, x, y, k, p, l) <= GeomSum(p, k)
  {
    SamplesBounded(noise, m, x, y, l);
    WeightedSumBounded(noise.Samples(m, x, y, l), p, k);
  }

  /** `fbm` normalises by the amplitude sum: when the noise lies in [-1, 1]
      everywhere, so does its result. */
  lemma FbmNormalised(noise: SimplexNoise, m: Math, x: real, y: real, k: nat, p: real, l: real)
    requires 1 <= k && 0.0 <= p
    requires forall u, v :: -1.0 <= noise.noise2D(m)(u, v) <= 1.0
    ensures -1.0 <= FbmValue(noise, m, x, y, k, p, l) <= 1.0
  {
    SamplesBounded(noise, m, x, y, l);
    WeightedMeanBounded(noise.Samples(m, x, y, l), p, k);
  }

  lemma SamplesBounded(noise: SimplexNoise, m: Math, x: real, y: real, l: real)
    requires forall u, v :: -1.0 <= noise.noise2D(m)(u, v) <= 1.0
    ensures forall i :: -1.0 <= noise.Samples(m, x, y, l)(i) <= 1.0
  {
    forall i: nat
      ensures -1.0 <= noise.Samples(m, x, y, l)(i) <= 1.0
    {
      assert noise.Samples(m, x, y, l)(i) == noise.Sample(m, x, y, Pow(l, i));
    }
  }

  /** With persistence 1 every octave weighs the same: the amplitude sum is
      the octave count. */
  lemma {:induction false} GeomSumUnit(k: nat)
    ensures GeomSum(1.0, k) == k as real
  {
    if k > 0 {
      GeomSumUnit(k - 1);
      PowOne(k - 1);
    }
  }

  // ------------------------------------------------------------ the layers

  /** One nebula layer: its drift offset, noise scale, rotation, opacity and
      colour mix. */
  datatype Layer = Layer(offsetX: real, offsetY: real, scale: real, rotation: real, opacity: real, colorMix: real)

  /** The three layers the component starts with. */
  const InitialLayers: seq<Layer> := [
    Layer(0.0, 0.0, 0.002, 0.0, 0.15, 0.0),
    Layer(100.0, 100.0, 0.004, 0.0, 0.1, 0.3),
    Layer(200.0, 200.0, 0.008, 0.0, 0.05, 0.7)
  ]

  /** The opacity the pulse of layer `index` swings around. */
  function BaseOpacity(index: nat): real {
    if index == 0 then 0.15 else if index == 1 then 0.1 else 0.05
  }

  /** The starting layers are unrotated, start at their base opacities, and
      the finer the noise scale the lighter the layer. */
  lemma InitialLayersShape()
    ensures |InitialLayers| == 3
    ensures forall i :: 0 <= i < 3 ==>
      InitialLayers[i].rotation == 0.0 && InitialLayers[i].opacity == BaseOpacity(i)
    ensures forall i, j :: 0 <= i < j < 3 ==>
      InitialLayers[i].scale < InitialLayers[j].scale && BaseOpacity(j) < BaseOpacity(i)
  {
  }

  /** One frame's update of layer `index` at frame counter `time`: an offset
      drift along (sin, cos) of step 0.1, a fixed rotation step, and an
      opacity pulse around the base opacity. */
  function Drift(m: Math, layer: Layer, index: nat, time: real): Layer {
    var phase := time * 0.0001 + index as real;
    var pulseFactor := m.sin(time * 0.0003 + index as real * PI / 3.0) * 0.1;
    var baseOpacity := BaseOpacity(index);
    layer.(offsetX := layer.offsetX + m.sin(phase) * 0.1,
           offsetY := layer.offsetY + m.cos(phase) * 0.1,
           rotation := layer.rotation + 0.00005 * (index as real + 1.0),
           opacity := baseOpacity + pulseFactor * baseOpacity)
  }

  /** The drift moves each offset by at most 0.1, turns layer k by
      `0.00005 * (k + 1)`, keeps scale and colour mix, and sets the opacity
      to `base * (1 + pulse)` with `|pulse| <= 0.1`, whatever it was before. */
  lemma DriftShape(m: Math, layer: Layer, other: Layer, index: nat, time: real)
    requires Sane(m)
    ensures var d := Drift(m, layer, index, time);
      && -0.1 <= d.offsetX - layer.offsetX <= 0.1
      && -0.1 <= d.offsetY - layer.offsetY <= 0.1
      && d.rotation == layer.rotation + 0.00005 * (index as real + 1.0)
      && d.scale == layer.scale && d.colorMix == layer.colorMix
      && 0.9 * BaseOpacity(index) <= d.opacity <= 1.1 * BaseOpacity(index)
      && d.opacity == Drift(m, other, index, time).opacity
  {
    var phase := time * 0.0001 + index as real;
    var pulse := time * 0.0003 + index as real * PI / 3.0;
    assert -1.0 <= m.sin(phase) <= 1.0 && -1.0 <= m.cos(phase) <= 1.0;
    assert -1.0 <= m.sin(pulse) <= 1.0;
  }

  /** The `forEach` over the layers: layer k drifts with index k. */
  function DriftAll(m: Math, layers: seq<Layer>, time: real): (r: seq<Layer>)
    ensures |r| == |layers|
    ensures forall k :: 0 <= k < |r| ==> r[k] == Drift(m, layers[k], k, time)
  {
    seq(|layers|, k requires 0 <= k < |layers| => Drift(m, layers[k], k, time))
  }

  /** `Math.floor(w / 2)` for a canvas dimension. */
  function Half(w: nat): (r: nat)
    ensures r == Floor(w as real / 2.0)
    ensures 2 * r <= w < 2 * r + 2
  {
    w / 2
  }

  // ------------------------------------------------------------ the mask

  /** The arithmetic of one mask pixel once its three noise samples are
      known: the two fbm values mixed and normalised, the turbulence added,
      and the result scaled by the radial falloff, itself modulated by the
      first fbm value. `dx` and `dy` are the pixel's offsets from the
      centre as fractions of the canvas size. */
  function Combine(m: Math, noise1: real, noise2: real, turbulenceSample: real, dx: real, dy: real): real {
    var value := (noise1 + 0.5 * noise2) / 1.5;
    var turbulence := Abs(turbulenceSample) * 0.2;
    var distance := m.sqrt(dx * dx + dy * dy);
    var falloff := 1.0 - m.pow(distance * 1.4, 2.0);
    (value + turbulence) * Max(0.0, falloff + noise1 * 0.3)
  }

  /** The octave counts of the base and the detail noise. */
  function BaseOctaves(): nat { 4 }
  function DetailOctaves(): nat { 2 }

  /** A pixel coordinate's noise coordinate: its offset from the centre,
      shifted by the layer offset and scaled by the layer scale. */
  function NoiseCoordinate(x: nat, center: real, offset: real, scale: real): real {
    (x as real - center + offset) * scale
  }

  /** A pixel coordinate's offset from the centre as a fraction of the
      canvas size. */
  function CenterFraction(x: nat, center: real, size: nat): real
    requires 0 < size
  {
    (x as real - center) / size as real
  }

  /** The detail noise's coordinate: twice the base coordinate, shifted
      by -100. */
  function DetailCoordinate(c: real): real {
    c * 2.0 - 100.0
  }

  /** The unclamped value at noise coordinates (nx, ny) for a pixel at
      offsets (dx, dy) from the centre: the base fbm of four octaves, the
      detail fbm of two octaves at twice the coordinates shifted by -100,
      and the turbulence sample at five times the coordinates. */
  function NoiseValue(noise: SimplexNoise, m: Math, nx: real, ny: real, dx: real, dy: real): real {
    Combine(m,
      FbmValue(noise, m, nx, ny, BaseOctaves(), 0.5, 2.0),
      FbmValue(noise, m, DetailCoordinate(nx), DetailCoordinate(ny), DetailOctaves(), 0.7, 3.0),
      noise.noise2D(m)(nx * 5.0, ny * 5.0),
      dx, dy)
  }

  /** The unclamped value of pixel (x, y) of a `w` x `h` mask for `layer`:
      the noise is sampled at the pixel's offset from the centre, shifted by
      the layer offset and scaled by the layer scale. */
  function RawValue(noise: SimplexNoise, m: Math, layer: Layer, w: nat, h: nat, x: nat, y: nat): real
    requires 0 < w && 0 < h
  {
    var centerX := w as real / 2.0;
    var centerY := h as real / 2.0;
    NoiseValue(noise, m,
      NoiseCoordinate(x, centerX, layer.offsetX, layer.scale),
      NoiseCoordinate(y, centerY, layer.offsetY, layer.scale),
      CenterFraction(x, centerX, w),
      CenterFraction(y, centerY, h))
  }

  /** The alpha a pixel value turns into: clamped to [0, 1], raised to the
      power 1.5 for contrast, and scaled by 255 and the layer opacity. */
  function Shade(m: Math, value: real, opacity: real): real {
    Level(m.pow(Max(0.0, Min(1.0, value)), 1.5), opacity)
  }

  /** A contrast-adjusted value in [0, 1] as a byte level at `opacity`. */
  function Level(v: real, opacity: real): real {
    v * 255.0 * opacity
  }

  /** The alpha lies between 0 and `255 * opacity`, and clamping the value
      first changes nothing. */
  lemma ShadeRange(m: Math, value: real, opacity: real)
    requires Sane(m) && 0.0 <= opacity
    ensures 0.0 <= Shade(m, value, opacity) <= 255.0 * opacity
    ensures Shade(m, Max(0.0, Min(1.0, value)), opacity) == Shade(m, value, opacity)
  {
    var c := Max(0.0, Min(1.0, value));
    assert Max(0.0, Min(1.0, c)) == c;
    var p := m.pow(c, 1.5);
    assert 0.0 <= p <= 1.0;
    LevelRange(p, opacity);
  }

  /** A level in [0, 1] gives an alpha between 0 and `255 * opacity`. */
  lemma LevelRange(v: real, opacity: real)
    requires 0.0 <= v <= 1.0 && 0.0 <= opacity
    ensures 0.0 <= Level(v, opacity) <= 255.0 * opacity
  {
    var a := v * 255.0;
    assert 0.0 <= a <= 255.0;
    MulMonotone(0.0, a, 0.0, opacity);
    MulMonotone(a, 255.0, opacity, opacity);
  }

  /** Byte `(y * w + x) * 4 + c` of a row-major RGBA buffer `w` pixels
      wide: channel c of pixel (x, y). */
  function Offset(x: nat, y: nat, w: nat, c: nat): nat {
    (y * w + x) * 4 + c
  }

  /** Channel c of a mask pixel: red, green and blue are 255, alpha is
      given. */
  function Channel(c: nat, alpha: int): int {
    if c < 3 then 255 else alpha
  }

  /** The alpha of pixel (x, y) of the `w` x `h` mask for `layer`: the shade
      of its value at the layer opacity, stored into the
      `Uint8ClampedArray`. */
  function Alpha(noise: SimplexNoise, m: Math, layer: Layer, w: nat, h: nat): (nat, nat) -> int
    requires 0 < w && 0 < h
  {
    (x: nat, y: nat) => ToUint8Clamped(Shade(m, RawValue(noise, m, layer, w, h, x, y), layer.opacity))
  }

  /** The RGBA image of `w` x `h` white pixels with the given alphas, byte
      by byte: byte k is channel k % 4 of pixel k / 4, row-major. */
  function Image(w: nat, h: nat, alpha: (nat, nat) -> int): (image: seq<int>)
    requires 0 < w
    ensures |image| == w * h * 4
  {
    seq(w * h * 4, k requires 0 <= k < w * h * 4 => var q := k / 4; Channel(k % 4, alpha(q % w, q / w)))
  }

  /** The mask `renderNebulaLayer` draws for `layer` on a `w` x `h` canvas. */
  function Mask(noise: SimplexNoise, m: Math, layer: Layer, w: nat, h: nat): (mask: seq<int>)
    requires 0 < w && 0 < h
    ensures |mask| == w * h * 4
  {
    Image(w, h, Alpha(noise, m, layer, w, h))
  }

  /** The first `n` pixels of `data`, in row-major order, hold their four
      channels. */
  ghost predicate Stored(data: seq<int>, w: nat, h: nat, alpha: (nat, nat) -> int, n: nat) {
    |data| == w * h * 4 &&
    forall x: nat, y: nat, c: nat :: x < w && y < h && c < 4 && y * w + x < n ==>
      Offset(x, y, w, c) < |data| && data[Offset(x, y, w, c)] == Channel(c, alpha(x, y))
  }

  /** Every pixel of `data` holds its four channels. */
  ghost predicate IsImage(data: seq<int>, w: nat, h: nat, alpha: (nat, nat) -> int) {
    Stored(data, w, h, alpha, w * h)
  }

  /** Byte `(y * w + x) * 4 + c` of the image holds channel c of pixel
      (x, y). */
  lemma ImageLayout(w: nat, h: nat, alpha: (nat, nat) -> int, x: nat, y: nat, c: nat)
    requires x < w && y < h && c < 4
    ensures Offset(x, y, w, c) < w * h * 4
    ensures Image(w, h, alpha)[Offset(x, y, w, c)] == Channel(c, alpha(x, y))
  {
    PixelInBounds(x, y, w, h);
    var k := Offset(x, y, w, c);
    assert k / 4 == y * w + x && k % 4 == c;
    DivModOf(x, y, w);
  }

  /** The image holds every pixel's channels. */
  lemma ImageIsImage(w: nat, h: nat, alpha: (nat, nat) -> int)
    requires 0 < w
    ensures IsImage(Image(w, h, alpha), w, h, alpha)
  {
    forall x: nat, y: nat, c: nat | x < w && y < h && c < 4
      ensures Offset(x, y, w, c) < w * h * 4
      ensures Image(w, h, alpha)[Offset(x, y, w, c)] == Channel(c, alpha(x, y))
    {
      ImageLayout(w, h, alpha, x, y, c);
    }
  }

  /** Every byte belongs to some pixel and channel, so a buffer holding every
      pixel's channels is the image. */
  lemma ImageDetermined(data: seq<int>, w: nat, h: nat, alpha: (nat, nat) -> int)
    requires 0 < w && IsImage(data, w, h, alpha)
    ensures data == Image(w, h, alpha)
  {
    var image := Image(w, h, alpha);
    forall k | 0 <= k < |data|
      ensures data[k] == image[k]
    {
      ImageByte(data, w, h, alpha, k);
    }
  }

  /** Byte k is channel k % 4 of pixel k / 4, so it holds the image's byte. */
  lemma ImageByte(data: seq<int>, w: nat, h: nat, alpha: (nat, nat) -> int, k: nat)
    requires 0 < w && IsImage(data, w, h, alpha) && k < |data|
    ensures data[k] == Image(w, h, alpha)[k]
  {
    var q, c := k / 4, k % 4;
    var x, y := q % w, q / w;
    DivModBound(q, w, h);
    assert q == y * w + x;
    assert k == Offset(x, y, w, c);
  }

  lemma DivModBound(q: nat, w: nat, h: nat)
    requires 0 < w && q < w * h
    ensures q / w < h
  {
  }

  /** Pixel (x, y) of a row-major `w`-wide image has index `y * w + x`, and
      the index gives the pixel back. */
  lemma DivModOf(x: nat, y: nat, w: nat)
    requires x < w
    ensures (y * w + x) / w == y && (y * w + x) % w == x
  {
    var q := y * w + x;
    NoSmallMultiple(q / w - y, w, x - q % w);
  }

  /** The only multiple of `w` strictly between `-w` and `w` is 0. */
  lemma NoSmallMultiple(k: int, w: int, e: int)
    requires 0 < w && -w < e < w && k * w == e
    ensures k == 0
  {
    if k > 0 {
      MulMonotone(1.0, k as real, w as real, w as real);
      assert false;
    } else if k < 0 {
      MulMonotone(1.0, (-k) as real, w as real, w as real);
      assert false;
    }
  }

  lemma PixelInBounds(x: nat, y: nat, w: nat, h: nat)
    requires x < w && y < h
    ensures y * w + x < w * h
  {
    MulMonotone(y as real, (h - 1) as real, w as real, w as real);
    assert y * w <= (h - 1) * w;
  }

  /** Two pixels with the same row-major index are the same pixel. */
  lemma PixelIndexInjective(x: nat, y: nat, x': nat, y': nat, w: nat)
    requires x < w && x' < w && y * w + x == y' * w + x'
    ensures x == x' && y == y'
  {
    DivModOf(x, y, w);
    DivModOf(x', y', w);
  }

  /** A call `noise.fbm(...)` with one or more octaves and a non-negative
      persistence, whose result is a finite number. */
  method FbmCall(noise: SimplexNoise, m: Math, x: real, y: real, octaves: nat, p: real, l: real)
    returns (v: real)
    requires 1 <= octaves && 0.0 <= p
    ensures v == FbmValue(noise, m, x, y, octaves, p, l)
  {
    var r := noise.Fbm(m, x, y, octaves, p, l);
    v := r.v;
  }

  /** The start of the pixel loop body: the pixel's noise coordinates and
      offsets from the centre. */
  method PixelValue(noise: SimplexNoise, m: Math, layer: Layer, w: nat, h: nat, x: nat, y: nat)
    returns (value: real)
    requires 0 < w && 0 < h
    ensures value == RawValue(noise, m, layer, w, h, x, y)
  {
    value := NoiseSamples(noise, m,
      NoiseCoordinate(x, w as real / 2.0, layer.offsetX, layer.scale),
      NoiseCoordinate(y, h as real / 2.0, layer.offsetY, layer.scale),
      CenterFraction(x, w as real / 2.0, w),
      CenterFraction(y, h as real / 2.0, h));
  }

  /** The two `fbm` calls, the turbulence sample and the falloff. */
  method NoiseSamples(noise: SimplexNoise, m: Math, nx: real, ny: real, dx: real, dy: real)
    returns (value: real)
    ensures value == NoiseValue(noise, m, nx, ny, dx, dy)
  {
    var noise1 := FbmCall(noise, m, nx, ny, BaseOctaves(), 0.5, 2.0);
    var noise2 := FbmCall(noise, m, DetailCoordinate(nx), DetailCoordinate(ny), DetailOctaves(), 0.7, 3.0);
    value := Combine(m, noise1, noise2, noise.noise2D(m)(nx * 5.0, ny * 5.0), dx, dy);
  }

  /** The value's alpha: clamped to [0, 1], raised to the power 1.5 for
      contrast, scaled by 255 and the layer opacity, and stored into the
      `Uint8ClampedArray`. */
  method PixelAlpha(m: Math, value: real, opacity: real) returns (alpha: int)
    ensures alpha == ToUint8Clamped(Shade(m, value, opacity))
  {
    var v := Max(0.0, Min(1.0, value));
    v := m.pow(v, 1.5);
    alpha := ToUint8Clamped(Level(v, opacity));
  }

  /** The pixel's four stores at `(y * w + x) * 4`: red, green and blue
      255, then alpha; the pixels before it keep theirs. */
  method StorePixel(data: array<int>, w: nat, h: nat, ghost alpha: (nat, nat) -> int, x: nat, y: nat, a: int)
    requires x < w && y < h && a == alpha(x, y) && Stored(data[..], w, h, alpha, y * w + x)
    modifies data
    ensures Stored(data[..], w, h, alpha, y * w + x + 1)
  {
    PixelInBounds(x, y, w, h);
    var i := (y * w + x) * 4;
    data[i] := 255;
    data[i + 1] := 255;
    data[i + 2] := 255;
    data[i + 3] := a;
    forall xx: nat, yy: nat, c: nat | xx < w && yy < h && c < 4 && yy * w + xx < y * w + x + 1
      ensures Offset(xx, yy, w, c) < data.Length && data[Offset(xx, yy, w, c)] == Channel(c, alpha(xx, yy))
    {
      PixelInBounds(xx, yy, w, h);
      if yy * w + xx == y * w + x {
        PixelIndexInjective(xx, yy, x, y, w);
      }
    }
  }

  /** One row of the pixel loop: each pixel's value, its alpha and its four
      stores. */
  method RenderRow(data: array<int>, noise: SimplexNoise, m: Math, layer: Layer, w: nat, h: nat, y: nat)
    requires 0 < w && y < h && Stored(data[..], w, h, Alpha(noise, m, layer, w, h), y * w)
    modifies data
    ensures Stored(data[..], w, h, Alpha(noise, m, layer, w, h), (y + 1) * w)
  {
    ghost var alpha := Alpha(noise, m, layer, w, h);
    for x := 0 to w
      invariant Stored(data[..], w, h, alpha, y * w + x)
    {
      var value := PixelValue(noise, m, layer, w, h, x, y);
      var a := PixelAlpha(m, value, layer.opacity);
      StorePixel(data, w, h, alpha, x, y, a);
    }
    assert y * w + w == (y + 1) * w;
  }

  /** `renderNebulaLayer`'s mask: `createImageData(w, h)` gives a zeroed
      buffer, and the nested loop over rows and columns fills every pixel. */
  method RenderMask(noise: SimplexNoise, m: Math, layer: Layer, w: nat, h: nat) returns (data: array<int>)
    requires 0 < w && 0 < h
    ensures fresh(data) && IsImage(data[..], w, h, Alpha(noise, m, layer, w, h))
    ensures data[..] == Mask(noise, m, layer, w, h)
  {
    data := new int[w * h * 4](_ => 0);
    RenderRows(data, noise, m, layer, w, h);
    ImageDetermined(data[..], w, h, Alpha(noise, m, layer, w, h));
  }

  /** The two pixel loops over a buffer of `w * h` pixels. */
  method RenderRows(data: array<int>, noise: SimplexNoise, m: Math, layer: Layer, w: nat, h: nat)
    requires 0 < w && 0 < h && data.Length == w * h * 4
    modifies data
    ensures IsImage(data[..], w, h, Alpha(noise, m, layer, w, h))
  {
    ghost var alpha := Alpha(noise, m, layer, w, h);
    for y := 0 to h
      invariant Stored(data[..], w, h, alpha, y * w)
    {
      RenderRow(data, noise, m, layer, w, h, y);
    }
    assert h * w == w * h;
  }

  // -------------------------------------------------------- the component

  /** What one `animate` call does: nothing without an offscreen canvas;
      a drift followed by a throw from `createImageData` when an offscreen
      dimension is 0 (the throw leaves `animate` before it requests the
      next frame); or a drift followed by one noise mask per layer. */
  datatype Frame = Skipped | Thrown | Drawn(masks: seq<array<int>>)

  /** The `useRef` state of the component. */
  class Nebula {
    const noise: SimplexNoise
    /** `timeRef.current`, the frame counter. */
    var time: nat
    var layers: seq<Layer>
    var width: nat
    var height: nat
    /** Whether `offscreenCanvasRef.current` has been created. */
    var hasOffscreen: bool
    var offscreenWidth: nat
    var offscreenHeight: nat

    ghost predicate Valid()
      reads this
    {
      noise.NoiseFormula() && |layers| == 3
    }

    /** The refs' initial values: the noise of seed 42, a zero frame counter,
        the three starting layers and no offscreen canvas. */
    constructor ()
      ensures noise.perm == PermTable(Shuffle(42.0)) && noise.perm12 == Perm12Table(noise.perm)
      ensures time == 0 && layers == InitialLayers && !hasOffscreen
      ensures Valid()
    {
      noise := new SimplexNoise(42.0);
      time := 0;
      layers := InitialLayers;
      width, height := 0, 0;
      hasOffscreen := false;
      offscreenWidth, offscreenHeight := 0, 0;
    }

    /** `resizeCanvas`: the canvas takes the window size, and the offscreen
        canvas, created on first use, half of it rounded down. */
    method Resize(innerWidth: nat, innerHeight: nat)
      requires Valid()
      modifies this
      ensures Valid()
      ensures width == innerWidth && height == innerHeight
      ensures hasOffscreen && offscreenWidth == Half(innerWidth) && offscreenHeight == Half(innerHeight)
      ensures time == old(time) && layers == old(layers)
    {
      width := innerWidth;
      height := innerHeight;
      if !hasOffscreen {
        hasOffscreen := true;
      }
      offscreenWidth := Half(width);
      offscreenHeight := Half(height);
    }

    /** `animate`: without an offscreen canvas nothing changes. Otherwise
        the frame counter goes up by one, every layer drifts at the new
        count, and each layer's mask is rendered at the offscreen size,
        which throws when that size has a zero side. */
    method Animate(m: Math) returns (frame: Frame)
      requires Valid()
      modifies this
      ensures Valid()
      ensures width == old(width) && height == old(height) && hasOffscreen == old(hasOffscreen)
      ensures offscreenWidth == old(offscreenWidth) && offscreenHeight == old(offscreenHeight)
      ensures !hasOffscreen ==> frame == Skipped && time == old(time) && layers == old(layers)
      ensures hasOffscreen ==> time == old(time) + 1 && layers == DriftAll(m, old(layers), time as real)
      ensures hasOffscreen && (offscreenWidth == 0 || offscreenHeight == 0) ==> frame == Thrown
      ensures hasOffscreen && 0 < offscreenWidth && 0 < offscreenHeight ==>
        frame.Drawn? && Rendered(frame.masks, noise, m, layers, offscreenWidth, offscreenHeight)
      ensures frame.Drawn? ==> forall k :: 0 <= k < |frame.masks| ==> fresh(frame.masks[k])
    {
      if !hasOffscreen {
        return Skipped;
      }
      time := time + 1;
      DriftLayers(m);
      if offscreenWidth == 0 || offscreenHeight == 0 {
        return Thrown;
      }
      var masks := RenderLayers(noise, m, layers, offscreenWidth, offscreenHeight);
      frame := Drawn(masks);
    }

    /** The first `forEach`: layer k drifts in place with index k at the
        current frame count. */
    method DriftLayers(m: Math)
      modifies this
      ensures layers == DriftAll(m, old(layers), time as real)
      ensures time == old(time) && width == old(width) && height == old(height)
      ensures hasOffscreen == old(hasOffscreen)
      ensures offscreenWidth == old(offscreenWidth) && offscreenHeight == old(offscreenHeight)
    {
      var drifted := layers;
      for k := 0 to |drifted|
        invariant |drifted| == |layers|
        invariant forall j :: 0 <= j < k ==> drifted[j] == Drift(m, layers[j], j, time as real)
        invariant forall j :: k <= j < |drifted| ==> drifted[j] == layers[j]
      {
        drifted := drifted[k := Drift(m, drifted[k], k, time as real)];
      }
      layers := drifted;
    }
  }

  /** Mask k holds the `ImageData` of layer k. */
  ghost predicate Rendered(masks: seq<array<int>>, noise: SimplexNoise, m: Math, layers: seq<Layer>, w: nat, h: nat)
    requires 0 < w && 0 < h
    reads set k | 0 <= k < |masks| :: masks[k]
  {
    |masks| == |layers| && forall k :: 0 <= k < |masks| ==> masks[k][..] == Mask(noise, m, layers[k], w, h)
  }

  /** The second `forEach`: one `renderNebulaLayer` mask per layer, each in
      a new buffer. */
  method RenderLayers(noise: SimplexNoise, m: Math, layers: seq<Layer>, w: nat, h: nat)
    returns (masks: seq<array<int>>)
    requires 0 < w && 0 < h
    ensures Rendered(masks, noise, m, layers, w, h)
    ensures forall k :: 0 <= k < |masks| ==> fresh(masks[k])
  {
    masks := [];
    for k := 0 to |layers|
      invariant |masks| == k
      invariant forall j :: 0 <= j < k ==> fresh(masks[j]) && masks[j][..] == Mask(noise, m, layers[j], w, h)
    {
      var data := RenderMask(noise, m, layers[k], w, h);
      masks := masks + [data];
    }
  }
}
