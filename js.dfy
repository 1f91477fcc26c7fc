/** Host-language vocabulary shared by every effect: the parts of JavaScript's
    `Math` object and number semantics that the animation code relies on.

    Trigonometry and square roots cannot be computed exactly over the reals, so
    the `Math` object is a record of functions that every caller receives as a
    value; `Sane` states the only facts about them the effects depend on.  The
    values produced by `Math.random()` are passed in as plain numbers, and
    `IsRandom` says they lie in [0, 1). */
module Js {

  datatype Option<T> = None | Some(value: T)

  /** `Math.PI` as an exact decimal (the double closest to pi). */
  const PI: real := 3.141592653589793

  /** The transcendental part of the host `Math` object. */
  datatype Math = Math(
    sin: real -> real,
    cos: real -> real,
    sqrt: real -> real,
    acos: real -> real,
    atan2: (real, real) -> real,
    pow: (real, real) -> real)

  /** Range facts of the host functions (and nothing else). */
  ghost predicate Sane(m: Math) {
    && (forall x :: -1.0 <= m.sin(x) <= 1.0)
    && (forall x :: -1.0 <= m.cos(x) <= 1.0)
    && (forall x :: 0.0 <= x ==> 0.0 <= m.sqrt(x) && m.sqrt(x) * m.sqrt(x) == x)
    && (forall x :: 0.0 <= m.acos(x) <= PI)
    && (forall x, y :: 0.0 <= x <= 1.0 && 0.0 < y ==> 0.0 <= m.pow(x, y) <= 1.0)
  }

  /** A value `Math.random()` can return. */
  predicate IsRandom(r: real) {
    0.0 <= r < 1.0
  }

  /** A stream of `Math.random()` results: `rand(k)` is the k-th draw. */
  ghost predicate IsRandomStream(rand: nat -> real) {
    forall k :: IsRandom(rand(k))
  }

  /** `Math.floor`. */
  function Floor(x: real): (r: int)
    ensures r as real <= x < r as real + 1.0
  {
    x.Floor
  }

  /** `Math.round`: ties go towards +infinity. */
  function Round(x: real): (r: int)
    ensures x - 0.5 < r as real <= x + 0.5
  {
    Floor(x + 0.5)
  }

  /** `x - Math.floor(x)`, the fractional part. */
  function Frac(x: real): (r: real)
    ensures 0.0 <= r < 1.0
    ensures (x - r).Floor as real == x - r
  {
    x - Floor(x) as real
  }

  function Min(a: real, b: real): (r: real)
    ensures r <= a && r <= b && (r == a || r == b)
  {
    if a <= b then a else b
  }

  function Max(a: real, b: real): (r: real)
    ensures r >= a && r >= b && (r == a || r == b)
  {
    if a >= b then a else b
  }

  function Abs(x: real): (r: real)
    ensures 0.0 <= r && (r == x || r == -x)
  {
    if x < 0.0 then -x else x
  }

  /** `Math.sign` on a finite number. */
  function Sign(x: real): (r: real)
    ensures x > 0.0 ==> r == 1.0
    ensures x < 0.0 ==> r == -1.0
    ensures x == 0.0 ==> r == 0.0
  {
    if x > 0.0 then 1.0 else if x < 0.0 then -1.0 else 0.0
  }

  /** JavaScript's `%` on numbers: the remainder keeps the sign of the
      dividend, and the dividend minus the remainder is a whole multiple of
      `m` (the quotient truncated toward zero). */
  function JsMod(x: real, m: real): (r: real)
    requires m > 0.0
    ensures 0.0 <= x ==> 0.0 <= r < m
    ensures x < 0.0 ==> -m < r <= 0.0
    ensures ((x - r) / m).Floor as real == (x - r) / m
  {
    if 0.0 <= x then
      RemainderBounds(x, m);
      var k := Floor(x / m);
      WholeQuotient(x, x - m * k as real, m, k);
      x - m * k as real
    else
      RemainderBounds(-x, m);
      var k := Floor(-x / m);
      WholeQuotient(x, -(-x - m * k as real), m, -k);
      -(-x - m * k as real)
  }

  /** A difference `x - r` that equals `m * k` has the whole quotient `k`. */
  lemma WholeQuotient(x: real, r: real, m: real, k: int)
    requires m > 0.0 && x - r == m * k as real
    ensures ((x - r) / m).Floor as real == (x - r) / m
  {
    assert (x - r) / m == k as real;
  }

  lemma RemainderBounds(x: real, m: real)
    requires 0.0 <= x && m > 0.0
    ensures 0.0 <= x - m * Floor(x / m) as real < m
  {
    var f := Floor(x / m) as real;
    var d := x / m - f;
    assert x - m * f == m * d;
    assert x - m * Floor(x / m) as real == m * d;
    assert m * d < m by { assert m * (1.0 - d) > 0.0; }
  }

  /** `Array.prototype.find`, as the position of the element it returns: the
      first index whose element satisfies `p`, or `None` (`undefined`). */
  function Find<T>(s: seq<T>, p: T -> bool): (r: Option<nat>)
    ensures r.None? <==> forall i :: 0 <= i < |s| ==> !p(s[i])
    ensures r.Some? ==> r.value < |s| && p(s[r.value]) && forall i :: 0 <= i < r.value ==> !p(s[i])
  {
    if s == [] then None
    else if p(s[0]) then Some(0)
    else match Find(s[1..], p)
      case None => None
      case Some(i) => Some(i + 1)
  }

  /** A JavaScript number as far as the effects can produce one. */
  datatype Number = Finite(v: real) | PosInf | NegInf | NaN

  /** JavaScript `/` on two finite numbers (the sign of zero is not modelled). */
  function Div(a: real, b: real): (r: Number)
    ensures b != 0.0 ==> r == Finite(a / b)
    ensures b == 0.0 ==> (r.NaN? <==> a == 0.0)
    ensures b == 0.0 && a > 0.0 ==> r.PosInf?
    ensures b == 0.0 && a < 0.0 ==> r.NegInf?
  {
    if b != 0.0 then Finite(a / b)
    else if a > 0.0 then PosInf
    else if a < 0.0 then NegInf
    else NaN
  }

  /** `Math.min(n, c)` for a finite `c`: NaN is absorbing. */
  function MinNumber(n: Number, c: real): (r: Number)
    ensures !n.NaN? ==> r.Finite? || r.NegInf?
    ensures r.Finite? ==> r.v <= c
    ensures n.NaN? <==> r.NaN?
    ensures n.Finite? ==> r.Finite? && r.v <= n.v && (r.v == n.v || r.v == c)
    ensures n.PosInf? ==> r == Finite(c)
    ensures n.NegInf? ==> r.NegInf?
  {
    match n
    case Finite(v) => Finite(Min(v, c))
    case PosInf => Finite(c)
    case NegInf => NegInf
    case NaN => NaN
  }

  /** Storing a number into a `Uint8ClampedArray`: clamp to [0, 255], then round
      to the nearest integer with ties to even. */
  function ToUint8Clamped(x: real): (r: int)
    ensures 0 <= r <= 255
    ensures x <= 0.0 ==> r == 0
    ensures x >= 255.0 ==> r == 255
    ensures 0.0 <= x <= 255.0 ==> x - 0.5 <= r as real <= x + 0.5
    ensures 0.0 <= x <= 255.0 && Frac(x) != 0.5 ==> x - 0.5 < r as real < x + 0.5
    ensures 0.0 < x < 255.0 && Frac(x) == 0.5 ==> r % 2 == 0
  {
    if x <= 0.0 then 0
    else if x >= 255.0 then 255
    else
      var f := Floor(x);
      var frac := x - f as real;
      if frac < 0.5 then f
      else if frac > 0.5 then f + 1
      else if f % 2 == 0 then f else f + 1
  }

  lemma MulNonneg(a: real, b: real)
    requires 0.0 <= a && 0.0 <= b
    ensures 0.0 <= a * b
  {
  }

  lemma MulPos(a: real, b: real)
    requires 0.0 < a && 0.0 < b
    ensures 0.0 < a * b
  {
  }

  lemma MulMonotone(a: real, b: real, c: real, d: real)
    requires 0.0 <= a <= b && 0.0 <= c <= d
    ensures a * c <= b * d
  {
    MulNonneg(b - a, c);
    MulNonneg(b, d - c);
  }

  lemma CancelPositive(a: real, b: real, c: real)
    requires c > 0.0 && a * c <= b * c
    ensures a <= b
  {
    var d := b - a;
    assert d * c >= 0.0;
  }

  /** A draw scaled by a positive width stays below the width. */
  lemma ScaledDraw(r: real, w: real)
    requires IsRandom(r) && 0.0 < w
    ensures 0.0 <= r * w < w
  {
    MulNonneg(r, w);
    MulPos(1.0 - r, w);
  }
}
