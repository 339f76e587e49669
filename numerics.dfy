/**
 * Real-number helpers for the simulator: clipping, Python's floored float remainder,
 * the angle wrap used throughout the backend, small vector operations, and the
 * transcendental functions, which are passed in as a record of total functions
 * together with the facts about their ranges that the proofs rely on.
 */
module Numerics {

  /** `np.pi` as a decimal literal. */
  const PI: real := 3.141592653589793
  const TWO_PI: real := 2.0 * PI

  function Abs(x: real): (r: real)
    ensures r >= 0.0 && (r == x || r == -x)
  {
    if x < 0.0 then -x else x
  }

  function Min(a: real, b: real): (r: real)
    ensures r <= a && r <= b && (r == a || r == b)
  {
    if a <= b then a else b
  }

  function Max(a: real, b: real): (r: real)
    ensures r >= a && r >= b && (r == a || r == b)
  {
    if a >= b then a else b
  }

  /** `np.clip(x, lo, hi)`. */
  function Clip(x: real, lo: real, hi: real): (r: real)
    requires lo <= hi
    ensures lo <= r <= hi
    ensures lo <= x <= hi ==> r == x
    ensures x < lo ==> r == lo
    ensures x > hi ==> r == hi
  {
    if x < lo then lo else if x > hi then hi else x
  }

  /** A product of two nonnegative numbers is nonnegative. */
  lemma MulNonNeg(x: real, y: real)
    requires 0.0 <= x && 0.0 <= y
    ensures 0.0 <= x * y
  {
  }

  /** A convex combination of x and y with weight a in [0, 1] lies between them. */
  lemma BlendBetween(x: real, y: real, a: real)
    ensures 0.0 <= a <= 1.0 ==> Min(x, y) <= (1.0 - a) * x + a * y <= Max(x, y)
  {
    if 0.0 <= a <= 1.0 {
      var r := (1.0 - a) * x + a * y;
      var lo, hi, w := x, y, a;
      if y < x {
        lo, hi, w := y, x, 1.0 - a;
        assert r == (1.0 - w) * lo + w * hi;
      }
      var d := hi - lo;
      MulNonNeg(w, d);
      MulNonNeg(1.0 - w, d);
      assert r - lo == w * d;
      assert hi - r == (1.0 - w) * d;
    }
  }

  /** `(1 - a) * x + a * y`, between x and y whenever the weight is in [0, 1]. */
  function Blend(x: real, y: real, a: real): (r: real)
    ensures 0.0 <= a <= 1.0 ==> Min(x, y) <= r <= Max(x, y)
    ensures a == 0.0 ==> r == x
    ensures a == 1.0 ==> r == y
  {
    BlendBetween(x, y, a);
    (1.0 - a) * x + a * y
  }

  /** `np.sign(x)`. */
  function Sign(x: real): (r: real)
    ensures x > 0.0 ==> r == 1.0
    ensures x < 0.0 ==> r == -1.0
    ensures x == 0.0 ==> r == 0.0
  {
    if x > 0.0 then 1.0 else if x < 0.0 then -1.0 else 0.0
  }

  /** The number of whole turns `Wrap` removes from `a`. */
  function WrapTurns(a: real): int {
    ((a + PI) / TWO_PI).Floor
  }

  /**
   * `(a + np.pi) % (2 * np.pi) - np.pi`, with Python's floored remainder for a positive
   * modulus. The result lies in [-PI, PI), differs from `a` by whole turns, and leaves
   * angles already in [-PI, PI) alone, so wrapping is idempotent.
   */
  function Wrap(a: real): (r: real)
    ensures -PI <= r < PI
    ensures r == a - WrapTurns(a) as real * TWO_PI
    ensures -PI <= a < PI ==> r == a
  {
    (a + PI) - TWO_PI * (WrapTurns(a) as real) - PI
  }

  /**
   * The transcendental functions the source takes from NumPy. They are parameters
   * of the model; `Lawful` lists the facts about them that the proofs use.
   */
  datatype Math = Math(
    sin: real -> real,
    cos: real -> real,
    atan2: (real, real) -> real,
    tanh: real -> real,
    sqrt: real -> real)

  ghost predicate Lawful(m: Math) {
    && (forall x :: -1.0 <= m.sin(x) <= 1.0)
    && (forall x :: -1.0 <= m.cos(x) <= 1.0)
    && (forall x :: m.cos(x) * m.cos(x) + m.sin(x) * m.sin(x) == 1.0)
    && m.sin(0.0) == 0.0 && m.cos(0.0) == 1.0
    && (forall y, x :: -PI <= m.atan2(y, x) <= PI)
    && (forall x :: -1.0 < m.tanh(x) < 1.0)
    && (forall x :: 0.0 <= x ==> 0.0 <= m.sqrt(x) && m.sqrt(x) * m.sqrt(x) == x)
    && m.sqrt(0.0) == 0.0
  }

  /** A vector of `n` zeros (`np.zeros(n)`, `[0.0] * n`). */
  function Zeros(n: nat): (r: seq<real>)
    ensures |r| == n && forall i :: 0 <= i < n ==> r[i] == 0.0
  {
    seq(n, _ => 0.0)
  }

  /** Element-wise `a + c * b`. */
  function AddScaled(a: seq<real>, c: real, b: seq<real>): (r: seq<real>)
    requires |a| == |b|
    ensures |r| == |a| && forall i :: 0 <= i < |a| ==> r[i] == a[i] + c * b[i]
  {
    seq(|a|, i requires 0 <= i < |a| => a[i] + c * b[i])
  }

  /** Element-wise `a + b`. */
  function Add(a: seq<real>, b: seq<real>): (r: seq<real>)
    requires |a| == |b|
    ensures |r| == |a| && forall i :: 0 <= i < |a| ==> r[i] == a[i] + b[i]
  {
    seq(|a|, i requires 0 <= i < |a| => a[i] + b[i])
  }

  /** Adding zero times anything, or a zero vector, changes nothing. */
  lemma AddScaledZero(a: seq<real>, c: real, b: seq<real>)
    requires |a| == |b|
    requires c == 0.0 || b == Zeros(|b|)
    ensures AddScaled(a, c, b) == a
  {
  }
}
