/** Shared values of the Bloch-sphere core: complex numbers, 3-vectors, an
    error-carrying result, and the numeric library (square root, sine, cosine,
    arc cosines, complex phase, pi) that the source calls from its math,
    numpy and cmath imports.

    The library functions are not defined here: every member that uses them
    takes a `MathLib` value, and the laws those functions obey in exact real
    arithmetic are ghost predicates that a lemma requires when it needs them.
    What is proved therefore holds for every library obeying the laws. */
module Numerics {

  datatype Result<T, E> = Success(value: T) | Failure(error: E)

  /** A complex number, as Python's `complex` and numpy's complex128. */
  datatype Complex = Complex(re: real, im: real)

  const ComplexZero := Complex(0.0, 0.0)
  const ComplexOne := Complex(1.0, 0.0)

  function Add(z: Complex, w: Complex): Complex {
    Complex(z.re + w.re, z.im + w.im)
  }

  function Mul(z: Complex, w: Complex): Complex {
    Complex(z.re * w.re - z.im * w.im, z.re * w.im + z.im * w.re)
  }

  /** A real number times a complex one (numpy's float * complex). */
  function Scale(k: real, z: Complex): Complex {
    Complex(k * z.re, k * z.im)
  }

  function Neg(z: Complex): Complex {
    Complex(-z.re, -z.im)
  }

  /** The squared modulus |z|^2, computed without a square root. */
  function NormSq(z: Complex): real {
    z.re * z.re + z.im * z.im
  }

  function Abs(x: real): real {
    if x < 0.0 then -x else x
  }

  /** A triple of reals: a cartesian point or direction. */
  datatype Vec3 = Vec3(x: real, y: real, z: real)

  function Dot(u: Vec3, v: Vec3): real {
    u.x * v.x + u.y * v.y + u.z * v.z
  }

  function Scale3(k: real, v: Vec3): Vec3 {
    Vec3(k * v.x, k * v.y, k * v.z)
  }

  /** The numeric library the source relies on: `sqrt` (math.sqrt and
      np.sqrt on non-negative reals), `sin` and `cos` (math and numpy),
      `acos` (math.acos on [-1, 1]), `arccos` (the real part of np.arccos
      applied to a complex number), `phase` (cmath.phase) and `pi`. */
  datatype MathLib = MathLib(
    sqrt: real -> real,
    sin: real -> real,
    cos: real -> real,
    acos: real -> real,
    arccos: Complex -> real,
    phase: Complex -> real,
    pi: real)

  /** The principal square root of a non-negative real. */
  ghost predicate SqrtLaws(m: MathLib) {
    forall x :: 0.0 <= x ==> 0.0 <= m.sqrt(x) && m.sqrt(x) * m.sqrt(x) == x
  }

  /** Sine and cosine at zero and the Pythagorean identity. */
  ghost predicate TrigLaws(m: MathLib) {
    && m.sin(0.0) == 0.0
    && m.cos(0.0) == 1.0
    && forall x :: m.sin(x) * m.sin(x) + m.cos(x) * m.cos(x) == 1.0
  }

  /** Sine is odd and cosine is even (stated for pairs of arguments that
      already occur, so that no new terms are generated). */
  ghost predicate ParityLaws(m: MathLib) {
    && (forall x, y {:trigger m.sin(x), m.sin(y)} :: x == -y ==> m.sin(x) == -m.sin(y))
    && (forall x, y {:trigger m.cos(x), m.cos(y)} :: x == -y ==> m.cos(x) == m.cos(y))
  }

  /** The values at pi and pi/2, and the arc cosine at the ends of [-1, 1]. */
  ghost predicate PiLaws(m: MathLib) {
    && 3.0 < m.pi < 4.0
    && m.sin(m.pi) == 0.0 && m.cos(m.pi) == -1.0
    && m.sin(m.pi / 2.0) == 1.0 && m.cos(m.pi / 2.0) == 0.0
    && m.acos(1.0) == 0.0 && m.acos(-1.0) == m.pi
  }

  /** Signs of sine on (0, pi) and of cosine on [-pi/2, pi/2]. */
  ghost predicate SignLaws(m: MathLib) {
    && (forall x :: 0.0 < x < m.pi ==> 0.0 < m.sin(x))
    && (forall x :: -m.pi / 2.0 <= x <= m.pi / 2.0 ==> 0.0 <= m.cos(x))
  }

  /** np.arccos inverts cos on [0, pi] for a real argument with zero
      imaginary part. */
  ghost predicate ArccosLaws(m: MathLib) {
    forall y :: 0.0 <= y <= m.pi ==> m.arccos(Complex(m.cos(y), 0.0)) == y
  }

  /** math.acos returns an angle whose cosine is its argument and whose
      sine is not negative (an angle in [0, pi]). */
  ghost predicate AcosLaws(m: MathLib) {
    forall x :: -1.0 <= x <= 1.0 ==> m.cos(m.acos(x)) == x && 0.0 <= m.sin(m.acos(x))
  }

  /** e^(i*y), as np.exp(1j * y) computes it for a real y. */
  function ExpI(m: MathLib, y: real): Complex {
    Complex(m.cos(y), m.sin(y))
  }

  /** cmath.phase is 0 on the non-negative reals and recovers the angle of
      a number in polar form with angle in (-pi, pi]. */
  ghost predicate PhaseLaws(m: MathLib) {
    && (forall x :: 0.0 <= x ==> m.phase(Complex(x, 0.0)) == 0.0)
    && (forall r, y :: 0.0 < r && -m.pi < y <= m.pi ==> m.phase(Scale(r, ExpI(m, y))) == y)
  }

  /** The handful of exact values that the worked inputs need. */
  ghost predicate SpecialValues(m: MathLib) {
    && m.sqrt(0.0) == 0.0 && m.sqrt(1.0) == 1.0
    && m.sin(0.0) == 0.0 && m.acos(1.0) == 0.0 && m.sin(m.acos(-1.0)) == 0.0
  }

  /** Squaring is strictly increasing on the non-negative reals. */
  lemma SquareStrictlyIncreasing(lo: real, hi: real)
    requires 0.0 <= lo < hi
    ensures lo * lo < hi * hi
  {
    calc {
      lo * lo;
    <=
      lo * hi;
    <
      hi * hi;
    }
  }

  /** Squaring is increasing on the non-negative reals. */
  lemma SquareIncreasing(lo: real, hi: real)
    requires 0.0 <= lo <= hi
    ensures lo * lo <= hi * hi
  {
    if lo < hi {
      SquareStrictlyIncreasing(lo, hi);
    }
  }

  /** The root of a square is the non-negative root. */
  lemma SqrtOfSquare(m: MathLib, x: real, r: real)
    requires SqrtLaws(m)
    requires 0.0 <= r && x == r * r
    ensures m.sqrt(x) == r
  {
    var s := m.sqrt(x);
    assert 0.0 <= s && s * s == r * r;
    if s < r {
      SquareStrictlyIncreasing(s, r);
    } else if r < s {
      SquareStrictlyIncreasing(r, s);
    }
  }

  /** The laws give the special values. */
  lemma LawsGiveSpecialValues(m: MathLib)
    requires SqrtLaws(m) && TrigLaws(m) && PiLaws(m)
    ensures SpecialValues(m)
  {
    SqrtOfSquare(m, 0.0, 0.0);
    SqrtOfSquare(m, 1.0, 1.0);
  }
}
