/** The single-qubit state engine: a qubit holds two complex amplitudes,
    the Bloch angles and cartesian coordinates derived from them, and a
    flag that measurement sets for good. Gates multiply the amplitude pair
    by a 2x2 matrix unless the qubit has collapsed, and then re-derive the
    angles and coordinates.

    The gates are modelled as the source writes them, including where that
    differs from the textbook gate: X multiplies by the identity, RZ
    ignores its angle, P fails before changing anything, Y and RX change no
    amplitude, and the re-derivation of the coordinates passes the first
    amplitude twice. */
module QubitState {
  import opened Numerics

  /** The amplitude pair as the column vector that numpy multiplies. */
  datatype StateVec = StateVec(a: Complex, b: Complex)

  /** A 2x2 complex matrix, row by row. */
  datatype Mat2 = Mat2(m00: Complex, m01: Complex, m10: Complex, m11: Complex)

  /** The error `p` raises while building its matrix. */
  datatype GateError = TypeError

  /** The error `__init__` raises when the amplitudes are not normalised. */
  datatype InitError = AssertionError

  /** Matrix times vector (numpy's `@`). */
  function Apply(g: Mat2, v: StateVec): StateVec {
    StateVec(Add(Mul(g.m00, v.a), Mul(g.m01, v.b)),
             Add(Mul(g.m10, v.a), Mul(g.m11, v.b)))
  }

  /** A real number as a complex one with zero imaginary part. */
  function Real(x: real): Complex {
    Complex(x, 0.0)
  }

  /** The total probability |a|^2 + |b|^2 of a state vector. */
  function Weight(v: StateVec): real {
    NormSq(v.a) + NormSq(v.b)
  }

  /** The real rotation matrix [[c, -s], [s, c]]. */
  function Rotation(c: real, s: real): Mat2 {
    Mat2(Real(c), Real(-s), Real(s), Real(c))
  }

  /** The matrix `ry` builds: the real rotation by half the angle. */
  function RyMatrix(m: MathLib, angle: real): Mat2 {
    Rotation(m.cos(angle / 2.0), m.sin(angle / 2.0))
  }

  /** The matrix `rz` builds: diag(1, -1), whatever the angle. */
  function RzMatrix(angle: real): Mat2 {
    Mat2(ComplexOne, ComplexZero, ComplexZero, Real(-1.0))
  }

  /** The matrix `x` builds: the identity. */
  function XMatrix(): Mat2 {
    Mat2(ComplexOne, ComplexZero, ComplexZero, ComplexOne)
  }

  /** The matrix `h` builds: 1/sqrt(2) times [[1, 1], [1, -1]]. A library
      whose square root of 2 were 0 would make numpy divide by zero; the
      model gives the factor 0 there, which no lawful library reaches. */
  function HMatrix(m: MathLib): Mat2 {
    var root := m.sqrt(2.0);
    var c := if root == 0.0 then 0.0 else 1.0 / root;
    Mat2(Real(c), Real(c), Real(c), Real(-c))
  }

  /** `spherical_to_amp`: (cos(theta/2), e^(i phi) sin(theta/2)). */
  function SphericalToAmp(m: MathLib, theta: real, phi: real): StateVec {
    StateVec(Real(m.cos(theta / 2.0)), Scale(m.sin(theta / 2.0), ExpI(m, phi)))
  }

  /** `spherical_to_cartesian`, with the source's y = sin(phi) cos(theta). */
  function SphericalToCartesian(m: MathLib, theta: real, phi: real): Vec3 {
    Vec3(m.sin(theta) * m.cos(phi), m.sin(phi) * m.cos(theta), m.cos(theta))
  }

  /** `amp_to_spherical`: theta is twice the real part of arccos(a), phi the
      difference of the phases of b and a. */
  function AmpToSpherical(m: MathLib, a: Complex, b: Complex): (real, real) {
    (2.0 * m.arccos(a), m.phase(b) - m.phase(a))
  }

  /** `amp_to_cartesian`: the composition of the two converters. */
  function AmpToCartesian(m: MathLib, a: Complex, b: Complex): Vec3 {
    var angles := AmpToSpherical(m, a, b);
    SphericalToCartesian(m, angles.0, angles.1)
  }

  /** Python's `abs(z)**2`: the modulus through a square root, squared. */
  function AbsSquared(m: MathLib, z: Complex): real {
    var r := m.sqrt(NormSq(z));
    r * r
  }

  /** The sum `__init__` checks. */
  function SquaredSum(m: MathLib, a: Complex, b: Complex): real {
    AbsSquared(m, a) + AbsSquared(m, b)
  }

  /** np.isclose(x, y) with numpy's default tolerances (atol 1e-8, rtol 1e-5). */
  predicate IsClose(x: real, y: real) {
    Abs(x - y) <= 0.00000001 + 0.00001 * Abs(y)
  }

  class Qubit {
    const lib: MathLib
    var ampA: Complex
    var ampB: Complex
    var theta: real
    var phi: real
    var coords: Vec3
    var isCollapsed: bool

    /** The angles are those of the amplitudes (every operation keeps this). */
    ghost predicate Valid()
      reads this
    {
      (theta, phi) == AmpToSpherical(lib, ampA, ampB)
    }

    /** The state `__update` leaves: angles from both amplitudes, coordinates
        from the first amplitude passed twice. */
    ghost predicate Refreshed()
      reads this
    {
      Valid() && coords == AmpToCartesian(lib, ampA, ampA)
    }

    /** `state_vector`: the amplitudes as a column vector. */
    function StateVector(): StateVec
      reads this
    {
      StateVec(ampA, ampB)
    }

    /** `__init__` once its assertion has passed. */
    constructor (m: MathLib, a: Complex, b: Complex)
      requires IsClose(SquaredSum(m, a, b), 1.0)
      ensures lib == m && ampA == a && ampB == b
      ensures Valid() && coords == SphericalToCartesian(m, theta, phi)
      ensures coords == AmpToCartesian(m, a, b)
      ensures !isCollapsed
    {
      lib := m;
      ampA := a;
      ampB := b;
      var angles := AmpToSpherical(m, a, b);
      theta, phi := angles.0, angles.1;
      coords := SphericalToCartesian(m, angles.0, angles.1);
      isCollapsed := false;
    }

    /** `__update`: re-derives the angles and the coordinates. */
    method Update()
      modifies this
      ensures StateVector() == old(StateVector()) && isCollapsed == old(isCollapsed)
      ensures Refreshed()
    {
      var angles := AmpToSpherical(lib, ampA, ampB);
      theta := angles.0;
      phi := angles.1;
      coords := AmpToCartesian(lib, ampA, ampA);
    }

    /** `rx`: only re-derives; no amplitude changes. */
    method Rx(angle: real) returns (c: Vec3)
      modifies this
      ensures StateVector() == old(StateVector()) && isCollapsed == old(isCollapsed)
      ensures Refreshed() && c == coords
    {
      Update();
      c := coords;
    }

    /** `ry`: the half-angle rotation, unless collapsed. */
    method Ry(angle: real) returns (c: Vec3)
      modifies this
      ensures StateVector() == if old(isCollapsed) then old(StateVector())
                               else Apply(RyMatrix(lib, angle), old(StateVector()))
      ensures isCollapsed == old(isCollapsed)
      ensures Refreshed() && c == coords
    {
      if !isCollapsed {
        var result := Apply(RyMatrix(lib, angle), StateVector());
        ampA := result.a;
        ampB := result.b;
      }
      Update();
      c := coords;
    }

    /** `rz`: adds the angle to phi (overwritten by `__update`) and applies
        diag(1, -1), unless collapsed. */
    method Rz(angle: real) returns (c: Vec3)
      modifies this
      ensures StateVector() == if old(isCollapsed) then old(StateVector())
                               else Apply(RzMatrix(angle), old(StateVector()))
      ensures isCollapsed == old(isCollapsed)
      ensures Refreshed() && c == coords
    {
      if !isCollapsed {
        phi := angle + phi;
        var result := Apply(RzMatrix(angle), StateVector());
        ampA := result.a;
        ampB := result.b;
      }
      Update();
      c := coords;
    }

    /** `x`: flips the angles and applies the identity, unless collapsed;
        `__update` then restores the angles, so only the coordinates can
        change. */
    method X() returns (c: Vec3)
      modifies this
      ensures StateVector() == old(StateVector()) && isCollapsed == old(isCollapsed)
      ensures old(Valid()) ==> theta == old(theta) && phi == old(phi)
      ensures Refreshed() && c == coords
    {
      if !isCollapsed {
        theta := lib.pi - theta;
        phi := -phi;
        var result := Apply(XMatrix(), StateVector());
        XIsIdentity(StateVector());
        ampA := result.a;
        ampB := result.b;
      }
      Update();
      c := coords;
    }

    /** `y`: does nothing and returns nothing. */
    method Y()
      ensures unchanged(this)
    {
    }

    /** `z`: `rz` with angle pi. */
    method Z() returns (c: Vec3)
      modifies this
      ensures StateVector() == if old(isCollapsed) then old(StateVector())
                               else Apply(RzMatrix(lib.pi), old(StateVector()))
      ensures isCollapsed == old(isCollapsed)
      ensures Refreshed() && c == coords
    {
      c := Rz(lib.pi);
    }

    /** `h`: the Hadamard matrix, unless collapsed. */
    method H() returns (c: Vec3)
      modifies this
      ensures StateVector() == if old(isCollapsed) then old(StateVector())
                               else Apply(HMatrix(lib), old(StateVector()))
      ensures isCollapsed == old(isCollapsed)
      ensures Refreshed() && c == coords
    {
      if !isCollapsed {
        var result := Apply(HMatrix(lib), StateVector());
        ampA := result.a;
        ampB := result.b;
      }
      Update();
      c := coords;
    }

    /** `p`: on a qubit that has not collapsed, building the matrix raises
        TypeError before any field changes; on a collapsed one, only
        `__update` runs. */
    method P(angle: real) returns (r: Result<Vec3, GateError>)
      modifies this
      ensures !old(isCollapsed) ==> r == Failure(TypeError) && unchanged(this)
      ensures old(isCollapsed) ==> && StateVector() == old(StateVector()) && isCollapsed
                                    && Refreshed() && r == Success(coords)
    {
      if !isCollapsed {
        r := Failure(TypeError);
        return;
      }
      Update();
      r := Success(coords);
    }

    /** `s`: `p` with angle pi. */
    method S() returns (r: Result<Vec3, GateError>)
      modifies this
      ensures !old(isCollapsed) ==> r == Failure(TypeError) && unchanged(this)
      ensures old(isCollapsed) ==> && StateVector() == old(StateVector()) && isCollapsed
                                    && Refreshed() && r == Success(coords)
    {
      r := P(lib.pi);
    }

    /** `t`: `p` with angle pi/2. */
    method T() returns (r: Result<Vec3, GateError>)
      modifies this
      ensures !old(isCollapsed) ==> r == Failure(TypeError) && unchanged(this)
      ensures old(isCollapsed) ==> && StateVector() == old(StateVector()) && isCollapsed
                                    && Refreshed() && r == Success(coords)
    {
      r := P(lib.pi / 2.0);
    }

    /** `measure`, with the value of `random.random()` passed in as `draw`:
        a qubit that has not collapsed becomes |0> when the draw is at most
        |a|^2 and |1> otherwise, and is collapsed from then on; a collapsed
        qubit keeps its amplitudes. */
    method Measure(draw: real) returns (c: Vec3)
      modifies this
      ensures isCollapsed
      ensures old(isCollapsed) ==> StateVector() == old(StateVector())
      ensures !old(isCollapsed) ==>
        StateVector() == if draw <= AbsSquared(lib, old(ampA)) then StateVec(ComplexOne, ComplexZero)
                         else StateVec(ComplexZero, ComplexOne)
      ensures Refreshed() && c == coords
    {
      if !isCollapsed {
        var prob0 := AbsSquared(lib, ampA);
        if draw <= prob0 {
          ampA, ampB := ComplexOne, ComplexZero;
          theta, phi := 0.0, 0.0;
          coords := Vec3(0.0, 0.0, 1.0);
        } else {
          ampA, ampB := ComplexZero, ComplexOne;
          theta, phi := lib.pi, 0.0;
          coords := Vec3(0.0, 0.0, -1.0);
        }
        isCollapsed := true;
      }
      Update();
      c := coords;
    }
  }

  /** Constructing a qubit: `Qubit(a, b)` raises AssertionError unless the
      squared moduli add up to 1 within np.isclose's tolerance. */
  method NewQubit(m: MathLib, a: Complex, b: Complex) returns (r: Result<Qubit, InitError>)
    ensures r.Failure? <==> !IsClose(SquaredSum(m, a, b), 1.0)
    ensures r.Failure? ==> r.error == AssertionError
    ensures r.Success? ==> && fresh(r.value) && r.value.lib == m
                           && r.value.ampA == a && r.value.ampB == b
                           && r.value.Valid() && !r.value.isCollapsed
                           && r.value.coords == AmpToCartesian(m, a, b)
  {
    if !IsClose(SquaredSum(m, a, b), 1.0) {
      return Failure(AssertionError);
    }
    var q := new Qubit(m, a, b);
    r := Success(q);
  }

  // ---------------------------------------------------------------------
  // What the matrices and converters do
  // ---------------------------------------------------------------------

  /** The identity matrix of `x` changes no state vector. */
  lemma XIsIdentity(v: StateVec)
    ensures Apply(XMatrix(), v) == v
  {
  }

  /** Python's `abs(z)**2` is the squared modulus. */
  lemma AbsSquaredIsNormSq(m: MathLib, z: Complex)
    requires SqrtLaws(m)
    ensures AbsSquared(m, z) == NormSq(z)
  {
    assert 0.0 <= z.re * z.re && 0.0 <= z.im * z.im;
  }

  /** The construction check accepts exactly the amplitude pairs whose
      total probability lies within 1.001e-5 of 1; in particular |0>, the
      default, is accepted. */
  lemma ConstructionAccepts(m: MathLib, a: Complex, b: Complex)
    requires SqrtLaws(m)
    ensures IsClose(SquaredSum(m, a, b), 1.0) <==> -0.00001001 <= Weight(StateVec(a, b)) - 1.0 <= 0.00001001
    ensures IsClose(SquaredSum(m, ComplexOne, ComplexZero), 1.0)
  {
    AbsSquaredIsNormSq(m, a);
    AbsSquaredIsNormSq(m, b);
    AbsSquaredIsNormSq(m, ComplexOne);
    AbsSquaredIsNormSq(m, ComplexZero);
  }

  /** The factor of the Hadamard matrix squares to one half. */
  lemma HadamardFactor(m: MathLib)
    requires SqrtLaws(m)
    ensures HMatrix(m).m00.re * HMatrix(m).m00.re == 0.5
    ensures HMatrix(m).m00.re == 1.0 / m.sqrt(2.0)
  {
    var root := m.sqrt(2.0);
    assert 0.0 <= root && root * root == 2.0;
    var c := 1.0 / root;
    assert c * root == 1.0;
    calc {
      c * c;
      == (c * c) * (root * root) / 2.0;
      == (c * root) * (c * root) / 2.0;
      == 0.5;
    }
  }

  /** Two real numbers after the Hadamard step, applied twice. */
  lemma HadamardStepTwice(c: real, x: real, y: real)
    requires c * c == 0.5
    ensures c * (c * x + c * y) + c * (c * x - c * y) == x
    ensures c * (c * x + c * y) - c * (c * x - c * y) == y
  {
    calc {
      c * (c * x + c * y) + c * (c * x - c * y);
      == 2.0 * (c * c) * x;
      == x;
    }
    calc {
      c * (c * x + c * y) - c * (c * x - c * y);
      == 2.0 * (c * c) * y;
      == y;
    }
  }

  /** `h` applied twice restores the amplitudes. */
  lemma HadamardInvolutive(m: MathLib, v: StateVec)
    requires SqrtLaws(m)
    ensures Apply(HMatrix(m), Apply(HMatrix(m), v)) == v
  {
    HadamardFactor(m);
    var c := HMatrix(m).m00.re;
    var w := Apply(HMatrix(m), v);
    assert w.a == Complex(c * v.a.re + c * v.b.re, c * v.a.im + c * v.b.im);
    assert w.b == Complex(c * v.a.re - c * v.b.re, c * v.a.im - c * v.b.im);
    HadamardStepTwice(c, v.a.re, v.b.re);
    HadamardStepTwice(c, v.a.im, v.b.im);
  }

  /** The squares of the two Hadamard outputs add up to those of the inputs. */
  lemma HadamardStepWeight(c: real, x: real, y: real)
    requires c * c == 0.5
    ensures (c * x + c * y) * (c * x + c * y) + (c * x - c * y) * (c * x - c * y) == x * x + y * y
  {
    calc {
      (c * x + c * y) * (c * x + c * y) + (c * x - c * y) * (c * x - c * y);
      == 2.0 * (c * c) * (x * x + y * y);
      == x * x + y * y;
    }
  }

  /** `h` preserves |a|^2 + |b|^2. */
  lemma HadamardPreservesWeight(m: MathLib, v: StateVec)
    requires SqrtLaws(m)
    ensures Weight(Apply(HMatrix(m), v)) == Weight(v)
  {
    HadamardFactor(m);
    var c := HMatrix(m).m00.re;
    var w := Apply(HMatrix(m), v);
    assert w.a == Complex(c * v.a.re + c * v.b.re, c * v.a.im + c * v.b.im);
    assert w.b == Complex(c * v.a.re - c * v.b.re, c * v.a.im - c * v.b.im);
    HadamardStepWeight(c, v.a.re, v.b.re);
    HadamardStepWeight(c, v.a.im, v.b.im);
  }

  /** The matrix of `rz` keeps the first amplitude and negates the second,
      for every angle; so `z` applied twice, or any two calls of `rz`,
      restore the amplitudes. */
  lemma RzNegatesSecond(angle: real, other: real, v: StateVec)
    ensures Apply(RzMatrix(angle), v) == StateVec(v.a, Neg(v.b))
    ensures Apply(RzMatrix(other), Apply(RzMatrix(angle), v)) == v
  {
  }

  /** The rotation step on two reals keeps the sum of their squares. */
  lemma RotationStepWeight(c: real, s: real, x: real, y: real, p: real, q: real)
    requires s * s + c * c == 1.0
    requires p == c * x - s * y && q == s * x + c * y
    ensures p * p + q * q == x * x + y * y
  {
    calc {
      p * p + q * q;
      == (c * x - s * y) * (c * x - s * y) + (s * x + c * y) * (s * x + c * y);
      == (s * s + c * c) * (x * x + y * y);
      == x * x + y * y;
    }
  }

  /** A matrix with real entries applied to a state vector, part by part. */
  lemma ApplyRealMatrix(g: Mat2, v: StateVec)
    requires g.m00.im == 0.0 && g.m01.im == 0.0 && g.m10.im == 0.0 && g.m11.im == 0.0
    ensures Apply(g, v).a == Complex(g.m00.re * v.a.re + g.m01.re * v.b.re, g.m00.re * v.a.im + g.m01.re * v.b.im)
    ensures Apply(g, v).b == Complex(g.m10.re * v.a.re + g.m11.re * v.b.re, g.m10.re * v.a.im + g.m11.re * v.b.im)
  {
  }

  /** A real rotation applied to a state vector, part by part. */
  lemma RotationApplied(c: real, s: real, v: StateVec)
    ensures Apply(Rotation(c, s), v)
         == StateVec(Complex(c * v.a.re - s * v.b.re, c * v.a.im - s * v.b.im),
                     Complex(s * v.a.re + c * v.b.re, s * v.a.im + c * v.b.im))
  {
    ApplyRealMatrix(Rotation(c, s), v);
  }

  /** The weight of a state vector from its four real parts. */
  lemma WeightByParts(v: StateVec, x1: real, y1: real, x2: real, y2: real)
    requires v == StateVec(Complex(x1, x2), Complex(y1, y2))
    ensures Weight(v) == (x1 * x1 + y1 * y1) + (x2 * x2 + y2 * y2)
  {
  }

  /** A real rotation with c^2 + s^2 = 1 preserves |a|^2 + |b|^2. */
  lemma RotationPreservesWeight(c: real, s: real, v: StateVec)
    requires s * s + c * c == 1.0
    ensures Weight(Apply(Rotation(c, s), v)) == Weight(v)
  {
    var x1, y1, x2, y2 := v.a.re, v.b.re, v.a.im, v.b.im;
    var p1, q1 := c * x1 - s * y1, s * x1 + c * y1;
    var p2, q2 := c * x2 - s * y2, s * x2 + c * y2;
    RotationApplied(c, s, v);
    RotationStepWeight(c, s, x1, y1, p1, q1);
    RotationStepWeight(c, s, x2, y2, p2, q2);
    WeightByParts(Apply(Rotation(c, s), v), p1, q1, p2, q2);
    WeightByParts(v, x1, y1, x2, y2);
  }

  /** The matrix of `ry` preserves |a|^2 + |b|^2. */
  lemma RyPreservesWeight(m: MathLib, angle: real, v: StateVec)
    requires TrigLaws(m)
    ensures Weight(Apply(RyMatrix(m, angle), v)) == Weight(v)
  {
    var c, s := m.cos(angle / 2.0), m.sin(angle / 2.0);
    assert s * s + c * c == 1.0;
    RotationPreservesWeight(c, s, v);
  }

  /** The rotation step undone by the opposite rotation. */
  lemma RotationStepUndone(c: real, s: real, x: real, y: real, p: real, q: real)
    requires s * s + c * c == 1.0
    requires p == c * x - s * y && q == s * x + c * y
    ensures c * p - (-s) * q == x
    ensures (-s) * p + c * q == y
  {
    calc {
      c * p - (-s) * q;
      == c * (c * x - s * y) + s * (s * x + c * y);
      == (s * s + c * c) * x;
      == x;
    }
    calc {
      (-s) * p + c * q;
      == -s * (c * x - s * y) + c * (s * x + c * y);
      == (s * s + c * c) * y;
      == y;
    }
  }

  /** The rotation by -s undoes the rotation by s. */
  lemma RotationUndone(c: real, s: real, v: StateVec)
    requires s * s + c * c == 1.0
    ensures Apply(Rotation(c, -s), Apply(Rotation(c, s), v)) == v
  {
    var w := Apply(Rotation(c, s), v);
    RotationApplied(c, s, v);
    var u := Apply(Rotation(c, -s), w);
    RotationApplied(c, -s, w);
    RotationStepUndone(c, s, v.a.re, v.b.re, w.a.re, w.b.re);
    RotationStepUndone(c, s, v.a.im, v.b.im, w.a.im, w.b.im);
    assert u.a.re == v.a.re && u.a.im == v.a.im;
    assert u.b.re == v.b.re && u.b.im == v.b.im;
  }

  /** The matrix of `ry` for the opposite angle undoes it. */
  lemma RyUndoneByOpposite(m: MathLib, angle: real, v: StateVec)
    requires TrigLaws(m) && ParityLaws(m)
    ensures Apply(RyMatrix(m, -angle), Apply(RyMatrix(m, angle), v)) == v
  {
    var c, s := m.cos(angle / 2.0), m.sin(angle / 2.0);
    assert s * s + c * c == 1.0;
    assert m.cos(-angle / 2.0) == c && m.sin(-angle / 2.0) == -s;
    RotationUndone(c, s, v);
  }

  /** What `__update` derives for the two basis states `measure` leaves:
      |0> has angles (0, 0) and coordinates (0, 0, 1); |1> has angles
      (pi, 0) and coordinates (0, 0, -1). */
  lemma MeasuredBasisStates(m: MathLib)
    requires TrigLaws(m) && PiLaws(m) && ArccosLaws(m) && PhaseLaws(m)
    ensures AmpToSpherical(m, ComplexOne, ComplexZero) == (0.0, 0.0)
    ensures AmpToCartesian(m, ComplexOne, ComplexOne) == Vec3(0.0, 0.0, 1.0)
    ensures AmpToSpherical(m, ComplexZero, ComplexOne) == (m.pi, 0.0)
    ensures AmpToCartesian(m, ComplexZero, ComplexZero) == Vec3(0.0, 0.0, -1.0)
  {
    assert ComplexOne == Complex(m.cos(0.0), 0.0);
    assert m.arccos(ComplexOne) == 0.0;
    assert ComplexZero == Complex(m.cos(m.pi / 2.0), 0.0);
    assert m.arccos(ComplexZero) == m.pi / 2.0;
    assert m.phase(Complex(1.0, 0.0)) == 0.0;
    assert m.phase(Complex(0.0, 0.0)) == 0.0;
  }

  /** After `__update` the coordinates come from the first amplitude alone:
      phi enters as 0, so they lie on the unit circle of the x-z plane at
      the polar angle theta of the state. */
  lemma UpdatedCoordsOnMeridian(m: MathLib, a: Complex, b: Complex)
    requires TrigLaws(m)
    ensures AmpToCartesian(m, a, a) == Vec3(m.sin(AmpToSpherical(m, a, b).0), 0.0, m.cos(AmpToSpherical(m, a, b).0))
    ensures Dot(AmpToCartesian(m, a, a), AmpToCartesian(m, a, a)) == 1.0
  {
    var th := AmpToSpherical(m, a, b).0;
    assert AmpToSpherical(m, a, a) == (th, 0.0);
    assert m.sin(th) * m.sin(th) + m.cos(th) * m.cos(th) == 1.0;
  }

  /** `spherical_to_amp` yields a normalised state for every pair of angles. */
  lemma SphericalToAmpNormalized(m: MathLib, theta: real, phi: real)
    requires TrigLaws(m)
    ensures Weight(SphericalToAmp(m, theta, phi)) == 1.0
  {
    var c, s := m.cos(theta / 2.0), m.sin(theta / 2.0);
    var cp, sp := m.cos(phi), m.sin(phi);
    assert s * s + c * c == 1.0 && sp * sp + cp * cp == 1.0;
    calc {
      Weight(SphericalToAmp(m, theta, phi));
      == c * c + ((s * cp) * (s * cp) + (s * sp) * (s * sp));
      == c * c + (s * s) * (sp * sp + cp * cp);
      == 1.0;
    }
  }

  /** `amp_to_spherical` inverts `spherical_to_amp` away from the |0> pole:
      for theta in (0, pi] and phi in (-pi, pi] the angles come back. */
  lemma SphericalRoundTrip(m: MathLib, theta: real, phi: real)
    requires TrigLaws(m) && PiLaws(m) && SignLaws(m) && ArccosLaws(m) && PhaseLaws(m)
    requires 0.0 < theta <= m.pi && -m.pi < phi <= m.pi
    ensures AmpToSpherical(m, SphericalToAmp(m, theta, phi).a, SphericalToAmp(m, theta, phi).b) == (theta, phi)
  {
    var h := theta / 2.0;
    assert 0.0 < h <= m.pi / 2.0;
    assert m.arccos(Complex(m.cos(h), 0.0)) == h;
    assert 0.0 <= m.cos(h);
    assert m.phase(Complex(m.cos(h), 0.0)) == 0.0;
    assert 0.0 < m.sin(h);
    assert m.phase(Scale(m.sin(h), ExpI(m, phi))) == phi;
  }

  /** `amp_to_cartesian` of the amplitudes `spherical_to_amp` gives lands on
      `spherical_to_cartesian` of the original angles, away from the pole. */
  lemma AmpToCartesianOfSpherical(m: MathLib, theta: real, phi: real)
    requires TrigLaws(m) && PiLaws(m) && SignLaws(m) && ArccosLaws(m) && PhaseLaws(m)
    requires 0.0 < theta <= m.pi && -m.pi < phi <= m.pi
    ensures AmpToCartesian(m, SphericalToAmp(m, theta, phi).a, SphericalToAmp(m, theta, phi).b)
            == SphericalToCartesian(m, theta, phi)
  {
    SphericalRoundTrip(m, theta, phi);
  }

  /** At the |0> pole (theta = 0) the round trip loses phi: the angles come
      back as (0, 0) whatever phi was. */
  lemma SphericalRoundTripAtPole(m: MathLib, phi: real)
    requires TrigLaws(m) && PiLaws(m) && ArccosLaws(m) && PhaseLaws(m)
    ensures AmpToSpherical(m, SphericalToAmp(m, 0.0, phi).a, SphericalToAmp(m, 0.0, phi).b) == (0.0, 0.0)
  {
    assert SphericalToAmp(m, 0.0, phi) == StateVec(Complex(m.cos(0.0), 0.0), Complex(0.0, 0.0));
    assert m.arccos(Complex(m.cos(0.0), 0.0)) == 0.0;
    assert m.phase(Complex(1.0, 0.0)) == 0.0;
    assert m.phase(Complex(0.0, 0.0)) == 0.0;
  }

  // ---------------------------------------------------------------------
  // The cartesian conversion and the unit sphere
  // ---------------------------------------------------------------------

  /** As written, `spherical_to_cartesian` can leave the unit sphere: the
      normalised state (cos(pi/4), i sin(pi/4)), at theta = phi = pi/2,
      is mapped to the origin, and so are a freshly built qubit's
      coordinates for it. */
  lemma CartesianLeavesSphere(m: MathLib)
    requires TrigLaws(m) && PiLaws(m) && SignLaws(m) && ArccosLaws(m) && PhaseLaws(m)
    ensures SphericalToCartesian(m, m.pi / 2.0, m.pi / 2.0) == Vec3(0.0, 0.0, 0.0)
    ensures Weight(SphericalToAmp(m, m.pi / 2.0, m.pi / 2.0)) == 1.0
    ensures AmpToCartesian(m, SphericalToAmp(m, m.pi / 2.0, m.pi / 2.0).a,
                              SphericalToAmp(m, m.pi / 2.0, m.pi / 2.0).b) == Vec3(0.0, 0.0, 0.0)
  {
    SphericalToAmpNormalized(m, m.pi / 2.0, m.pi / 2.0);
    SphericalRoundTrip(m, m.pi / 2.0, m.pi / 2.0);
  }

  /** The conversion with the standard y = sin(theta) sin(phi). */
  function SphericalToCartesianOnSphere(m: MathLib, theta: real, phi: real): Vec3 {
    Vec3(m.sin(theta) * m.cos(phi), m.sin(theta) * m.sin(phi), m.cos(theta))
  }

  /** With the standard y coordinate every pair of angles lands on the unit
      sphere. */
  lemma SphericalToCartesianOnSphereIsUnit(m: MathLib, theta: real, phi: real)
    requires TrigLaws(m)
    ensures Dot(SphericalToCartesianOnSphere(m, theta, phi), SphericalToCartesianOnSphere(m, theta, phi)) == 1.0
  {
    var st, ct := m.sin(theta), m.cos(theta);
    var sp, cp := m.sin(phi), m.cos(phi);
    assert st * st + ct * ct == 1.0 && sp * sp + cp * cp == 1.0;
    calc {
      Dot(SphericalToCartesianOnSphere(m, theta, phi), SphericalToCartesianOnSphere(m, theta, phi));
      == (st * cp) * (st * cp) + (st * sp) * (st * sp) + ct * ct;
      == (st * st) * (sp * sp + cp * cp) + ct * ct;
      == 1.0;
    }
  }
}
