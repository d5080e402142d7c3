/** Spherical interpolation between two 3-vectors, with the fallbacks for
    the cases where the great-circle path is undefined: a zero vector or
    nearly parallel vectors fall back to linear interpolation, nearly
    antiparallel vectors go through an intermediate point on a named axis,
    and everything else is standard SLERP whose magnitude is interpolated
    linearly. All functions are pure. */
module VectorUtils {
  import opened Numerics

  /** Lengths below this count as zero (1e-10). */
  const Epsilon: real := 0.0000000001

  /** A clamped dot product beyond this in absolute value counts as
      parallel or antiparallel. */
  const ParallelThreshold: real := 0.9995

  function Min(x: real, y: real): real {
    if x <= y then x else y
  }

  function Max(x: real, y: real): real {
    if x >= y then x else y
  }

  /** math.sqrt(x*x + y*y + z*z). */
  function Magnitude(m: MathLib, v: Vec3): real {
    m.sqrt(Dot(v, v))
  }

  /** `_normalize_vector`: the zero vector when the length is below
      Epsilon, otherwise the vector divided by its length. */
  function NormalizeVector(m: MathLib, v: Vec3): Vec3 {
    var length := Magnitude(m, v);
    if length < Epsilon then Vec3(0.0, 0.0, 0.0)
    else Vec3(v.x / length, v.y / length, v.z / length)
  }

  /** Componentwise start + (end - start) * t. */
  function Lerp(start: Vec3, end: Vec3, t: real): Vec3 {
    Vec3(start.x + (end.x - start.x) * t,
         start.y + (end.y - start.y) * t,
         start.z + (end.z - start.z) * t)
  }

  /** max(-1.0, min(1.0, d)): the nearest point of [-1, 1]. */
  function Clamp(d: real): (r: real)
    ensures -1.0 <= r <= 1.0
    ensures -1.0 <= d <= 1.0 ==> r == d
    ensures d < -1.0 ==> r == -1.0
    ensures 1.0 < d ==> r == 1.0
  {
    Max(-1.0, Min(1.0, d))
  }

  /** The intermediate point for antiparallel vectors, chosen by name: the
      unit x axis for "x", the unit y axis for "y", the unit z axis for any
      other name. */
  function ViaPoint(axis: string): (p: Vec3)
    ensures Dot(p, p) == 1.0 && IsAxis(p)
    ensures axis == "x" ==> p == Vec3(1.0, 0.0, 0.0)
    ensures axis == "y" ==> p == Vec3(0.0, 1.0, 0.0)
    ensures axis != "x" && axis != "y" ==> p == Vec3(0.0, 0.0, 1.0)
  {
    if axis == "x" then Vec3(1.0, 0.0, 0.0)
    else if axis == "y" then Vec3(0.0, 1.0, 0.0)
    else Vec3(0.0, 0.0, 1.0)
  }

  /** One of the three unit axes. */
  predicate IsAxis(p: Vec3) {
    p == Vec3(1.0, 0.0, 0.0) || p == Vec3(0.0, 1.0, 0.0) || p == Vec3(0.0, 0.0, 1.0)
  }

  /** The angle `_slerp_standard` works with. */
  function SlerpAngle(m: MathLib, s: Vec3, e: Vec3): real {
    m.acos(Clamp(Dot(s, e)))
  }

  /** `_slerp_standard` falls back to scaling the start direction when the
      sine of the angle is below Epsilon in absolute value. */
  predicate SineVanishes(m: MathLib, s: Vec3, e: Vec3) {
    Abs(m.sin(SlerpAngle(m, s, e))) < Epsilon
  }

  /** `_slerp_standard`: SLERP of the directions s and e, scaled by the
      magnitude interpolated linearly from startMag to endMag. */
  function SlerpStandard(m: MathLib, s: Vec3, e: Vec3, t: real, startMag: real, endMag: real): Vec3 {
    var theta := SlerpAngle(m, s, e);
    var sinTheta := m.sin(theta);
    var resultMag := startMag + (endMag - startMag) * t;
    if Abs(sinTheta) < Epsilon then
      Vec3(s.x * resultMag, s.y * resultMag, s.z * resultMag)
    else
      var a := m.sin((1.0 - t) * theta) / sinTheta;
      var b := m.sin(t * theta) / sinTheta;
      Vec3((a * s.x + b * e.x) * resultMag,
           (a * s.y + b * e.y) * resultMag,
           (a * s.z + b * e.z) * resultMag)
  }

  /** The case `slerp_via_axis` routes through an intermediate point: both
      vectors have a length of at least Epsilon and the clamped dot
      product of their directions is below -ParallelThreshold. */
  predicate Antiparallel(m: MathLib, start: Vec3, end: Vec3) {
    && Magnitude(m, start) >= Epsilon && Magnitude(m, end) >= Epsilon
    && Clamp(Dot(NormalizeVector(m, start), NormalizeVector(m, end))) < -ParallelThreshold
  }

  /** The case analysis of `slerp_via_axis`, given the intermediate point
      `mid` that the antiparallel case goes through. */
  function SlerpVia(m: MathLib, start: Vec3, end: Vec3, t: real, mid: Vec3): Vec3 {
    var s := NormalizeVector(m, start);
    var e := NormalizeVector(m, end);
    var startMag := Magnitude(m, start);
    var endMag := Magnitude(m, end);
    if startMag < Epsilon || endMag < Epsilon then
      Lerp(start, end, t)
    else
      var dot := Clamp(Dot(s, e));
      if Abs(dot) > ParallelThreshold then
        if dot < 0.0 then
          if t < 0.5 then SlerpStandard(m, s, mid, t * 2.0, startMag, startMag)
          else SlerpStandard(m, mid, e, (t - 0.5) * 2.0, endMag, endMag)
        else
          Lerp(start, end, t)
      else
        SlerpStandard(m, s, e, t, startMag, endMag)
  }

  /** `slerp_via_axis` (whose default axis name is "x"): the antiparallel
      case goes through the unit axis the name selects. */
  function SlerpViaAxis(m: MathLib, start: Vec3, end: Vec3, t: real, viaAxis: string): Vec3 {
    SlerpVia(m, start, end, t, ViaPoint(viaAxis))
  }

  // ---------------------------------------------------------------------
  // Normalisation
  // ---------------------------------------------------------------------

  /** Dividing each component by the length gives a unit vector. */
  lemma DividedByLengthIsUnit(v: Vec3, length: real)
    requires 0.0 < length && length * length == Dot(v, v)
    ensures Dot(Vec3(v.x / length, v.y / length, v.z / length), Vec3(v.x / length, v.y / length, v.z / length)) == 1.0
  {
    var u := Vec3(v.x / length, v.y / length, v.z / length);
    assert u.x * length == v.x && u.y * length == v.y && u.z * length == v.z;
    calc {
      Dot(u, u) * (length * length);
      == (u.x * length) * (u.x * length) + (u.y * length) * (u.y * length) + (u.z * length) * (u.z * length);
      == Dot(v, v);
      == 1.0 * (length * length);
    }
  }

  /** `_normalize_vector` returns the zero vector for a length below
      Epsilon, and otherwise a unit vector that the length scales back to
      the input. */
  lemma NormalizeVectorSpec(m: MathLib, v: Vec3)
    requires SqrtLaws(m)
    ensures Magnitude(m, v) < Epsilon ==> NormalizeVector(m, v) == Vec3(0.0, 0.0, 0.0)
    ensures Magnitude(m, v) >= Epsilon ==>
      && Dot(NormalizeVector(m, v), NormalizeVector(m, v)) == 1.0
      && Scale3(Magnitude(m, v), NormalizeVector(m, v)) == v
  {
    var length := Magnitude(m, v);
    assert 0.0 <= Dot(v, v) by {
      assert 0.0 <= v.x * v.x && 0.0 <= v.y * v.y && 0.0 <= v.z * v.z;
    }
    assert 0.0 <= length && length * length == Dot(v, v);
    if length >= Epsilon {
      DividedByLengthIsUnit(v, length);
    }
  }

  // ---------------------------------------------------------------------
  // Endpoints of `_slerp_standard`
  // ---------------------------------------------------------------------

  /** At t = 0 `_slerp_standard` returns the start direction scaled by the
      start magnitude, in both of its branches. */
  lemma SlerpStandardAtZero(m: MathLib, s: Vec3, e: Vec3, startMag: real, endMag: real)
    requires m.sin(0.0) == 0.0
    ensures SlerpStandard(m, s, e, 0.0, startMag, endMag) == Scale3(startMag, s)
  {
    var theta := SlerpAngle(m, s, e);
    assert (1.0 - 0.0) * theta == theta && 0.0 * theta == 0.0;
  }

  /** At t = 1 `_slerp_standard` returns the end direction scaled by the end
      magnitude, unless the sine of the angle vanishes, in which case it
      returns the start direction scaled by the end magnitude. */
  lemma SlerpStandardAtOne(m: MathLib, s: Vec3, e: Vec3, startMag: real, endMag: real)
    requires m.sin(0.0) == 0.0
    ensures SlerpStandard(m, s, e, 1.0, startMag, endMag)
         == if SineVanishes(m, s, e) then Scale3(endMag, s) else Scale3(endMag, e)
  {
    var theta := SlerpAngle(m, s, e);
    assert (1.0 - 1.0) * theta == 0.0 && 1.0 * theta == theta;
  }

  /** When the sine of the angle vanishes, `_slerp_standard` ignores the
      end direction: it returns the start direction scaled by the
      interpolated magnitude. */
  lemma SlerpStandardDegenerate(m: MathLib, s: Vec3, e: Vec3, t: real, startMag: real, endMag: real)
    requires SineVanishes(m, s, e)
    ensures SlerpStandard(m, s, e, t, startMag, endMag) == Scale3(startMag + (endMag - startMag) * t, s)
  {
  }

  // ---------------------------------------------------------------------
  // Scalar facts
  // ---------------------------------------------------------------------

  /** The square of a real equals the square of its absolute value. */
  lemma SquareOfAbs(x: real)
    ensures Abs(x) * Abs(x) == x * x
  {
    if x < 0.0 {
      assert Abs(x) == -x;
    }
  }

  /** A real whose square plus a square of at most ParallelThreshold^2 is
      1 is at least Epsilon, if it is not negative. */
  lemma CosineFarFromOne(x: real, d: real)
    requires 0.0 <= x && x * x + d * d == 1.0
    requires Abs(d) <= ParallelThreshold
    ensures x >= Epsilon
  {
    SquareIncreasing(Abs(d), ParallelThreshold);
    SquareOfAbs(d);
    if x < Epsilon {
      SquareStrictlyIncreasing(x, Epsilon);
      assert false;
    }
  }

  /** Away from the parallel threshold, the sine of the SLERP angle stays
      far above Epsilon. */
  lemma SineAwayFromParallel(m: MathLib, d: real)
    requires TrigLaws(m) && AcosLaws(m)
    requires Abs(d) <= ParallelThreshold
    ensures Abs(m.sin(m.acos(d))) >= Epsilon
  {
    var angle := m.acos(d);
    assert m.cos(angle) == d && 0.0 <= m.sin(angle);
    var x := m.sin(angle);
    assert x * x + m.cos(angle) * m.cos(angle) == 1.0;
    CosineFarFromOne(x, d);
  }

  /** In a unit vector, a component above 0.9 in absolute value leaves
      every other component at most 0.9 in absolute value. */
  lemma OtherComponentSmall(a: real, b: real, c: real)
    requires a * a + b * b + c * c == 1.0
    requires Abs(a) > 0.9
    ensures Abs(b) <= 0.9
  {
    SquareStrictlyIncreasing(0.9, Abs(a));
    SquareOfAbs(a);
    assert 0.0 <= c * c;
    if Abs(b) > 0.9 {
      SquareStrictlyIncreasing(0.9, Abs(b));
      SquareOfAbs(b);
      assert false;
    }
  }

  /** A vector of squared length below 0.001 has every component below
      0.04 in absolute value. */
  lemma ComponentOfShortVector(a: real, b: real, c: real)
    requires a * a + b * b + c * c < 0.001
    ensures Abs(a) < 0.04
  {
    assert 0.0 <= b * b && 0.0 <= c * c;
    if Abs(a) >= 0.04 {
      SquareIncreasing(0.04, Abs(a));
      SquareOfAbs(a);
      assert false;
    }
  }

  /** (a + b)^2 expanded. */
  lemma SquareOfSum(a: real, b: real)
    ensures (a + b) * (a + b) == a * a + 2.0 * (a * b) + b * b
  {
  }

  // ---------------------------------------------------------------------
  // The dispatcher
  // ---------------------------------------------------------------------

  /** A zero vector or nearly parallel directions give the linear
      interpolation of the inputs themselves, whatever the intermediate
      point. */
  lemma SlerpViaLinearCases(m: MathLib, start: Vec3, end: Vec3, t: real, mid: Vec3)
    requires || Magnitude(m, start) < Epsilon || Magnitude(m, end) < Epsilon
             || Clamp(Dot(NormalizeVector(m, start), NormalizeVector(m, end))) > ParallelThreshold
    ensures SlerpVia(m, start, end, t, mid) == Lerp(start, end, t)
  {
  }

  /** The same for the axis `slerp_via_axis` selects by name. */
  lemma SlerpViaAxisLinearCases(m: MathLib, start: Vec3, end: Vec3, t: real, viaAxis: string)
    requires || Magnitude(m, start) < Epsilon || Magnitude(m, end) < Epsilon
             || Clamp(Dot(NormalizeVector(m, start), NormalizeVector(m, end))) > ParallelThreshold
    ensures SlerpViaAxis(m, start, end, t, viaAxis) == Lerp(start, end, t)
  {
    SlerpViaLinearCases(m, start, end, t, ViaPoint(viaAxis));
  }

  /** Nearly antiparallel directions go through the intermediate point in
      two halves: the first from the start direction at the start
      magnitude, the second to the end direction at the end magnitude,
      each with its own parameter running from 0 to 1. */
  lemma SlerpViaAntiparallelHalves(m: MathLib, start: Vec3, end: Vec3, t: real, mid: Vec3)
    requires Antiparallel(m, start, end)
    ensures t < 0.5 ==>
      (SlerpVia(m, start, end, t, mid)
       == SlerpStandard(m, NormalizeVector(m, start), mid, t * 2.0, Magnitude(m, start), Magnitude(m, start)))
    ensures 0.5 <= t ==>
      (SlerpVia(m, start, end, t, mid)
       == SlerpStandard(m, mid, NormalizeVector(m, end), (t - 0.5) * 2.0, Magnitude(m, end), Magnitude(m, end)))
  {
  }

  /** The same two halves for the axis that `slerp_via_axis` selects by
      name. */
  lemma SlerpViaAxisAntiparallelHalves(m: MathLib, start: Vec3, end: Vec3, t: real, viaAxis: string)
    requires Antiparallel(m, start, end)
    ensures t < 0.5 ==>
      (SlerpViaAxis(m, start, end, t, viaAxis)
       == SlerpStandard(m, NormalizeVector(m, start), ViaPoint(viaAxis), t * 2.0, Magnitude(m, start), Magnitude(m, start)))
    ensures 0.5 <= t ==>
      (SlerpViaAxis(m, start, end, t, viaAxis)
       == SlerpStandard(m, ViaPoint(viaAxis), NormalizeVector(m, end), (t - 0.5) * 2.0, Magnitude(m, end), Magnitude(m, end)))
  {
    SlerpViaAntiparallelHalves(m, start, end, t, ViaPoint(viaAxis));
  }

  /** In every other case the directions go to `_slerp_standard` with both
      original magnitudes. */
  lemma SlerpViaAxisStandardCase(m: MathLib, start: Vec3, end: Vec3, t: real, viaAxis: string)
    requires Magnitude(m, start) >= Epsilon && Magnitude(m, end) >= Epsilon
    requires Abs(Clamp(Dot(NormalizeVector(m, start), NormalizeVector(m, end)))) <= ParallelThreshold
    ensures SlerpViaAxis(m, start, end, t, viaAxis)
      == SlerpStandard(m, NormalizeVector(m, start), NormalizeVector(m, end), t, Magnitude(m, start), Magnitude(m, end))
  {
  }

  /** Every path starts at the start vector: t = 0 gives `start` in each
      case, whatever the intermediate point. */
  lemma SlerpViaAtZero(m: MathLib, start: Vec3, end: Vec3, mid: Vec3)
    requires SqrtLaws(m) && TrigLaws(m)
    ensures SlerpVia(m, start, end, 0.0, mid) == start
  {
    var s, e := NormalizeVector(m, start), NormalizeVector(m, end);
    var startMag, endMag := Magnitude(m, start), Magnitude(m, end);
    NormalizeVectorSpec(m, start);
    if startMag >= Epsilon && endMag >= Epsilon {
      assert 0.0 * 2.0 == 0.0;
      SlerpStandardAtZero(m, s, mid, startMag, startMag);
      SlerpStandardAtZero(m, s, e, startMag, endMag);
    }
  }

  /** t = 1 gives `end` in each case but one: in the antiparallel case,
      when the sine between the intermediate point and the end direction
      vanishes, the path ends at the intermediate point scaled by the end
      magnitude. */
  lemma SlerpViaAtOne(m: MathLib, start: Vec3, end: Vec3, mid: Vec3)
    requires SqrtLaws(m) && TrigLaws(m) && AcosLaws(m)
    ensures SlerpVia(m, start, end, 1.0, mid)
         == if Antiparallel(m, start, end) && SineVanishes(m, mid, NormalizeVector(m, end))
            then Scale3(Magnitude(m, end), mid) else end
  {
    var s, e := NormalizeVector(m, start), NormalizeVector(m, end);
    var startMag, endMag := Magnitude(m, start), Magnitude(m, end);
    NormalizeVectorSpec(m, end);
    if startMag >= Epsilon && endMag >= Epsilon {
      var dot := Clamp(Dot(s, e));
      if Abs(dot) > ParallelThreshold && dot < 0.0 {
        assert (1.0 - 0.5) * 2.0 == 1.0;
        SlerpStandardAtOne(m, mid, e, endMag, endMag);
      } else if Abs(dot) <= ParallelThreshold {
        SineAwayFromParallel(m, dot);
        SlerpStandardAtOne(m, s, e, startMag, endMag);
      }
    }
  }

  /** `slerp_via_axis` starts at `start`, and ends at `end` whenever the
      directions are not nearly antiparallel. */
  lemma SlerpViaAxisAtEndpoints(m: MathLib, start: Vec3, end: Vec3, viaAxis: string)
    requires SqrtLaws(m) && TrigLaws(m) && AcosLaws(m)
    ensures SlerpViaAxis(m, start, end, 0.0, viaAxis) == start
    ensures !Antiparallel(m, start, end) ==> SlerpViaAxis(m, start, end, 1.0, viaAxis) == end
  {
    SlerpViaAtZero(m, start, end, ViaPoint(viaAxis));
    SlerpViaAtOne(m, start, end, ViaPoint(viaAxis));
  }

  /** In the antiparallel case the first half, run to its end, reaches the
      intermediate point scaled by the start magnitude, and the second half
      starts (at t = 0.5) from it scaled by the end magnitude: the path
      passes the intermediate point, and the halves meet exactly when both
      inputs have the same length. */
  lemma AntiparallelHalvesMeet(m: MathLib, start: Vec3, end: Vec3, mid: Vec3)
    requires TrigLaws(m)
    requires Antiparallel(m, start, end)
    requires !SineVanishes(m, NormalizeVector(m, start), mid)
    ensures SlerpStandard(m, NormalizeVector(m, start), mid, 1.0, Magnitude(m, start), Magnitude(m, start))
         == Scale3(Magnitude(m, start), mid)
    ensures SlerpVia(m, start, end, 0.5, mid) == Scale3(Magnitude(m, end), mid)
  {
    var startMag, endMag := Magnitude(m, start), Magnitude(m, end);
    SlerpStandardAtOne(m, NormalizeVector(m, start), mid, startMag, startMag);
    assert (0.5 - 0.5) * 2.0 == 0.0;
    SlerpStandardAtZero(m, mid, NormalizeVector(m, end), endMag, endMag);
  }

  // ---------------------------------------------------------------------
  // Worked inputs
  // ---------------------------------------------------------------------

  /** Opposite directions of length 1 pass the intermediate point at
      t = 0.5. */
  lemma OppositeUnitsMeetMid(m: MathLib, start: Vec3, end: Vec3, mid: Vec3)
    requires Magnitude(m, start) == 1.0 && Magnitude(m, end) == 1.0
    requires NormalizeVector(m, start) == start && NormalizeVector(m, end) == end
    requires Dot(start, end) == -1.0
    requires m.sin(0.0) == 0.0
    ensures SlerpVia(m, start, end, 0.5, mid) == mid
  {
    assert Clamp(Dot(start, end)) == -1.0;
    SlerpViaAntiparallelHalves(m, start, end, 0.5, mid);
    assert (0.5 - 0.5) * 2.0 == 0.0;
    SlerpStandardAtZero(m, mid, end, 1.0, 1.0);
  }

  /** From (1, 0, 0) to (-1, 0, 0), the path is at the intermediate point
      at t = 0.5. */
  lemma OppositeVectorsMeetMid(m: MathLib, start: Vec3, end: Vec3, mid: Vec3)
    requires SpecialValues(m)
    requires start == Vec3(1.0, 0.0, 0.0) && end == Vec3(-1.0, 0.0, 0.0)
    ensures SlerpVia(m, start, end, 0.5, mid) == mid
  {
    assert Dot(start, start) == 1.0 && Dot(end, end) == 1.0;
    assert NormalizeVector(m, start) == start && NormalizeVector(m, end) == end;
    OppositeUnitsMeetMid(m, start, end, mid);
  }

  /** Worked input: from (1, 0, 0) to (-1, 0, 0) through "y", the path is
      at (0, 1, 0) at t = 0.5. */
  lemma OppositeVectorsMeetAxis(m: MathLib, start: Vec3, end: Vec3, viaAxis: string)
    requires SpecialValues(m)
    requires start == Vec3(1.0, 0.0, 0.0) && end == Vec3(-1.0, 0.0, 0.0) && viaAxis == "y"
    ensures SlerpViaAxis(m, start, end, 0.5, viaAxis) == Vec3(0.0, 1.0, 0.0)
  {
    OppositeVectorsMeetMid(m, start, end, ViaPoint(viaAxis));
  }

  /** A zero start interpolates linearly: halfway from (0, 0, 0) to
      (1, 0, 0) is (0.5, 0, 0) whatever the intermediate point. */
  lemma ZeroStartInterpolatesLinearlyVia(m: MathLib, start: Vec3, end: Vec3, mid: Vec3)
    requires SpecialValues(m)
    requires start == Vec3(0.0, 0.0, 0.0) && end == Vec3(1.0, 0.0, 0.0)
    ensures SlerpVia(m, start, end, 0.5, mid) == Vec3(0.5, 0.0, 0.0)
  {
    assert Magnitude(m, start) == 0.0;
    SlerpViaLinearCases(m, start, end, 0.5, mid);
  }

  /** Worked input: the same through `slerp_via_axis`, whatever the axis
      name. */
  lemma ZeroStartInterpolatesLinearly(m: MathLib, start: Vec3, end: Vec3, viaAxis: string)
    requires SpecialValues(m)
    requires start == Vec3(0.0, 0.0, 0.0) && end == Vec3(1.0, 0.0, 0.0)
    ensures SlerpViaAxis(m, start, end, 0.5, viaAxis) == Vec3(0.5, 0.0, 0.0)
  {
    ZeroStartInterpolatesLinearlyVia(m, start, end, ViaPoint(viaAxis));
  }

  // ---------------------------------------------------------------------
  // An intermediate axis parallel to the endpoints
  // ---------------------------------------------------------------------

  /** When the sine of the angle vanishes, `_slerp_standard` with equal
      magnitudes stays at the scaled start direction for every t. */
  lemma SlerpStandardStuck(m: MathLib, s: Vec3, e: Vec3, t: real, mag: real)
    requires SineVanishes(m, s, e)
    ensures SlerpStandard(m, s, e, t, mag, mag) == Scale3(mag, s)
  {
    SlerpStandardDegenerate(m, s, e, t, mag, mag);
    assert mag + (mag - mag) * t == mag;
  }

  /** As written, opposite directions of length 1 through an intermediate
      point equal to the start direction never leave the start. */
  lemma OppositeUnitsStuckAtStart(m: MathLib, start: Vec3, end: Vec3, t: real)
    requires Magnitude(m, start) == 1.0 && Magnitude(m, end) == 1.0
    requires NormalizeVector(m, start) == start && NormalizeVector(m, end) == end
    requires Dot(start, start) == 1.0 && Dot(start, end) == -1.0
    requires m.acos(1.0) == 0.0 && m.sin(0.0) == 0.0
    requires m.sin(m.acos(-1.0)) == 0.0
    ensures SlerpVia(m, start, end, t, start) == start
  {
    assert Clamp(Dot(start, end)) == -1.0;
    SlerpViaAntiparallelHalves(m, start, end, t, start);
    if t < 0.5 {
      assert Clamp(Dot(start, start)) == 1.0;
      SlerpStandardStuck(m, start, start, t * 2.0, 1.0);
    } else {
      SlerpStandardStuck(m, start, end, (t - 0.5) * 2.0, 1.0);
    }
  }

  /** Through (1, 0, 0), the path from (1, 0, 0) to (-1, 0, 0) is (1, 0, 0)
      for every t. */
  lemma SlerpStuckOnParallelMid(m: MathLib, start: Vec3, end: Vec3, t: real)
    requires SpecialValues(m)
    requires start == Vec3(1.0, 0.0, 0.0) && end == Vec3(-1.0, 0.0, 0.0)
    ensures SlerpVia(m, start, end, t, start) == start
  {
    assert Dot(start, start) == 1.0 && Dot(end, end) == 1.0;
    assert NormalizeVector(m, start) == start && NormalizeVector(m, end) == end;
    OppositeUnitsStuckAtStart(m, start, end, t);
  }

  /** `slerp_via_axis((1,0,0), (-1,0,0), t, 'x')` is (1, 0, 0) for every
      t: at t = 1 the path has not reached the end (-1, 0, 0). */
  lemma SlerpStuckOnParallelAxis(m: MathLib, start: Vec3, end: Vec3, t: real, viaAxis: string)
    requires SpecialValues(m)
    requires start == Vec3(1.0, 0.0, 0.0) && end == Vec3(-1.0, 0.0, 0.0) && viaAxis == "x"
    ensures SlerpViaAxis(m, start, end, t, viaAxis) == start
    ensures t == 1.0 ==> SlerpViaAxis(m, start, end, t, viaAxis) != end
  {
    assert ViaPoint(viaAxis) == start;
    SlerpStuckOnParallelMid(m, start, end, t);
  }

  /** As written, opposite directions of length 1 through an intermediate
      point equal to the end direction stay at the start for the first
      half and jump to the end at t = 0.5. */
  lemma OppositeUnitsJumpAtHalf(m: MathLib, start: Vec3, end: Vec3, t: real)
    requires Magnitude(m, start) == 1.0 && Magnitude(m, end) == 1.0
    requires NormalizeVector(m, start) == start && NormalizeVector(m, end) == end
    requires Dot(end, end) == 1.0 && Dot(start, end) == -1.0
    requires m.acos(1.0) == 0.0 && m.sin(0.0) == 0.0
    requires m.sin(m.acos(-1.0)) == 0.0
    ensures t < 0.5 ==> SlerpVia(m, start, end, t, end) == start
    ensures 0.5 <= t ==> SlerpVia(m, start, end, t, end) == end
  {
    assert Clamp(Dot(start, end)) == -1.0;
    SlerpViaAntiparallelHalves(m, start, end, t, end);
    if t < 0.5 {
      SlerpStandardStuck(m, start, end, t * 2.0, 1.0);
    } else {
      assert Clamp(Dot(end, end)) == 1.0;
      SlerpStandardStuck(m, end, end, (t - 0.5) * 2.0, 1.0);
    }
  }

  /** Through (1, 0, 0), the path from (-1, 0, 0) to (1, 0, 0) jumps from
      the start to the end at t = 0.5. */
  lemma SlerpJumpsOnParallelMid(m: MathLib, start: Vec3, end: Vec3, t: real)
    requires SpecialValues(m)
    requires start == Vec3(-1.0, 0.0, 0.0) && end == Vec3(1.0, 0.0, 0.0)
    ensures SlerpVia(m, start, end, t, end) == if t < 0.5 then start else end
  {
    assert Dot(start, start) == 1.0 && Dot(end, end) == 1.0;
    assert NormalizeVector(m, start) == start && NormalizeVector(m, end) == end;
    OppositeUnitsJumpAtHalf(m, start, end, t);
  }

  /** `slerp_via_axis((-1,0,0), (1,0,0), t, 'x')` is (-1, 0, 0) for every t
      below 0.5 and (1, 0, 0) from t = 0.5 on: the path jumps instead of
      turning through an axis. */
  lemma SlerpJumpsOnParallelAxis(m: MathLib, start: Vec3, end: Vec3, t: real, viaAxis: string)
    requires SpecialValues(m)
    requires start == Vec3(-1.0, 0.0, 0.0) && end == Vec3(1.0, 0.0, 0.0) && viaAxis == "x"
    ensures SlerpViaAxis(m, start, end, t, viaAxis) == if t < 0.5 then start else end
  {
    assert ViaPoint(viaAxis) == end;
    SlerpJumpsOnParallelMid(m, start, end, t);
  }

  /** The axis after `named`: x to y, y to z, z to x. */
  function NextAxis(named: Vec3): (p: Vec3)
    requires IsAxis(named)
    ensures IsAxis(p) && p != named
  {
    if named == Vec3(1.0, 0.0, 0.0) then Vec3(0.0, 1.0, 0.0)
    else if named == Vec3(0.0, 1.0, 0.0) then Vec3(0.0, 0.0, 1.0)
    else Vec3(1.0, 0.0, 0.0)
  }

  /** The axis `named`, or the next one when `named` lies within about 26
      degrees of the direction s. */
  function AxisAwayFrom(s: Vec3, named: Vec3): Vec3
    requires IsAxis(named)
  {
    if Abs(Dot(s, named)) <= 0.9 then named else NextAxis(named)
  }

  /** The named axis, or the next one when the named axis lies within
      about 26 degrees of the start direction s. */
  function SafeViaPoint(s: Vec3, axis: string): Vec3 {
    AxisAwayFrom(s, ViaPoint(axis))
  }

  /** The components of an axis: its dot product with v picks one
      component of v. */
  lemma DotWithAxis(mid: Vec3, v: Vec3)
    requires IsAxis(mid)
    ensures mid == Vec3(1.0, 0.0, 0.0) ==> Dot(mid, v) == v.x == Dot(v, mid)
    ensures mid == Vec3(0.0, 1.0, 0.0) ==> Dot(mid, v) == v.y == Dot(v, mid)
    ensures mid == Vec3(0.0, 0.0, 1.0) ==> Dot(mid, v) == v.z == Dot(v, mid)
  {
  }

  /** When an axis lies within about 26 degrees of a unit direction, the
      next axis does not. */
  lemma NextAxisAwayFromStart(s: Vec3, named: Vec3)
    requires Dot(s, s) == 1.0
    requires IsAxis(named) && Abs(Dot(s, named)) > 0.9
    ensures Abs(Dot(s, NextAxis(named))) <= 0.9
  {
    var next := NextAxis(named);
    DotWithAxis(named, s);
    DotWithAxis(next, s);
    if named == Vec3(1.0, 0.0, 0.0) {
      assert next == Vec3(0.0, 1.0, 0.0);
      OtherComponentSmall(s.x, s.y, s.z);
    } else if named == Vec3(0.0, 1.0, 0.0) {
      assert next == Vec3(0.0, 0.0, 1.0);
      OtherComponentSmall(s.y, s.z, s.x);
    } else {
      assert next == Vec3(1.0, 0.0, 0.0);
      OtherComponentSmall(s.z, s.x, s.y);
    }
  }

  /** For a unit direction the chosen axis is never within about 26
      degrees of it. */
  lemma AxisAwayFromStart(s: Vec3, named: Vec3)
    requires Dot(s, s) == 1.0
    requires IsAxis(named)
    ensures IsAxis(AxisAwayFrom(s, named))
    ensures Abs(Dot(s, AxisAwayFrom(s, named))) <= 0.9
  {
    if Abs(Dot(s, named)) > 0.9 {
      NextAxisAwayFromStart(s, named);
    }
  }

  /** `slerp_via_axis` with the axis chosen away from the start direction. */
  function SlerpViaSafeAxis(m: MathLib, start: Vec3, end: Vec3, t: real, viaAxis: string): Vec3 {
    SlerpVia(m, start, end, t, SafeViaPoint(NormalizeVector(m, start), viaAxis))
  }

  /** Componentwise sum. */
  function Sum3(u: Vec3, v: Vec3): Vec3 {
    Vec3(u.x + v.x, u.y + v.y, u.z + v.z)
  }

  /** The dot product distributes over a sum. */
  lemma DotOfSum(p: Vec3, u: Vec3, v: Vec3)
    ensures Dot(p, Sum3(u, v)) == Dot(p, u) + Dot(p, v)
  {
  }

  /** Nearly opposite unit vectors sum to a short vector. */
  lemma NearlyOppositeSumShort(s: Vec3, e: Vec3)
    requires Dot(s, s) == 1.0 && Dot(e, e) == 1.0
    requires Dot(s, e) < -ParallelThreshold
    ensures Dot(Sum3(s, e), Sum3(s, e)) < 0.001
  {
    SquareOfSum(s.x, e.x);
    SquareOfSum(s.y, e.y);
    SquareOfSum(s.z, e.z);
  }

  /** An axis has a dot product below 0.04 in absolute value with a vector
      of squared length below 0.001. */
  lemma AxisOfShortVector(mid: Vec3, w: Vec3)
    requires IsAxis(mid) && Dot(w, w) < 0.001
    ensures Abs(Dot(mid, w)) < 0.04
  {
    DotWithAxis(mid, w);
    if mid == Vec3(1.0, 0.0, 0.0) {
      ComponentOfShortVector(w.x, w.y, w.z);
    } else if mid == Vec3(0.0, 1.0, 0.0) {
      ComponentOfShortVector(w.y, w.z, w.x);
    } else {
      ComponentOfShortVector(w.z, w.x, w.y);
    }
  }

  /** Nearly opposite unit directions: an axis far from one is far from the
      other. */
  lemma AxisAwayFromEnd(s: Vec3, e: Vec3, mid: Vec3)
    requires Dot(s, s) == 1.0 && Dot(e, e) == 1.0
    requires Dot(s, e) < -ParallelThreshold
    requires IsAxis(mid) && Abs(Dot(s, mid)) <= 0.9
    ensures Abs(Dot(mid, e)) <= ParallelThreshold
  {
    NearlyOppositeSumShort(s, e);
    AxisOfShortVector(mid, Sum3(s, e));
    DotOfSum(mid, s, e);
    DotWithAxis(mid, s);
  }

  /** Through an axis far from the start direction, every path starts at
      `start` and ends at `end`. */
  lemma SlerpViaAwayFromStartEndpoints(m: MathLib, start: Vec3, end: Vec3, mid: Vec3)
    requires SqrtLaws(m) && TrigLaws(m) && AcosLaws(m)
    requires IsAxis(mid) && Abs(Dot(NormalizeVector(m, start), mid)) <= 0.9
    ensures SlerpVia(m, start, end, 0.0, mid) == start
    ensures SlerpVia(m, start, end, 1.0, mid) == end
  {
    SlerpViaAtZero(m, start, end, mid);
    SlerpViaAtOne(m, start, end, mid);
    if Antiparallel(m, start, end) {
      var s, e := NormalizeVector(m, start), NormalizeVector(m, end);
      NormalizeVectorSpec(m, start);
      NormalizeVectorSpec(m, end);
      assert Dot(s, e) < -ParallelThreshold;
      AxisAwayFromEnd(s, e, mid);
      SineAwayFromParallel(m, Dot(mid, e));
    }
  }

  /** With the axis chosen away from the start direction, every path
      starts at `start` and ends at `end`. */
  lemma SlerpViaSafeAxisEndpoints(m: MathLib, start: Vec3, end: Vec3, viaAxis: string)
    requires SqrtLaws(m) && TrigLaws(m) && AcosLaws(m)
    ensures SlerpViaSafeAxis(m, start, end, 0.0, viaAxis) == start
    ensures SlerpViaSafeAxis(m, start, end, 1.0, viaAxis) == end
  {
    var s := NormalizeVector(m, start);
    var mid := SafeViaPoint(s, viaAxis);
    NormalizeVectorSpec(m, start);
    if Magnitude(m, start) >= Epsilon {
      AxisAwayFromStart(s, ViaPoint(viaAxis));
    } else {
      assert Dot(s, mid) == 0.0;
    }
    SlerpViaAwayFromStartEndpoints(m, start, end, mid);
  }
}
