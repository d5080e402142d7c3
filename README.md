# Bloch-sphere qubit and spherical interpolation

This project models the two computational parts of a single-qubit Bloch-sphere
visualiser.

- `qubit.dfy` (module `QubitState`) models the `Qubit` class. A qubit holds two
  complex amplitudes `a` and `b` (|psi> = a|0> + b|1>). It also holds three
  fields derived from them: the Bloch angles `theta`/`phi` and cartesian
  `coords`. A one-way `is_collapsed` flag completes the state. The gates
  (`rx`, `ry`, `rz`, `x`, `y`, `z`, `h`, `p`, `s`, `t`) and `measure` are
  methods of a Dafny class with those fields. Each gate applies a 2x2 matrix
  unless the qubit has collapsed, then re-derives the angles and coordinates
  (`__update`). The static converters (`spherical_to_amp`,
  `spherical_to_cartesian`, `amp_to_spherical`, `amp_to_cartesian`) and
  `state_vector` are pure functions.
- `vector_utils.dfy` (module `VectorUtils`) models the interpolation the
  visualiser animates with. `slerp_via_axis` is a case analysis:
  - a zero vector or nearly parallel directions interpolate linearly;
  - nearly antiparallel directions go through a unit axis chosen by name, in
    two halves;
  - everything else goes to `_slerp_standard`, which interpolates the
    magnitude linearly.
- `numerics.dfy` (module `Numerics`) holds complex numbers, 3-vectors, a
  `Result` type and the numeric library.

The numeric library (`sqrt`, `sin`, `cos`, `math.acos`, the real part of
`np.arccos`, `cmath.phase`, `pi`) is a value of type `MathLib`. Every
function or lemma that calls the library takes it as a parameter; a `Qubit`
holds it in the field `lib`. The laws those functions obey in exact
arithmetic are ghost predicates. Only the lemmas that need them require them.
Every proved property therefore holds for any library that obeys the laws it
names.

The model follows the code as written:
- `x` multiplies by the identity;
- `rz` applies diag(1, -1) whatever its angle;
- `__update` computes the coordinates from `amp_a` passed twice;
- `p` (and so `s` and `t`) fails with a TypeError on a qubit that has not
  collapsed, before any field changes;
- `y` does nothing;
- `rx` only re-derives.

Where the design comments in the source say otherwise (for example, "x:
theta' = pi - theta"), the model follows the code and proves what the code
does instead.

## Model

| member | source | states |
|---|---|---|
| QubitState.NewQubit | qubit.py:11-26 | Construction fails with AssertionError exactly when abs(a)^2 + abs(b)^2 is not close to 1 (np.isclose defaults). A new qubit holds the given amplitudes, is not collapsed, has the angles of its amplitudes, and has coordinates amp_to_cartesian(a, b). |
| QubitState.Qubit.constructor | qubit.py:11-26 | The fields are set from the amplitudes: angles by amp_to_spherical, coordinates by spherical_to_cartesian of those angles, not collapsed. |
| QubitState.ConstructionAccepts | qubit.py:12-13 | The check accepts a pair exactly when its squared-modulus sum lies within 1.001e-5 of 1. The default pair (1, 0) is accepted. |
| QubitState.IsClose | qubit.py:13 | Definition of np.isclose(x, y) with its default tolerances, abs(x - y) <= 1e-8 + 1e-5 * abs(y); no contract of its own. `ConstructionAccepts` states what it accepts. |
| QubitState.AbsSquaredIsNormSq | qubit.py:12 | abs(z)**2 equals re^2 + im^2. |
| QubitState.Qubit.Update | qubit.py:30-37 | The amplitudes and the flag are unchanged. Afterwards (theta, phi) == amp_to_spherical(a, b) and coords == amp_to_cartesian(a, a). |
| QubitState.UpdatedCoordsOnMeridian | qubit.py:37 | Because amp_a is passed twice, the coordinates are (sin theta, 0, cos theta): always on the x-z meridian, with y = 0, and of length 1. |
| QubitState.Qubit.Rx | qubit.py:40-53 | rx changes no amplitude and no flag; it only re-derives and returns the coordinates. |
| QubitState.Qubit.Ry | qubit.py:55-71 | Unless collapsed, the amplitudes become the half-angle rotation [[cos, -sin], [sin, cos]] applied to the old ones. A collapsed qubit keeps them. The flag is unchanged. Then the state is re-derived. |
| QubitState.RyMatrix | qubit.py:64 | Definition of the ry matrix, the rotation by half the angle; no contract of its own. `RyPreservesWeight` and `RyUndoneByOpposite` state its properties. |
| QubitState.RyPreservesWeight | qubit.py:64-68 | The rotation preserves abs(a)^2 + abs(b)^2. |
| QubitState.RyUndoneByOpposite | qubit.py:64-68 | The rotation by -angle undoes the rotation by angle. |
| QubitState.Qubit.Rz | qubit.py:74-87 | Unless collapsed, the amplitudes become diag(1, -1) applied to the old ones, whatever the angle. The phi it sets is overwritten by the re-derivation. |
| QubitState.RzMatrix | qubit.py:80 | Definition of the rz matrix diag(1, -1), which ignores the angle; no contract of its own. `RzNegatesSecond` states its effect. |
| QubitState.RzNegatesSecond | qubit.py:80-84 | The rz matrix maps (a, b) to (a, -b) for every angle, so two rz (and two z) restore the amplitudes. |
| QubitState.Qubit.X | qubit.py:89-104 | x changes no amplitude. The flipped angles are overwritten by the re-derivation, so theta and phi come back unchanged for a consistent qubit. |
| QubitState.XMatrix | qubit.py:97 | Definition of the x matrix, the identity; no contract of its own. `XIsIdentity` states its effect. |
| QubitState.XIsIdentity | qubit.py:97-101 | The x matrix maps every state vector to itself. |
| QubitState.Qubit.Y | qubit.py:107-109 | y changes nothing. |
| QubitState.Qubit.Z | qubit.py:111-112 | z is rz(pi): diag(1, -1) unless collapsed. |
| QubitState.Qubit.H | qubit.py:115-125 | Unless collapsed, the amplitudes become (a + b, a - b) / sqrt 2. A collapsed qubit keeps them. The flag is unchanged. |
| QubitState.HMatrix | qubit.py:118 | Definition of the h matrix, 1/sqrt(2) times [[1, 1], [1, -1]]; no contract of its own. `HadamardFactor`, `HadamardInvolutive` and `HadamardPreservesWeight` state its properties. |
| QubitState.HadamardFactor | qubit.py:118 | The factor 1/np.sqrt(2) that fills the h matrix is 1 / sqrt(2) and squares to 1/2. |
| QubitState.HadamardInvolutive | qubit.py:118-122 | Applying the h matrix twice restores the amplitudes. |
| QubitState.HadamardPreservesWeight | qubit.py:118-122 | The h matrix preserves abs(a)^2 + abs(b)^2. |
| QubitState.Qubit.P | qubit.py:127-136 | On a qubit that has not collapsed, p fails with TypeError and no field changes. On a collapsed one, the amplitudes are kept, the state is re-derived and the coordinates are returned. |
| QubitState.Qubit.S | qubit.py:138-139 | s is p(pi): the same failure or re-derivation. |
| QubitState.Qubit.T | qubit.py:141-142 | t is p(pi/2): the same failure or re-derivation. |
| QubitState.Qubit.Measure | qubit.py:144-162 | Afterwards the qubit is collapsed. If it had not collapsed, the amplitudes become (1, 0) when the draw is at most abs(a)^2, else (0, 1). A collapsed qubit keeps its amplitudes, so a second measure changes nothing. The state is re-derived. |
| QubitState.MeasuredBasisStates | qubit.py:149-159 | The re-derivation agrees with the values measure sets: (1, 0) gives angles (0, 0) and coordinates (0, 0, 1); (0, 1) gives (pi, 0) and (0, 0, -1). |
| QubitState.SphericalToAmp | qubit.py:176-179 | Definition of spherical_to_amp, (cos(theta/2), e^(i phi) sin(theta/2)); no contract of its own. `SphericalToAmpNormalized` and `SphericalRoundTrip` state its properties. |
| QubitState.SphericalToCartesian | qubit.py:181-185 | Definition of spherical_to_cartesian as written, with y = sin(phi) cos(theta); no contract of its own. `CartesianLeavesSphere` states its defect. |
| QubitState.AmpToSpherical | qubit.py:187-190 | Definition of amp_to_spherical, (2 Re arccos(a), phase(b) - phase(a)); no contract of its own. `SphericalRoundTrip`, `SphericalRoundTripAtPole` and `MeasuredBasisStates` state its properties. |
| QubitState.AmpToCartesian | qubit.py:192-194 | Definition of amp_to_cartesian, the composition of the two converters; no contract of its own. `AmpToCartesianOfSpherical` and `UpdatedCoordsOnMeridian` state its properties. |
| QubitState.SphericalToAmpNormalized | qubit.py:176-179 | spherical_to_amp gives a normalised state for every pair of angles. |
| QubitState.SphericalRoundTrip | qubit.py:176-190 | amp_to_spherical inverts spherical_to_amp for 0 < theta <= pi and -pi < phi <= pi. |
| QubitState.AmpToCartesianOfSpherical | qubit.py:192-194 | For theta in (0, pi] and phi in (-pi, pi], `amp_to_cartesian` of the amplitudes `spherical_to_amp` gives is the point `spherical_to_cartesian` gives for the original angles. |
| QubitState.SphericalRoundTripAtPole | qubit.py:176-190 | At theta = 0 the round trip gives (0, 0): the phase phi is lost. |
| QubitState.CartesianLeavesSphere | qubit.py:181-185 | As written, spherical_to_cartesian maps (pi/2, pi/2) to the origin. So the normalised state (1, i)/sqrt 2 gets coordinates (0, 0, 0), off the unit sphere. |
| QubitState.SphericalToCartesianOnSphereIsUnit | qubit.py:181-185 | With y = sin theta sin phi, every pair of angles maps to a point on the unit sphere. |
| VectorUtils.NormalizeVector | vector_utils.py:3-8 | Definition of _normalize_vector; no contract of its own. `NormalizeVectorSpec` states its properties. |
| VectorUtils.NormalizeVectorSpec | vector_utils.py:3-8 | Below length 1e-10 the result is (0, 0, 0). Otherwise it is a unit vector that the length scales back to the input. |
| VectorUtils.Clamp | vector_utils.py:31 | max(-1, min(1, d)) lies in [-1, 1], is d inside, -1 below and 1 above. |
| VectorUtils.ViaPoint | vector_utils.py:38-43 | The via point is a unit axis: x for 'x', y for 'y', z for any other name. |
| VectorUtils.SlerpVia | vector_utils.py:15-61 | Definition of the case analysis of slerp_via_axis for a given intermediate point; no contract of its own. The `SlerpVia...` lemmas below state its cases and endpoints. |
| VectorUtils.SlerpViaAxis | vector_utils.py:10-61 | Definition of slerp_via_axis: the case analysis through the axis the name selects; no contract of its own. `SlerpViaAxisLinearCases`, `SlerpViaAxisAntiparallelHalves`, `SlerpViaAxisStandardCase` and `SlerpViaAxisAtEndpoints` state its properties. |
| VectorUtils.SlerpViaAxisLinearCases | vector_utils.py:23-27 | A magnitude below 1e-10, or a clamped dot product above 0.9995, gives the componentwise start + (end - start) t. |
| VectorUtils.SlerpViaLinearCases | vector_utils.py:54-58 | The same linear cases, whatever the via point. |
| VectorUtils.SlerpViaAntiparallelHalves | vector_utils.py:46-53 | A clamped dot product below -0.9995 gives _slerp_standard(s, mid, 2t) at the start magnitude for t < 0.5, else _slerp_standard(mid, e, 2(t - 0.5)) at the end magnitude. |
| VectorUtils.SlerpViaAxisAntiparallelHalves | vector_utils.py:36-53 | The same two halves through the axis that the name selects. |
| VectorUtils.SlerpViaAxisStandardCase | vector_utils.py:60-61 | Otherwise the result is _slerp_standard of the normalised vectors with both original magnitudes. |
| VectorUtils.SlerpStandard | vector_utils.py:63-83 | Definition of _slerp_standard; no contract of its own. `SlerpStandardAtZero`, `SlerpStandardAtOne` and `SlerpStandardDegenerate` state its properties. |
| VectorUtils.SlerpStandardAtZero | vector_utils.py:63-83 | At t = 0 _slerp_standard gives the start direction scaled by the start magnitude, in both branches. |
| VectorUtils.SlerpStandardAtOne | vector_utils.py:63-83 | At t = 1 it gives the end direction scaled by the end magnitude, unless the sine vanishes; then it gives the start direction scaled by the end magnitude. |
| VectorUtils.SlerpStandardDegenerate | vector_utils.py:71-74 | When abs(sin theta) < 1e-10 the result is the start direction scaled by start_mag + (end_mag - start_mag) t. |
| VectorUtils.SineAwayFromParallel | vector_utils.py:68-71 | When abs(dot) <= 0.9995, the sine of acos(dot) is at least 1e-10, so the standard case never takes the degenerate branch. |
| VectorUtils.SlerpViaAtZero | vector_utils.py:10-61 | Every path starts at start (t = 0 gives start), whatever the via point. |
| VectorUtils.SlerpViaAtOne | vector_utils.py:10-61 | t = 1 gives end, except in the antiparallel case when the sine between the via point and the end direction vanishes. Then it gives the via point scaled by the end magnitude. |
| VectorUtils.SlerpViaAxisAtEndpoints | vector_utils.py:10-61 | slerp_via_axis starts at start, and ends at end unless the directions are nearly antiparallel. |
| VectorUtils.AntiparallelHalvesMeet | vector_utils.py:46-53 | Unless the start direction is parallel or opposite to the via point, the first half ends at the via point times the start magnitude. At t = 0.5 the second half starts from the via point times the end magnitude. |
| VectorUtils.OppositeVectorsMeetAxis | vector_utils.py:36-53 | From (1, 0, 0) to (-1, 0, 0) through 'y', the path is at (0, 1, 0) at t = 0.5. |
| VectorUtils.ZeroStartInterpolatesLinearly | vector_utils.py:23-27 | From (0, 0, 0) to (1, 0, 0), t = 0.5 gives (0.5, 0, 0) for any axis name. |
| VectorUtils.OppositeUnitsStuckAtStart | vector_utils.py:36-53 | As written, opposite unit vectors through a via point equal to the start direction stay at the start for every t. |
| VectorUtils.SlerpStuckOnParallelAxis | vector_utils.py:36-53 | As written, slerp_via_axis((1,0,0), (-1,0,0), t, 'x') is (1, 0, 0) for every t, so it never reaches the end. |
| VectorUtils.OppositeUnitsJumpAtHalf | vector_utils.py:36-53 | As written, opposite unit vectors through a via point equal to the end direction stay at the start for t < 0.5 and are at the end from t = 0.5 on. |
| VectorUtils.SlerpJumpsOnParallelAxis | vector_utils.py:36-53 | As written, slerp_via_axis((-1,0,0), (1,0,0), t, 'x') is the start for t < 0.5 and the end from t = 0.5 on: the path jumps instead of turning. |
| VectorUtils.AxisAwayFromStart | vector_utils.py:38-43 | The corrected choice of axis is never within 0.9 (dot product) of a unit start direction. |
| VectorUtils.AxisAwayFromEnd | vector_utils.py:34-36 | For nearly opposite unit directions, an axis far from the start direction is not parallel to the end direction. |
| VectorUtils.SlerpViaSafeAxisEndpoints | vector_utils.py:10-61 | With the corrected axis choice, every path starts at start and ends at end. |

## Left out

- main.py and button.py are not part of this model. They are window setup, drawing, input handlers, a console menu thread with a lock, and a button hit-test.
- `Qubit.__str__` (text formatting only) and `spherical_angles` (a getter of two fields) are left out.
- `state_vector` (qubit.py:170-171) is `Qubit.StateVector`, the pair of amplitudes in place of the numpy column amp_a*BASE_0 + amp_b*BASE_1. It has no row of its own because it only reads two fields; the gate methods state their effects through it.
- The stubs `cartesian_to_spherical` and `cartesian_to_amp` return nothing and are left out.
- The commented-out matrix code in `rx` and `ry` is not modelled.
- Floating point is not modelled; all arithmetic is exact real arithmetic. In exact arithmetic sin(pi) is 0, whereas in IEEE doubles it is about 1.2e-16. Both values lie below the 1e-10 threshold of `_slerp_standard`, so doubles take the same degenerate branch, and the via-axis finding holds in floating point too.
- The thresholds 1e-10 and 0.9995 and the np.isclose tolerances (absolute 1e-8, relative 1e-5) are exact real constants.
- `random.random()` is the `draw` parameter of `Measure`.
- The numeric library is a parameter whose laws are stated as predicates. Its internals (numpy, math, cmath) are not modelled.
- The `clockwise` parameters of `rx`, `ry` and `rz` are never read by the source, so they are dropped.
- Default argument values (`amp_a=1`, `amp_b=0`, `via_axis='x'`) are left to the caller. `ConstructionAccepts` shows the default pair is accepted.
- `HMatrix` guards its 1/sqrt(2) factor against a zero root only so that the function is total; for a lawful library the guard never applies.
- The worked inputs of `VectorUtils` (`OppositeVectorsMeetAxis`, `ZeroStartInterpolatesLinearly`, `SlerpStuckOnParallelAxis`) require a handful of exact library values (`SpecialValues`). `Numerics.LawsGiveSpecialValues` derives those values from the laws.
- Python mixes int and complex amplitudes (`measure` stores the int 1). The model stores every amplitude as a complex number.

## Findings

| source | as written | input that shows it | evidently intended | confidence | as-written member | corrected member |
|---|---|---|---|---|---|---|
| vector_utils.py:36-53 | In the antiparallel case the via axis is taken by name only, even when it lies along the endpoints themselves. Both halves then hit the degenerate branch of `_slerp_standard`, which holds the start direction of each half. When the axis lies along the start, the path stays at the start for every t. When it lies along the end, the path stays at the start for t < 0.5 and jumps to the end at t = 0.5 (`SlerpJumpsOnParallelAxis`). | start (1, 0, 0), end (-1, 0, 0), via_axis 'x': the result is (1, 0, 0) for every t, including t = 1. start (-1, 0, 0), end (1, 0, 0), via_axis 'x': the result is the start below t = 0.5 and the end from t = 0.5 on | a path from start to end through an axis away from the endpoints | not executed | VectorUtils.SlerpStuckOnParallelAxis | VectorUtils.SlerpViaSafeAxisEndpoints |
| qubit.py:181-185 | y = sin(phi) cos(theta) | theta = phi = pi/2 (the state (1, i)/sqrt 2): the point is (0, 0, 0), not on the unit sphere | y = sin(theta) sin(phi), the standard Bloch-sphere coordinate | not executed | QubitState.CartesianLeavesSphere | QubitState.SphericalToCartesianOnSphereIsUnit |
