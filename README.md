# Subsimplex ray cast: conservative-advancement time of impact

This project models Bullet's SPU ray-cast time-of-impact routine,
`SpuSubsimplexRayCast::calcTimeOfImpact`, and its helper `supportPoint`.
The routine sweeps a point (the ray, or "pellet") against a convex shape B
over one time step. It reports whether they meet and, if so, the time fraction
and normal at first contact.

Both motions are first reduced to a single relative motion, in a frame
centred on B with the ray's start orientation.
The walked point starts at `s`. At time fraction `lambda` it is at
`s + lambda * r`. The loop then takes support points of B along the current
separating axis `v`. When the axis still separates the point from B, and the
motion approaches along it, `lambda` is stepped forward and the simplex solver
is reset. When the motion does not approach, the routine reports that the
shapes never meet. The simplex solver refines `v` after every iteration. The
loop runs for at most 32 iterations.

Files:

- `LinearMath.dfy` (module `LinearMath`): vectors, 3x3 matrices given by rows,
  and rigid transforms over `real`. It defines apply, inverse, composition and
  the rotation-only transform. It also holds the matrix identity that
  `SupportPoint`'s proof needs.
- `SimplexSolver.dfy` (module `SimplexSolverInterface`): the simplex solver as
  a class. Its state is the history of witnesses added since the last reset.
  Its `closest` answer is a fixed function of that history, given when the
  solver is created.
- `SubSimplexConvexCast.dfy` (module `SubSimplexConvexCast`) holds:
  - `SupportPoint`;
  - the relative-motion `Setup`;
  - a pure specification of one loop iteration (`Step`) and of the whole loop
    (`Run`), with the lemmas about them;
  - the class `SubsimplexRayCast`, whose method `CalcTimeOfImpact` is the loop
    itself, proved to agree with `Run`.

Modelling choices:

- Scalars are `real`. `SIMD_EPSILON` is the single-precision `FLT_EPSILON`,
  2^-23. The convergence threshold is `0.0001`. The iteration cap is 32, the
  value for the single-precision build.
- B's support function (`localGetSupportingVertexWithoutMargin` over the shape
  type, the shape data and the polyhedron vertex data) is a total function
  value `Vec3 -> Vec3`. The ray cast object holds it, in its local frame.
- The solver's `closest` writes its out-vector whether it succeeds or fails.
  The loop therefore overwrites `v` on both outcomes. On failure it also forces
  `dist2` to 0.
- The guard `(dist2 > epsilon) && maxIter--` becomes
  `dist2 > Epsilon && maxIter != 0`, with the decrement as the first statement
  of the body. With C++'s post-decrement `maxIter--`, `maxIter` can reach -1 once the
  loop has ended. Nothing reads it after the loop, so this is not observable.
- `result` is a `CastResult` object. The method writes it only on a hit.

## Model

| member | source | states |
|---|---|---|
| `LinearMath.DotThroughMatrix` | Extras/BulletMultiThreaded/SpuRaycastTask/SpuSubSimplexConvexCast.cpp:45-46 | For every direction `a`, matrix `m` and vector `y`: the dot product of `a` with `m * y` equals the dot product of `a * m` (the direction rotated into the local frame) with `y`. |
| `SubSimplexConvexCast.SupportPointIsSupporting` | Extras/BulletMultiThreaded/SpuRaycastTask/SpuSubSimplexConvexCast.cpp:38-48 | If the shape's local support function is a support map of a point set, then the support point of the Minkowski sum of pellet and placed shape is the placed image of a shape point. No placed shape point lies farther along the axis. |
| `SubSimplexConvexCast.Setup` | Extras/BulletMultiThreaded/SpuRaycastTask/SpuSubSimplexConvexCast.cpp:56-73 | The support transform keeps the basis of `inverse(fromRay) * fromB` and has no translation. At `lambda` 0 the walked point `s + lambda*r` is the negated origin of `inverse(fromRay) * fromB`. At `lambda` 1 it is the negated origin of `inverse(toRay) * toB`. |
| `SubSimplexConvexCast.Start` | Extras/BulletMultiThreaded/SpuRaycastTask/SpuSubSimplexConvexCast.cpp:62-88 | The loop starts with `lambda` 0, the zero normal and an empty simplex. The walked point lies on the motion, and the simplex is coherent: every witness was taken at the current walked point. |
| `SubSimplexConvexCast.StepCases` | Extras/BulletMultiThreaded/SpuRaycastTask/SpuSubSimplexConvexCast.cpp:99-121 | An iteration reports "never meet" exactly when `v.w > 0` and `v.r >= -SIMD_EPSILON^2`. It advances exactly when `v.w > 0` and `v.r < -SIMD_EPSILON^2`. |
| `SubSimplexConvexCast.StepProgress` | Extras/BulletMultiThreaded/SpuRaycastTask/SpuSubSimplexConvexCast.cpp:99-133 | An advancing iteration strictly increases `lambda` (it adds `-VdotW/VdotR`, where `VdotW > 0` and `VdotR < 0`), sets the normal to the current non-zero axis and restarts the simplex with one witness. Any other iteration keeps `lambda`, the point and the normal, and appends exactly one witness. Both keep the walked point on the motion and the simplex coherent. A failed `closest` leaves `dist2` zero. |
| `SubSimplexConvexCast.Run` | Extras/BulletMultiThreaded/SpuRaycastTask/SpuSubSimplexConvexCast.cpp:79-134 | The loop runs at most `budget` iterations (32 from the entry), and no more of them advance than run. |
| `SubSimplexConvexCast.RunExits` | Extras/BulletMultiThreaded/SpuRaycastTask/SpuSubSimplexConvexCast.cpp:97-109 | A hit exit happens only when `dist2 <= epsilon` or the whole budget was spent. A "never meet" exit happens only after at least one iteration, from a state where the guard held, `v.w > 0` and `v.r >= -SIMD_EPSILON^2`. |
| `SubSimplexConvexCast.RunMovesForward` | Extras/BulletMultiThreaded/SpuRaycastTask/SpuSubSimplexConvexCast.cpp:104-120 | `lambda` at the exit is never below its start value. It equals its start value exactly when no iteration advanced. |
| `SubSimplexConvexCast.RunKeepsOnRay` | Extras/BulletMultiThreaded/SpuRaycastTask/SpuSubSimplexConvexCast.cpp:68-113 | If `x == s + lambda*r` holds at the start, it holds at the exit. |
| `SubSimplexConvexCast.RunKeepsCoherent` | Extras/BulletMultiThreaded/SpuRaycastTask/SpuSubSimplexConvexCast.cpp:114-122 | Because the solver is reset on every advancement, every witness it holds at the exit has `x` equal to the current walked point and `w == x - p`. |
| `SubSimplexConvexCast.RunNormal` | Extras/BulletMultiThreaded/SpuRaycastTask/SpuSubSimplexConvexCast.cpp:81-119 | With no advancement the normal at the exit is the initial one. Otherwise it is non-zero. |
| `SubSimplexConvexCast.ClosestFailureStops` | Extras/BulletMultiThreaded/SpuRaycastTask/SpuSubSimplexConvexCast.cpp:123-133 | After an iteration whose `closest` failed, the loop stops at the next guard test and reports a hit at that state. |
| `SubSimplexConvexCast.TimeOfImpactFacts` | Extras/BulletMultiThreaded/SpuRaycastTask/SpuSubSimplexConvexCast.cpp:79-141 | From the entry state with budget 32: at most 32 iterations run, and the final `lambda` is non-negative. `lambda` is 0 exactly when no iteration advanced, and exactly then is the normal zero. The final point lies on the motion and the simplex is coherent. |
| `SimplexSolverInterface.SimplexSolver.Reset` | Extras/BulletMultiThreaded/SpuRaycastTask/SpuSubSimplexConvexCast.cpp:62 | The solver holds no witnesses afterwards. |
| `SimplexSolverInterface.SimplexSolver.AddVertex` | Extras/BulletMultiThreaded/SpuRaycastTask/SpuSubSimplexConvexCast.cpp:122 | The witness triple `(w, x, p)` is appended to the solver's history; nothing else changes. |
| `SimplexSolverInterface.SimplexSolver.Closest` | Extras/BulletMultiThreaded/SpuRaycastTask/SpuSubSimplexConvexCast.cpp:123-133 | The success flag and the vector returned are the solver's answer for its current history. |
| `SubSimplexConvexCast.SubsimplexRayCast.constructor` | Extras/BulletMultiThreaded/SpuRaycastTask/SpuSubSimplexConvexCast.cpp:24-28 | The cast keeps the given shape support function and solver. |
| `SubSimplexConvexCast.SubsimplexRayCast.CalcTimeOfImpact` | Extras/BulletMultiThreaded/SpuRaycastTask/SpuSubSimplexConvexCast.cpp:50-142 | The return value is `Run`'s hit flag from the entry state with budget 32. The solver ends up holding that run's final simplex. On a hit, `result` gets the final `lambda` and normal. On a miss, `result` is unchanged. On a hit the fraction is non-negative, and it is 0 exactly when the normal is zero. |

## Left out

- Floating point: `btScalar` is `real`. Rounding, overflow and NaN are not modelled. `SIMD_EPSILON` and the threshold are exact reals.
- The double-precision build's iteration cap of 64 is not modelled. Only the single-precision value 32 is.
- Transform algebra: `btTransform` and `btMatrix3x3` are not part of this model. `LinearMath` gives the standard rigid-transform definitions of inverse (transposed basis), composition and application. `Inverse` is the inverse only when the basis is a rotation, and nothing here proves that property.
- `localGetSupportingVertexWithoutMargin`, the shape-type dispatch and `SpuConvexPolyhedronVertexData` are not part of this model. They appear only as the support function value `supportB`. `SupportPointIsSupporting` assumes that value is a support map.
- The Voronoi simplex solver's closest-point algorithm is not part of this model. Its answer is an arbitrary function `closestOf` of the witnesses added since the last reset. Since the loop calls `closest` after every `addVertex`, this history determines the solver's state.
- Geometric correctness of the fraction and normal is not proved. The sphere cases, "fraction in [0, 1]" and monotonicity in the separation distance would need a specification of the support function and the solver.
- Idempotence on identical inputs is not stated separately. `Run` is a function of the inputs and the solver's answer function, and the method resets the solver at entry.
- `marginB`, `lastLambda`, `c` and `hasResult` are not modelled. They are declared or assigned, never read, so they have no effect on the result.
- Dispatch of the SPU task over many object pairs is out of scope: the routine handles one pair, sequentially.
