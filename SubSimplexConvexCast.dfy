/** Conservative-advancement time of impact between a ray (a point, the
    "pellet") and a convex shape B that both move over one time step.

    The sweep is first reduced to one relative motion, in a frame centred on
    B with the ray's start orientation: the walked point starts at `s` and
    moves along `r`, and the time fraction `lambda` in [0, 1] parametrises
    it. The loop then repeatedly
    takes a support point of B along the current separating axis `v`, and,
    while the axis still separates, steps `lambda` forward and resets the
    simplex; the simplex solver refines `v` in between.

    `Step` and `Run` state what one iteration and the whole loop compute; the
    method `SubsimplexRayCast.CalcTimeOfImpact` is the loop itself, proved to
    agree with `Run`, and the lemmas say what `Run` promises. */
module SubSimplexConvexCast {
  import opened LinearMath
  import opened SimplexSolverInterface

  /** The iteration cap of the single-precision build. */
  const MaxIterations: nat := 32

  /** The loop stops once the squared length of `v` is at most this. */
  const Epsilon: real := 0.0001

  /** SIMD_EPSILON of the single-precision build: FLT_EPSILON, 2^-23. */
  const SimdEpsilon: real := 0.00000011920928955078125

  // ---------------------------------------------------------------------
  // Support point of the Minkowski sum of the pellet and B

  /** The support point, along `separatingAxis`, of the Minkowski sum of a
      pellet at the origin and the shape placed by `xform`. `support` is the
      shape's own support map, without margin, in its local frame. */
  function SupportPoint(xform: Transform, support: Vec3 -> Vec3, separatingAxis: Vec3): Vec3
  {
    var supportPellet := Zero;
    var rotatedSeparatingAxis := MulVecMat(separatingAxis, xform.basis);
    var supportShape := Apply(xform, support(rotatedSeparatingAxis));
    Add(supportPellet, supportShape)
  }

  /** `support` is a support map of the local point set `shape`: it picks a
      point of the shape that lies farthest along every direction. */
  ghost predicate IsSupportMap(support: Vec3 -> Vec3, shape: iset<Vec3>)
  {
    (forall d :: support(d) in shape) &&
    (forall d, q :: q in shape ==> Dot(d, q) <= Dot(d, support(d)))
  }

  /** Given a support map of the shape in its local frame, `SupportPoint` is
      a support point of the placed shape in world directions: it is the
      image of a point of the shape, and no image lies farther along the
      axis. */
  lemma SupportPointIsSupporting(xform: Transform, support: Vec3 -> Vec3, shape: iset<Vec3>, axis: Vec3)
    requires IsSupportMap(support, shape)
    ensures exists q :: q in shape && SupportPoint(xform, support, axis) == Apply(xform, q)
    ensures forall q :: q in shape ==>
      Dot(axis, Apply(xform, q)) <= Dot(axis, SupportPoint(xform, support, axis))
  {
    var local := MulVecMat(axis, xform.basis);
    var best := support(local);
    assert SupportPoint(xform, support, axis) == Apply(xform, best);
    forall q | q in shape
      ensures Dot(axis, Apply(xform, q)) <= Dot(axis, SupportPoint(xform, support, axis))
    {
      DotAdd(axis, MulMatVec(xform.basis, q), xform.origin);
      DotAdd(axis, MulMatVec(xform.basis, best), xform.origin);
      DotThroughMatrix(axis, xform.basis, q);
      DotThroughMatrix(axis, xform.basis, best);
      assert Dot(local, q) <= Dot(local, best);
    }
  }

  // ---------------------------------------------------------------------
  // The relative-motion sweep

  /** Everything the loop reads and never changes: the rotation-only transform
      of B, B's support map, the solver's closest-point answer, and the start
      `s` and direction `r` of the walked point (both negated, because the
      loop works on the Minkowski difference). */
  datatype Sweep = Sweep(
    bXform: Transform,
    support: Vec3 -> Vec3,
    closestOf: seq<Witness> -> ClosestAnswer,
    s: Vec3,
    r: Vec3)

  /** The reduction of the two motions to one, centred on B, in the ray's
      start frame. At `lambda` = 0 the walked point is the negated start
      position of B in the ray's frame, at `lambda` = 1 the negated end
      position. */
  function Setup(fromRay: Transform, toRay: Transform, fromB: Transform, toB: Transform,
                 support: Vec3 -> Vec3, closestOf: seq<Witness> -> ClosestAnswer): (sw: Sweep)
    ensures sw.bXform.origin == Zero
    ensures sw.bXform.basis == Compose(Inverse(fromRay), fromB).basis
    ensures sw.support == support && sw.closestOf == closestOf
    ensures Add(sw.s, Scale(0.0, sw.r)) == Neg(Compose(Inverse(fromRay), fromB).origin)
    ensures Add(sw.s, Scale(1.0, sw.r)) == Neg(Compose(Inverse(toRay), toB).origin)
  {
    var rayFromLocalA := Compose(Inverse(fromRay), fromB);
    var rayToLocalA := Compose(Inverse(toRay), toB);
    var s := Neg(rayFromLocalA.origin);
    var r := Neg(Sub(rayToLocalA.origin, rayFromLocalA.origin));
    Sweep(RotationOnly(rayFromLocalA), support, closestOf, s, r)
  }

  // ---------------------------------------------------------------------
  // The loop state and one iteration

  /** The loop's locals: the time fraction, the walked point, the separating
      axis, the candidate normal, the squared length of the axis, and the
      witnesses the solver holds. */
  datatype Walk = Walk(lambda: real, x: Vec3, v: Vec3, n: Vec3, dist2: real, simplex: seq<Witness>)

  /** The walked point is where the relative motion is at time `lambda`. */
  ghost predicate OnRay(sw: Sweep, st: Walk)
  {
    st.x == Add(sw.s, Scale(st.lambda, sw.r))
  }

  /** Every witness the solver holds was taken at the current walked point;
      this is what resetting the solver on every advancement guarantees. */
  ghost predicate Coherent(st: Walk)
  {
    forall i :: 0 <= i < |st.simplex| ==>
      st.simplex[i].x == st.x && st.simplex[i].w == Sub(st.x, st.simplex[i].p)
  }

  /** The state on entry to the loop. */
  function Start(sw: Sweep): (st: Walk)
    ensures st.lambda == 0.0 && st.n == Zero && st.simplex == []
    ensures OnRay(sw, st) && Coherent(st)
  {
    var x := sw.s;
    var arbitraryPoint := SupportPoint(sw.bXform, sw.support, sw.r);
    var v := Sub(x, arbitraryPoint);
    Walk(0.0, x, v, Zero, Length2(v), [])
  }

  /** The support point the iteration takes along the current axis. */
  function StepSupport(sw: Sweep, st: Walk): Vec3
  {
    SupportPoint(sw.bXform, sw.support, st.v)
  }

  /** The axis still separates the walked point from the shape. */
  ghost predicate Separated(sw: Sweep, st: Walk)
  {
    Dot(st.v, Sub(st.x, StepSupport(sw, st))) > 0.0
  }

  /** The motion approaches along the axis, by more than the threshold. */
  ghost predicate Approaching(sw: Sweep, st: Walk)
  {
    Dot(st.v, sw.r) < -(SimdEpsilon * SimdEpsilon)
  }

  /** One iteration either reports that the shapes never meet, or yields the
      next state and whether it advanced `lambda`. */
  datatype StepOutcome = Miss | Next(after: Walk, advanced: bool)

  /** Add the witness for support point `p` at the walked point, and ask the
      solver for the new axis; a failed answer forces `dist2` to zero. */
  function Feed(sw: Sweep, st: Walk, p: Vec3): Walk
  {
    var added := st.simplex + [Witness(Sub(st.x, p), st.x, p)];
    var answer := sw.closestOf(added);
    st.(simplex := added, v := answer.v, dist2 := if answer.ok then Length2(answer.v) else 0.0)
  }

  /** One iteration of the loop body. */
  function Step(sw: Sweep, st: Walk): StepOutcome
  {
    var p := StepSupport(sw, st);
    var vDotW := Dot(st.v, Sub(st.x, p));
    if vDotW > 0.0 then
      var vDotR := Dot(st.v, sw.r);
      if vDotR >= -(SimdEpsilon * SimdEpsilon) then
        Miss
      else
        var lambda := st.lambda - vDotW / vDotR;
        var x := Add(sw.s, Scale(lambda, sw.r));
        Next(Feed(sw, st.(lambda := lambda, x := x, n := st.v, simplex := []), p), true)
    else
      Next(Feed(sw, st, p), false)
  }

  /** An iteration misses exactly when the axis separates and the motion does
      not approach along it; it advances exactly when the axis separates and
      the motion approaches. */
  lemma StepCases(sw: Sweep, st: Walk)
    ensures Step(sw, st).Miss? <==> Separated(sw, st) && !Approaching(sw, st)
    ensures Step(sw, st).Next? && Step(sw, st).advanced <==> Separated(sw, st) && Approaching(sw, st)
  {
  }

  /** What one iteration does to `lambda`, the walked point, the normal, the
      simplex and `dist2`. */
  lemma StepProgress(sw: Sweep, st: Walk)
    requires Step(sw, st).Next?
    ensures var after, adv := Step(sw, st).after, Step(sw, st).advanced;
      && (adv ==> after.lambda > st.lambda && after.n == st.v && st.v != Zero && |after.simplex| == 1)
      && (!adv ==> after.lambda == st.lambda && after.n == st.n && after.x == st.x
                   && after.simplex == st.simplex + [Witness(Sub(st.x, StepSupport(sw, st)), st.x, StepSupport(sw, st))])
      && (OnRay(sw, st) ==> OnRay(sw, after))
      && (Coherent(st) ==> Coherent(after))
      && (!sw.closestOf(after.simplex).ok ==> after.dist2 == 0.0)
  {
  }

  // ---------------------------------------------------------------------
  // The whole loop

  /** How the loop ended: `hit` is false only for the early "never meet"
      exit; `at` is the state at the exit; `iterations` counts the loop
      bodies run and `advances` those that moved `lambda`. */
  datatype Exit = Exit(hit: bool, at: Walk, iterations: nat, advances: nat)

  /** The loop run from `st` with `budget` iterations left. */
  function Run(sw: Sweep, st: Walk, budget: nat): (e: Exit)
    ensures e.iterations <= budget
    ensures e.advances <= e.iterations
    decreases budget
  {
    if st.dist2 > Epsilon && budget != 0 then
      match Step(sw, st)
      case Miss => Exit(false, st, 1, 0)
      case Next(after, advanced) =>
        var e := Run(sw, after, budget - 1);
        e.(iterations := e.iterations + 1, advances := e.advances + if advanced then 1 else 0)
    else
      Exit(true, st, 0, 0)
  }

  /** The loop reports a hit when the axis has converged or the budget is
      spent, and a miss only from a state where the guard held, the axis
      separated and the motion did not approach along it. */
  lemma {:induction false} RunExits(sw: Sweep, st: Walk, budget: nat)
    ensures var e := Run(sw, st, budget);
      && (e.hit ==> e.at.dist2 <= Epsilon || e.iterations == budget)
      && (!e.hit ==> e.at.dist2 > Epsilon && e.iterations >= 1
                     && Separated(sw, e.at) && !Approaching(sw, e.at))
    decreases budget
  {
    if st.dist2 > Epsilon && budget != 0 {
      StepCases(sw, st);
      match Step(sw, st)
      case Miss =>
      case Next(after, _) => RunExits(sw, after, budget - 1);
    }
  }

  /** `lambda` never decreases, and it stays where it started exactly when no
      iteration advanced. */
  lemma {:induction false} RunMovesForward(sw: Sweep, st: Walk, budget: nat)
    ensures Run(sw, st, budget).at.lambda >= st.lambda
    ensures Run(sw, st, budget).advances == 0 <==> Run(sw, st, budget).at.lambda == st.lambda
    decreases budget
  {
    if st.dist2 > Epsilon && budget != 0 {
      match Step(sw, st)
      case Miss =>
      case Next(after, _) =>
        StepProgress(sw, st);
        RunMovesForward(sw, after, budget - 1);
    }
  }

  /** The walked point stays on the relative motion at time `lambda`. */
  lemma {:induction false} RunKeepsOnRay(sw: Sweep, st: Walk, budget: nat)
    requires OnRay(sw, st)
    ensures OnRay(sw, Run(sw, st, budget).at)
    decreases budget
  {
    if st.dist2 > Epsilon && budget != 0 {
      match Step(sw, st)
      case Miss =>
      case Next(after, _) =>
        StepProgress(sw, st);
        RunKeepsOnRay(sw, after, budget - 1);
    }
  }

  /** The solver only ever holds witnesses taken at the current walked point. */
  lemma {:induction false} RunKeepsCoherent(sw: Sweep, st: Walk, budget: nat)
    requires Coherent(st)
    ensures Coherent(Run(sw, st, budget).at)
    decreases budget
  {
    if st.dist2 > Epsilon && budget != 0 {
      match Step(sw, st)
      case Miss =>
      case Next(after, _) =>
        StepProgress(sw, st);
        RunKeepsCoherent(sw, after, budget - 1);
    }
  }

  /** The normal is the one the loop started with when no iteration advanced,
      and otherwise the (non-zero) axis of the last advancement. */
  lemma {:induction false} RunNormal(sw: Sweep, st: Walk, budget: nat)
    ensures Run(sw, st, budget).advances == 0 ==> Run(sw, st, budget).at.n == st.n
    ensures Run(sw, st, budget).advances > 0 ==> Run(sw, st, budget).at.n != Zero
    decreases budget
  {
    if st.dist2 > Epsilon && budget != 0 {
      match Step(sw, st)
      case Miss =>
      case Next(after, advanced) =>
        StepProgress(sw, st);
        RunNormal(sw, after, budget - 1);
    }
  }

  /** Once the solver reports no closest point, the loop ends at the next
      guard, with a hit at that state. */
  lemma ClosestFailureStops(sw: Sweep, st: Walk, budget: nat)
    requires Step(sw, st).Next?
    requires !sw.closestOf(Step(sw, st).after.simplex).ok
    ensures Run(sw, Step(sw, st).after, budget) == Exit(true, Step(sw, st).after, 0, 0)
  {
  }

  /** What the whole routine reports, from the entry state with the full
      budget: at most `MaxIterations` iterations; on a hit, a fraction that is
      never negative, zero exactly when no iteration advanced, and exactly
      then a zero normal; the walked point on the motion; and a simplex made
      of witnesses taken at that point. */
  lemma TimeOfImpactFacts(sw: Sweep)
    ensures var e := Run(sw, Start(sw), MaxIterations);
      && e.iterations <= MaxIterations
      && e.at.lambda >= 0.0
      && (e.at.lambda == 0.0 <==> e.advances == 0)
      && (e.at.n == Zero <==> e.advances == 0)
      && OnRay(sw, e.at)
      && Coherent(e.at)
  {
    RunMovesForward(sw, Start(sw), MaxIterations);
    RunNormal(sw, Start(sw), MaxIterations);
    RunKeepsOnRay(sw, Start(sw), MaxIterations);
    RunKeepsCoherent(sw, Start(sw), MaxIterations);
  }

  /** One unfolding of the loop: with the guard true, a miss ends the run at
      this state, and otherwise the run goes on from the next state. */
  lemma RunUnfolds(sw: Sweep, st: Walk, budget: nat)
    requires st.dist2 > Epsilon && budget != 0
    ensures Step(sw, st).Miss? ==> Run(sw, st, budget) == Exit(false, st, 1, 0)
    ensures Step(sw, st).Next? ==>
      && Run(sw, st, budget).hit == Run(sw, Step(sw, st).after, budget - 1).hit
      && Run(sw, st, budget).at == Run(sw, Step(sw, st).after, budget - 1).at
  {
  }

  /** The loop body's three branches, stated over plain values: a miss, an
      advancement to `lambda` with the walked point moved along the motion,
      and an iteration that keeps the walked point. */
  lemma StepMissMatches(sw: Sweep, st: Walk, p: Vec3, vDotW: real, vDotR: real)
    requires p == StepSupport(sw, st) && vDotW == Dot(st.v, Sub(st.x, p)) && vDotR == Dot(st.v, sw.r)
    requires vDotW > 0.0 && vDotR >= -(SimdEpsilon * SimdEpsilon)
    ensures Step(sw, st) == Miss
  {
  }

  lemma StepAdvanceMatches(sw: Sweep, st: Walk, p: Vec3, vDotW: real, vDotR: real, lambda: real, x: Vec3)
    requires p == StepSupport(sw, st) && vDotW == Dot(st.v, Sub(st.x, p)) && vDotR == Dot(st.v, sw.r)
    requires vDotW > 0.0 && vDotR < -(SimdEpsilon * SimdEpsilon)
    requires lambda == st.lambda - vDotW / vDotR && x == Add(sw.s, Scale(lambda, sw.r))
    ensures Step(sw, st) == Next(Feed(sw, Walk(lambda, x, st.v, st.v, st.dist2, []), p), true)
  {
  }

  lemma StepStayMatches(sw: Sweep, st: Walk, p: Vec3, vDotW: real)
    requires p == StepSupport(sw, st) && vDotW == Dot(st.v, Sub(st.x, p))
    requires vDotW <= 0.0
    ensures Step(sw, st) == Next(Feed(sw, st, p), false)
  {
  }

  // ---------------------------------------------------------------------
  // The routine itself

  /** The output record: time fraction and normal at first contact. */
  class CastResult {
    var fraction: real
    var normal: Vec3

    constructor (fraction: real, normal: Vec3)
      ensures this.fraction == fraction && this.normal == normal
    {
      this.fraction := fraction;
      this.normal := normal;
    }
  }

  /** A ray cast against one convex shape B. `supportB` stands for B's support
      map without margin (its shape type, data and vertex data); `solver` is
      the simplex solver the cast owns for its duration. */
  class SubsimplexRayCast {
    const supportB: Vec3 -> Vec3
    const solver: SimplexSolver

    constructor (supportB: Vec3 -> Vec3, solver: SimplexSolver)
      ensures this.supportB == supportB && this.solver == solver
    {
      this.supportB := supportB;
      this.solver := solver;
    }

    /** Sweep the ray from `fromRay` to `toRay` against B moving from `fromB`
        to `toB`. Returns false, leaving `result` as it was, when the shapes
        never meet; otherwise returns true and writes the fraction and normal
        of the loop's final state. The solver ends up holding exactly the
        witnesses the loop fed it since its last reset. */
    method CalcTimeOfImpact(fromRay: Transform, toRay: Transform, fromB: Transform, toB: Transform,
                            result: CastResult) returns (hit: bool)
      modifies solver, result
      ensures var sw := Setup(fromRay, toRay, fromB, toB, supportB, solver.closestOf);
        var e := Run(sw, Start(sw), MaxIterations);
        && hit == e.hit
        && solver.added == e.at.simplex
        && (hit ==> result.fraction == e.at.lambda && result.normal == e.at.n)
        && (!hit ==> result.fraction == old(result.fraction) && result.normal == old(result.normal))
      ensures hit ==> result.fraction >= 0.0
      ensures hit ==> (result.fraction == 0.0 <==> result.normal == Zero)
    {
      var rayFromLocalA := Compose(Inverse(fromRay), fromB);
      var rayToLocalA := Compose(Inverse(toRay), toB);

      solver.Reset();

      var bXform := RotationOnly(rayFromLocalA);
      var lambda := 0.0;
      var s := Neg(rayFromLocalA.origin);
      var r := Neg(Sub(rayToLocalA.origin, rayFromLocalA.origin));
      var x := s;
      var arbitraryPoint := SupportPoint(bXform, supportB, r);
      var v := Sub(x, arbitraryPoint);
      var maxIter: int := MaxIterations;
      var n := Zero;
      var dist2 := Length2(v);

      ghost var sw := Setup(fromRay, toRay, fromB, toB, supportB, solver.closestOf);
      ghost var target := Run(sw, Start(sw), MaxIterations);
      TimeOfImpactFacts(sw);
      assert sw.s == s && sw.r == r && sw.bXform == bXform && sw.support == supportB;
      assert Walk(lambda, x, v, n, dist2, solver.added) == Start(sw);

      while dist2 > Epsilon && maxIter != 0
        invariant 0 <= maxIter <= MaxIterations
        invariant result.fraction == old(result.fraction) && result.normal == old(result.normal)
        invariant Run(sw, Walk(lambda, x, v, n, dist2, solver.added), maxIter).hit == target.hit
        invariant Run(sw, Walk(lambda, x, v, n, dist2, solver.added), maxIter).at == target.at
        decreases maxIter
      {
        ghost var before := Walk(lambda, x, v, n, dist2, solver.added);
        RunUnfolds(sw, before, maxIter);
        maxIter := maxIter - 1;
        var p := SupportPoint(bXform, supportB, v);
        var w := Sub(x, p);
        var vDotW := Dot(v, w);
        if vDotW > 0.0 {
          var vDotR := Dot(v, r);
          if vDotR >= -(SimdEpsilon * SimdEpsilon) {
            StepMissMatches(sw, before, p, vDotW, vDotR);
            return false;
          } else {
            lambda := lambda - vDotW / vDotR;
            x := Add(s, Scale(lambda, r));
            solver.Reset();
            w := Sub(x, p);
            n := v;
            StepAdvanceMatches(sw, before, p, vDotW, vDotR, lambda, x);
          }
        } else {
          StepStayMatches(sw, before, p, vDotW);
        }
        ghost var fed := Walk(lambda, x, v, n, dist2, solver.added);
        solver.AddVertex(w, x, p);
        var ok;
        ok, v := solver.Closest();
        if ok {
          dist2 := Length2(v);
        } else {
          dist2 := 0.0;
        }
        assert Walk(lambda, x, v, n, dist2, solver.added) == Feed(sw, fed, p);
      }

      result.fraction := lambda;
      result.normal := n;
      return true;
    }
  }
}
