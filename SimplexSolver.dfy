/** The simplex solver the convex cast drives. Its closest-point algorithm is
    not part of this model: the solver is characterised only by the witnesses
    it was given since its last reset, and its answer to `closest` is a fixed
    function of that history (`closestOf`), supplied when it is created. */
module SimplexSolverInterface {
  import opened LinearMath

  /** One witness triple: the Minkowski-difference point `w`, the walked
      point `x` it was taken from and the support point `p` of the shape. */
  datatype Witness = Witness(w: Vec3, x: Vec3, p: Vec3)

  /** What `closest` reports: whether the simplex had a closest point, and
      the vector it writes into its out-parameter. */
  datatype ClosestAnswer = ClosestAnswer(ok: bool, v: Vec3)

  class SimplexSolver {
    /** The witnesses added since the last reset, oldest first. */
    var added: seq<Witness>
    /** The solver's closest-point answer for a history of witnesses. */
    const closestOf: seq<Witness> -> ClosestAnswer

    constructor (closestOf: seq<Witness> -> ClosestAnswer)
      ensures added == [] && this.closestOf == closestOf
    {
      added := [];
      this.closestOf := closestOf;
    }

    /** Forget every witness. */
    method Reset()
      modifies this
      ensures added == []
    {
      added := [];
    }

    /** Accumulate one witness triple. */
    method AddVertex(w: Vec3, x: Vec3, p: Vec3)
      modifies this
      ensures added == old(added) + [Witness(w, x, p)]
    {
      added := added + [Witness(w, x, p)];
    }

    /** The closest point of the current simplex to the origin; `ok` is false
        when the simplex has none. The vector is written in both cases. */
    method Closest() returns (ok: bool, v: Vec3)
      ensures ClosestAnswer(ok, v) == closestOf(added)
    {
      var answer := closestOf(added);
      ok, v := answer.ok, answer.v;
    }
  }
}
