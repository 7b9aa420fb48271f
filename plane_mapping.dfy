/** The three fixed tables of axis pairs that the rotation tools turn in. */
module PlaneMappings {
  import opened Vector6

  /** A rotation plane, given by its two axes. */
  datatype PlaneMapping = PlaneMapping(axis1: Axis, axis2: Axis)

  /** x-z and y-w: from the Mandelbrot plane towards the Julia plane. */
  const MandelbrotToJulia: seq<PlaneMapping> :=
    [PlaneMapping(X_INDEX, Z_INDEX), PlaneMapping(Y_INDEX, W_INDEX)]

  /** x-v and y-u: from the Mandelbrot plane towards the exponent plane. */
  const MandelbrotToExponent: seq<PlaneMapping> :=
    [PlaneMapping(X_INDEX, V_INDEX), PlaneMapping(Y_INDEX, U_INDEX)]

  /** z-v and w-u: from the Julia plane towards the exponent plane. */
  const JuliaToExponent: seq<PlaneMapping> :=
    [PlaneMapping(Z_INDEX, V_INDEX), PlaneMapping(W_INDEX, U_INDEX)]

  /** `table.some(m => m.axis1 === axis1 && m.axis2 === axis2)`. */
  predicate Contains(table: seq<PlaneMapping>, axis1: int, axis2: int) {
    exists k :: 0 <= k < |table| && table[k].axis1 == axis1 && table[k].axis2 == axis2
  }

  /** Each pair names its lower axis first. */
  predicate Ordered(table: seq<PlaneMapping>) {
    forall k :: 0 <= k < |table| ==> table[k].axis1 < table[k].axis2
  }

  /** Two mappings whose four axes are all different. */
  predicate TwoDisjointPlanes(table: seq<PlaneMapping>) {
    |table| == 2 &&
    var a, b := table[0], table[1];
    a.axis1 != b.axis1 && a.axis1 != b.axis2 && a.axis2 != b.axis1 && a.axis2 != b.axis2
  }

  /** The three tables are well formed: two mappings each, four distinct
      axes, lower axis first. */
  lemma TablesWellFormed()
    ensures Ordered(MandelbrotToJulia) && TwoDisjointPlanes(MandelbrotToJulia)
    ensures Ordered(MandelbrotToExponent) && TwoDisjointPlanes(MandelbrotToExponent)
    ensures Ordered(JuliaToExponent) && TwoDisjointPlanes(JuliaToExponent)
  {
  }

  /** Membership in each table, spelled out pair by pair. */
  lemma ContainsExactly(axis1: int, axis2: int)
    ensures Contains(MandelbrotToJulia, axis1, axis2) <==>
      (axis1 == 0 && axis2 == 2) || (axis1 == 1 && axis2 == 3)
    ensures Contains(MandelbrotToExponent, axis1, axis2) <==>
      (axis1 == 0 && axis2 == 4) || (axis1 == 1 && axis2 == 5)
    ensures Contains(JuliaToExponent, axis1, axis2) <==>
      (axis1 == 2 && axis2 == 4) || (axis1 == 3 && axis2 == 5)
  {
    if (axis1 == 0 && axis2 == 2) || (axis1 == 1 && axis2 == 3) {
      assert MandelbrotToJulia[if axis1 == 0 then 0 else 1] == PlaneMapping(axis1, axis2);
    }
    if (axis1 == 0 && axis2 == 4) || (axis1 == 1 && axis2 == 5) {
      assert MandelbrotToExponent[if axis1 == 0 then 0 else 1] == PlaneMapping(axis1, axis2);
    }
    if (axis1 == 2 && axis2 == 4) || (axis1 == 3 && axis2 == 5) {
      assert JuliaToExponent[if axis1 == 2 then 0 else 1] == PlaneMapping(axis1, axis2);
    }
  }

  /** No axis pair belongs to two of the tables. */
  lemma TablesDisjoint(axis1: int, axis2: int)
    ensures !(Contains(MandelbrotToJulia, axis1, axis2) && Contains(MandelbrotToExponent, axis1, axis2))
    ensures !(Contains(MandelbrotToJulia, axis1, axis2) && Contains(JuliaToExponent, axis1, axis2))
    ensures !(Contains(MandelbrotToExponent, axis1, axis2) && Contains(JuliaToExponent, axis1, axis2))
  {
    ContainsExactly(axis1, axis2);
  }

  /** Every mapping of a table belongs to that table (the `some` test finds
      it). */
  lemma ContainsOwn(table: seq<PlaneMapping>, k: int)
    requires 0 <= k < |table|
    ensures Contains(table, table[k].axis1, table[k].axis2)
  {
  }
}
