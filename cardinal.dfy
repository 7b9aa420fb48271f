/** Snapping a direction that is almost a signed basis vector onto it. */
module CardinalSnap {
  import opened Vector6

  /** The default threshold of `snapToCardinalDirection`. */
  const DEFAULT_THRESHOLD: real := 0.00001

  /** Component i is within the threshold of +1. */
  predicate SnapsUp(p: Vec6, threshold: real, i: Axis) {
    p.Component(i) > 1.0 - threshold
  }

  /** Component i is within the threshold of -1. */
  predicate SnapsDown(p: Vec6, threshold: real, i: Axis) {
    p.Component(i) < -1.0 + threshold
  }

  predicate Snaps(p: Vec6, threshold: real, i: Axis) {
    SnapsUp(p, threshold, i) || SnapsDown(p, threshold, i)
  }

  /** `snapToCardinalDirection`: the tests written out in the order
      x, y, z, w, v, u, the +1 test before the -1 test of each component. */
  function SnapToCardinalDirection(p: Vec6, threshold: real := DEFAULT_THRESHOLD): Vec6 {
    if p.x > 1.0 - threshold then Basis(X_INDEX)
    else if p.x < -1.0 + threshold then NegBasis(X_INDEX)
    else if p.y > 1.0 - threshold then Basis(Y_INDEX)
    else if p.y < -1.0 + threshold then NegBasis(Y_INDEX)
    else if p.z > 1.0 - threshold then Basis(Z_INDEX)
    else if p.z < -1.0 + threshold then NegBasis(Z_INDEX)
    else if p.w > 1.0 - threshold then Basis(W_INDEX)
    else if p.w < -1.0 + threshold then NegBasis(W_INDEX)
    else if p.v > 1.0 - threshold then Basis(V_INDEX)
    else if p.v < -1.0 + threshold then NegBasis(V_INDEX)
    else if p.u > 1.0 - threshold then Basis(U_INDEX)
    else if p.u < -1.0 + threshold then NegBasis(U_INDEX)
    else p
  }

  /** The reference search: scan the axes from i upwards and stop at the first
      one that snaps. */
  function SnapFrom(p: Vec6, threshold: real, i: nat): Vec6
    requires i <= 6
    decreases 6 - i
  {
    if i == 6 then p
    else if SnapsUp(p, threshold, i) then Basis(i)
    else if SnapsDown(p, threshold, i) then NegBasis(i)
    else SnapFrom(p, threshold, i + 1)
  }

  /** The written-out chain is the search from axis 0. */
  lemma SnapIsSearch(p: Vec6, threshold: real)
    ensures SnapToCardinalDirection(p, threshold) == SnapFrom(p, threshold, 0)
  {
    SearchStep(p, threshold, 0);
    SearchStep(p, threshold, 1);
    SearchStep(p, threshold, 2);
    SearchStep(p, threshold, 3);
    SearchStep(p, threshold, 4);
    SearchStep(p, threshold, 5);
    assert SnapFrom(p, threshold, 6) == p;
  }

  /** One step of the search, with the component written out. */
  lemma SearchStep(p: Vec6, threshold: real, i: Axis)
    ensures SnapFrom(p, threshold, i) ==
      if p.Component(i) > 1.0 - threshold then Basis(i)
      else if p.Component(i) < -1.0 + threshold then NegBasis(i)
      else SnapFrom(p, threshold, i + 1)
  {
  }

  /** When no axis before i snaps, the search from 0 is the search from i. */
  lemma {:induction false} SnapFromSkips(p: Vec6, threshold: real, k: nat, i: Axis)
    requires k <= i
    requires forall j: Axis :: j < i ==> !Snaps(p, threshold, j)
    ensures SnapFrom(p, threshold, k) == SnapFrom(p, threshold, i)
    decreases i - k
  {
    if k < i {
      assert !Snaps(p, threshold, k);
      SnapFromSkips(p, threshold, k + 1, i);
    }
  }

  /** The first axis within the threshold of +1 (with no earlier axis within
      either threshold) gives its basis vector. */
  lemma SnapFirstUp(p: Vec6, threshold: real, i: Axis)
    requires forall j: Axis :: j < i ==> !Snaps(p, threshold, j)
    requires SnapsUp(p, threshold, i)
    ensures SnapToCardinalDirection(p, threshold) == Basis(i)
  {
    SnapIsSearch(p, threshold);
    SnapFromSkips(p, threshold, 0, i);
  }

  /** The first axis within the threshold of -1 only gives the negated basis
      vector. */
  lemma SnapFirstDown(p: Vec6, threshold: real, i: Axis)
    requires forall j: Axis :: j < i ==> !Snaps(p, threshold, j)
    requires !SnapsUp(p, threshold, i) && SnapsDown(p, threshold, i)
    ensures SnapToCardinalDirection(p, threshold) == NegBasis(i)
  {
    SnapIsSearch(p, threshold);
    SnapFromSkips(p, threshold, 0, i);
  }

  /** A vector with no component within the threshold of +-1 is returned as
      it is. */
  lemma SnapNone(p: Vec6, threshold: real)
    requires forall j: Axis :: !Snaps(p, threshold, j)
    ensures SnapToCardinalDirection(p, threshold) == p
  {
    assert !Snaps(p, threshold, X_INDEX) && !Snaps(p, threshold, Y_INDEX)
      && !Snaps(p, threshold, Z_INDEX) && !Snaps(p, threshold, W_INDEX)
      && !Snaps(p, threshold, V_INDEX) && !Snaps(p, threshold, U_INDEX);
  }

  /** With a threshold in (0, 1], every signed basis vector snaps to itself. */
  lemma SnapBasis(threshold: real, i: Axis)
    requires 0.0 < threshold <= 1.0
    ensures SnapToCardinalDirection(Basis(i), threshold) == Basis(i)
    ensures SnapToCardinalDirection(NegBasis(i), threshold) == NegBasis(i)
  {
    BasisComponents(i);
    SnapSignedUnit(Basis(i), threshold, i, 1.0);
    SnapSignedUnit(NegBasis(i), threshold, i, -1.0);
  }

  /** A vector that is +-1 on axis i and 0 elsewhere snaps to itself. */
  lemma SnapSignedUnit(p: Vec6, threshold: real, i: Axis, sign: real)
    requires 0.0 < threshold <= 1.0
    requires sign == 1.0 || sign == -1.0
    requires forall j: Axis :: p.Component(j) == if j == i then sign else 0.0
    ensures SnapToCardinalDirection(p, threshold) == p
  {
    assert p == Vec6(p.Component(0), p.Component(1), p.Component(2), p.Component(3),
      p.Component(4), p.Component(5));
    if sign == 1.0 {
      SnapFirstUp(p, threshold, i);
      assert p == Basis(i);
    } else {
      SnapFirstDown(p, threshold, i);
      assert p == NegBasis(i);
    }
  }

  /** The result is the input or a signed basis vector. */
  lemma SnapResult(p: Vec6, threshold: real)
    ensures var r := SnapToCardinalDirection(p, threshold);
      r == p || exists i: Axis :: r == Basis(i) || r == NegBasis(i)
  {
    SnapIsSearch(p, threshold);
    SearchResult(p, threshold, 0);
  }

  /** Every step of the search returns the input or a signed basis vector. */
  lemma {:induction false} SearchResult(p: Vec6, threshold: real, k: nat)
    requires k <= 6
    ensures var r := SnapFrom(p, threshold, k);
      r == p || exists i: Axis :: r == Basis(i) || r == NegBasis(i)
    decreases 6 - k
  {
    if k < 6 {
      if SnapsUp(p, threshold, k) {
        assert SnapFrom(p, threshold, k) == Basis(k);
      } else if SnapsDown(p, threshold, k) {
        assert SnapFrom(p, threshold, k) == NegBasis(k);
      } else {
        SearchResult(p, threshold, k + 1);
      }
    }
  }

  /** With a threshold in (0, 1], snapping twice is snapping once. */
  lemma SnapIdempotent(p: Vec6, threshold: real)
    requires 0.0 < threshold <= 1.0
    ensures SnapToCardinalDirection(SnapToCardinalDirection(p, threshold), threshold)
      == SnapToCardinalDirection(p, threshold)
  {
    var r := SnapToCardinalDirection(p, threshold);
    SnapResult(p, threshold);
    if r != p {
      var i: Axis :| r == Basis(i) || r == NegBasis(i);
      SnapBasis(threshold, i);
    }
  }

}
