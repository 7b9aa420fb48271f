/** Six-by-six matrices stored column-major in a buffer of 36 numbers:
    entry (row i, column j) lives in slot j * 6 + i. The first half of the
    module gives the meaning of the buffer as a sequence of 36 reals; the
    class `Mat6` is the buffer itself, with the in-place operations. */
module Matrix6 {
  import opened Wrappers
  import opened JsMath
  import opened JsValues
  import opened Vector6

  /** The contents of a matrix buffer. */
  type Matrix = s: seq<real> | |s| == 36 witness seq(36, k => 0.0)

  /** The storage slot of entry (i, j). */
  function Slot(i: int, j: int): int {
    j * 6 + i
  }

  /** Entry (i, j) of a matrix. */
  function At(m: Matrix, i: Axis, j: Axis): real {
    m[Slot(i, j)]
  }

  /** Every slot belongs to exactly one pair of axes. */
  lemma SlotOfAxes(k: int)
    requires 0 <= k < 36
    ensures 0 <= k % 6 < 6 && 0 <= k / 6 < 6 && Slot(k % 6, k / 6) == k
  {
  }

  lemma SlotInjective(i: Axis, j: Axis, i2: Axis, j2: Axis)
    ensures 0 <= Slot(i, j) < 36
    ensures Slot(i, j) == Slot(i2, j2) ==> i == i2 && j == j2
    ensures Slot(i, j) % 6 == i && Slot(i, j) / 6 == j
  {
  }

  /** The identity: 1 where the row equals the column, 0 elsewhere. */
  function IdentityEntries(): Matrix {
    seq(36, k => if k % 6 == k / 6 then 1.0 else 0.0)
  }

  lemma IdentityAt(i: Axis, j: Axis)
    ensures At(IdentityEntries(), i, j) == if i == j then 1.0 else 0.0
  {
    SlotInjective(i, j, i, j);
  }

  /** A read of entry (i, j) as JavaScript does it: the slot j * 6 + i, or
      `undefined` outside the buffer. */
  function Read(m: Matrix, i: int, j: int): Option<real> {
    if 0 <= Slot(i, j) < 36 then Some(m[Slot(i, j)]) else None
  }

  /** A write of entry (i, j) as a typed array does it: a slot outside the
      buffer is silently ignored. */
  function Write(m: Matrix, i: int, j: int, x: real): Matrix {
    if 0 <= Slot(i, j) < 36 then m[Slot(i, j) := x] else m
  }

  /** After a write of entry (i, j), that entry holds the value and the other
      35 entries are unchanged. */
  lemma WriteAt(m: Matrix, i: Axis, j: Axis, x: real, i2: Axis, j2: Axis)
    ensures At(Write(m, i, j, x), i2, j2) == if i2 == i && j2 == j then x else At(m, i2, j2)
    ensures Read(Write(m, i, j, x), i, j) == Some(x)
  {
    SlotInjective(i, j, i2, j2);
  }

  /** The rotation by the angle with cosine c and sine s in the plane of
      axes a1 and a2: the identity written at (a1, a1), (a1, a2), (a2, a1)
      and (a2, a2), in that order. */
  function PlaneRotation(a1: int, a2: int, c: real, s: real): Matrix {
    Write(Write(Write(Write(IdentityEntries(), a1, a1, c), a1, a2, -s), a2, a1, s), a2, a2, c)
  }

  /** For two distinct axes the rotation is the identity except for the
      cos/sin block. */
  lemma PlaneRotationAt(a1: Axis, a2: Axis, c: real, s: real, i: Axis, j: Axis)
    requires a1 != a2
    ensures At(PlaneRotation(a1, a2, c, s), i, j) ==
      if i == a1 && j == a1 then c
      else if i == a1 && j == a2 then -s
      else if i == a2 && j == a1 then s
      else if i == a2 && j == a2 then c
      else if i == j then 1.0 else 0.0
  {
    var m0 := IdentityEntries();
    var m1 := Write(m0, a1, a1, c);
    var m2 := Write(m1, a1, a2, -s);
    var m3 := Write(m2, a2, a1, s);
    WriteAt(m3, a2, a2, c, i, j);
    WriteAt(m2, a2, a1, s, i, j);
    WriteAt(m1, a1, a2, -s, i, j);
    WriteAt(m0, a1, a1, c, i, j);
    IdentityAt(i, j);
  }

  /** Sum over the first n columns of row i times the vector components. */
  function RowSum(m: Matrix, comps: seq<real>, i: Axis, n: nat): real
    requires |comps| == 6 && n <= 6
  {
    if n == 0 then 0.0 else RowSum(m, comps, i, n - 1) + At(m, i, n - 1) * comps[n - 1]
  }

  /** The matrix-vector product. */
  function MulVec(m: Matrix, p: Vec6): Vec6 {
    var c := p.ToArray();
    Vec6(RowSum(m, c, 0, 6), RowSum(m, c, 1, 6), RowSum(m, c, 2, 6),
      RowSum(m, c, 3, 6), RowSum(m, c, 4, 6), RowSum(m, c, 5, 6))
  }

  /** Sum over the first n terms of row i of a times column j of b. */
  function CellSum(a: Matrix, b: Matrix, i: Axis, j: Axis, n: nat): real
    requires n <= 6
  {
    if n == 0 then 0.0 else CellSum(a, b, i, j, n - 1) + At(a, i, n - 1) * At(b, n - 1, j)
  }

  /** The matrix product a * b. */
  function MatMul(a: Matrix, b: Matrix): (r: Matrix)
    ensures forall i: Axis, j: Axis :: At(r, i, j) == CellSum(a, b, i, j, 6)
  {
    var r := seq(36, k requires 0 <= k < 36 => CellSum(a, b, k % 6, k / 6, 6));
    forall i: Axis, j: Axis
      ensures At(r, i, j) == CellSum(a, b, i, j, 6)
    {
      SlotInjective(i, j, i, j);
    }
    r
  }

  /** Two matrices with the same entries at every (i, j) are equal. */
  lemma MatrixExt(a: Matrix, b: Matrix)
    requires forall i: Axis, j: Axis :: At(a, i, j) == At(b, i, j)
    ensures a == b
  {
    forall k | 0 <= k < 36
      ensures a[k] == b[k]
    {
      SlotOfAxes(k);
      assert At(a, k % 6, k / 6) == At(b, k % 6, k / 6);
    }
  }

  lemma {:induction false} CellSumIdentityLeft(b: Matrix, i: Axis, j: Axis, n: nat)
    requires n <= 6
    ensures CellSum(IdentityEntries(), b, i, j, n) == if i < n then At(b, i, j) else 0.0
  {
    if n > 0 {
      CellSumIdentityLeft(b, i, j, n - 1);
      IdentityAt(i, n - 1);
    }
  }

  lemma {:induction false} CellSumIdentityRight(a: Matrix, i: Axis, j: Axis, n: nat)
    requires n <= 6
    ensures CellSum(a, IdentityEntries(), i, j, n) == if j < n then At(a, i, j) else 0.0
  {
    if n > 0 {
      CellSumIdentityRight(a, i, j, n - 1);
      IdentityAt(n - 1, j);
    }
  }

  /** The identity is a left and a right neutral element of the product. */
  lemma MatMulIdentity(a: Matrix)
    ensures MatMul(IdentityEntries(), a) == a
    ensures MatMul(a, IdentityEntries()) == a
  {
    forall i: Axis, j: Axis
      ensures At(MatMul(IdentityEntries(), a), i, j) == At(a, i, j)
      ensures At(MatMul(a, IdentityEntries()), i, j) == At(a, i, j)
    {
      CellSumIdentityLeft(a, i, j, 6);
      CellSumIdentityRight(a, i, j, 6);
    }
    MatrixExt(MatMul(IdentityEntries(), a), a);
    MatrixExt(MatMul(a, IdentityEntries()), a);
  }

  lemma {:induction false} RowSumIdentity(comps: seq<real>, i: Axis, n: nat)
    requires |comps| == 6 && n <= 6
    ensures RowSum(IdentityEntries(), comps, i, n) == if i < n then comps[i] else 0.0
  {
    if n > 0 {
      RowSumIdentity(comps, i, n - 1);
      IdentityAt(i, n - 1);
    }
  }

  /** The identity leaves every vector unchanged. */
  lemma MulVecIdentity(p: Vec6)
    ensures MulVec(IdentityEntries(), p) == p
  {
    var c := p.ToArray();
    RowSumIdentity(c, 0, 6);
    RowSumIdentity(c, 1, 6);
    RowSumIdentity(c, 2, 6);
    RowSumIdentity(c, 3, 6);
    RowSumIdentity(c, 4, 6);
    RowSumIdentity(c, 5, 6);
  }

  /** The helpers the matrix code calls whose bodies are not part of this
      model: `Mat6.createPlaneMapping(fromA, fromB, toA, toB, angle)`,
      `Mat6.rotationFromAxisIndices(axis1, axis2, angle)`,
      `Mat6.rotationFromAxes(axis1, axis2, angle)` and
      `multiplyTransposeVec6`. */
  datatype Mat6Statics = Mat6Statics(
    createPlaneMapping: (Axis, Axis, Axis, Axis, real) -> Matrix,
    rotationFromAxisIndices: (Axis, Axis, real) -> Matrix,
    rotationFromAxes: (Vec6, Vec6, real) -> Matrix,
    multiplyTransposeVec6: (Matrix, Vec6) -> Vec6)

  /** The entries `fromMaybeArray` accepts: exactly an array of 36 finite
      numbers, in storage order. */
  function EntriesFromMaybeArray(a: Value): (r: Result<Matrix>)
    ensures r.Ok? <==> a.Array? && |a.items| == 36 && AllFiniteNumbers(a.items)
    ensures r.Ok? ==> r.value == Reals(a.items)
    ensures r.Err? ==> r.message == "Invalid Mat6 array"
  {
    if !a.Array? || |a.items| != 36 || !AllFiniteNumbers(a.items) then
      Err("Invalid Mat6 array")
    else
      Ok(Reals(a.items))
  }

  /** The array form of a matrix is accepted and gives its entries back. */
  lemma EntriesFromMaybeArrayToArray(m: Matrix)
    ensures EntriesFromMaybeArray(NumberArray(m)) == Ok(m)
  {
    RealsOfNumberArray(m);
  }

  /** `equals`, taken to be exact equality of the 36 entries. */
  predicate MatrixEquals(a: Matrix, b: Matrix) {
    a == b
  }

  /** A 6x6 matrix over a column-major buffer of 36 numbers. */
  class Mat6 {
    var m: array<real>

    ghost predicate Valid()
      reads this
    {
      m.Length == 36
    }

    /** The buffer contents, in storage order. */
    function ToArray(): Matrix
      reads this, m
      requires Valid()
    {
      m[..]
    }

    /** `new Mat6()`: the identity. */
    constructor Identity()
      ensures Valid() && fresh(m)
      ensures ToArray() == IdentityEntries()
    {
      m := new real[36];
      new;
      var _ := SetIdentity();
    }

    /** `new Mat6(values)` with exactly 36 values: a copy of them. */
    constructor FromValues(values: seq<real>)
      requires |values| == 36
      ensures Valid() && fresh(m)
      ensures ToArray() == values
    {
      m := new real[36](k requires 0 <= k < 36 => values[k]);
    }

    /** The constructor: the identity without values, a copy of exactly 36
        values, an error for any other number of values. */
    static method New(values: Option<seq<real>>) returns (r: Result<Mat6>)
      ensures r.Ok? <==> values.None? || |values.value| == 36
      ensures r.Ok? ==> fresh(r.value) && fresh(r.value.m) && r.value.Valid()
      ensures r.Ok? && values.None? ==> r.value.ToArray() == IdentityEntries()
      ensures r.Ok? && values.Some? ==> r.value.ToArray() == values.value
      ensures r.Err? ==> r.message == "Mat6 constructor requires exactly 36 values"
    {
      if values.Some? {
        if |values.value| != 36 {
          return Err("Mat6 constructor requires exactly 36 values");
        }
        var a := new Mat6.FromValues(values.value);
        return Ok(a);
      }
      var a := new Mat6.Identity();
      return Ok(a);
    }

    /** `fromMaybeArray`: a fresh matrix holding the entries
        `EntriesFromMaybeArray` accepts, or its error. */
    static method FromMaybeArray(a: Value) returns (r: Result<Mat6>)
      ensures r.Ok? <==> EntriesFromMaybeArray(a).Ok?
      ensures r.Ok? ==> fresh(r.value) && fresh(r.value.m) && r.value.Valid()
      ensures r.Ok? ==> r.value.ToArray() == EntriesFromMaybeArray(a).value
      ensures r.Err? ==> r == EntriesFromMaybeArray(a).PropagateFailure()
    {
      var entries := EntriesFromMaybeArray(a);
      if entries.Err? {
        return entries.PropagateFailure();
      }
      var made := New(Some(entries.value));
      return made;
    }

    /** `identity()`: overwrites the buffer with the identity and returns this
        same matrix. */
    method SetIdentity() returns (r: Mat6)
      requires Valid()
      modifies m
      ensures r == this && Valid()
      ensures ToArray() == IdentityEntries()
    {
      forall k | 0 <= k < 36 {
        m[k] := 0.0;
      }
      for i := 0 to 6
        invariant forall k :: 0 <= k < 36 ==>
          m[k] == if k % 6 == k / 6 && k / 6 < i then 1.0 else 0.0
      {
        m[i * 6 + i] := 1.0;
      }
      r := this;
    }

    /** `get(i, j)`: slot j * 6 + i, or `undefined` outside the buffer. */
    function Get(i: int, j: int): (r: Option<real>)
      reads this, m
      requires Valid()
      ensures 0 <= i < 6 && 0 <= j < 6 ==> r == Some(At(ToArray(), i, j))
    {
      Read(ToArray(), i, j)
    }

    /** `set(i, j, value)`: writes slot j * 6 + i; outside the buffer the
        write is ignored. */
    method Set(i: int, j: int, value: real)
      requires Valid()
      modifies m
      ensures Valid()
      ensures ToArray() == Write(old(ToArray()), i, j, value)
    {
      if 0 <= j * 6 + i < 36 {
        m[j * 6 + i] := value;
      }
    }

    /** `multiplyVec6(p)`: this matrix times the vector. */
    method MultiplyVec6(p: Vec6) returns (r: Vec6)
      requires Valid()
      ensures r == MulVec(ToArray(), p)
    {
      var components := p.ToArray();
      var result := [0.0, 0.0, 0.0, 0.0, 0.0, 0.0];
      for i := 0 to 6
        invariant |result| == 6
        invariant forall i2 :: 0 <= i2 < i ==> result[i2] == RowSum(ToArray(), components, i2, 6)
        invariant forall i2 :: i <= i2 < 6 ==> result[i2] == 0.0
      {
        for j := 0 to 6
          invariant |result| == 6
          invariant result[i] == RowSum(ToArray(), components, i, j)
          invariant forall i2 :: 0 <= i2 < i ==> result[i2] == RowSum(ToArray(), components, i2, 6)
          invariant forall i2 :: i < i2 < 6 ==> result[i2] == 0.0
        {
          result := result[i := result[i] + m[j * 6 + i] * components[j]];
        }
      }
      r := Vec6(result[0], result[1], result[2], result[3], result[4], result[5]);
    }

    /** `multiply(other)`: a new matrix holding this * other. */
    method Multiply(other: Mat6) returns (r: Mat6)
      requires Valid() && other.Valid()
      ensures fresh(r) && fresh(r.m) && r.Valid()
      ensures r.ToArray() == MatMul(ToArray(), other.ToArray())
    {
      r := new Mat6.Identity();
      for i := 0 to 6
        invariant r.Valid() && fresh(r.m)
        invariant forall k :: 0 <= k < 36 && k % 6 < i ==>
          r.m[k] == CellSum(ToArray(), other.ToArray(), k % 6, k / 6, 6)
      {
        for j := 0 to 6
          invariant r.Valid() && fresh(r.m)
          invariant forall k :: 0 <= k < 36 && (k % 6 < i || (k % 6 == i && k / 6 < j)) ==>
            r.m[k] == CellSum(ToArray(), other.ToArray(), k % 6, k / 6, 6)
        {
          var sum := 0.0;
          for k := 0 to 6
            invariant sum == CellSum(ToArray(), other.ToArray(), i, j, k)
          {
            sum := sum + m[k * 6 + i] * other.m[j * 6 + k];
          }
          r.Set(i, j, sum);
        }
      }
      forall i: Axis, j: Axis
        ensures At(r.ToArray(), i, j) == At(MatMul(ToArray(), other.ToArray()), i, j)
      {
        SlotInjective(i, j, i, j);
      }
      MatrixExt(r.ToArray(), MatMul(ToArray(), other.ToArray()));
    }

    /** `createPlaneRotation(axis1, axis2, angle)`: the identity with cos and
        sin of the angle written into the plane of the two axes. */
    static method CreatePlaneRotation(lib: MathLib, axis1: int, axis2: int, angle: real)
      returns (r: Mat6)
      ensures fresh(r) && fresh(r.m) && r.Valid()
      ensures r.ToArray() == PlaneRotation(axis1, axis2, Cos(lib, angle), Sin(lib, angle))
    {
      r := new Mat6.Identity();
      var cos := Cos(lib, angle);
      var sin := Sin(lib, angle);
      r.Set(axis1, axis1, cos);
      r.Set(axis1, axis2, -sin);
      r.Set(axis2, axis1, sin);
      r.Set(axis2, axis2, cos);
    }

    /** `clone()`: a new matrix over a new buffer with the same entries. */
    method Clone() returns (r: Mat6)
      requires Valid()
      ensures fresh(r) && fresh(r.m) && r.Valid()
      ensures r.ToArray() == ToArray()
    {
      r := new Mat6.FromValues(m[..]);
    }
  }

  /** Writing into a clone leaves the original as it was. */
  method CloneThenSet(a: Mat6, i: int, j: int, x: real) returns (c: Mat6)
    requires a.Valid()
    ensures c.Valid() && a.Valid()
    ensures a.ToArray() == old(a.ToArray())
    ensures c.ToArray() == Write(a.ToArray(), i, j, x)
  {
    c := a.Clone();
    c.Set(i, j, x);
  }
}
