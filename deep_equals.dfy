/** `deepEquals`: structural equality of plain data, comparing two
    non-null objects key by key and everything else with `===`. */
module DeepEquals {
  import opened JsValues

  /** `isRecord`: `typeof obj === 'object' && obj !== null`. */
  predicate IsRecord(v: Value) {
    TypeofObject(v) && v != Null
  }

  /** Records are exactly arrays and plain objects. */
  lemma IsRecordCases(v: Value)
    ensures IsRecord(v) <==> v.Array? || v.Object?
  {
  }

  /** `a === b` where at least one side is not a record: equal primitives
      of the same type (NaN equal to nothing); a record is never `===` to a
      primitive. */
  predicate StrictEquals(a: Value, b: Value) {
    match (a, b)
    case (Undefined, Undefined) => true
    case (Null, Null) => true
    case (Bool(x), Bool(y)) => x == y
    case (Number(x), Number(y)) => NumStrictEquals(x, y)
    case (Str(x), Str(y)) => x == y
    case _ => false
  }

  /** `Object.keys(v).length` for a record. */
  function KeyCount(v: Value): nat
    requires IsRecord(v)
  {
    if v.Array? then |v.items| else |v.fields|
  }

  /** `deepEquals(a, b)`: two records are equal when they have as many keys
      and each key of `a` holds a value deep-equal to `b`'s value at that
      key (`undefined` when `b` lacks it); anything else is `a === b`. */
  predicate DeepEquals(a: Value, b: Value)
    decreases a
  {
    if IsRecord(a) && IsRecord(b) then
      KeyCount(a) == KeyCount(b) &&
      match a
      case Array(items) => forall i :: 0 <= i < |items| ==> DeepEquals(items[i], Get(b, IndexKey(i)))
      case Object(fields) => forall k :: k in fields ==> DeepEquals(fields[k], Get(b, k))
    else
      StrictEquals(a, b)
  }

  /** Outside the record case the result is `===`. */
  lemma NotRecordIsStrict(a: Value, b: Value)
    requires !IsRecord(a) || !IsRecord(b)
    ensures DeepEquals(a, b) <==> StrictEquals(a, b)
  {
  }

  /** Records with different numbers of keys are unequal. */
  lemma KeyCountsDiffer(a: Value, b: Value)
    requires IsRecord(a) && IsRecord(b) && KeyCount(a) != KeyCount(b)
    ensures !DeepEquals(a, b)
  {
  }

  /** Two plain objects with as many keys are equal exactly when every key
      of the first matches; the second's own keys are never looked at. */
  lemma ObjectsKeyByKey(af: map<string, Value>, b: Value)
    requires IsRecord(b) && KeyCount(b) == |af|
    ensures DeepEquals(Object(af), b) <==> forall k :: k in af ==> DeepEquals(af[k], Get(b, k))
  {
  }

  /** A value with no NaN anywhere inside it. */
  predicate NoNaN(v: Value)
    decreases v
  {
    match v
    case Number(n) => !n.NaN?
    case Array(items) => forall i :: 0 <= i < |items| ==> NoNaN(items[i])
    case Object(fields) => forall k :: k in fields ==> NoNaN(fields[k])
    case _ => true
  }

  /** Every NaN-free value is deep-equal to itself. */
  lemma {:induction false} DeepEqualsReflexive(v: Value)
    requires NoNaN(v)
    ensures DeepEquals(v, v)
    decreases v
  {
    match v
    case Array(items) =>
      forall i | 0 <= i < |items|
        ensures DeepEquals(items[i], Get(v, IndexKey(i)))
      {
        GetIndex(items, i);
        DeepEqualsReflexive(items[i]);
      }
    case Object(fields) =>
      forall k | k in fields
        ensures DeepEquals(fields[k], Get(v, k))
      {
        DeepEqualsReflexive(fields[k]);
      }
    case _ =>
  }

  /** NaN is not deep-equal to itself. */
  lemma NaNNotEqual()
    ensures !DeepEquals(Number(NaN), Number(NaN))
  {
  }

  /** Only the first object's keys are inspected, so a key holding
      `undefined` matches a missing key and the comparison is not
      symmetric. */
  lemma NotSymmetric()
    ensures DeepEquals(Object(map["a" := Undefined]), Object(map["b" := Number(Finite(1.0))]))
    ensures !DeepEquals(Object(map["b" := Number(Finite(1.0))]), Object(map["a" := Undefined]))
  {
    var x := Object(map["a" := Undefined]);
    var y := Object(map["b" := Number(Finite(1.0))]);
    assert Get(y, "a") == Undefined;
    assert Get(x, "b") == Undefined;
    assert "b" in y.fields;
  }

  /** An array and a plain object with the same index keys compare equal. */
  lemma ArrayMatchesIndexObject()
    ensures DeepEquals(Array([Number(Finite(1.0))]), Object(map["0" := Number(Finite(1.0))]))
  {
    var a := Array([Number(Finite(1.0))]);
    var o := Object(map["0" := Number(Finite(1.0))]);
    assert IndexKey(0) == "0";
    assert Get(o, IndexKey(0)) == Number(Finite(1.0));
  }
}
