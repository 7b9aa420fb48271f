/** JavaScript values as they come out of `JSON.parse` or a caller's
    `unknown` argument, and the few coercions and comparisons the core
    applies to them. */
module JsValues {
  import opened Wrappers

  /** An IEEE double without rounding: a finite real or one of the three
      special values. */
  datatype Num = Finite(r: real) | PosInfinity | NegInfinity | NaN {

    /** `Number.isFinite`. */
    predicate IsFinite() {
      Finite?
    }

    /** Truthiness of a number: everything except 0 and NaN. */
    predicate Truthy() {
      match this
      case Finite(r) => r != 0.0
      case NaN => false
      case _ => true
    }
  }

  /** `a === b` on numbers: NaN equals nothing, infinities equal themselves. */
  predicate NumStrictEquals(a: Num, b: Num) {
    !a.NaN? && a == b
  }

  function Negate(a: Num): Num {
    match a
    case Finite(r) => Finite(-r)
    case PosInfinity => NegInfinity
    case NegInfinity => PosInfinity
    case NaN => NaN
  }

  /** IEEE addition on the special values. */
  function NumAdd(a: Num, b: Num): (r: Num)
    ensures a.Finite? && b.Finite? ==> r == Finite(a.r + b.r)
    ensures a.NaN? || b.NaN? ==> r.NaN?
  {
    match (a, b)
    case (NaN, _) => NaN
    case (_, NaN) => NaN
    case (Finite(x), Finite(y)) => Finite(x + y)
    case (PosInfinity, NegInfinity) => NaN
    case (NegInfinity, PosInfinity) => NaN
    case (Finite(_), _) => b
    case (_, _) => a
  }

  function NumSub(a: Num, b: Num): Num {
    NumAdd(a, Negate(b))
  }

  function Sign(a: Num): int {
    match a
    case Finite(r) => if r > 0.0 then 1 else if r < 0.0 then -1 else 0
    case PosInfinity => 1
    case NegInfinity => -1
    case NaN => 0
  }

  /** IEEE multiplication on the special values: infinity times zero is NaN. */
  function NumMul(a: Num, b: Num): (r: Num)
    ensures a.Finite? && b.Finite? ==> r == Finite(a.r * b.r)
    ensures a.NaN? || b.NaN? ==> r.NaN?
  {
    if a.NaN? || b.NaN? then NaN
    else if a.Finite? && b.Finite? then Finite(a.r * b.r)
    else
      var s := Sign(a) * Sign(b);
      if s > 0 then PosInfinity else if s < 0 then NegInfinity else NaN
  }

  /** `a / b` on two finite numbers: a nonzero divisor gives the quotient; a
      zero divisor gives an infinity of the dividend's sign, or NaN for 0 / 0. */
  function RealDivide(a: real, b: real): (r: Num)
    ensures b != 0.0 ==> r == Finite(a / b)
    ensures b == 0.0 ==> !r.Finite? && (r.NaN? <==> a == 0.0)
  {
    if b != 0.0 then Finite(a / b)
    else if a > 0.0 then PosInfinity
    else if a < 0.0 then NegInfinity
    else NaN
  }

  /** A value of unknown shape. `Array` and `Object` carry their elements and
      own enumerable properties. */
  datatype Value =
    | Undefined
    | Null
    | Bool(b: bool)
    | Number(n: Num)
    | Str(s: string)
    | Array(items: seq<Value>)
    | Object(fields: map<string, Value>)

  /** `Number.isFinite(v)`: true only for finite numbers, never coerces. */
  predicate IsFiniteNumber(v: Value) {
    v.Number? && v.n.Finite?
  }

  /** Truthiness of a value. */
  predicate Truthy(v: Value) {
    match v
    case Undefined => false
    case Null => false
    case Bool(b) => b
    case Number(n) => n.Truthy()
    case Str(s) => s != ""
    case _ => true
  }

  /** `typeof v === "object"`; note that this includes `null`. */
  predicate TypeofObject(v: Value) {
    v.Null? || v.Array? || v.Object?
  }

  /** `typeof v === "number"`. */
  predicate TypeofNumber(v: Value) {
    v.Number?
  }

  /** `Number(v)` (and `new Number(v).valueOf()`). The conversion of strings
      and arrays (which parse text) is the parameter `textToNumber`. */
  function ToNumber(v: Value, textToNumber: Value -> Num): (r: Num)
    ensures v.Number? ==> r == v.n
  {
    match v
    case Undefined => NaN
    case Null => Finite(0.0)
    case Bool(b) => if b then Finite(1.0) else Finite(0.0)
    case Number(n) => n
    case Str(_) => textToNumber(v)
    case Array(_) => textToNumber(v)
    case Object(_) => NaN
  }

  function Digit(d: nat): char
    requires d < 10
  {
    ('0' as int + d) as char
  }

  /** The property key of array index `i`: its decimal digits. */
  function IndexKey(i: nat): (k: string)
    ensures |k| >= 1 && '0' <= k[0] <= '9'
    ensures i >= 10 ==> |k| >= 2
  {
    if i < 10 then [Digit(i)] else IndexKey(i / 10) + [Digit(i % 10)]
  }

  /** Distinct indices have distinct keys. */
  lemma {:induction false} IndexKeyInjective(i: nat, j: nat)
    requires IndexKey(i) == IndexKey(j)
    ensures i == j
  {
    if i >= 10 && j >= 10 {
      var ki, kj := IndexKey(i), IndexKey(j);
      assert ki[|ki| - 1] == Digit(i % 10);
      assert kj[|kj| - 1] == Digit(j % 10);
      assert ki[..|ki| - 1] == IndexKey(i / 10);
      assert kj[..|kj| - 1] == IndexKey(j / 10);
      IndexKeyInjective(i / 10, j / 10);
    }
  }

  /** The index of an array whose key is `key`, searching below `n`. */
  function IndexOfKey(key: string, n: nat): (r: Option<nat>)
    ensures r.Some? ==> r.value < n && IndexKey(r.value) == key
    ensures r.None? ==> forall i :: 0 <= i < n ==> IndexKey(i) != key
  {
    if n == 0 then None
    else if IndexKey(n - 1) == key then Some(n - 1)
    else IndexOfKey(key, n - 1)
  }

  /** Property access `v[key]` on an array or a plain object; a missing
      property reads as `undefined`. */
  function Get(v: Value, key: string): Value {
    match v
    case Object(fields) => if key in fields then fields[key] else Undefined
    case Array(items) =>
      if key == "length" then Number(Finite(|items| as real))
      else (match IndexOfKey(key, |items|)
        case Some(i) => items[i]
        case None => Undefined)
    case _ => Undefined
  }

  /** `key in v` for an own property of an array or a plain object. */
  predicate HasProperty(v: Value, key: string) {
    match v
    case Object(fields) => key in fields
    case Array(items) => key == "length" || IndexOfKey(key, |items|).Some?
    case _ => false
  }

  /** Reading an array element by its index key gives that element. */
  lemma GetIndex(items: seq<Value>, i: nat)
    requires i < |items|
    ensures Get(Array(items), IndexKey(i)) == items[i]
  {
    assert IndexKey(i)[0] != "length"[0];
    var r := IndexOfKey(IndexKey(i), |items|);
    assert r.Some?;
    IndexKeyInjective(r.value, i);
  }

  /** `array.every(Number.isFinite)`. */
  predicate AllFiniteNumbers(items: seq<Value>) {
    forall i :: 0 <= i < |items| ==> IsFiniteNumber(items[i])
  }

  /** The numbers held by an array of finite numbers. */
  function Reals(items: seq<Value>): (s: seq<real>)
    requires AllFiniteNumbers(items)
    ensures |s| == |items|
    ensures forall i :: 0 <= i < |items| ==> s[i] == items[i].n.r
  {
    seq(|items|, i requires 0 <= i < |items| => items[i].n.r)
  }

  /** A `number[]` of finite numbers as a value. */
  function NumberArray(s: seq<real>): (v: Value)
    ensures v.Array? && |v.items| == |s|
    ensures forall i :: 0 <= i < |s| ==> v.items[i] == Number(Finite(s[i]))
  {
    Array(seq(|s|, i requires 0 <= i < |s| => Number(Finite(s[i]))))
  }

  /** Reading back an array of finite numbers gives the numbers. */
  lemma RealsOfNumberArray(s: seq<real>)
    ensures AllFiniteNumbers(NumberArray(s).items)
    ensures Reals(NumberArray(s).items) == s
  {
  }

  /** An array of finite numbers is the array form of its numbers. */
  lemma NumberArrayOfReals(items: seq<Value>)
    requires AllFiniteNumbers(items)
    ensures NumberArray(Reals(items)) == Array(items)
  {
    assert NumberArray(Reals(items)).items == items;
  }
}
