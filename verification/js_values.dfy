/**
 * The dynamic JavaScript values the client inspects at run time, with the
 * pieces of JavaScript semantics its decisions depend on: `typeof`,
 * truthiness and `||`, property reads, string conversion in template
 * literals, and the type-test helpers of src/functions/nanogpt.ts.
 */
module JsValues {
  import opened Results
  import Text

  /**
   * A JavaScript number: a finite value, NaN, or an infinity. Finite values
   * are exact reals; IEEE-754 rounding is not modelled.
   */
  datatype Number = Finite(r: real) | NaN | Infinity(negative: bool)

  /** A JavaScript value as produced by callers or by `JSON.parse`. */
  datatype Value =
    | Undefined
    | Null
    | Bool(b: bool)
    | Str(s: string)
    | Num(n: Number)
    | Obj(fields: map<string, Value>)
    | Arr(elems: seq<Value>)

  /** The integer `k` as a JavaScript number. */
  function FromInt(k: int): Value {
    Num(Finite(k as real))
  }

  /** The `typeof` operator. */
  function TypeOf(v: Value): string {
    match v
    case Undefined => "undefined"
    case Null => "object"
    case Bool(_) => "boolean"
    case Str(_) => "string"
    case Num(_) => "number"
    case Obj(_) => "object"
    case Arr(_) => "object"
  }

  /** JavaScript truthiness: everything except undefined, null, false, "", 0 and NaN. */
  predicate Truthy(v: Value) {
    match v
    case Undefined => false
    case Null => false
    case Bool(b) => b
    case Str(s) => s != ""
    case Num(n) => (n.Finite? && n.r != 0.0) || n.Infinity?
    case Obj(_) => true
    case Arr(_) => true
  }

  /** `a || b`: the left operand when it is truthy, otherwise the right one. */
  function Or(a: Value, b: Value): Value {
    if Truthy(a) then a else b
  }

  /** `isArray` (nanogpt.ts): `Array.isArray`. */
  predicate IsArray(v: Value) {
    v.Arr?
  }

  /** `isString` (nanogpt.ts): `typeof value === 'string'`. */
  predicate IsString(v: Value) {
    TypeOf(v) == "string"
  }

  /** `isNumber` (nanogpt.ts): `typeof value === 'number'`. */
  predicate IsNumber(v: Value) {
    TypeOf(v) == "number"
  }

  /** `isInteger` (nanogpt.ts): a finite number equal to its floor. */
  predicate IsInteger(v: Value) {
    IsNumber(v) && v.n.Finite? && v.n.r.Floor as real == v.n.r
  }

  /** `isIntegerGreaterThanZero` (nanogpt.ts). */
  predicate IsIntegerGreaterThanZero(v: Value) {
    IsInteger(v) && v.n.r >= 1.0
  }

  /** `isObject` (nanogpt.ts): not null, `typeof` object, and not an array. */
  predicate IsObject(v: Value) {
    v != Null && TypeOf(v) == "object" && !IsArray(v)
  }

  /** `isObject` holds of exactly the plain objects: `typeof null` and arrays are excluded. */
  lemma IsObjectExactly(v: Value)
    ensures IsObject(v) <==> v.Obj?
    ensures IsObject(v) ==> Truthy(v)
  {
  }

  /** `isString` and `isNumber` hold of exactly the strings and the numbers. */
  lemma TypeTestsExactly(v: Value)
    ensures IsString(v) <==> v.Str?
    ensures IsNumber(v) <==> v.Num?
  {
  }

  /** `isIntegerGreaterThanZero` holds of exactly the numbers 1, 2, 3, ... */
  lemma IsIntegerGreaterThanZeroExactly(v: Value)
    ensures IsIntegerGreaterThanZero(v) <==> exists k: int :: k >= 1 && v == FromInt(k)
  {
    if IsIntegerGreaterThanZero(v) {
      var k := v.n.r.Floor;
      assert v == FromInt(k);
    }
    if exists k: int :: k >= 1 && v == FromInt(k) {
      var k: int :| k >= 1 && v == FromInt(k);
      assert (k as real).Floor == k;
    }
  }

  /** A property of a plain object; a missing key reads as undefined. */
  function Get(fields: map<string, Value>, key: string): Value {
    if key in fields then fields[key] else Undefined
  }

  /**
   * Reading the named property `v.key`: `None` is the TypeError raised when
   * `v` is undefined or null. Only own properties and `length` are modelled.
   */
  function Member(v: Value, key: string): (r: Option<Value>)
    ensures r.None? <==> v.Undefined? || v.Null?
    ensures v.Obj? ==> r == Some(Get(v.fields, key))
  {
    match v
    case Undefined => None
    case Null => None
    case Obj(fields) => Some(Get(fields, key))
    case Arr(elems) => Some(if key == "length" then FromInt(|elems|) else Undefined)
    case Str(s) => Some(if key == "length" then FromInt(|s|) else Undefined)
    case _ => Some(Undefined)
  }

  /**
   * Reading the element `v[i]`: `None` is the TypeError raised when `v` is
   * undefined or null. A string yields its `i`-th character, an object the
   * property named by the decimal text of `i`.
   */
  function Index(v: Value, i: nat): (r: Option<Value>)
    ensures r.None? <==> v.Undefined? || v.Null?
    ensures v.Arr? && i < |v.elems| ==> r == Some(v.elems[i])
    ensures v.Arr? && |v.elems| <= i ==> r == Some(Undefined)
  {
    match v
    case Undefined => None
    case Null => None
    case Arr(elems) => Some(if i < |elems| then elems[i] else Undefined)
    case Str(s) => Some(if i < |s| then Str([s[i]]) else Undefined)
    case Obj(fields) => Some(Get(fields, NatText(i)))
    case _ => Some(Undefined)
  }

  /** The decimal digit character for `d`. */
  function DigitChar(d: int): char
    requires 0 <= d < 10
  {
    ('0' as int + d) as char
  }

  predicate IsDigit(c: char) {
    '0' <= c <= '9'
  }

  /** The decimal text of a natural number, without leading zeros. */
  function NatText(n: nat): string
    decreases n
  {
    if n < 10 then [DigitChar(n)] else NatText(n / 10) + [DigitChar(n % 10)]
  }

  /** The number a string of decimal digits denotes. */
  function DecimalValue(s: string): nat
    requires forall k :: 0 <= k < |s| ==> IsDigit(s[k])
  {
    if |s| == 0 then 0
    else
      assert IsDigit(s[|s| - 1]);
      10 * DecimalValue(s[..|s| - 1]) + (s[|s| - 1] as int - '0' as int)
  }

  /** The decimal text of `n` is a non-empty digit string that reads back as `n`. */
  lemma {:induction false} NatTextRoundTrip(n: nat)
    ensures |NatText(n)| >= 1
    ensures forall k :: 0 <= k < |NatText(n)| ==> IsDigit(NatText(n)[k])
    ensures DecimalValue(NatText(n)) == n
    decreases n
  {
    if n >= 10 {
      NatTextRoundTrip(n / 10);
      var t := NatText(n);
      assert t[..|t| - 1] == NatText(n / 10);
    }
  }

  /**
   * Up to `budget` decimal digits of a fraction in [0, 1), truncated, and
   * stopping as soon as the fraction is exhausted.
   */
  function FractionDigits(f: real, budget: nat): string
    requires 0.0 <= f < 1.0
    decreases budget
  {
    if budget == 0 || f == 0.0 then ""
    else
      var d := (f * 10.0).Floor;
      [DigitChar(d)] + FractionDigits(f * 10.0 - d as real, budget - 1)
  }

  /** Decimal text of a non-negative finite number. */
  function MagnitudeText(r: real): string
    requires r >= 0.0
  {
    var whole := r.Floor;
    var frac := r - whole as real;
    NatText(whole) + (if frac == 0.0 then "" else "." + FractionDigits(frac, 20))
  }

  /** `String(n)` for a number. */
  function NumberText(n: Number): string {
    match n
    case NaN => "NaN"
    case Infinity(negative) => if negative then "-Infinity" else "Infinity"
    case Finite(r) => if r < 0.0 then "-" + MagnitudeText(-r) else MagnitudeText(r)
  }

  /**
   * Whether `${v}` completes. An own `toString` key hides the prototype's
   * method, and no value here is callable, so the conversion falls back to
   * `valueOf`, which returns the object itself: a TypeError. An array
   * converts through `join`, which converts each element in turn.
   */
  predicate Printable(v: Value)
    decreases v
  {
    match v
    case Obj(fields) => "toString" !in fields
    case Arr(elems) => forall i | 0 <= i < |elems| :: Printable(elems[i])
    case _ => true
  }

  /**
   * `String(v)`, as used by a template literal `${v}`, for a value that is
   * `Printable`. Arrays are joined with "," and their undefined or null
   * elements become "".
   */
  function ToText(v: Value): string
    decreases v
  {
    match v
    case Undefined => "undefined"
    case Null => "null"
    case Bool(b) => if b then "true" else "false"
    case Str(s) => s
    case Num(n) => NumberText(n)
    case Obj(_) => "[object Object]"
    case Arr(elems) =>
      Text.Join(seq(|elems|, i requires 0 <= i < |elems| =>
        if elems[i].Undefined? || elems[i].Null? then "" else ToText(elems[i])), ",")
  }

  /** A non-negative integer prints as its decimal digits. */
  lemma IntegerText(k: nat)
    ensures ToText(FromInt(k)) == NatText(k)
  {
    assert (k as real).Floor == k;
  }
}
