/**
 * JavaScript values as the handlers, services and record models see them,
 * with JavaScript's truthiness and the `||` / `&&` operators that the
 * record constructors and validity checks are written with.
 */
module Js {

  datatype Option<+T> = None | Some(value: T)

  /** A JavaScript value.  `Num` is a number other than NaN; NaN is its own case. */
  datatype Value =
    | Undefined
    | Null
    | Bool(b: bool)
    | Num(n: real)
    | NaN
    | Str(s: string)
    | Arr(items: seq<Value>)
    | Obj(fields: map<string, Value>)

  /** ECMAScript ToBoolean: `undefined`, `null`, `false`, 0, NaN and `''` are falsy. */
  predicate Truthy(v: Value)
  {
    match v
    case Undefined => false
    case Null => false
    case Bool(b) => b
    case Num(n) => n != 0.0
    case NaN => false
    case Str(s) => s != ""
    case Arr(_) => true
    case Obj(_) => true
  }

  /** `a || b`: the left operand when it is truthy, otherwise the right one. */
  function Or(a: Value, b: Value): (r: Value)
    ensures Truthy(a) ==> r == a
    ensures !Truthy(a) ==> r == b
  {
    if Truthy(a) then a else b
  }

  /** `a && b`: the left operand when it is falsy, otherwise the right one. */
  function And(a: Value, b: Value): (r: Value)
    ensures Truthy(r) <==> Truthy(a) && Truthy(b)
  {
    if Truthy(a) then b else a
  }

  /** Property read `obj.key` on a plain object: a missing key reads as `undefined`. */
  function Get(fields: map<string, Value>, key: string): (r: Value)
    ensures key !in fields ==> r == Undefined
    ensures key in fields ==> r == fields[key]
  {
    if key in fields then fields[key] else Undefined
  }

  /** `null` or `undefined`: the values whose property reads throw a TypeError. */
  predicate Nullish(v: Value)
  {
    v.Undefined? || v.Null?
  }

  /** The fields a property read sees on a value that is not nullish. */
  function FieldsOf(v: Value): map<string, Value>
  {
    if v.Obj? then v.fields else map[]
  }

  /** A thrown `Error`: its message and, for errors raised by the store, the Postgres error code. */
  datatype Error = Error(message: string, code: Option<string>)

  /** The TypeError a property read on `null` or `undefined` throws. */
  function ReadError(v: Value, key: string): Error
    requires Nullish(v)
  {
    Error("Cannot read properties of " + (if v.Null? then "null" else "undefined") + " (reading '" + key + "')", None)
  }

  /** What awaiting a call gives: its value, or the error it throws (or the promise rejects with). */
  datatype Outcome<+T> = Returned(value: T) | Threw(error: Error)

  /** The result of `parseFloat` / `parseInt`: a number or NaN. */
  datatype Parsed<T> = Number(value: T) | NotANumber

  function FloatValue(p: Parsed<real>): (v: Value)
    ensures v.Num? || v.NaN?
  {
    match p
    case Number(x) => Num(x)
    case NotANumber => NaN
  }

  function IntValue(p: Parsed<int>): (v: Value)
    ensures v.Num? || v.NaN?
  {
    match p
    case Number(x) => Num(x as real)
    case NotANumber => NaN
  }

  /** `new Date().toISOString()`: the clock, given as a parameter; it is never empty. */
  type Timestamp = s: string | |s| > 0 witness "1970-01-01T00:00:00.000Z"

  /** A request body: a plain object that handlers may edit in place. */
  class Body {
    var fields: map<string, Value>

    constructor (fields: map<string, Value>)
      ensures this.fields == fields
    {
      this.fields := fields;
    }
  }
}
