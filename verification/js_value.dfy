/**
 * JavaScript values as they appear in request bodies and database records,
 * with the truthiness test and the `||` operator the handlers use.
 * A missing property reads as `undefined`, written `None`.
 */
module JsValue {
  import opened Wrappers
  import opened JsText

  /** A JSON-like value; numbers are modelled as integers. */
  datatype Value = Null | Bool(b: bool) | Num(n: int) | Str(s: string)

  /** A JavaScript `Date` as the code observes it: `getTime()` (NaN for an
      invalid date), `getFullYear()` in local time, and `toISOString()` (UTC). */
  datatype JsDate = InvalidDate | ValidDate(time: int, localYear: int, iso: string)

  /** An object with string keys, such as a database record. */
  type Record = map<string, Value>

  /** `!!v`: `undefined`, `null`, `false`, `0` and `""` are falsy. */
  predicate Truthy(v: Option<Value>) {
    match v
    case None => false
    case Some(Null) => false
    case Some(Bool(b)) => b
    case Some(Num(n)) => n != 0
    case Some(Str(s)) => s != ""
  }

  /** `a || b`: the first operand when it is truthy, else the second. */
  function Or(a: Option<Value>, b: Option<Value>): Option<Value> {
    if Truthy(a) then a else b
  }

  /** `r[k]`, `undefined` when the property is missing. */
  function Get(r: Record, k: string): Option<Value> {
    if k in r then Some(r[k]) else None
  }

  /** `String(v)`. */
  function ToText(v: Value): string {
    match v
    case Null => "null"
    case Bool(b) => if b then "true" else "false"
    case Num(n) => IntToDecimal(n)
    case Str(s) => s
  }

  /** `a || b` is truthy exactly when one of its operands is. */
  lemma OrTruthy(a: Option<Value>, b: Option<Value>)
    ensures Truthy(Or(a, b)) <==> Truthy(a) || Truthy(b)
  {
  }
}
