/** JavaScript values as the handlers and the browser code see them, and the
    coercions (`Number(...)`, truthiness, `??`) they apply. A property that is
    absent (`undefined`) is `None` in an `Option<Json>`; a `Number(...)` that
    yields NaN is `None` in an `Option<real>`. Arrays are not modelled. */
module Js {

  datatype Option<+T> = None | Some(value: T)

  datatype Result<+T, +E> = Ok(value: T) | Err(error: E)

  /** A parsed JSON value (numbers as exact reals). */
  datatype Json = Null | Bool(b: bool) | Num(n: real) | Str(s: string) | Obj(fields: map<string, Json>)

  /** `!!v` for a defined value. */
  predicate Truthy(v: Json)
  {
    match v
    case Null => false
    case Bool(b) => b
    case Num(n) => n != 0.0
    case Str(s) => s != ""
    case Obj(_) => true
  }

  /** `!!v` for a value that may be undefined. */
  predicate Defined(v: Option<Json>)
  {
    v.Some? && Truthy(v.value)
  }

  /** `!!s` for a string-valued parameter: present and non-empty. */
  predicate Present(s: Option<string>)
  {
    s.Some? && s.value != ""
  }

  /** `v === undefined || v === null` */
  predicate Nullish(v: Option<Json>)
  {
    v == None || v == Some(Null)
  }

  /** `a ?? b` */
  function Coalesce(a: Option<Json>, b: Option<Json>): Option<Json>
  {
    if Nullish(a) then b else a
  }

  predicate IsDigit(c: char)
  {
    '0' <= c <= '9'
  }

  predicate AllDigits(s: string)
  {
    forall i | 0 <= i < |s| :: IsDigit(s[i])
  }

  /** The value of a string of decimal digits (the empty string is 0). */
  function DigitsValue(s: string): (n: nat)
    requires AllDigits(s)
  {
    if s == [] then 0 else DigitsValue(s[..|s| - 1]) * 10 + (s[|s| - 1] as int - '0' as int)
  }

  /** `Number(v)`; `None` is NaN. Strings convert only when empty or made of
      decimal digits (see README for what is not modelled). */
  function ToNumber(v: Option<Json>): Option<real>
  {
    match v
    case None => None
    case Some(Null) => Some(0.0)
    case Some(Bool(b)) => Some(if b then 1.0 else 0.0)
    case Some(Num(x)) => Some(x)
    case Some(Str(s)) => if AllDigits(s) then Some(DigitsValue(s) as real) else None
    case Some(Obj(_)) => None
  }

  /** `Number(v) || 0`: NaN and every zero become 0. */
  function NumberOrZero(v: Option<Json>): (r: real)
    ensures ToNumber(v) == None ==> r == 0.0
    ensures ToNumber(v).Some? ==> r == ToNumber(v).value
    ensures r == 0.0 <==> ToNumber(v).None? || ToNumber(v) == Some(0.0)
  {
    match ToNumber(v)
    case None => 0.0
    case Some(x) => x
  }

  /** Property lookup `o[k]` on an object given by its fields. */
  function Prop(fields: map<string, Json>, k: string): Option<Json>
  {
    if k in fields then Some(fields[k]) else None
  }
}
