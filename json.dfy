/**
 * JavaScript values as the bot keeps them in memory and as its state files hold them
 * once parsed from JSON. Numbers are modelled as integers; arrays, NaN and fractions
 * are not part of this model.
 */
module Json {
  import opened Wrappers

  datatype Value =
    | Undefined                       // a missing property; JSON never produces it
    | Null
    | Bool(b: bool)
    | Num(n: int)
    | Str(s: string)
    | Obj(fields: map<string, Value>)

  /** JavaScript truthiness: what `!v`, `v || w` and `v && w` test. */
  predicate Truthy(v: Value) {
    match v
    case Undefined => false
    case Null => false
    case Bool(b) => b
    case Num(n) => n != 0
    case Str(s) => s != ""
    case Obj(_) => true
  }

  /** Property read `o[k]`: a property that is not there reads as `undefined`. */
  function Get(fields: map<string, Value>, k: string): Value {
    if k in fields then fields[k] else Undefined
  }

  predicate IsDigit(c: char) {
    '0' <= c <= '9'
  }

  /** The number a string of decimal digits spells. */
  function DigitsValue(s: string): (n: nat)
    requires forall i :: 0 <= i < |s| ==> IsDigit(s[i])
    decreases |s|
  {
    if s == [] then 0
    else
      assert IsDigit(s[|s| - 1]);
      DigitsValue(s[..|s| - 1]) * 10 + (s[|s| - 1] as int - '0' as int)
  }

  /**
   * `ToNumber` on a primitive: None stands for NaN. Strings are read as plain decimal
   * digit strings (the empty string is 0); signs, spaces, fractions and hexadecimal
   * strings are not part of this model.
   */
  function PrimitiveToNumber(v: Value): (r: Option<int>)
    requires !v.Obj?
    ensures v.Num? ==> r == Some(v.n)
    ensures v.Undefined? ==> r == None
    ensures r.Some? && v.Str? ==> r.value >= 0
  {
    match v
    case Undefined => None
    case Null => Some(0)
    case Bool(b) => Some(if b then 1 else 0)
    case Num(n) => Some(n)
    case Str(s) =>
      if forall i :: 0 <= i < |s| ==> IsDigit(s[i]) then Some(DigitsValue(s)) else None
  }
}
