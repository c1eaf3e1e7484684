/** The JavaScript values a parsed JSON request body can carry, with exactly
    the operations the ledger applies to them: truthiness (`if (x)`, `!x`),
    `typeof` and the numeric conversion of `>` and `-`. */
module Json {

  /** `Num` carries an integer: amounts and identifiers are modelled without
      floating point. `Compound` stands for any object or array, which is
      always truthy and is never the number or string a check asks for. */
  datatype Value =
    | Undefined
    | Null
    | Bool(b: bool)
    | Num(n: int)
    | Str(s: string)
    | Compound

  /** JavaScript truthiness, as `if (v)` and `!v` test it. */
  function Truthy(v: Value): (t: bool)
    // The falsy values are exactly `undefined`, `null`, `false`, `0` and `""`.
    ensures !t <==> v in {Undefined, Null, Bool(false), Num(0), Str("")}
  {
    match v
    case Undefined => false
    case Null => false
    case Bool(b) => b
    case Num(n) => n != 0
    case Str(s) => s != ""
    case Compound => true
  }

  /** The string `typeof v` evaluates to; note that `typeof null` is "object". */
  function TypeOf(v: Value): (t: string)
    ensures t == "number" <==> v.Num?
    ensures t == "string" <==> v.Str?
  {
    match v
    case Undefined => "undefined"
    case Null => "object"
    case Bool(_) => "boolean"
    case Num(_) => "number"
    case Str(_) => "string"
    case Compound => "object"
  }

  /** The values whose conversion to a number (`Number(v)`, as applied by
      `>` and `-`) is an integer fixed by the value itself. */
  predicate IntConvertible(v: Value)
  {
    v.Num? || v.Null? || v.Bool?
  }

  /** JavaScript's numeric conversion on those values. */
  function ToInt(v: Value): (r: int)
    requires IntConvertible(v)
    ensures v.Num? ==> r == v.n
    // The falsy ones convert to 0, `true` to 1.
    ensures !Truthy(v) ==> r == 0
    ensures v == Bool(true) ==> r == 1
  {
    match v
    case Num(n) => n
    case Null => 0
    case Bool(b) => if b then 1 else 0
  }
}
