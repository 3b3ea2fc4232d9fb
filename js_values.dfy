/** JavaScript values as far as the public interface observes them, the
    coercions it relies on (`||`, `!!`, string `+`, property keys), and the
    completion of a call: it returns a value or throws one. */
module JsValues {

  /** The integers a JavaScript number holds exactly: at most 2^53 - 1 in
      magnitude. Below 10^21 their string form is plain decimal. */
  type SafeInt = n: int | -0x1F_FFFF_FFFF_FFFF <= n <= 0x1F_FFFF_FFFF_FFFF

  /** The source text of a function value, which is never empty. */
  type NonEmptyString = s: string | s != "" witness "f"

  /** A JavaScript value. Numbers are safe integers here; a function value carries
      an identity and its source text (what `String(f)` yields); a plain
      object is a dictionary of own properties. */
  datatype Value =
    | Undefined
    | Null
    | Bool(b: bool)
    | Num(n: SafeInt)
    | Str(s: string)
    | Fn(id: nat, source: NonEmptyString)
    | Dict(props: map<string, Value>)

  datatype Option<+T> = None | Some(value: T)

  /** The outcome of a JavaScript call: a normal return or a thrown value. */
  datatype Completion<+T> = Normal(value: T) | Throw(error: Value) {

    predicate IsFailure() {
      Throw?
    }

    function PropagateFailure<U>(): Completion<U>
      requires Throw?
    {
      Throw(error)
    }

    function Extract(): T
      requires Normal?
    {
      value
    }
  }

  /** JavaScript truthiness, as used by `x || y` and `!!x`. */
  predicate Truthy(v: Value) {
    match v
    case Undefined => false
    case Null => false
    case Bool(b) => b
    case Num(n) => n != 0
    case Str(s) => s != ""
    case Fn(_, _) => true
    case Dict(_) => true
  }

  function DigitChar(d: nat): char
    requires d < 10
  {
    "0123456789"[d]
  }

  /** Decimal rendering of a natural number, most significant digit first. */
  function NatToDecimal(n: nat): string
    decreases n
  {
    if n < 10 then [DigitChar(n)] else NatToDecimal(n / 10) + [DigitChar(n % 10)]
  }

  /** The string a value turns into under `'' + v` and when it is used as a
      property key. */
  function ToString(v: Value): string {
    match v
    case Undefined => "undefined"
    case Null => "null"
    case Bool(b) => if b then "true" else "false"
    case Num(n) => if n < 0 then "-" + NatToDecimal(-n) else NatToDecimal(n)
    case Str(s) => s
    case Fn(_, source) => source
    case Dict(_) => "[object Object]"
  }

  /** `arguments[i]`: the i-th positional argument, `undefined` past the end. */
  function Arg(args: seq<Value>, i: nat): Value {
    if i < |args| then args[i] else Undefined
  }
}
