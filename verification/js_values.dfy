/** JavaScript values as the account client sees them: the values of the
    fields of a transfer request, the payloads handed to the remote API and
    the opaque pieces of an authentication reply. Only the parts of the
    language semantics the client relies on are modelled: truthiness (`!x`),
    property reads (`x.key`), the `length` of a string in UTF-16 code units
    and the comparison `x > n` against a number literal.
 */
module JsValues {

  datatype Option<+T> = None | Some(value: T)

  /** A JavaScript value. Numbers are reals (NaN and the infinities are not
      represented); an object is the finite map of its own data properties. */
  datatype JsValue =
    | Undefined
    | Null
    | Bool(b: bool)
    | Num(x: real)
    | Str(s: string)
    | Obj(props: map<string, JsValue>)
  {
    /** `undefined` and `null`: reading a property of either throws a TypeError. */
    predicate IsNullish() {
      Undefined? || Null?
    }
  }

  /** How a promise settles, or that the call threw before producing one. */
  datatype Outcome<+T> =
    | Resolved(value: T)
    | Rejected(reason: JsValue)
    | Threw(message: string)

  /** ECMAScript ToBoolean: `!v` is `!Truthy(v)`. */
  predicate Truthy(v: JsValue) {
    match v
    case Undefined => false
    case Null => false
    case Bool(b) => b
    case Num(x) => x != 0.0
    case Str(s) => |s| > 0
    case Obj(_) => true
  }

  /** The falsy values are exactly `undefined`, `null`, `false`, `0` and `""`. */
  lemma FalsyValues(v: JsValue)
    ensures !Truthy(v) <==> v in {Undefined, Null, Bool(false), Num(0.0), Str("")}
  {
  }

  /** A character outside the Basic Multilingual Plane. */
  predicate IsAstral(c: char) {
    c as int >= 0x1_0000
  }

  /** Number of UTF-16 code units that encode one Unicode scalar value. */
  function CodeUnits(c: char): nat {
    if IsAstral(c) then 2 else 1
  }

  /** `s.length`: JavaScript counts UTF-16 code units, so a character outside
      the Basic Multilingual Plane counts twice. */
  function Utf16Length(s: string): (n: nat)
    ensures |s| <= n <= 2 * |s|
    ensures n == |s| <==> forall i :: 0 <= i < |s| ==> !IsAstral(s[i])
    ensures n == 2 * |s| <==> forall i :: 0 <= i < |s| ==> IsAstral(s[i])
  {
    if s == [] then 0
    else
      var n := CodeUnits(s[0]) + Utf16Length(s[1..]);
      assert forall i :: 1 <= i < |s| ==> s[i] == s[1..][i - 1];
      n
  }

  /** `v.key` for a base that is not `undefined` or `null`. Only own data
      properties of objects are seen; the keys the client reads (`pin`,
      `iban`, `bic`, `amount`, `name`, `reference`, `length`) are not
      inherited members of any prototype, and of a string only `length` is
      read. */
  function Get(v: JsValue, key: string): JsValue
    requires !v.IsNullish()
  {
    match v
    case Obj(props) => if key in props then props[key] else Undefined
    case Str(s) => if key == "length" then Num(Utf16Length(s) as real) else Undefined
    case _ => Undefined
  }

  /** `v > n` for a number literal `n`. `null` and booleans convert to 0 or
      1, `undefined` to NaN (never greater). Strings and objects on the left
      are taken as not greater (their numeric conversion is not modelled). */
  predicate GreaterThan(v: JsValue, n: real) {
    match v
    case Num(x) => x > n
    case Null => 0.0 > n
    case Bool(b) => (if b then 1.0 else 0.0) > n
    case _ => false
  }
}
