/**
 * The slice of JavaScript value semantics the library depends on: `typeof`,
 * truthiness, property reads that fail on `undefined`/`null`, own-property
 * tests and the conversion of a value to a property key.
 *
 * Numbers are modelled as integers (the library only compares and copies
 * them).  Objects are plain dictionaries without a prototype chain.
 */
module Js {

  datatype Option<T> = None | Some(value: T)

  /** An opaque function value: its identity and its source text, which is
    * what `fn.toString()` returns. */
  datatype FnRef = FnRef(id: nat, source: string)

  datatype JsValue =
    | Undefined
    | Null
    | Bool(b: bool)
    | Num(n: int)
    | Str(s: string)
    | Arr(items: seq<JsValue>)
    | Obj(props: map<string, JsValue>)
    | Fun(f: FnRef)

  /** What a statement can throw: a runtime `TypeError`, a `ReferenceError`
    * for an undeclared name, or a value thrown by the library itself
    * (`throw "..."` or `throw Error("...")`). */
  datatype Error = TypeError(what: string) | ReferenceError(name: string) | Raised(message: JsValue)

  datatype Result<T> = Ok(value: T) | Err(error: Error)

  /** `new Error(message)`. */
  function ErrorObject(message: string): JsValue
  {
    Obj(map["name" := Str("Error"), "message" := Str(message)])
  }

  /** The value a `catch (err)` clause binds for an error. */
  function Thrown(e: Error): JsValue
  {
    match e
    case TypeError(what) => Obj(map["name" := Str("TypeError"), "message" := Str(what)])
    case ReferenceError(name) => Obj(map["name" := Str("ReferenceError"), "message" := Str(name + " is not defined")])
    case Raised(v) => v
  }

  /** How a statement sequence ended. */
  datatype Outcome = Completed | Threw(error: Error)

  predicate Truthy(v: JsValue)
  {
    match v
    case Undefined => false
    case Null => false
    case Bool(b) => b
    case Num(n) => n != 0
    case Str(s) => s != ""
    case _ => true
  }

  /** The `typeof` operator. */
  function TypeOf(v: JsValue): (t: string)
    ensures t == "object" <==> v.Null? || v.Arr? || v.Obj?
    ensures t == "function" <==> v.Fun?
    ensures t == "undefined" <==> v.Undefined?
  {
    match v
    case Undefined => "undefined"
    case Null => "object"
    case Bool(_) => "boolean"
    case Num(_) => "number"
    case Str(_) => "string"
    case Arr(_) => "object"
    case Obj(_) => "object"
    case Fun(_) => "function"
  }

  /** `v[k]` for a named key: reading a property of `undefined` or `null`
    * throws; other primitives have no named properties except `length`. */
  function Get(v: JsValue, k: string): (r: Result<JsValue>)
    ensures r.Err? <==> v.Undefined? || v.Null?
    ensures v.Obj? ==> r == Ok(if k in v.props then v.props[k] else Undefined)
  {
    match v
    case Undefined => Err(TypeError("Cannot read property '" + k + "' of undefined"))
    case Null => Err(TypeError("Cannot read property '" + k + "' of null"))
    case Obj(m) => Ok(if k in m then m[k] else Undefined)
    case Str(s) => Ok(if k == "length" then Num(|s|) else Undefined)
    case Arr(xs) => Ok(if k == "length" then Num(|xs|) else Undefined)
    case _ => Ok(Undefined)
  }

  /** A property read whose failure is not in question (the base is known to
    * be an object): `undefined` for anything that is not a dictionary. */
  function Field(v: JsValue, k: string): JsValue
  {
    if v.Obj? && k in v.props then v.props[k] else Undefined
  }

  /** `v.hasOwnProperty(k)` for a named, non-index key. */
  predicate HasOwn(v: JsValue, k: string)
  {
    v.Obj? && k in v.props
  }

  /** Whether a property written onto `v` is kept: objects, arrays and
    * functions are extensible, primitives are not. */
  predicate KeepsProps(v: JsValue)
  {
    v.Obj? || v.Arr? || v.Fun?
  }

  /** The error of a write onto a value that takes no properties. */
  function CannotCreate(k: string): Error
  {
    TypeError("Cannot create property '" + k + "'")
  }

  /** `v[k] = x`.  A write onto `undefined` or `null` always throws; a write
    * onto another primitive throws in strict code and is silently dropped in
    * sloppy code.  Only dictionaries carry their properties in this model:
    * the property written onto an array or a function is not recorded, so
    * the value comes back unchanged. */
  function SetProp(v: JsValue, k: string, x: JsValue, strict: bool): (r: Result<JsValue>)
    ensures r.Ok? <==> KeepsProps(v) || (!strict && !v.Undefined? && !v.Null?)
    ensures v.Obj? ==> r == Ok(Obj(v.props[k := x]))
    ensures r.Ok? && !v.Obj? ==> r.value == v
    ensures r.Err? ==> r.error == CannotCreate(k)
  {
    match v
    case Obj(m) => Ok(Obj(m[k := x]))
    case Arr(_) => Ok(v)
    case Fun(_) => Ok(v)
    case Undefined => Err(CannotCreate(k))
    case Null => Err(CannotCreate(k))
    case _ => if strict then Err(CannotCreate(k)) else Ok(v)
  }

  function DigitChar(d: nat): char
    requires d < 10
  {
    ('0' as int + d) as char
  }

  /** The decimal spelling of a natural number, as `String(n)` writes it. */
  function NatToString(n: nat): (s: string)
    ensures |s| >= 1
    ensures forall i :: 0 <= i < |s| ==> '0' <= s[i] <= '9'
    decreases n
  {
    if n < 10 then [DigitChar(n)] else NatToString(n / 10) + [DigitChar(n % 10)]
  }

  /** `String(v)` as used when `v` indexes a dictionary (`obj[v]`). */
  function ToKey(v: JsValue): string
  {
    match v
    case Undefined => "undefined"
    case Null => "null"
    case Bool(b) => if b then "true" else "false"
    case Num(n) => if n < 0 then "-" + NatToString(-n) else NatToString(n)
    case Str(s) => s
    case Arr(xs) => JoinKeys(xs)
    case Obj(_) => "[object Object]"
    case Fun(f) => f.source
  }

  /** `Array.prototype.join(",")`, which writes `undefined` and `null` as
    * empty strings. */
  function JoinKeys(xs: seq<JsValue>): string
  {
    if |xs| == 0 then ""
    else
      var head := if xs[0].Undefined? || xs[0].Null? then "" else ToKey(xs[0]);
      if |xs| == 1 then head else head + "," + JoinKeys(xs[1..])
  }
}
