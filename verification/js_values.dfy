/**
 The fragment of JavaScript value semantics the handler relies on: truthiness,
 the `||` defaulting operator, plain property lookup and optional chaining.
 */
module JsValues {

  /** A JavaScript value as the handler observes it: the primitives, arrays and
      plain objects. Numbers are finite reals or NaN (the infinities and the sign
      of zero are not distinguished); property order of objects is not modelled. */
  datatype JsVal =
    | Undefined
    | Null
    | Bool(b: bool)
    | Num(x: real)
    | NaN
    | Str(s: string)
    | Arr(items: seq<JsVal>)
    | Obj(props: map<string, JsVal>)

  /** ToBoolean (section 7.1.2 of ECMA-262): the falsy values are exactly
      undefined, null, false, zero, NaN and the empty string. */
  predicate IsFalsy(v: JsVal) {
    match v
    case Undefined => true
    case Null => true
    case Bool(b) => !b
    case Num(x) => x == 0.0
    case NaN => true
    case Str(s) => s == ""
    case Arr(_) => false
    case Obj(_) => false
  }

  predicate IsTruthy(v: JsVal) {
    !IsFalsy(v)
  }

  /** The values on which `?.` short-circuits. */
  predicate IsNullish(v: JsVal) {
    v.Undefined? || v.Null?
  }

  /** `a || b` (section 13.13 of ECMA-262): the left operand when it is truthy,
      otherwise the right one. */
  function Or(a: JsVal, b: JsVal): (r: JsVal)
    ensures r == a || r == b
    ensures IsTruthy(r) <==> IsTruthy(a) || IsTruthy(b)
    ensures IsTruthy(a) ==> r == a
    ensures IsFalsy(a) ==> r == b
  {
    if IsTruthy(a) then a else b
  }

  /** `o[key]` on a plain object: a missing key reads as undefined. */
  function Member(props: map<string, JsVal>, key: string): JsVal {
    if key in props then props[key] else Undefined
  }

  /** One link of an optional chain: `?.name` or `?.[0]`. */
  datatype Access = Prop(name: string) | First

  /** `v?.name` and `v?.[0]`. A nullish receiver short-circuits to undefined.
      Primitives and arrays expose no named property here: the handler reads
      only names (`description`, `output`, `content`, `text`, `R`, `G`, `B`)
      that are not built-in properties of strings or arrays. */
  function OptionalAccess(v: JsVal, a: Access): JsVal {
    match v
    case Obj(props) =>
      (match a
       case Prop(name) => Member(props, name)
       case First => Member(props, "0"))
    case Arr(items) =>
      (match a
       case Prop(_) => Undefined
       case First => if |items| > 0 then items[0] else Undefined)
    case Str(s) =>
      (match a
       case Prop(_) => Undefined
       case First => if |s| > 0 then Str(s[..1]) else Undefined)
    case _ => Undefined
  }

  /** `v?.a1?.a2 ... ?.an`: the links applied left to right. Once a link meets a
      nullish value every later link yields undefined. */
  function Chain(v: JsVal, path: seq<Access>): (r: JsVal)
    ensures IsNullish(v) && |path| > 0 ==> r == Undefined
    decreases |path|
  {
    if |path| == 0 then v else Chain(OptionalAccess(v, path[0]), path[1..])
  }

  /** Following a chain in two pieces is following it at once. */
  lemma {:induction false} ChainAppend(v: JsVal, p: seq<Access>, q: seq<Access>)
    ensures Chain(v, p + q) == Chain(Chain(v, p), q)
    decreases |p|
  {
    if |p| == 0 {
      assert p + q == q;
    } else {
      assert (p + q)[1..] == p[1..] + q;
      ChainAppend(OptionalAccess(v, p[0]), p[1..], q);
    }
  }

  /** Short-circuiting: when some proper prefix of the chain reaches a nullish
      value, the whole chain is undefined, whatever the remaining links are. */
  lemma ChainShortCircuits(v: JsVal, path: seq<Access>, k: nat)
    requires k < |path|
    requires IsNullish(Chain(v, path[..k]))
    ensures Chain(v, path) == Undefined
  {
    assert path == path[..k] + path[k..];
    ChainAppend(v, path[..k], path[k..]);
  }
}
