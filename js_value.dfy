/** The JavaScript values that `JSON.parse` can produce, and the operators the response
    normaliser applies to them: truthiness, property reads, `||`, `Array.isArray`,
    string conversion in template literals, and `Array.prototype.map` with a callback that may throw. */
module JsValue {
  import opened Wrappers
  import opened Text

  /** A parsed JSON value. Numbers are the reals JSON text can denote; `JSON.parse` keeps the last
      of repeated object keys, so an object is a map from key to value. */
  datatype Json =
    | JNull
    | JBool(b: bool)
    | JNum(n: real)
    | JStr(s: string)
    | JArr(elems: seq<Json>)
    | JObj(props: map<string, Json>)

  /** JavaScript's `ToBoolean` on a parsed value: `null`, `false`, `0` and `""` are falsy;
      every array and object, even an empty one, is truthy. */
  predicate Truthy(v: Json)
  {
    match v
    case JNull => false
    case JBool(b) => b
    case JNum(n) => n != 0.0
    case JStr(s) => s != ""
    case JArr(_) => true
    case JObj(_) => true
  }

  /** `v.key` on a value that is not `null`: an own key of an object, and `undefined` (`None`)
      everywhere else. Only keys that no built-in prototype defines are read with it. */
  function Member(v: Json, key: string): (r: Option<Json>)
    ensures r.Some? ==> v.JObj? && key in v.props && r.value == v.props[key]
    ensures v.JObj? && key in v.props ==> r == Some(v.props[key])
  {
    if v.JObj? && key in v.props then Some(v.props[key]) else None
  }

  /** `v?.key`: `undefined` when `v` is `undefined` or `null`, never an exception. */
  function OptionalMember(v: Option<Json>, key: string): Option<Json>
  {
    if v.None? || v.value.JNull? then None else Member(v.value, key)
  }

  /** A value read from an object is truthy; `undefined` is not. */
  predicate IsTruthy(v: Option<Json>)
  {
    v.Some? && Truthy(v.value)
  }

  /** `v || fallback`. */
  function Or(v: Option<Json>, fallback: Json): (r: Json)
    ensures IsTruthy(v) ==> r == v.value
    ensures !IsTruthy(v) ==> r == fallback
  {
    if IsTruthy(v) then v.value else fallback
  }

  /** `Array.isArray(v)`. */
  predicate IsArray(v: Option<Json>)
  {
    v.Some? && v.value.JArr?
  }

  /** `String(v)`, as a template literal converts a value. Number formatting is the engine's
      (`numberText`); an array is the comma-join of its elements with `null` shown as nothing. */
  function Show(v: Json, numberText: real -> string): (r: string)
    ensures v.JStr? ==> r == v.s
    ensures v.JNull? ==> r == "null"
    ensures v.JBool? ==> r == if v.b then "true" else "false"
    ensures v.JObj? ==> r == "[object Object]"
    ensures v.JArr? && v.elems == [] ==> r == ""
  {
    match v
    case JNull => "null"
    case JBool(b) => if b then "true" else "false"
    case JNum(n) => numberText(n)
    case JStr(s) => s
    case JArr(es) =>
      Join(seq(|es|, i requires 0 <= i < |es| => if es[i].JNull? then "" else Show(es[i], numberText)), ",")
    case JObj(_) => "[object Object]"
  }

  /** The falsy values of JavaScript that JSON can express are exactly `null`, `false`, `0` and
      the empty string. */
  lemma FalsyValues(v: Json)
    ensures !Truthy(v) <==> v == JNull || v == JBool(false) || v == JNum(0.0) || v == JStr("")
  {
  }

  /** `x || d` with a truthy default is always truthy, whatever `x` is. */
  lemma OrIsTruthy(v: Option<Json>, fallback: Json)
    requires Truthy(fallback)
    ensures Truthy(Or(v, fallback))
  {
  }

  /** An array of one non-null element is shown as that element: `String([x]) == String(x)`. */
  lemma ShowSingletonArray(x: Json, numberText: real -> string)
    requires !x.JNull?
    ensures Show(JArr([x]), numberText) == Show(x, numberText)
  {
  }

  /** `xs.map(f)` where the callback receives the element and its index and may throw (`None`):
      the result exists exactly when no call throws, and then holds one result per element, in order. */
  function MapOrThrow<A, B>(xs: seq<A>, f: (A, nat) -> Option<B>): (r: Option<seq<B>>)
    ensures r.Some? <==> forall i :: 0 <= i < |xs| ==> f(xs[i], i).Some?
    ensures r.Some? ==> |r.value| == |xs| && forall i :: 0 <= i < |xs| ==> f(xs[i], i) == Some(r.value[i])
    decreases |xs|
  {
    if xs == [] then Some([])
    else
      var last := |xs| - 1;
      match MapOrThrow(xs[..last], f)
      case None => None
      case Some(init) =>
        match f(xs[last], last)
        case None => None
        case Some(y) => Some(init + [y])
  }

  /** Mapping a one-element list throws exactly when the one call does. */
  lemma MapOrThrowSingle<A, B>(x: A, f: (A, nat) -> Option<B>)
    ensures MapOrThrow([x], f) == (if f(x, 0).Some? then Some([f(x, 0).value]) else None)
  {
    assert [x][..0] == [];
    assert MapOrThrow([x][..0], f) == Some([]);
    if f(x, 0).Some? {
      assert [] + [f(x, 0).value] == [f(x, 0).value];
    }
  }
}
