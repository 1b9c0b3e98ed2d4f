/** Values shared by every part of the model: optional values, the
    JavaScript values whose truthiness a handler tests, and store keys. */
module Common {

  /** An optional value: `undefined`/`null` in the source is `None`. */
  datatype Option<T> = None | Some(value: T) {
    function GetOr(default: T): T {
      match this
      case Some(v) => v
      case None => default
    }
  }

  /** A payload field as it arrives over the socket, detailed enough to
      decide the JavaScript truthiness that `!!v` and `if (v)` test.
      Numbers are integers: NaN is not modelled. */
  datatype JsValue = JsUndefined | JsNull | JsBool(b: bool) | JsNumber(n: int) | JsString(s: string)

  /** JavaScript truthiness (`!!v`). */
  predicate Truthy(v: JsValue) {
    match v
    case JsUndefined => false
    case JsNull => false
    case JsBool(b) => b
    case JsNumber(n) => n != 0
    case JsString(s) => s != ""
  }

  /** A store key built as a template literal `${prefix}${id}${suffix}`. */
  function Wrap(prefix: string, id: string, suffix: string): (k: string)
    ensures |k| == |prefix| + |id| + |suffix|
    ensures k[..|prefix|] == prefix && k[|prefix| + |id|..] == suffix
    ensures k[|prefix|..|prefix| + |id|] == id
  {
    prefix + id + suffix
  }

  /** Two ids give the same key only when they are the same id, so a store
      keyed by `Wrap(p, id, s)` keeps one independent entry per id. */
  lemma WrapInjective(prefix: string, a: string, b: string, suffix: string)
    requires Wrap(prefix, a, suffix) == Wrap(prefix, b, suffix)
    ensures a == b
  {
    var k := Wrap(prefix, a, suffix);
    assert |a| == |b|;
    assert a == k[|prefix|..|prefix| + |a|];
  }
}
