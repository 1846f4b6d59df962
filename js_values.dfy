/**
 * The small part of JavaScript value semantics the registration form relies on:
 * truthiness of strings and booleans, and the value-returning `&&` operator.
 */
module JsValues {

  /** The two kinds of value that occur in the validity expression. */
  datatype JsValue = JsString(s: string) | JsBool(b: bool)

  /** JavaScript truthiness: a string is truthy exactly when it is non-empty. */
  predicate Truthy(v: JsValue) {
    match v
    case JsString(s) => |s| > 0
    case JsBool(b) => b
  }

  /** `a && b` evaluates to `a` when `a` is falsy and to `b` otherwise. */
  function JsAnd(a: JsValue, b: JsValue): (r: JsValue)
    ensures Truthy(r) <==> Truthy(a) && Truthy(b)
    ensures !Truthy(a) ==> r == a
  {
    if Truthy(a) then b else a
  }

  /**
   * The left-associated chain `vs[0] && vs[1] && ... && vs[n-1]`. Its value is
   * the first falsy operand, or the last operand when every operand is truthy.
   */
  function JsAndChain(vs: seq<JsValue>): (r: JsValue)
    requires |vs| > 0
    ensures Truthy(r) <==> forall i :: 0 <= i < |vs| ==> Truthy(vs[i])
    ensures Truthy(r) ==> r == vs[|vs| - 1]
    ensures !Truthy(r) ==> exists i :: 0 <= i < |vs| && vs[i] == r && forall j :: 0 <= j < i ==> Truthy(vs[j])
    decreases |vs|
  {
    if |vs| == 1 then vs[0]
    else
      var prefix := vs[..|vs| - 1];
      assert forall i :: 0 <= i < |prefix| ==> prefix[i] == vs[i];
      JsAnd(JsAndChain(prefix), vs[|vs| - 1])
  }
}
