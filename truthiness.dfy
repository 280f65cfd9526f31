/**
 * Optional values and the JavaScript truthiness rules the handlers rely on.
 *
 * An optional string stands for a property that may be `undefined` (or `null`);
 * in JavaScript a string is falsy exactly when it is empty, so `Truthy` is
 * "present and non-empty". The chains `a || b || fallback` the handlers use to
 * pick names and ids are `FirstTruthy([a, b], fallback)`.
 */
module Truthiness {

  datatype Option<+T> = None | Some(value: T)

  /** JavaScript truthiness of an optional string property. */
  predicate Truthy(o: Option<string>) {
    o.Some? && o.value != ""
  }

  /** `s || fallback` for a string `s` that is always defined. */
  function OrElse(s: string, fallback: string): string {
    if s != "" then s else fallback
  }

  /**
   * `c0 || c1 || ... || fallback`: the value of the first truthy candidate,
   * or the fallback when every candidate is falsy.
   */
  function FirstTruthy(candidates: seq<Option<string>>, fallback: string): (r: string)
    ensures (forall i :: 0 <= i < |candidates| ==> !Truthy(candidates[i])) ==> r == fallback
    ensures forall i :: 0 <= i < |candidates| && Truthy(candidates[i]) &&
                        (forall j :: 0 <= j < i ==> !Truthy(candidates[j]))
                        ==> r == candidates[i].value
    ensures forall i :: 0 <= i < |candidates| && Truthy(candidates[i]) ==> r != ""
    ensures r == fallback || exists i :: 0 <= i < |candidates| && candidates[i] == Some(r) && r != ""
  {
    if candidates == [] then fallback
    else if Truthy(candidates[0]) then candidates[0].value
    else FirstTruthy(candidates[1..], fallback)
  }
}
