/**
 * The few JavaScript value semantics the error path depends on: a property
 * that may be `undefined`, and the truthiness that `a || b` tests.
 */
module Js {

  /** A property that is either `undefined` (None) or holds a value. */
  datatype Option<+T> = None | Some(value: T)

  /** A number property is truthy when it is present and not zero. */
  predicate TruthyNumber(x: Option<int>) {
    x.Some? && x.value != 0
  }

  /** A string property is truthy when it is present and not empty. */
  predicate TruthyString(x: Option<string>) {
    x.Some? && x.value != ""
  }

  /** `x || fallback` for a number property. */
  function OrNumber(x: Option<int>, fallback: int): (r: int)
    ensures TruthyNumber(x) ==> Some(r) == x
    ensures !TruthyNumber(x) ==> r == fallback
  {
    if TruthyNumber(x) then x.value else fallback
  }

  /** `x || fallback` for a string property. */
  function OrString(x: Option<string>, fallback: string): (r: string)
    ensures TruthyString(x) ==> Some(r) == x
    ensures !TruthyString(x) ==> r == fallback
  {
    if TruthyString(x) then x.value else fallback
  }
}
