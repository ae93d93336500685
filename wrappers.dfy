/**
 * Optional values (JavaScript's `undefined`/`NaN`, Python's `None`) and results
 * that either carry a value or say why an input was rejected.
 */
module Wrappers {

  datatype Option<+T> = None | Some(value: T)

  datatype Result<+T, +E> = Ok(value: T) | Err(error: E)

  /**
   * A number read from a form field that the browser code accepts: `!x || x <= 0`
   * rejects a field that did not parse (`NaN`, here `None`), zero and negatives.
   */
  predicate Positive(x: Option<real>)
  {
    x.Some? && x.value > 0.0
  }
}
