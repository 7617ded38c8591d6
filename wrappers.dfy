/** Option, Result and Outcome: how the model spells `undefined`, a thrown error
    and a rejected promise of the JavaScript source. */
module Wrappers {

  datatype Option<+T> = None | Some(value: T)

  datatype Result<+T, +E> = Ok(value: T) | Err(error: E)

  datatype Outcome<+E> = Pass | Fail(error: E)
}
