/** Result and option types shared by every module. */
module Wrappers {
  datatype Option<+T> = None | Some(value: T)

  datatype Result<+R, +E> = Ok(value: R) | Err(error: E)
  {
    predicate IsFailure() { Err? }

    function PropagateFailure<S>(): (r: Result<S, E>)
      requires Err?
    {
      Err(error)
    }

    function Extract(): (r: R)
      requires Ok?
    {
      value
    }
  }
}
