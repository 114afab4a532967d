/** Results of operations that Python ends by returning a value or by raising. */
module Wrappers {

  datatype Option<+T> = None | Some(value: T) {
    predicate IsFailure() { None? }

    function PropagateFailure<U>(): Option<U>
      requires None?
    {
      None
    }

    function Extract(): T
      requires Some?
    {
      value
    }
  }

  /** `Err` carries the reason code of the exception that was raised. */
  datatype Result<+T> = Ok(value: T) | Err(error: string) {
    predicate IsFailure() { Err? }

    function PropagateFailure<U>(): Result<U>
      requires Err?
    {
      Err(error)
    }

    function Extract(): T
      requires Ok?
    {
      value
    }
  }

  /**
   Two distinct inputs with one output. A theorem about hashes says "equal, or these two texts collide", naming texts
   that the system itself hashed: that some collision exists somewhere would be no news.
   */
  ghost predicate Collision<A, B>(h: A -> B, x: A, y: A) {
    x != y && h(x) == h(y)
  }
}
