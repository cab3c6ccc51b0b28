/** Failure handling of the client.

    The client never recovers from an error: every `unwrap()`, every `Vec`
    index past its length and every `unreachable!()` ends the process. A
    step that can end the process returns a `Result`, whose `Panic` case
    names what went wrong; a step that cannot returns its value directly.
 */
module Outcomes {

  /** Why the process stopped. */
  datatype Fault =
    | IndexOutOfBounds  // a `Vec` index at or past the vector's length
    | InvalidAddress    // `"127.0.0.1:{port}".parse().unwrap()` on a port above 65535

  /** The outcome of a step that may panic; usable with `:-`. */
  datatype Result<+T> = Ok(value: T) | Panic(fault: Fault) {

    predicate IsFailure() {
      Panic?
    }

    function PropagateFailure<U>(): Result<U>
      requires Panic?
    {
      Panic(fault)
    }

    function Extract(): T
      requires Ok?
    {
      value
    }
  }
}
