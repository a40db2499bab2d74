/** Outcomes of the fallible operations of the chess core.
    `Err` is a Rust `Err(..)` value the caller can inspect; `Panic` stands for a
    Rust panic (`unwrap` on a failed parse, an index out of range, an explicit
    `panic!`), which aborts the program instead of returning. */
module Wrappers {

  datatype Result<T> = Ok(value: T) | Err(msg: string) | Panic(why: string)
  {
    predicate IsFailure() { !Ok? }

    function PropagateFailure<U>(): Result<U>
      requires !Ok?
    {
      if Err? then Err(msg) else Panic(why)
    }

    function Extract(): T
      requires Ok?
    {
      value
    }
  }

  datatype Option<T> = None | Some(value: T)
}
