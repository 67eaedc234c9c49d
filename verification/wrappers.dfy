/** The optional value used throughout the document model (Rust's `Option`). */
module Wrappers {

  datatype Option<+T> = None | Some(value: T) {

    /** Rust's `.get()`: the wrapped value; calling it on `None` is a fatal failure. */
    function Get(): T
      requires Some?
    {
      value
    }
  }

  /** Feeds the wrapped value, if any, to `g` (Rust's `and_then`). */
  function Bind<T, U>(o: Option<T>, g: T -> Option<U>): Option<U>
  {
    match o
    case Some(v) => g(v)
    case None => None
  }
}
