/** An optional value: the model's stand-in for Python's `None` and for a
    query that finds no row. */
module Wrappers {

  datatype Option<+T> = None | Some(value: T)
}
