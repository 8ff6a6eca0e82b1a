/** Option and Result, the usual failure-carrying datatypes. */
module Wrappers {

  datatype Option<+T> = None | Some(value: T)

  /** The Python exceptions the modelled code can raise, by the cause that raises them. */
  datatype Error =
    | KeyError(key: string)          // a missing dict key or DataFrame column
    | ValueError(text: string)       // int() of a string that is not an integer
    | AttributeError(what: string)   // a method called on None (a missing table handle, a NULL string)
    | TypeError(what: string)        // an operation on a value of the wrong type
    | IndexError                     // a list index past the end
    | NotFound                       // a table lookup by primary key that finds no row
    | SqlError(what: string)         // SQLite refuses the statement (no such table)
    | FileNotFoundError(path: string) // `unlink` of a path with no file

  datatype Result<+T> = Ok(value: T) | Err(error: Error)
}
