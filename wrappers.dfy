/** Option and Result, and the Python exceptions that the modelled code raises, catches or lets escape. */
module Wrappers {

  datatype Option<+T> = None | Some(value: T)

  datatype Result<+T, +E> = Success(value: T) | Failure(error: E)

  /** The exception classes that matter to the core, by their Python names. */
  datatype Exception =
    | IndexError          // a list index out of range
    | KeyError            // a dict lookup of a missing key
    | TypeError           // iterating or subscripting a value of the wrong type
    | AttributeError      // `.get` on a value that is not a dict
    | ValueError          // raised explicitly by a constructor
    | JsonDecodeError     // text that is not JSON
    | UnicodeDecodeError  // bytes that are not UTF-8
    | DatabaseError       // pymssql's MssqlDatabaseException
}
