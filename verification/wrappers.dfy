/** Option and Result types; a Result's failure names the Python exception
    the modelled code would raise at that point. */
module Wrappers {

  datatype Option<T> = None | Some(value: T)

  /** The Python exceptions the modelled code can raise. */
  datatype PyError =
    | ValueError         // max/min/argmax of an empty sequence
    | IndexError         // subscript out of range
    | KeyError           // dictionary lookup of a missing key
    | NameError          // evaluation of an undefined name
    | ZeroDivisionError  // float division by zero
    | TypeError          // float times a list
    | AttributeError     // a missing attribute, or a variable of a mechanism not inserted
    | RaisedException    // an explicit `raise Exception(...)`

  datatype Result<T> = Ok(value: T) | Err(error: PyError)
}
