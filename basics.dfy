/** Small wrapper datatypes shared by the other modules. */
module Basics {

  /** A value that may be absent. */
  datatype Option<+T> = None | Some(value: T)

  /** The result of a jsoncpp accessor: a value, or the exception jsoncpp throws
      when the node has the wrong type for the access. */
  datatype Access<+T> = Ok(value: T) | Throws
}
