/** The optional values of the source: a TypeScript field or lookup that may be `undefined`. */
module Wrappers {
  datatype Option<+T> = None | Some(value: T)
}
