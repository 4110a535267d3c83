/** An optional value: stands for a JavaScript field or attribute that may be
    `null`/`undefined`. */
module Wrappers {

  datatype Option<+T> = None | Some(value: T)
}
