/** The optional value used for JavaScript's `null`: `None` stands for `null`. */
module Wrappers {

  datatype Option<+T> = None | Some(value: T)
}
