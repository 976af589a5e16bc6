/** The optional value shared by the modules: `None` stands for JavaScript's
    `null` or `undefined`. */
module Wrappers {
  datatype Option<T> = None | Some(value: T)
}
