/** The optional value the pages keep in `useState<T | null>`. */
module Wrappers {

  datatype Option<+T> = None | Some(value: T)
}
