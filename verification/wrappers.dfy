/** Option: `None` models a Java list reference that is null. */
module Wrappers {

  datatype Option<+T> = None | Some(value: T)
}
