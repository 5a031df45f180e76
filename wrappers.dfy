/** An optional value, used where the driver may find nothing. */
module Wrappers {

  datatype Option<+T> = None | Some(value: T)

}
