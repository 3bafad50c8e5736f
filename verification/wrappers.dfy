/** Go's nil-or-value results (a nil map, a nil pointer, an error) as an explicit option. */
module Wrappers {

  datatype Option<+T> = None | Some(value: T)

}
