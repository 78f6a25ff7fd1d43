/** The source's `null`-or-value results, as an explicit option type. */
module Wrappers {

  datatype Option<+T> = None | Some(value: T)
}
