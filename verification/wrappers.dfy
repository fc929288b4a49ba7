/** An optional value: a query that may have nothing to report. */
module Wrappers {

  datatype Option<+T> = None | Some(value: T)

}
