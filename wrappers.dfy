/** The optional value used where the graph or a query result may hold null. */
module Wrappers {

  datatype Option<+T> = None | Some(value: T)
}
