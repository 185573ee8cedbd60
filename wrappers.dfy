/** The nullable value of a SQL column or foreign key. */
module Wrappers {

  datatype Option<+T> = None | Some(value: T)
}
