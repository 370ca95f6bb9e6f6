/** The Option datatype used for values that Java represents with null or with "no result". */
module Wrappers {

  datatype Option<+T> = None | Some(value: T)

}
