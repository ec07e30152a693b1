/** The nullable values of the two pages (`T | null`, `undefined`) as an option type. */
module Wrappers {

  datatype Option<+T> = None | Some(value: T)

}
