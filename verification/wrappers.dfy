/** Optional values, used for the nullable price, the parse result of a text field
    and the required increase that JavaScript cannot compute for a zero investment. */
module Wrappers {

  datatype Option<+T> = None | Some(value: T)
}
