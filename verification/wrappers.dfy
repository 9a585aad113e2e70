/** The optional value the parser's searches return: a regular-expression
    match that may be absent (`null` in JavaScript). */
module Wrappers {

  datatype Option<+T> = None | Some(value: T)
}
