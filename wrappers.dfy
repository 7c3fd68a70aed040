/** The optional-value datatype shared by the lexer and the parser. */
module Wrappers {

  datatype Option<T> = None | Some(value: T)

}
