/** The optional value that the lexer's iterator returns: a token, or nothing once the input is exhausted. */
module Options {

  datatype Option<T> = None | Some(value: T)

}
