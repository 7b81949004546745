/** The optional value used wherever the bot's Python code returns `None` or
    a value, or where a remote call either answers or raises. */
module Wrappers {

  datatype Option<+T> = None | Some(value: T)
}
