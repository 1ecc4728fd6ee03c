/** The optional value used wherever the bot's Python code returns `None`
    or lets an `IndexError` end a computation. */
module Wrappers {
  datatype Option<+T> = None | Some(value: T)
}
