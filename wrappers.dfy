/** The optional value that the bot's functions return where Python returns `None`. */
module Wrappers {
  datatype Option<+T> = None | Some(value: T)
}
