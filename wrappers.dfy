/** An optional value: the index of the first finisher, or the key read in one pass of the game loop. */
module Wrappers {
  datatype Option<+T> = None | Some(value: T)
}
