/** The usual optional value, used wherever the core passes None. */
module Wrappers {

  datatype Option<+T> = None | Some(value: T)

  /** What a sequence holds. */
  function SetOf<T>(s: seq<T>): set<T> {
    set x | x in s
  }
}
