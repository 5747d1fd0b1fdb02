/** What several modules share and none of them is about. */
module Wrappers {

  datatype Option<+T> = None | Some(value: T)

  /** The names in a list. */
  function AsSet(s: seq<string>): set<string>
  {
    set x | x in s
  }
}
