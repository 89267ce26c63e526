// What several modules need: optional values, and accesses that may fail.

module Basics {

  datatype Option<+T> = None | Some(value: T)

  // Whether an access goes through.
  method Reach(reliable: bool) returns (ok: bool)
    ensures reliable ==> ok
  {
    ok := *;
    ok := ok || reliable;
  }
}
