/** Small things that several modules share. */
module Prelude {

  datatype Option<+T> = None | Some(value: T)

  function Max(a: nat, b: nat): nat {
    if a < b then b else a
  }

  /** A condition as a count. */
  function One(b: bool): nat {
    if b then 1 else 0
  }
}
