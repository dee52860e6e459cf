/** Vocabulary shared by every other module. */
module Basics {

  datatype Option<+T> = None | Some(value: T)
  {
    function GetOr<S>(default: T): T {
      if Some? then value else default
    }

    function ToSeq(): seq<T> {
      if Some? then [value] else []
    }
  }

  function Max(a: int, b: int): int {
    if a < b then b else a
  }
}
