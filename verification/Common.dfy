/** Shared value types of the model. */
module Common {
  datatype Option<+T> = None | Some(value: T)

  datatype Result<+T> = Ok(value: T) | Err(message: string)

  function Max(a: int, b: int): int {
    if a >= b then a else b
  }

  /** Some member of a non-empty set. */
  ghost function Member<T>(s: set<T>): (x: T)
    requires s != {}
    ensures x in s
  {
    var x :| x in s; x
  }
}
