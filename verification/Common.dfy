/** Optional values. */
module Optional {
  datatype Option<+T> = None | Some(value: T)
}

/** Steps of a process that may die on the way. */
module Processes {
  datatype Step<+T> = Died | Done(value: T) {
    predicate IsFailure() { Died? }

    function PropagateFailure<U>(): Step<U>
      requires Died?
    {
      Died
    }

    function Extract(): T
      requires Done?
    {
      value
    }
  }
}

module Bytes {
  newtype Byte = x: int | 0 <= x < 256
}

/** An arbitrary element, for loops that must work in every iteration order. */
module Choice {
  method Any<T>(s: set<T>) returns (x: T)
    requires s != {}
    ensures x in s
  {
    x :| x in s;
  }
}
