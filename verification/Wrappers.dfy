/** Optional values, for the source's nil pointers and error returns, and picking from a set. */
module Wrappers {

  datatype Option<+T> = None | Some(value: T) {
    predicate IsFailure() {
      None?
    }

    function PropagateFailure<U>(): Option<U>
      requires None?
    {
      None
    }

    function Extract(): T
      requires Some?
    {
      value
    }
  }

  ghost function Pick<T>(s: set<T>): T
    requires s != {}
    ensures Pick(s) in s
  {
    var x :| x in s;
    x
  }
}
