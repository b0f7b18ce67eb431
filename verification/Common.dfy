/** Shared value types. */
module Common {

  /** A nullable column, or the result of a lookup that may find nothing. */
  datatype Option<+T> = None | Some(value: T) {

    /** JavaScript's `??`. */
    function OrElse(other: Option<T>): Option<T> {
      if this.Some? then this else other
    }

    function GetOr(default: T): T {
      if this.Some? then this.value else default
    }
  }

  lemma {:induction false} SubsetSize<T>(a: set<T>, b: set<T>)
    requires a <= b
    ensures |a| <= |b|
  {
    if a != {} {
      var x :| x in a;
      SubsetSize(a - {x}, b - {x});
    }
  }
}
