/** Optional values: the model's stand-in for a missing dictionary entry. */
module Wrappers {

  datatype Option<+T> = None | Some(value: T) {

    /** Applies `f` to the wrapped value, if there is one. */
    function Map<U>(f: T -> U): (r: Option<U>)
      ensures r.Some? <==> this.Some?
      ensures r.Some? ==> r.value == f(this.value)
    {
      match this
      case None => None
      case Some(v) => Some(f(v))
    }
  }
}
