/** The `Option` type the Rust code returns from every lookup and reconstruction. */
module Optional {

  datatype Option<+T> = None | Some(value: T) {

    /** `Option::map`: applies `f` to the carried value, if any. */
    function Map<U>(f: T -> U): (r: Option<U>)
      ensures r.Some? <==> this.Some?
      ensures r.Some? ==> r.value == f(value)
    {
      match this
      case None => None
      case Some(v) => Some(f(v))
    }
  }
}
