/** A value that may be absent: a missing storage key, a text that does
    not read back. */
module Optional {
  datatype Option<T> = None | Some(value: T)

  /** The value, or `d` when there is none. */
  function OrElse<T>(o: Option<T>, d: T): (r: T)
    ensures o.Some? ==> r == o.value
    ensures o.None? ==> r == d
  {
    match o
    case Some(v) => v
    case None => d
  }
}
