/** A value that may be missing, and a result that may be Python's `ValueError`. */
module Options {
  datatype Option<+T> = None | Some(value: T)

  datatype Result<+T> = Ok(value: T) | ValueError(message: string)

  function OrElse<T>(o: Option<T>, d: T): T { if o.Some? then o.value else d }
}
