/** Optional values and the two-way results used by the other modules. */
module Options {

  datatype Option<T> = None | Some(value: T) {
    /** The value held, or `default` when there is none. */
    function Or(default: T): T {
      if Some? then value else default
    }
  }

  datatype Result<T, E> = Ok(value: T) | Err(error: E)
}
