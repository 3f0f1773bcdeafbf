/** Optional values and error-or-value results, used where the simulator takes an optional
    argument (Python `None`) or raises an exception. */
module Results {

  datatype Option<T> = None | Some(value: T)

  datatype Result<T, E> = Ok(value: T) | Err(error: E)
}
