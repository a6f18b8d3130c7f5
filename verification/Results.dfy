/** What a future is given: `wheels::Result`. */
module Results {
  datatype Result<V, E> = Ok(value: V) | Err(error: E)
}
