/** Optional values and the abstract outcome of a network round-trip.
    The REST client is not modelled: every request the screens make is
    reduced to the value it resolved with or the message it failed with. */
module Results {

  datatype Option<T> = None | Some(value: T)

  /** What an awaited `apiClient` call produced: the response body, or the
      message of the error caught by the surrounding `try`. */
  datatype Response<T> = Success(value: T) | Failure(message: string)
}
