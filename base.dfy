/** Values shared by every part of the model: optional JSON fields and the
    outcome of a request to the statistics provider. */
module Base {

  /** A JSON field that may be absent. A missing field and an explicit JSON
      `null` are both `None`. */
  datatype Option<+T> = None | Some(value: T)

  /** The outcome of one HTTP request for a JSON document: the parsed body, or
      a failure (network error, non-2xx status, or a body that is not JSON),
      which the code raises as an exception. */
  datatype Fetch<+T> = Fetched(value: T) | FetchFailed
}
