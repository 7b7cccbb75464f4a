/** Result shapes shared by the lookups of the URL shortener. */
module Wrappers {

  /** A value that may be absent, as Python's `None`. */
  datatype Option<T> = None | Some(value: T)

  /** The outcome of a lookup whose miss the web layer reports as HTTP 404. */
  datatype Lookup<T> = NotFound | Found(value: T)
}
