/** The HTTP client, seen from the dirbuster: a GET either yields a response
    with a status code or raises. */
module Http {

  datatype Option<+T> = None | Some(value: T)

  /** An oracle for `AsyncHTTPClient().fetch(url, raise_error=False, validate_cert=False)`:
      the status code of the response, or `None` when the fetch raises
      (DNS failure, refused or reset connection, ...). */
  type Fetcher = string -> Option<int>
}
