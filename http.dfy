/** Values exchanged at the worker's boundary: requests, responses and network outcomes. */
module Http {

  datatype Option<T> = None | Some(value: T)

  /** A response as the worker sees it: status code, Content-Type header (absent when
      the response carries none) and body text. */
  datatype Response = Response(status: int, contentType: Option<string>, body: string)

  /** What `fetch` does with a request: it rejects (a network failure) or resolves with
      a response of whatever status the server sent. */
  datatype NetOutcome = Fail | Ok(response: Response)

  /** The parts of an intercepted request the worker looks at. `url` is the request's
      identity, used as the cache key; `verb` is the HTTP method; `protocol` (with its trailing colon, e.g. "https:")
      and `pathname` are the parsed parts of that URL; `accept` is the Accept header, if
      the request has one. */
  datatype Request = Request(
    verb: string,
    url: string,
    protocol: string,
    pathname: string,
    accept: Option<string>)

  /** Content type the Fetch standard gives a Response built from a plain string body. */
  const TextPlain: string := "text/plain;charset=UTF-8"
  const TextHtml: string := "text/html"
  const ApplicationJson: string := "application/json"
}
