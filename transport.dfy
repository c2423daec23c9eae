/**
 * The one network operation, `api_call`, over an abstract server. What the
 * server answers at a URL is a parameter: no reply at all (the request could
 * not be sent), or a status code with the body decoded as the expected record,
 * if it decodes.
 */
module Transport {
  import opened Wrappers
  import opened Records

  datatype FetchError =
    | TransportError          // `send()` failed: connection, DNS, timeout
    | HttpError(status: nat)  // any status other than 200 OK
    | DecodeError             // status 200, but the body is not the expected JSON

  datatype Reply<T> = NoReply | Reply(status: nat, decoded: Option<Page<T>>)

  /** What the server answers at each URL, decoded as a page of `T`. */
  type Server<T> = string -> Reply<T>

  const StatusOk: nat := 200

  /**
   * Fetches one page. Every failure the source turns into a panic is an
   * error value here.
   */
  function ApiCall<T>(server: Server<T>, url: string): (r: Result<Page<T>, FetchError>)
    ensures r.Ok? <==> server(url).Reply? && server(url).status == StatusOk && server(url).decoded.Some?
    ensures r.Ok? ==> r.value == server(url).decoded.value
    ensures r == Err(TransportError) <==> server(url).NoReply?
    ensures r == Err(DecodeError) <==> server(url).Reply? && server(url).status == StatusOk && server(url).decoded.None?
    ensures r.Err? && r.error.HttpError? <==> server(url).Reply? && server(url).status != StatusOk
    ensures r.Err? && r.error.HttpError? ==> r.error.status == server(url).status
  {
    match server(url)
    case NoReply => Err(TransportError)
    case Reply(status, decoded) =>
      if status != StatusOk then Err(HttpError(status))
      else if decoded.None? then Err(DecodeError)
      else Ok(decoded.value)
  }
}
