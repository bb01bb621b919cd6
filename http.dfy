/** The parts of an axios request and of its failure that the interceptors
    read and write, and how a call handled by an interceptor ends. */
module Http {
  import opened Wrappers

  const AUTHORIZATION: string := "Authorization"

  /** A request config: its target, its headers, and the `_retry` mark the
      response interceptors put on it (an absent mark reads as false).
      axios always gives an intercepted config a header object, so the
      `config.headers` guards in the interceptors always pass. */
  datatype Request = Request(url: string, headers: map<string, string>, retry: bool)

  /** An axios error: the HTTP status when a response arrived (none for a
      network failure or timeout) and the config of the failed request. */
  datatype AxiosError = AxiosError(status: Option<int>, config: Request)

  /** Where a call handled by a response interceptor stands after the
      handler ran up to its next `await` or `return`. */
  datatype Outcome =
    | Rejected(reason: AxiosError)    // the call's promise rejects with this reason
    | Resent(request: Request)     // the handler returned `api(request)`: the call is dispatched again
    | AwaitingQueue                // parked in the refresh queue
    | AwaitingRefresh              // parked at the refresh POST

  function Bearer(token: string): string
  {
    "Bearer " + token
  }

  function SetBearer(req: Request, token: string): Request
  {
    req.(headers := req.headers[AUTHORIZATION := Bearer(token)])
  }

  /** The request interceptor's decision, `if (token && config.headers)`: an
      empty or missing token leaves the config as it is. */
  function AttachBearer(token: Option<string>, req: Request): Request
  {
    if token.Some? && token.value != [] then SetBearer(req, token.value) else req
  }

  /** `error.response?.status === 401 && !originalRequest._retry`. */
  predicate IsFirstUnauthorized(err: AxiosError)
  {
    err.status == Some(401) && !err.config.retry
  }

  /** The same error after the handler set `originalRequest._retry = true`:
      the error's config is that very object. */
  function MarkRetried(err: AxiosError): AxiosError
  {
    err.(config := err.config.(retry := true))
  }
}
