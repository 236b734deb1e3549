/**
 * The backend as the server actions see it: every endpoint answers with an
 * envelope, or the call throws, either the client's typed `ApiError` (which
 * carries the server's message) or anything else.
 */
module Api {
  import opened Wrappers
  import opened Messages

  datatype Envelope<T> = Envelope(isSuccess: bool, code: string, message: string, data: Option<T>)

  /** What one awaited backend call did. */
  datatype Outcome<R> = Returned(response: R) | ThrewApiError(message: string) | ThrewOther

  /** One run of an action: the request it sent to the backend, if any, and the state it returned. */
  datatype Run<Q, S> = Run(sent: Option<Q>, state: S)

  /** `e instanceof ApiError ? e.message : fallback` for a call that threw. */
  function ThrownMessage<R>(o: Outcome<R>, fallback: Message): Message
    requires !o.Returned?
  {
    if o.ThrewApiError? then Server(o.message) else fallback
  }
}
