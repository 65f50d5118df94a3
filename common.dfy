/** Values shared by every part of the backend model: optional values, results,
    the exceptions the handlers raise, and replies from outbound HTTP calls. */
module Common {

  datatype Option<+T> = None | Some(value: T)

  /** What a handler raises instead of returning. */
  datatype Failure =
    | HttpException(status: int, detail: string)  // FastAPI's HTTPException
    | TransportError                              // httpx could not reach the service
    | StatusError(code: int)                      // httpx raise_for_status on a non-2xx reply
    | JsonError                                   // resp.json() on a body that is not JSON
    | KeyError(key: string)                       // a required JSON field is missing
    | ValueError(message: string)                 // raised by the track-id parser
    | IntegrityError                              // the database rejects a duplicate primary key

  datatype Result<+T> = Ok(value: T) | Err(error: Failure)

  /** The reply to one outbound HTTP call: no reply at all, or a status code and
      a body that decodes to `T` (None: `resp.json()` raises). */
  datatype Reply<+T> = Unreachable | Reply(status: int, body: Option<T>)

  /** Python truthiness of an optional string: None and "" are false. */
  predicate Truthy(s: Option<string>) {
    s.Some? && s.value != ""
  }

  /** `d.get(k)` on a dictionary. */
  function Get<K, V>(m: map<K, V>, k: K): (r: Option<V>)
    ensures r.Some? <==> k in m
    ensures r.Some? ==> r.value == m[k]
  {
    if k in m then Some(m[k]) else None
  }

  /** The statuses for which httpx's raise_for_status does not raise. */
  predicate IsSuccess(status: int) {
    200 <= status < 300
  }

  /** `resp.raise_for_status()` followed by `resp.json()`. */
  function CheckedJson<T>(reply: Reply<T>): (r: Result<T>)
    ensures r.Ok? <==> reply.Reply? && IsSuccess(reply.status) && reply.body.Some?
    ensures r.Ok? ==> r.value == reply.body.value
    ensures reply.Reply? && !IsSuccess(reply.status) ==> r == Err(StatusError(reply.status))
  {
    match reply
    case Unreachable => Err(TransportError)
    case Reply(status, body) =>
      if !IsSuccess(status) then Err(StatusError(status))
      else if body.None? then Err(JsonError)
      else Ok(body.value)
  }

  /** `resp.raise_for_status()` alone: the failure it raises, if any. */
  function StatusFailure<T>(reply: Reply<T>): (r: Option<Failure>)
    ensures r.None? <==> reply.Reply? && IsSuccess(reply.status)
    ensures reply.Reply? && !IsSuccess(reply.status) ==> r == Some(StatusError(reply.status))
  {
    match reply
    case Unreachable => Some(TransportError)
    case Reply(status, _) => if IsSuccess(status) then None else Some(StatusError(status))
  }

  /** `resp.json()` without a status check. */
  function UncheckedJson<T>(reply: Reply<T>): (r: Result<T>)
    ensures r.Ok? <==> reply.Reply? && reply.body.Some?
    ensures r.Ok? ==> r.value == reply.body.value
  {
    match reply
    case Unreachable => Err(TransportError)
    case Reply(_, body) => if body.None? then Err(JsonError) else Ok(body.value)
  }
}
