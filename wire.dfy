/** Values exchanged between the client and the vtiger web-service endpoint:
    the replies the server gives, what `_processResponse` makes of them, the
    requests the client issues and the ways a call can fail. */
module Wire {

  datatype Option<+T> = None | Some(value: T)

  datatype Result<+T, +E> = Success(value: T) | Failure(error: E)

  /** One member of a decoded JSON object: not sent at all, sent as JSON
      null, or sent with a value. Reading an absent member is a warning in
      PHP, which Laravel's error handler turns into an `ErrorException`;
      reading a null member gives null. */
  datatype Member<+T> = Absent | Null | Present(value: T)

  /** The members of an envelope's `result` object that the client reads. */
  datatype Payload = Payload(token: Member<string>, expireTime: Member<int>, sessionName: Member<string>)

  /** A decoded JSON body whose `success` member is set and not null.
      `success` is that member's PHP truthiness (the string "false" counts as
      true). `result` is `None`
      when the body has no `result` object (absent or null). `errorCode` is
      `error.code`: `Absent` when `error` is missing or null or has no
      `code`, so that reading it raises. */
  datatype Envelope = Envelope(success: bool, result: Option<Payload>, errorCode: Member<string>)

  /** One HTTP reply. `body` is `None` when the body is empty, is not JSON, or
      is JSON whose `success` member is missing or null (`isset` fails). */
  datatype Reply = Reply(status: int, body: Option<Envelope>)

  /** What `_processResponse` returns: the decoded body for status 200, the raw
      response object otherwise. */
  datatype Decoded = RawResponse(response: Reply) | Json(body: Option<Envelope>)

  /** A member as PHP reads it once it is there: JSON null is null. */
  function Read<T>(m: Member<T>): Option<T>
    requires !m.Absent?
  {
    if m.Present? then Some(m.value) else None
  }

  function ProcessResponse(reply: Reply): Decoded {
    if reply.status == 200 then Json(reply.body) else RawResponse(reply)
  }

  /** `isset($decoded->success)`: a raw response object has no `success`
      property, and a decoded body has one exactly when it is an envelope. */
  predicate HasSuccess(d: Decoded) {
    match d
    case RawResponse(_) => false
    case Json(body) => body.Some?
  }

  /** A reply that ends a retry loop. Only a status-200 reply with an envelope
      does; every other status is "undecodable, retry". */
  function Decodable(reply: Reply): (b: bool)
    ensures b <==> reply.status == 200 && reply.body.Some?
  {
    HasSuccess(ProcessResponse(reply))
  }

  /** The session-scoped API operations; each is sent as one request. */
  datatype Operation =
    | Query(query: string)
    | ListTypes
    | Lookup(dataType: string, value: string, searchIn: string)
    | Retrieve(id: string)
    | Create(elementType: string, element: string)
    | Update(element: string)
    | Delete(id: string)
    | Describe(elementType: string)

  datatype Request =
    | ChallengeRequest(username: string)
    | LoginRequest(username: string, accessKey: string)
    | LogoutRequest(logoutSession: string)
    | ApiRequest(operation: Operation, sessionName: Option<string>)

  /** Which retry loop gave up: the one of `getToken` or the one of `login`. */
  datatype Phase = TokenPhase | LoginPhase

  datatype Failure =
    | TransportError                              // the HTTP client raised: no reply
    | TriesExhausted(phase: Phase, tries: int)    // "Could not complete ... within N tries"
    | CacheKeyMissing                             // "Laravel cache key ... does not exist."
    | TypeError                                   // `close(null)`: the parameter is typed string
    | UndefinedProperty                           // a member read that is not there: ErrorException
}
