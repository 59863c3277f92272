/** The session lifecycle of the client, as functions over an explicit world:
    the one cache slot `vtiger_laravel`, the replies the server has yet to
    give and the requests issued so far. Each function is the specification
    that the method of the same name in `Client.Vtiger` is proved to meet. */
module Session {
  import opened Wire
  import opened Retry

  const InvalidUserCredentials := "INVALID_USER_CREDENTIALS"
  const InvalidSessionId := "INVALID_SESSIONID"

  /** The cached `{token, expireTime, sessionid?}` object, decoded. A member
      that is absent or JSON null is `None`. */
  datatype SessionRecord = SessionRecord(token: Option<string>, expireTime: Option<int>, sessionId: Option<string>)

  /** PHP's `empty()` on a string or null: null, "" and "0" are empty. */
  predicate IsEmpty(s: Option<string>) {
    s.None? || s.value == "" || s.value == "0"
  }

  /** The test at the top of `sessionId()`: no record, a member missing, the
      record expired at `now`, or an empty token. */
  predicate NeedsChallenge(cached: Option<SessionRecord>, now: int) {
    || cached.None?
    || cached.value.expireTime.None?
    || cached.value.token.None?
    || cached.value.expireTime.value < now
    || IsEmpty(cached.value.token)
  }

  /** The token as `$token . $accessKey` sees it: null concatenates as "". */
  function TokenText(token: Option<string>): string {
    if token.Some? then token.value else ""
  }

  /** The configuration of one client; `digest` is md5, an abstract input. */
  datatype Config = Config(
    username: string,
    accessKey: string,
    persistConnection: bool,
    maxRetries: int,
    digest: string -> string)

  datatype World = World(cache: Option<SessionRecord>, replies: seq<Reply>, sent: seq<Request>)

  /** The outcome of an operation and the world it leaves behind. */
  datatype Step<+T> = Step(result: Result<T, Failure>, world: World)

  datatype Closed = KeptOpen | LoggedOut(response: Decoded)

  function Repeat(req: Request, n: nat): seq<Request> {
    seq(n, _ => req)
  }

  /** One more request at the end of the log. */
  lemma RepeatOneMore(req: Request, n: nat)
    ensures Repeat(req, n) + [req] == Repeat(req, n + 1)
  {
    assert |Repeat(req, n) + [req]| == n + 1;
    forall i | 0 <= i < n + 1 ensures (Repeat(req, n) + [req])[i] == req {
    }
  }

  /** One request: logged, and answered by the next reply if there is one. */
  function Exchange(w: World, req: Request): (Option<Reply>, World) {
    if w.replies == [] then (None, w.(sent := w.sent + [req]))
    else (Some(w.replies[0]), w.(replies := w.replies[1..], sent := w.sent + [req]))
  }

  /** The world after a retry loop that sends `req` each time. */
  function Retried(w: World, req: Request, maxRetries: int): World {
    var k := Attempts(w.replies, maxRetries);
    var consumed := if k <= |w.replies| then k else |w.replies|;
    w.(replies := w.replies[consumed..], sent := w.sent + Repeat(req, k))
  }

  /** The challenge reply has the members `getToken()` reads:
      `result.token` and `result.expireTime`, each possibly null. */
  predicate HasChallenge(e: Envelope) {
    e.result.Some? && !e.result.value.token.Absent? && !e.result.value.expireTime.Absent?
  }

  /** `getToken()`: the challenge loop, the check, and the token and expiry
      of the final reply's result. */
  function GetTokenSpec(cfg: Config, w: World): Step<SessionRecord> {
    var w' := Retried(w, ChallengeRequest(cfg.username), cfg.maxRetries);
    match Conclude(w.replies, cfg.maxRetries, TokenPhase)
    case Failure(e) => Step(Failure(e), w')
    case Success(reply) =>
      var challenge := reply.body.value;
      if !HasChallenge(challenge) then Step(Failure(UndefinedProperty), w')
      else
        var result := challenge.result.value;
        Step(Success(SessionRecord(Read(result.token), Read(result.expireTime), None)), w')
  }

  /** `storeSession()`: a fresh challenge, written to the cache for ever. */
  function StoreSessionSpec(cfg: Config, w: World): Step<SessionRecord> {
    var t := GetTokenSpec(cfg, w);
    match t.result
    case Failure(_) => t
    case Success(record) => Step(Success(record), t.world.(cache := Some(record)))
  }

  function LoginKey(cfg: Config, record: SessionRecord): string {
    cfg.digest(TokenText(record.token) + cfg.accessKey)
  }

  predicate Invalidates(code: Member<string>) {
    code == Present(InvalidUserCredentials) || code == Present(InvalidSessionId)
  }

  /** `login($sessionData)`. */
  function LoginSpec(cfg: Config, w: World, record: SessionRecord): Step<Option<string>> {
    var w' := Retried(w, LoginRequest(cfg.username, LoginKey(cfg, record)), cfg.maxRetries);
    match Conclude(w.replies, cfg.maxRetries, LoginPhase)
    case Failure(e) => Step(Failure(e), w')
    case Success(reply) =>
      var loginResult := reply.body.value;
      if reply.status != 200 || !loginResult.success then
        if loginResult.errorCode.Absent? then Step(Failure(UndefinedProperty), w')
        else if Invalidates(loginResult.errorCode) then Step(Success(None), w'.(cache := None))
        else Step(Success(None), w')
      else if loginResult.result.None? || loginResult.result.value.sessionName.Absent? then
        Step(Failure(UndefinedProperty), w')
      else if w'.cache.Some? then
        var sessionId := Read(loginResult.result.value.sessionName);
        Step(Success(sessionId), w'.(cache := Some(w'.cache.value.(sessionId := sessionId))))
      else Step(Failure(CacheKeyMissing), w')
  }

  /** The second half of `sessionId()`, once a record is in hand. */
  function ResumeSpec(cfg: Config, w: World, record: SessionRecord): Step<Option<string>> {
    if record.sessionId.Some? then Step(Success(record.sessionId), w)
    else LoginSpec(cfg, w, record)
  }

  /** `sessionId()` at time `now`. */
  function SessionIdSpec(cfg: Config, w: World, now: int): Step<Option<string>> {
    if NeedsChallenge(w.cache, now) then
      var s := StoreSessionSpec(cfg, w);
      match s.result
      case Failure(e) => Step(Failure(e), s.world)
      case Success(record) => ResumeSpec(cfg, s.world, record)
    else ResumeSpec(cfg, w, w.cache.value)
  }

  /** `close($sessionId)`. */
  function CloseSpec(cfg: Config, w: World, sessionId: string): Step<Closed> {
    if cfg.persistConnection then Step(Success(KeptOpen), w)
    else
      var (reply, w') := Exchange(w, LogoutRequest(sessionId));
      if reply.None? then Step(Failure(TransportError), w')
      else Step(Success(LoggedOut(ProcessResponse(reply.value))), w')
  }

  /** The template every API operation follows: session id, one request,
      `close`, then the decoded reply. */
  function InvokeSpec(cfg: Config, w: World, op: Operation, now: int): Step<Decoded> {
    var s := SessionIdSpec(cfg, w, now);
    match s.result
    case Failure(e) => Step(Failure(e), s.world)
    case Success(sessionId) =>
      var (reply, w2) := Exchange(s.world, ApiRequest(op, sessionId));
      if reply.None? then Step(Failure(TransportError), w2)
      else if sessionId.None? then Step(Failure(TypeError), w2)
      else
        var c := CloseSpec(cfg, w2, sessionId.value);
        match c.result
        case Failure(e) => Step(Failure(e), c.world)
        case Success(_) => Step(Success(ProcessResponse(reply.value)), c.world)
  }
}
