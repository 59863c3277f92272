/** The client object: the credentials and settings it holds, the shared cache
    slot it reads and writes, and the server it talks to (the replies it will
    give, and the log of requests sent). Every method is proved to leave the
    world exactly as the `Session` function of the same name says. */
module Client {
  import opened Wire
  import opened Retry
  import opened Session
  import QueryText

  class Vtiger {
    var url: string
    var username: string
    var accessKey: string
    const persistConnection: bool
    const maxRetries: int
    const digest: string -> string        // md5
    const pdoQuote: string -> string      // the database connection's quote()

    var cache: Option<SessionRecord>      // the cache slot `vtiger_laravel`
    var replies: seq<Reply>               // what the server will answer, in order
    var sent: seq<Request>                // every request issued, in order

    function Config(): Config
      reads this
    {
      Session.Config(username, accessKey, persistConnection, maxRetries, digest)
    }

    function State(): World
      reads this
    {
      World(cache, replies, sent)
    }

    /** The configured client; `persistconnection` defaults to true and
        `max_retries` to 10. */
    constructor (url: string, username: string, accessKey: string,
                 digest: string -> string, pdoQuote: string -> string,
                 cache: Option<SessionRecord>, replies: seq<Reply>,
                 persistConnection: bool := true, maxRetries: int := 10)
      ensures this.url == url && this.username == username && this.accessKey == accessKey
      ensures this.digest == digest && this.pdoQuote == pdoQuote
      ensures this.persistConnection == persistConnection && this.maxRetries == maxRetries
      ensures State() == World(cache, replies, [])
    {
      this.url := url;
      this.username := username;
      this.accessKey := accessKey;
      this.digest := digest;
      this.pdoQuote := pdoQuote;
      this.persistConnection := persistConnection;
      this.maxRetries := maxRetries;
      this.cache := cache;
      this.replies := replies;
      this.sent := [];
    }

    /** `connection()`: overrides the connection details, nothing else. */
    method Connection(url: string, username: string, accessKey: string)
      modifies this`url, this`username, this`accessKey
      ensures this.url == url && this.username == username && this.accessKey == accessKey
      ensures State() == old(State())
    {
      this.url := url;
      this.username := username;
      this.accessKey := accessKey;
    }

    /** One HTTP request; no reply left means the HTTP client raises. */
    method Send(req: Request) returns (reply: Option<Reply>)
      modifies this`replies, this`sent
      ensures (reply, State()) == Exchange(old(State()), req)
    {
      sent := sent + [req];
      if replies == [] {
        reply := None;
      } else {
        reply := Some(replies[0]);
        replies := replies[1..];
      }
    }

    /** The do-while loop of `login` and `getToken`, sending `req` each time. */
    method RetryRequest(req: Request) returns (end: LoopEnd)
      modifies this`replies, this`sent
      ensures end == RunLoop(old(replies), maxRetries)
      ensures State() == Retried(old(State()), req, maxRetries)
    {
      ghost var w := State();
      AttemptsOfEnd(w.replies, maxRetries);
      var tryCounter := 1;
      while true
        invariant 1 <= tryCounter <= Bound(maxRetries)
        invariant tryCounter - 1 <= |w.replies|
        invariant replies == w.replies[tryCounter - 1..]
        invariant sent == w.sent + Repeat(req, tryCounter - 1)
        invariant cache == w.cache
        invariant RunLoop(w.replies, maxRetries) == Run(replies, tryCounter, maxRetries)
        decreases Bound(maxRetries) - tryCounter
      {
        ghost var pending := replies;
        var response := Send(req);
        RepeatOneMore(req, tryCounter - 1);
        if response.None? {
          assert pending == [];
          return NoReply;
        }
        assert replies == w.replies[tryCounter..];
        tryCounter := tryCounter + 1;
        if HasSuccess(ProcessResponse(response.value)) || tryCounter > maxRetries {
          assert Run(pending, tryCounter - 1, maxRetries) == Answered(tryCounter, response.value);
          return Answered(tryCounter, response.value);
        }
      }
    }

    /** `getToken()`. */
    method GetToken() returns (r: Result<SessionRecord, Failure>)
      modifies this`replies, this`sent
      ensures Step(r, State()) == GetTokenSpec(old(Config()), old(State()))
    {
      ghost var before := replies;
      var end := RetryRequest(ChallengeRequest(username));
      if end.NoReply? {
        return Failure(TransportError);
      }
      if end.tryCounter >= maxRetries {
        return Failure(TriesExhausted(TokenPhase, maxRetries));
      }
      assert Conclude(before, maxRetries, TokenPhase) == Success(end.reply);
      var challenge := ProcessResponse(end.reply).body.value;
      if challenge.result.None? || challenge.result.value.token.Absent? || challenge.result.value.expireTime.Absent? {
        return Failure(UndefinedProperty);
      }
      r := Success(SessionRecord(Read(challenge.result.value.token), Read(challenge.result.value.expireTime), None));
    }

    /** `storeSession()`. */
    method StoreSession() returns (r: Result<SessionRecord, Failure>)
      modifies this`cache, this`replies, this`sent
      ensures Step(r, State()) == StoreSessionSpec(old(Config()), old(State()))
    {
      r := GetToken();
      if r.Success? {
        cache := Some(r.value);
      }
    }

    /** `login($sessionData)`. */
    method Login(sessionData: SessionRecord) returns (r: Result<Option<string>, Failure>)
      modifies this`cache, this`replies, this`sent
      ensures Step(r, State()) == LoginSpec(old(Config()), old(State()), sessionData)
    {
      ghost var before := replies;
      var generatedKey := digest(TokenText(sessionData.token) + accessKey);
      var end := RetryRequest(LoginRequest(username, generatedKey));
      if end.NoReply? {
        return Failure(TransportError);
      }
      if end.tryCounter >= maxRetries {
        return Failure(TriesExhausted(LoginPhase, maxRetries));
      }
      assert Conclude(before, maxRetries, LoginPhase) == Success(end.reply);
      var response := end.reply;
      var loginResult := ProcessResponse(response).body.value;
      if response.status != 200 || !loginResult.success {
        if loginResult.errorCode.Absent? {
          return Failure(UndefinedProperty);
        }
        if loginResult.errorCode == Present(InvalidUserCredentials) || loginResult.errorCode == Present(InvalidSessionId) {
          if cache.Some? {
            cache := None;
          }
        }
        return Success(None);
      }
      if loginResult.result.None? || loginResult.result.value.sessionName.Absent? {
        return Failure(UndefinedProperty);
      }
      var sessionId := Read(loginResult.result.value.sessionName);
      if cache.Some? {
        cache := Some(cache.value.(sessionId := sessionId));
      } else {
        return Failure(CacheKeyMissing);
      }
      r := Success(sessionId);
    }

    /** `sessionId()` at time `now`. */
    method SessionId(now: int) returns (r: Result<Option<string>, Failure>)
      modifies this`cache, this`replies, this`sent
      ensures Step(r, State()) == SessionIdSpec(old(Config()), old(State()), now)
    {
      var sessionData := cache;
      if NeedsChallenge(sessionData, now) {
        var stored := StoreSession();
        if stored.Failure? {
          return Failure(stored.error);
        }
        sessionData := Some(stored.value);
      }
      if sessionData.value.sessionId.Some? {
        return Success(sessionData.value.sessionId);
      }
      r := Login(sessionData.value);
    }

    /** `close($sessionId)`. */
    method Close(sessionId: string) returns (r: Result<Closed, Failure>)
      modifies this`replies, this`sent
      ensures Step(r, State()) == CloseSpec(old(Config()), old(State()), sessionId)
    {
      if persistConnection {
        return Success(KeptOpen);
      }
      var response := Send(LogoutRequest(sessionId));
      if response.None? {
        return Failure(TransportError);
      }
      r := Success(LoggedOut(ProcessResponse(response.value)));
    }

    /** The shape of `query`, `listTypes`, `retrieve`, `create`, `update`,
        `delete` and `describe`: each is `Invoke` with its own `Operation`. */
    method Invoke(op: Operation, now: int) returns (r: Result<Decoded, Failure>)
      modifies this`cache, this`replies, this`sent
      ensures Step(r, State()) == InvokeSpec(old(Config()), old(State()), op, now)
    {
      var sessionId := SessionId(now);
      if sessionId.Failure? {
        return Failure(sessionId.error);
      }
      var response := Send(ApiRequest(op, sessionId.value));
      if response.None? {
        return Failure(TransportError);
      }
      if sessionId.value.None? {
        return Failure(TypeError);
      }
      var closed := Close(sessionId.value.value);
      if closed.Failure? {
        return Failure(closed.error);
      }
      r := Success(ProcessResponse(response.value));
    }

    /** `search($query, $quote)`, given the builder's SQL text and bindings. */
    method Search(sql: string, bindings: seq<string>, now: int, quote: bool := true) returns (r: Result<Decoded, Failure>)
      modifies this`cache, this`replies, this`sent
      ensures Step(r, State()) ==
        InvokeSpec(old(Config()), old(State()), Query(QueryText.SearchText(sql, bindings, quote, pdoQuote)), now)
    {
      var queryString := QueryText.SubstituteBindings(sql, bindings, quote, pdoQuote);
      queryString := QueryText.FinishQuery(QueryText.RewriteOffsetLimit(queryString));
      r := Invoke(Query(queryString), now);
    }

    /** `lookup($dataType, $value, $module, $columns)`. */
    method Lookup(dataType: string, value: string, moduleName: string, columns: seq<string>, now: int)
      returns (r: Result<Decoded, Failure>)
      modifies this`cache, this`replies, this`sent
      ensures Step(r, State()) ==
        InvokeSpec(old(Config()), old(State()), Operation.Lookup(dataType, value, QueryText.SearchIn(moduleName, columns)), now)
    {
      var searchIn := QueryText.BuildSearchIn(moduleName, columns);
      r := Invoke(Operation.Lookup(dataType, value, searchIn), now);
    }
  }
}
