/** What the session functions promise, stated over all worlds: when a
    request goes out, what is cached afterwards, and which outcome a call
    has. With `f` the index of the first decodable reply, every retry loop
    below is read through `Retry.ConcludeClosedForm`. */
module SessionLemmas {
  import opened Wire
  import opened Retry
  import opened Session

  /** A loop that concludes successfully answered at attempt `f + 1`: it took
      `f + 1` replies and logged `f + 1` copies of its request. */
  lemma RetriedOnSuccess(w: World, req: Request, maxRetries: int, phase: Phase)
    requires Conclude(w.replies, maxRetries, phase).Success?
    ensures var f := FirstDecodable(w.replies);
            f < |w.replies| && f + 2 < maxRetries &&
            Conclude(w.replies, maxRetries, phase) == Success(w.replies[f]) &&
            Retried(w, req, maxRetries) ==
              w.(replies := w.replies[f + 1..], sent := w.sent + Repeat(req, f + 1))
  {
    ConcludeClosedForm(w.replies, maxRetries, phase);
    LoopClosedForm(w.replies, maxRetries);
    var k := Attempts(w.replies, maxRetries);
    assert k <= |w.replies|;
  }

  /** `getToken()`: it succeeds exactly when the first decodable reply comes
      early enough and carries a token and an expiry, and then returns them
      with no session id. A reply without them raises; otherwise the failure
      is the one the retry check gives. The cache is never touched. */
  lemma GetTokenOutcome(cfg: Config, w: World)
    ensures var f := FirstDecodable(w.replies);
            var t := GetTokenSpec(cfg, w);
            var passed := f < |w.replies| && f + 2 < cfg.maxRetries;
            t.world.cache == w.cache &&
            (t.result.Success? <==> passed && HasChallenge(w.replies[f].body.value)) &&
            (passed ==>
               && t.world.sent == w.sent + Repeat(ChallengeRequest(cfg.username), f + 1)
               && t.world.replies == w.replies[f + 1..]) &&
            (t.result.Success? ==>
               var challenge := w.replies[f].body.value.result.value;
               t.result.value == SessionRecord(Read(challenge.token), Read(challenge.expireTime), None)) &&
            (t.result.Failure? ==>
               t.result.error ==
                 if passed then UndefinedProperty
                 else if f < |w.replies| || Bound(cfg.maxRetries) <= |w.replies|
                 then TriesExhausted(TokenPhase, cfg.maxRetries) else TransportError)
  {
    ConcludeClosedForm(w.replies, cfg.maxRetries, TokenPhase);
    if Conclude(w.replies, cfg.maxRetries, TokenPhase).Success? {
      RetriedOnSuccess(w, ChallengeRequest(cfg.username), cfg.maxRetries, TokenPhase);
    }
  }

  /** `storeSession()`: on success the cache holds exactly the fresh record
      (token, expiry, no session id), whatever it held before; on failure the
      exception leaves the cache as it was. */
  lemma StoreSessionCaches(cfg: Config, w: World)
    ensures var s := StoreSessionSpec(cfg, w);
            (s.result.Success? ==> s.world.cache == Some(s.result.value) && s.result.value.sessionId.None?) &&
            (s.result.Failure? ==> s.world.cache == w.cache) &&
            s.result == GetTokenSpec(cfg, w).result
  {
    GetTokenOutcome(cfg, w);
  }

  /** `login($sessionData)`. When its loop throws, the cache is untouched.
      When the loop passes on reply `f`, whose envelope is `e`, it has sent
      `f + 1` login requests keyed by `md5(token . accessKey)`. A refusal
      returns null and empties the cache exactly for the two invalidating
      codes, and raises when it carries no error code to compare. An
      acceptance returns the session name and records it in the cached
      object; it raises, leaving the cache alone, when the reply has no
      session name or no object is cached. */
  lemma LoginOutcome(cfg: Config, w: World, record: SessionRecord)
    ensures var c := Conclude(w.replies, cfg.maxRetries, LoginPhase);
            var l := LoginSpec(cfg, w, record);
            c.Failure? ==> l.result == Failure(c.error) && l.world.cache == w.cache
    ensures var c := Conclude(w.replies, cfg.maxRetries, LoginPhase);
            var f := FirstDecodable(w.replies);
            var l := LoginSpec(cfg, w, record);
            var key := cfg.digest(TokenText(record.token) + cfg.accessKey);
            c.Success? ==> (f < |w.replies| &&
              var e := w.replies[f].body.value;
              var named := e.result.Some? && !e.result.value.sessionName.Absent?;
              && l.world.sent == w.sent + Repeat(LoginRequest(cfg.username, key), f + 1)
              && l.world.replies == w.replies[f + 1..]
              && (!e.success && e.errorCode.Absent? ==> l.result == Failure(UndefinedProperty) && l.world.cache == w.cache)
              && (!e.success && Invalidates(e.errorCode) ==> l.result == Success(None) && l.world.cache == None)
              && (!e.success && !e.errorCode.Absent? && !Invalidates(e.errorCode) ==>
                    l.result == Success(None) && l.world.cache == w.cache)
              && (e.success && !named ==> l.result == Failure(UndefinedProperty) && l.world.cache == w.cache)
              && (e.success && named && w.cache.Some? ==>
                    var sessionId := Read(e.result.value.sessionName);
                    l.result == Success(sessionId) &&
                    l.world.cache == Some(w.cache.value.(sessionId := sessionId)))
              && (e.success && named && w.cache.None? ==> l.result == Failure(CacheKeyMissing) && l.world.cache == None))
  {
    if Conclude(w.replies, cfg.maxRetries, LoginPhase).Success? {
      RetriedOnSuccess(w, LoginRequest(cfg.username, LoginKey(cfg, record)), cfg.maxRetries, LoginPhase);
    }
  }

  /** A live cached record with a session id is used as it is: no request
      goes out and nothing changes. */
  lemma CachedSessionIsReused(cfg: Config, w: World, now: int)
    requires !NeedsChallenge(w.cache, now) && w.cache.value.sessionId.Some?
    ensures SessionIdSpec(cfg, w, now) == Step(Success(w.cache.value.sessionId), w)
  {
  }

  /** A missing, incomplete, expired or empty-token record is always
      replaced by a fresh challenge, and a login always follows it. */
  lemma StaleRecordIsReplaced(cfg: Config, w: World, now: int)
    requires NeedsChallenge(w.cache, now)
    ensures var s := StoreSessionSpec(cfg, w);
            var r := SessionIdSpec(cfg, w, now);
            && |s.world.sent| > |w.sent| && s.world.sent[|w.sent|] == ChallengeRequest(cfg.username)
            && (s.result.Success? ==> r == LoginSpec(cfg, s.world, s.result.value))
            && (s.result.Failure? ==> r == Step(Failure(s.result.error), s.world))
  {
    var k := Attempts(w.replies, cfg.maxRetries);
    var t := Retried(w, ChallengeRequest(cfg.username), cfg.maxRetries);
    StoreSessionCaches(cfg, w);
    assert t.sent == w.sent + Repeat(ChallengeRequest(cfg.username), k);
    assert t.sent[|w.sent|] == Repeat(ChallengeRequest(cfg.username), k)[0];
  }

  /** A session id that `sessionId()` returns is the one the cache now holds. */
  lemma ReturnedIdIsCached(cfg: Config, w: World, now: int)
    ensures var r := SessionIdSpec(cfg, w, now);
            r.result.Success? && r.result.value.Some? ==>
              r.world.cache.Some? && r.world.cache.value.sessionId == r.result.value
  {
    var r := SessionIdSpec(cfg, w, now);
    if NeedsChallenge(w.cache, now) {
      var s := StoreSessionSpec(cfg, w);
      StoreSessionCaches(cfg, w);
      if s.result.Success? {
        LoginOutcome(cfg, s.world, s.result.value);
      }
    } else if w.cache.value.sessionId.None? {
      LoginOutcome(cfg, w, w.cache.value);
    }
  }

  /** With `max_retries` of 2 or less the client can only ever use a session
      it already has cached: every loop that would run throws. */
  lemma SmallBudgetOnlyReuses(cfg: Config, w: World, now: int)
    requires cfg.maxRetries <= 2
    ensures SessionIdSpec(cfg, w, now).result.Success? ==>
              !NeedsChallenge(w.cache, now) && w.cache.value.sessionId.Some?
  {
    SmallBudgetNeverSucceeds(w.replies, cfg.maxRetries, TokenPhase);
    SmallBudgetNeverSucceeds(w.replies, cfg.maxRetries, LoginPhase);
  }

  /** `close($sessionId)`: nothing is sent on a persistent connection;
      otherwise exactly one logout request for that session, and the cache is
      never touched. */
  lemma CloseOutcome(cfg: Config, w: World, sessionId: string)
    ensures var c := CloseSpec(cfg, w, sessionId);
            && c.world.cache == w.cache
            && (cfg.persistConnection ==> c == Step(Success(KeptOpen), w))
            && (!cfg.persistConnection ==>
                  c.world.sent == w.sent + [LogoutRequest(sessionId)] &&
                  (c.result.Success? <==> w.replies != []) &&
                  (w.replies != [] ==> c.result.value == LoggedOut(ProcessResponse(w.replies[0]))))
  {
  }

  /** An API call on a live cached session: one API request (and one logout
      when the connection is not persistent), the reply decoded, and the
      cache left alone whatever the reply says, `INVALID_SESSIONID`
      included. */
  lemma LiveSessionInvoke(cfg: Config, w: World, op: Operation, now: int)
    requires !NeedsChallenge(w.cache, now) && w.cache.value.sessionId.Some?
    requires |w.replies| >= (if cfg.persistConnection then 1 else 2)
    ensures var sid := w.cache.value.sessionId;
            var i := InvokeSpec(cfg, w, op, now);
            && i.result == Success(ProcessResponse(w.replies[0]))
            && i.world.cache == w.cache
            && i.world.sent == w.sent + [ApiRequest(op, sid)] +
                 (if cfg.persistConnection then [] else [LogoutRequest(sid.value)])
            && i.world.replies == w.replies[if cfg.persistConnection then 1 else 2..]
  {
    CachedSessionIsReused(cfg, w, now);
  }

  /** On a persistent connection, once `sessionId()` has produced an id, an
      API call adds one request and returns the next reply decoded. */
  lemma PersistentInvoke(cfg: Config, w: World, op: Operation, now: int)
    requires cfg.persistConnection
    requires var s := SessionIdSpec(cfg, w, now);
             s.result.Success? && s.result.value.Some? && s.world.replies != []
    ensures var s := SessionIdSpec(cfg, w, now);
            InvokeSpec(cfg, w, op, now) ==
              Step(Success(ProcessResponse(s.world.replies[0])),
                   s.world.(replies := s.world.replies[1..], sent := s.world.sent + [ApiRequest(op, s.result.value)]))
  {
  }

  /** A login that is refused makes `sessionId()` return null; the API request
      still goes out with no session, and then `close(null)` raises. */
  lemma RejectedLoginRaisesTypeError(cfg: Config, w: World, op: Operation, now: int)
    requires SessionIdSpec(cfg, w, now).result == Success(None)
    ensures var s := SessionIdSpec(cfg, w, now);
            var i := InvokeSpec(cfg, w, op, now);
            && i.world.sent == s.world.sent + [ApiRequest(op, None)]
            && i.result == Failure(if s.world.replies == [] then TransportError else TypeError)
  {
  }

  /** From an empty cache: one challenge, one login, and the cache ends up
      holding the token, its expiry and the session. */
  lemma FreshSessionScenario(cfg: Config, challenge: Reply, login: Reply, rest: seq<Reply>, now: int)
    requires cfg.maxRetries == 10
    requires challenge == Reply(200, Some(Envelope(true, Some(Payload(Present("tok"), Present(1000), Absent)), Absent)))
    requires login == Reply(200, Some(Envelope(true, Some(Payload(Absent, Absent, Present("sess"))), Absent)))
    ensures SessionIdSpec(cfg, World(None, [challenge, login] + rest, []), now) ==
            Step(Success(Some("sess")),
                 World(Some(SessionRecord(Some("tok"), Some(1000), Some("sess"))), rest,
                       [ChallengeRequest(cfg.username), LoginRequest(cfg.username, cfg.digest("tok" + cfg.accessKey))]))
  {
    var w := World(None, [challenge, login] + rest, []);
    assert FirstDecodable(w.replies) == 0;
    GetTokenOutcome(cfg, w);
    StoreSessionCaches(cfg, w);
    var record := SessionRecord(Some("tok"), Some(1000), None);
    var w1 := World(Some(record), [login] + rest, [ChallengeRequest(cfg.username)]);
    assert w.replies[1..] == [login] + rest;
    assert StoreSessionSpec(cfg, w) == Step(Success(record), w1);
    assert FirstDecodable(w1.replies) == 0;
    ConcludeClosedForm(w1.replies, 10, LoginPhase);
    LoginOutcome(cfg, w1, record);
    assert w1.replies[1..] == rest;
  }

  /** A whole `listTypes()` call from an empty cache on a persistent
      connection: challenge, login, the request itself, and no logout. */
  lemma FreshLoginScenario(cfg: Config, now: int)
    requires cfg.maxRetries == 10 && cfg.persistConnection
    ensures var challenge := Reply(200, Some(Envelope(true, Some(Payload(Present("tok"), Present(1000), Absent)), Absent)));
            var login := Reply(200, Some(Envelope(true, Some(Payload(Absent, Absent, Present("sess"))), Absent)));
            var answer := Reply(200, None);
            var i := InvokeSpec(cfg, World(None, [challenge, login, answer], []), ListTypes, now);
            && i.result == Success(Json(None))
            && i.world.cache == Some(SessionRecord(Some("tok"), Some(1000), Some("sess")))
            && i.world.sent == [ChallengeRequest(cfg.username), LoginRequest(cfg.username, cfg.digest("tok" + cfg.accessKey)),
                                ApiRequest(ListTypes, Some("sess"))]
            && i.world.replies == []
  {
    var challenge := Reply(200, Some(Envelope(true, Some(Payload(Present("tok"), Present(1000), Absent)), Absent)));
    var login := Reply(200, Some(Envelope(true, Some(Payload(Absent, Absent, Present("sess"))), Absent)));
    var answer := Reply(200, None);
    var w := World(None, [challenge, login, answer], []);
    assert w.replies == [challenge, login] + [answer];
    FreshSessionScenario(cfg, challenge, login, [answer], now);
    PersistentInvoke(cfg, w, ListTypes, now);
  }

  /** The off-by-one seen from the outside: with `max_retries` 3, a valid
      challenge on the second attempt still ends in "within 3 tries", after
      two challenge requests and with the cache untouched. */
  lemma LateChallengeScenario(cfg: Config, now: int)
    requires cfg.maxRetries == 3
    ensures var failed := Reply(503, None);
            var challenge := Reply(200, Some(Envelope(true, Some(Payload(Present("tok"), Present(1000), Absent)), Absent)));
            var r := SessionIdSpec(cfg, World(None, [failed, challenge], []), now);
            && r.result == Failure(TriesExhausted(TokenPhase, 3))
            && r.world.sent == [ChallengeRequest(cfg.username), ChallengeRequest(cfg.username)]
            && r.world.cache == None
  {
    var failed := Reply(503, None);
    var challenge := Reply(200, Some(Envelope(true, Some(Payload(Present("tok"), Present(1000), Absent)), Absent)));
    var replies := [failed, challenge];
    assert replies[1..] == [challenge];
    assert FirstDecodable(replies) == 1;
    LateSuccessStillThrows(replies, 3, TokenPhase);
    LoopClosedForm(replies, 3);
    assert Attempts(replies, 3) == 2;
    assert Repeat(ChallengeRequest(cfg.username), 2) == [ChallengeRequest(cfg.username), ChallengeRequest(cfg.username)];
  }

  /** A challenge the server refuses (`{"success":false,"error":...}`, no
      `result`) ends the loop at once, and reading its token raises: nothing
      is cached and no login is attempted. */
  lemma RefusedChallengeScenario(cfg: Config, rest: seq<Reply>, now: int)
    requires cfg.maxRetries == 10
    ensures var refused := Reply(200, Some(Envelope(false, None, Present(InvalidUserCredentials))));
            var r := SessionIdSpec(cfg, World(None, [refused] + rest, []), now);
            && r.result == Failure(UndefinedProperty)
            && r.world == World(None, rest, [ChallengeRequest(cfg.username)])
  {
    var refused := Reply(200, Some(Envelope(false, None, Present(InvalidUserCredentials))));
    var w := World(None, [refused] + rest, []);
    assert FirstDecodable(w.replies) == 0;
    GetTokenOutcome(cfg, w);
    assert w.replies[1..] == rest;
  }
}
