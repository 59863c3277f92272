# vtiger-laravel session client, modelled in Dafny

This project models the core of `src/Vtiger.php`, the Laravel client for the
vtiger CRM web-service API. It covers four parts:

- **The session lifecycle.** `sessionId()` reads the one cached record
  `{token, expireTime, sessionid?}` stored under the key `vtiger_laravel`.
  A missing, expired or empty-token record is replaced by a fresh challenge
  (`storeSession()` / `getToken()`). A record that has a `sessionid` is used
  as it is. Otherwise `login()` runs. It either adds the session id to the
  cached record or, on `INVALID_USER_CREDENTIALS` / `INVALID_SESSIONID`,
  deletes the record.
- **The two bounded retry loops** of `getToken()` and `login()`, each
  followed by the "within N tries" check.
- **Response classification** in `_processResponse()`.
- **The API call template** that every operation follows: session id, one
  request, `close()`, decoded reply. On top of it sit the two string builders
  of `lookup()` (the `searchIn` scope) and `search()` (placeholder
  substitution, the offset/limit rewrite, backticks stripped, `;` appended).

## Layout

- `wire.dfy` (module `Wire`) holds the values on the wire:
  - the server's replies `Reply(status, body)`;
  - what `_processResponse` makes of them (`Decoded`);
  - the requests the client sends (`Request`, `Operation`);
  - the ways a call fails (`Failure`).
- `retry.dfy` (module `Retry`) holds the do-while loop. `Run` follows it
  attempt by attempt over the replies to come, `Conclude` adds the check on
  the final counter, and the lemmas give both in closed form.
- `session.dfy` (module `Session`) holds one specification function per
  session operation. Each is a function over an explicit `World`: the cache
  slot, the replies still to come, and the log of requests sent.
- `session_lemmas.dfy` (module `SessionLemmas`) holds what those functions
  promise for all worlds, plus three concrete call scenarios.
- `query_text.dfy` (module `QueryText`) holds the `lookup` and `search`
  string builders and their lemmas.
- `client.dfy` (module `Client`) holds the class `Vtiger`:
  - its fields: credentials, settings, the cache slot, the replies the
    server will give, and the request log;
  - one method per session method (`sessionId`, `login`, `storeSession`,
    `getToken`, `close`, `connection`), with the same loops and branches,
    plus `Invoke` for the template the seven API methods share, and `Search`
    and `Lookup`. `_processResponse` is the function `Wire.ProcessResponse`.
    Each method is proved to leave the object in exactly the state its
    `Session` function prescribes.

## Behaviour of the code that the model keeps

- **The retry off-by-one.** `$tryCounter` starts at 1 and is incremented
  after every request. The loop goes on while the reply has no `success`
  member and `$tryCounter <= maxRetries`. Afterwards the call throws when
  `$tryCounter >= maxRetries`. Let `f` be the index of the first reply with
  a `success` member. `Retry.ConcludeClosedForm` proves the call succeeds
  exactly when `f + 2 < maxRetries`, so a good reply on attempt
  `maxRetries - 1` or `maxRetries` still throws. With `maxRetries <= 2` no
  loop ever succeeds (`Retry.SmallBudgetNeverSucceeds`). The consequence for
  `sessionId()` is `SessionLemmas.SmallBudgetOnlyReuses`.
- **Non-200 replies.** `_processResponse` returns the raw response object
  for them, and that object has no `success` member. So a non-200 reply never
  ends a loop, whatever its body.
- **`close(null)`.** When `login()` is refused it returns null. Every API
  method still sends its request with no session, and then `close(null)`
  violates the `string` parameter type. The model reports this as
  `Failure(TypeError)`, after the API request has already been sent
  (`SessionLemmas.RejectedLoginRaisesTypeError`).
- **The cache is cleared only inside `login()`.** `INVALID_SESSIONID` in the
  reply to an API call does not clear the cache. The code clears it only for
  a refused login. The model follows the code:
  `SessionLemmas.LiveSessionInvoke` shows the cache unchanged after an API
  call, whatever the reply says.
- **A binding that contains `?`.** `search` replaces placeholders with one
  `preg_replace(..., 1)` per binding. A binding that itself contains `?`
  therefore has that `?` replaced by the next binding. The loop equals
  positional substitution only when no binding contains `?`.
  - `QueryText.SubstitutedIsPositional` proves the equality for that case.
  - `QueryText.PlaceholderInBindingIsReplaced` and
    `QueryText.PositionalKeepsBinding` show the difference on `?,?` with the
    bindings `x?` and `y`.
- **The offset/limit rewrite.** It matches lower-case keywords only, and
  `\d*` may match no digits. The limit digits are captured from the text
  before the offset clause is removed.
- **PHP `empty()`.** It treats `"0"` as an empty token, just like `""` and
  null.
- **Reading a member that is not there raises.** Laravel's error handler
  turns PHP warnings into `ErrorException`. Reading a member a decoded object
  does not have, or a property of null, is such a warning. So `getToken()`
  raises on a challenge reply without `result`, `token` or `expireTime`, and
  `login()` raises on a refusal without `error.code` and on an acceptance
  without `result.sessionName`. The model reports these cases as
  `Failure(UndefinedProperty)`, raised before the cache is written. A member
  present with the JSON value null reads as null (`Wire.Member`).

## Model

| member | source | states |
|---|---|---|
| `Wire.Decodable` | src/Vtiger.php:475-492 | a reply carries a `success` member after `_processResponse` exactly when its status is 200 and its body is an envelope |
| `Wire.ProcessResponse` | src/Vtiger.php:475-492 | a 200 reply gives its decoded body, any other status the raw response; `Wire.Decodable` says which of these have a `success` member |
| `Retry.Run` | src/Vtiger.php:98-113 | the loop attempt by attempt from a given counter; its closed form is `Retry.RunClosedForm` |
| `Retry.RunLoop` | src/Vtiger.php:170-180 | the loop from counter 1; its closed form is `Retry.LoopClosedForm` |
| `Retry.FirstDecodable` | src/Vtiger.php:113 | the index of the first reply that ends the loop; every earlier reply is undecodable |
| `Retry.RunClosedForm` | src/Vtiger.php:100-113 | entered with counter `c`, the loop stops at the first decodable reply or when the counter passes `maxRetries`, with counter `c + attempts`, or in a transport error when the replies run out |
| `Retry.LoopClosedForm` | src/Vtiger.php:170-180 | the loop's end in closed form: attempt `f + 1` if that is within the budget and the replies; else after the whole budget; else a transport error |
| `Retry.Attempts` | src/Vtiger.php:98-113 | the do-while issues at least one request, and no more than `maxRetries` when that is positive; the count fixes the final counter and the reply the loop ends on |
| `Retry.Conclude` | src/Vtiger.php:115-117 | a loop followed by the counter check returns only a reply that has a `success` member |
| `Retry.ConcludeClosedForm` | src/Vtiger.php:98-117 | success exactly when `f + 2 < maxRetries`; else "within N tries" when some reply is decodable or the whole budget was answered; else a transport error |
| `Retry.LateSuccessStillThrows` | src/Vtiger.php:115-117 | a decodable reply on attempt `maxRetries - 1` or `maxRetries` still ends in the exception |
| `Retry.SmallBudgetNeverSucceeds` | src/Vtiger.php:182-184 | with `maxRetries <= 2` every loop ends in a failure |
| `Retry.UndecodableRunExhausts` | src/Vtiger.php:170-184 | `maxRetries` undecodable replies in a row take exactly `maxRetries` requests and end in "within N tries" |
| `SessionLemmas.RetriedOnSuccess` | src/Vtiger.php:170-180 | a loop that concludes successfully consumed `f + 1` replies and logged `f + 1` copies of its request |
| `Session.IsEmpty` | src/Vtiger.php:71 | PHP `empty()` on the token: null, `""` and `"0"`; used by `SessionLemmas.StaleRecordIsReplaced` |
| `Session.NeedsChallenge` | src/Vtiger.php:71 | the record is missing, has no expiry or token, is expired, or has an empty token; `SessionLemmas.CachedSessionIsReused` and `SessionLemmas.StaleRecordIsReplaced` give both sides |
| `Session.GetTokenSpec` | src/Vtiger.php:167-193 | `getToken()` over a world: the challenge loop, the counter check, then the token and expiry read from the reply; specified by `SessionLemmas.GetTokenOutcome` |
| `Session.StoreSessionSpec` | src/Vtiger.php:151-159 | `storeSession()`: a fresh challenge written to the cache; specified by `SessionLemmas.StoreSessionCaches` |
| `Session.LoginSpec` | src/Vtiger.php:90-143 | `login()`: the login loop, the counter check, the refusal and acceptance branches; specified by `SessionLemmas.LoginOutcome` |
| `Session.ResumeSpec` | src/Vtiger.php:75-79 | the second half of `sessionId()`: the record's `sessionid` when it is set, otherwise `login()`; specified by `SessionLemmas.CachedSessionIsReused` and `SessionLemmas.ReturnedIdIsCached` |
| `Session.SessionIdSpec` | src/Vtiger.php:66-80 | `sessionId()`: reuse, refresh then login, or login; specified by `SessionLemmas.CachedSessionIsReused`, `SessionLemmas.StaleRecordIsReplaced` and `SessionLemmas.ReturnedIdIsCached` |
| `Session.CloseSpec` | src/Vtiger.php:203-222 | `close()`: nothing on a persistent connection, else one logout; specified by `SessionLemmas.CloseOutcome` |
| `Session.InvokeSpec` | src/Vtiger.php:232-248 | the API call template: session id, one request, `close()`, decoded reply; specified by `SessionLemmas.LiveSessionInvoke` and `SessionLemmas.RejectedLoginRaisesTypeError` |
| `SessionLemmas.GetTokenOutcome` | src/Vtiger.php:167-193 | `getToken` succeeds iff the first decodable reply comes early enough and carries a token and an expiry, and then returns them with no session id; a reply without them raises; otherwise the failure is the one the counter check gives; the cache is untouched |
| `SessionLemmas.StoreSessionCaches` | src/Vtiger.php:151-159 | on success the cache holds exactly the fresh record with no session id, whatever it held before; on failure it is unchanged |
| `SessionLemmas.LoginOutcome` | src/Vtiger.php:90-143 | when the loop throws, the cache is untouched; otherwise the login request is keyed by `md5(token . accessKey)`; a refusal returns null and empties the cache exactly for the two invalidating codes, and raises when it has no error code; an acceptance returns `sessionName` and adds it to the cached record, and raises when the name is missing or no record is cached |
| `SessionLemmas.CachedSessionIsReused` | src/Vtiger.php:69-77 | a live record with a session id is returned as it is: no request, no change |
| `SessionLemmas.StaleRecordIsReplaced` | src/Vtiger.php:71-73 | a missing, incomplete, expired or empty-token record leads to a challenge request, and a successful challenge always leads to a login |
| `SessionLemmas.ReturnedIdIsCached` | src/Vtiger.php:66-80 | a session id that `sessionId()` returns is the one the cache then holds |
| `SessionLemmas.SmallBudgetOnlyReuses` | src/Vtiger.php:71-79 | with `maxRetries <= 2`, `sessionId()` succeeds only on a cached live session |
| `SessionLemmas.CloseOutcome` | src/Vtiger.php:203-222 | on a persistent connection nothing is sent; otherwise exactly one logout request for that session, its reply decoded; the cache is never touched |
| `SessionLemmas.LiveSessionInvoke` | src/Vtiger.php:232-248 | with a live cached session an API call sends one request (plus one logout when not persistent), returns the decoded reply and leaves the cache as it was |
| `SessionLemmas.PersistentInvoke` | src/Vtiger.php:232-248 | on a persistent connection, once `sessionId()` yields an id, an API call sends exactly one request with it and returns the next reply decoded |
| `SessionLemmas.RejectedLoginRaisesTypeError` | src/Vtiger.php:232-245 | when `sessionId()` returns null, the API request still goes out without a session and the call then fails in `close(null)` |
| `SessionLemmas.FreshSessionScenario` | src/Vtiger.php:66-80 | from an empty cache: one challenge, one login, and the cache holds token, expiry and the new session id |
| `SessionLemmas.FreshLoginScenario` | src/Vtiger.php:280-296 | a whole `listTypes()` from an empty cache on a persistent connection sends challenge, login and the request, and no logout |
| `SessionLemmas.LateChallengeScenario` | src/Vtiger.php:170-184 | with `maxRetries` 3, a valid challenge on the second attempt still throws after two requests, with the cache untouched |
| `SessionLemmas.RefusedChallengeScenario` | src/Vtiger.php:187-191 | a refused challenge (no `result`) raises on reading the token after one request; nothing is cached and no login follows |
| `Client.Vtiger.constructor` | src/Vtiger.php:29-40 | the configured client, `persistconnection` true and `max_retries` 10 by default, with no request sent |
| `Client.Vtiger.Connection` | src/Vtiger.php:51-58 | overrides url, username and access key and nothing else |
| `Client.Vtiger.Send` | src/Vtiger.php:172-177 | one request is logged and answered by the next reply, if any |
| `Client.Vtiger.RetryRequest` | src/Vtiger.php:98-113 | the while loop ends as `Retry.RunLoop` says and consumes and logs exactly what `Session.Retried` says |
| `Client.Vtiger.GetToken` | src/Vtiger.php:167-193 | result and new state are those of `Session.GetTokenSpec` |
| `Client.Vtiger.StoreSession` | src/Vtiger.php:151-159 | result and new state are those of `Session.StoreSessionSpec` |
| `Client.Vtiger.Login` | src/Vtiger.php:90-143 | result and new state are those of `Session.LoginSpec` |
| `Client.Vtiger.SessionId` | src/Vtiger.php:66-80 | result and new state are those of `Session.SessionIdSpec` |
| `Client.Vtiger.Close` | src/Vtiger.php:203-222 | result and new state are those of `Session.CloseSpec` |
| `Client.Vtiger.Invoke` | src/Vtiger.php:232-248 | result and new state are those of `Session.InvokeSpec`, the template of every API operation |
| `Client.Vtiger.Search` | src/Vtiger.php:250-278 | a query call whose text is `QueryText.SearchText` of the SQL and bindings |
| `Client.Vtiger.Lookup` | src/Vtiger.php:298-326 | a lookup call whose scope is `QueryText.SearchIn` of the module and columns |
| `QueryText.TerminatedIsJoinedWithComma` | src/Vtiger.php:304-309 | the text the column loop builds is the comma-joined quoted columns plus one trailing comma |
| `QueryText.ColumnsText` | src/Vtiger.php:303-309 | the loop and the `substr` give the quoted columns joined by commas, "" for no columns |
| `QueryText.SearchIn` | src/Vtiger.php:319 | the `searchIn` scope `{"module":[` + joined quoted columns + `]}`; `QueryText.ColumnsText` proves the column loop builds that join |
| `QueryText.BuildSearchIn` | src/Vtiger.php:303-319 | the method's column loop and concatenation give exactly `QueryText.SearchIn` of the module and columns |
| `QueryText.ReplaceFirst` | src/Vtiger.php:257-261 | `preg_replace('/\?/', $value, $s, 1)`; specified by `QueryText.ReplaceFirstSplits` |
| `QueryText.Substituted` | src/Vtiger.php:255-262 | the binding loop as a fold of replace-first; specified by `QueryText.SubstitutedIsPositional`, `QueryText.NoPlaceholderFixed` and the two `?,?` lemmas |
| `QueryText.ReplaceFirstSplits` | src/Vtiger.php:257 | replace-first keeps the text before the first `?`, puts the value in its place and keeps the rest; text without `?` is unchanged |
| `QueryText.SubstituteBindings` | src/Vtiger.php:255-262 | the loop makes one replace-first per binding, in order, quoted or not as asked |
| `QueryText.SubstitutedIsPositional` | src/Vtiger.php:255-262 | when no binding contains `?`, the i-th `?` is replaced by the i-th binding |
| `QueryText.NoPlaceholderFixed` | src/Vtiger.php:255-262 | text without `?` is left as it is, whatever the bindings |
| `QueryText.PlaceholderInBindingIsReplaced` | src/Vtiger.php:255-262 | `?,?` with bindings `x?`, `y` becomes `xy,?`: the second binding lands inside the first |
| `QueryText.PositionalKeepsBinding` | src/Vtiger.php:255-262 | positional substitution of the same input gives `x?,y` |
| `QueryText.FirstClause` | src/Vtiger.php:268 | `preg_match` finds no clause exactly when no position of the text starts one |
| `QueryText.RemoveClauses` | src/Vtiger.php:269-270 | the global `preg_replace` of one keyword's clauses; specified through `QueryText.RemoveClausesAfter`, `QueryText.ClauseConsumed` and the rewrite lemmas |
| `QueryText.RewriteOffsetLimit` | src/Vtiger.php:264-272 | both clauses found, both removed, `limit N,M` appended; else the text unchanged; specified by the lemmas below |
| `QueryText.RewriteLimitOffset` | src/Vtiger.php:264-272 | `... limit M offset N` becomes `... limit N,M` |
| `QueryText.RewriteOffsetThenLimit` | src/Vtiger.php:264-272 | `... offset N limit M` becomes `... limit N,M` too |
| `QueryText.RewriteNeedsBoth` | src/Vtiger.php:268-272 | the text changes only when both a lower-case offset clause and a lower-case limit clause occur in it |
| `QueryText.UpperCaseNotRewritten` | src/Vtiger.php:268 | the match is case-sensitive: `... OFFSET N LIMIT M` after a prefix with no lower-case offset clause reaches the query unchanged |
| `QueryText.StripBackticks` | src/Vtiger.php:275 | no backtick is left, every other character keeps its count, and text without backticks is unchanged |
| `QueryText.StripBackticksConcat` | src/Vtiger.php:275 | removal distributes over concatenation, so the kept characters stay in their order |
| `QueryText.StripBackticksChar` | src/Vtiger.php:275 | one character: a backtick is dropped, anything else kept |
| `QueryText.FinishQuery` | src/Vtiger.php:275 | the final query text contains no backtick and ends with `;` |
| `QueryText.SearchText` | src/Vtiger.php:250-277 | the text `search` hands to `query`: substitution, rewrite, backticks stripped, `;` appended; each stage specified by the lemmas above |

## Left out

- The HTTP transport (Guzzle) is a sequence of replies the server will give.
  A request with no reply left stands for any transport exception. The URL,
  the HTTP verb and the parameter encoding are not recorded in the request
  log: only the operation and its arguments are.
- The Laravel cache is one `Option` slot. The other keys, persistence and the
  non-atomic `has`/`pull`/`forever` sequence are not modelled. Neither is the
  race between concurrent callers refreshing the same record, since the code
  does no locking.
- `json_encode`/`json_decode` are replaced by datatypes. An envelope keeps
  only the members the client reads: `success`, `error.code`,
  `result.token`, `result.expireTime` and `result.sessionName`. A body that
  is empty, not JSON, or JSON whose `success` is missing or null (so `isset`
  fails) is one case, `None`. `success` is a `bool` standing for the PHP
  truthiness of the member, so the string `"false"` counts as true. The
  `getContents`/`rewind` branch of `_processResponse` decodes the same body
  either way, and is not told apart.
- `md5` and the PDO connection's `quote()` are abstract function parameters.
- The query builder appears only as its `toSQL()` text and its bindings.
  `getBindings()` can also return integers, null and booleans; each binding
  is modelled as the PHP string form that `preg_replace` and `quote()`
  convert it to.
- `time()` is the parameter `now`.
- The configuration comes in as constructor parameters. The defaults
  `persistconnection = true` and `max_retries = 10` of config/vtiger.php:7-8
  are the parameters' defaults. The string-typed `persistConnection`
  property is a `bool`, and a non-integer `max_retries` is not modelled.
- Exceptions are `Failure` values. Their message text becomes the loop phase
  and the try count only.
- `preg_replace` reads `$n` and `\n` in a replacement as back-references,
  and `\\` as one backslash. The model inserts a binding literally. Regular
  expressions are modelled only for the two offset/limit patterns, with
  PCRE's non-Unicode `\s` and ASCII digits.
- The call `$this->_processResponse($response)` in the refused-login branch
  has no effect and is not modelled.
- The `ErrorException` on a missing member assumes Laravel's default error
  handler. Without it PHP would only warn and read null; that variant is not
  modelled.
- The seven API operations (`query`, `listTypes`, `retrieve`, `create`,
  `update`, `delete`, `describe`) are one method, `Invoke`, with an
  `Operation` value. Their payloads, including the JSON-encoded element of
  `create` and `update`, are strings. `query` is the `Query` operation that
  `search` hands its text to.
- `src/VtigerServiceProvider.php` is framework wiring and is not part of
  this model.
