# TenantDeck, modelled and proved

TenantDeck is a dashboard server in front of a Kubernetes proxy. Users log in
through an OpenID provider; the server keeps their ID tokens in an encrypted
session store shared by all its replicas and uses them for a fixed set of
read-only upstream requests. This project models three parts of it in Dafny 4.11
and proves what they are for. `dafny verify dfyconfig.toml` checks everything.

## What is modelled

**The login system as a whole.** `Protocol` is one state machine: any number of
browsers and other clients, any number of requests in flight on any number of
replicas, the store with expiry, the provider of `cmd/mockoidc`, and a clock. Each
handler is split at every store and provider call. A store command may be refused,
applied, applied with its reply lost, sent again while the handler waits, and
applied late, at any time after it was sent, even when its handler has long been
answered; any wait may fail; browsers may stop waiting or lose cookies. `ProtocolInvariants`
proves the invariant over every step, `ProtocolTheorems` and `ProtocolBrowsers` the
safety of whole runs, `ProtocolCompleteness` that an honest login can always be
completed. `Provider` has the theorems of the provider alone.

**The code behind it.** `ProviderServer` is the provider's object with its two
maps, proved to take the steps of `Provider`. `SessionStore` is the backend, the
encryptor and the store as objects; `ByteStore` proves that their prefixed,
sealed, nonce-framed bytes behave as the two typed maps of `Vault`. `AuthHandlers`
holds the four `/auth` handlers over those objects and over the response writer of
`Cookies`, cut into segments with at most one store or provider call each. Every
segment is proved, by way of `Traces`, to be the next steps of `Protocol` for its
request from any state in which the request is at that point; nothing that others
do in between moves it (`StretchLeavesHandler`), so the segments cover every
interleaving. The handler methods compose them uninterrupted and state the exact
conditions of each answer. `ApiRequests` does the same for API requests: the read of
the session and each upstream request are segments, and `Serve` composes them.
`ConstantTime`, `Base64Url` and `ByteStreams` are what they compute with;
`IdealPrimitives` shows that the assumptions on sealing, codecs and signing can be met.

**The upstream boundary.** `LabelRegex` (the name check under a formal semantics of
regular expressions), `UpstreamPaths`, `QueryString`, `Decimal` and `Text` (what is
printed into a request and how it reads back), `LogOptions` and `LogStreams` (pod
logs), `CapsuleClient` (bounded reads, status mapping, requests), `Routes` (the
route table against `docs/route-allowlist.md`) and `HttpApi` (the handlers, and the
confinement of everything they send).

## Assumptions

- A random draw is a value nobody has used before, and a client can send a drawn
  value only after a response, or a request of its own, has carried it outside.
  In `AuthHandlers` this is a precondition on the random source.
- Authenticated encryption is ideal: what is sealed opens again, nothing else
  opens, and different keys never seal to the same bytes. The JSON codecs of the
  two records round-trip. `IdealExists` exhibits such primitives.
- A lifetime given to a Set ends if it is positive; otherwise the key does not
  expire, except that the client's keep-TTL value leaves the deadline as it was.
- SHA-256 with base64url is an unknown function. Only the provider signs ID
  tokens; a token determines its claims.
- The OpenID client library makes the issuer, audience, nonce, expiry and
  issue-time checks of section 3.1.3.7 of OpenID Connect Core 1.0. The leeway the
  code configures for them is a parameter, taken to shift both time checks. It puts
  the standard parameters into the authorization URL at the provider's endpoint.
- Time is one clock in integer nanoseconds, given to each command as a parameter.
- Upstream answers, read schedules, write failures, store faults and JSON decoding
  of upstream objects are parameters, and every theorem is for all of them.
- Strings are byte strings, one character a byte.

## Where documentation and code differ

`docs/threat-model.md` (line 158) says a session stays valid until the ID token's
own `exp`. The code computes the lifetime at `internal/auth/oidc.go:192` but the
store starts counting when it applies the Set, so a session is readable for
exactly that delay longer. `SessionWindow` states the true window,
`ExpiryIsExactIffStoredAtOnce` exactly when the documented one holds, and
`HonestLoginSucceeds` gives, for every positive delay, a run in which it does not.

`docs/route-allowlist.md` says it lists every route and that anything else is
rejected. The router also serves `/healthz` and `/readyz`, and serves HEAD wherever
GET is registered. `TableAgainstDocument` states that this is the whole difference;
neither probe makes an upstream call, and a HEAD makes those of its GET.
`HeadIsNotDocumented` is a request on which the two differ.

`internal/session/store.go` (lines 151-152) says that a state can only ever be
redeemed once, and logout is meant to end a session for good. Both hold exactly as long as no Set that was sent earlier reaches the store afterwards,
as one abandoned after a timeout and sent again may: `TakeIsPermanentIffNoLateSet`,
`LogoutIsPermanentIffNoLateSet`. `LoginRedeemedTwice` and `LogoutUndone` are runs in
which they fail.

## Model

The results about the whole system come first, then the provider, the store, the
handlers, and the upstream boundary, each followed by the operations it rests on.

| member | source | states |
|---|---|---|
| `ProtocolTheorems.Agreement` | internal/auth/oidc.go:162-209 | In every reachable state of any interleaving of browsers, replicas and provider, with lost, repeated and late commands, every stored session belongs to one consumed login transaction and one consumed authorization code: the record has the code's subject, the code has the transaction's nonce, its challenge is S256 of the transaction's verifier, and the record's ID token and expiry are the provider's |
| `ProtocolTheorems.AgreementIsOneToOne` | internal/auth/oidc.go:162-209 | Sessions stored at any two moments of a run under different ids share no login request, code or CSRF token; nor transaction, nonce, verifier or ID token, unless the Set of their transaction arrived late, after it had been taken |
| `ProtocolTheorems.RevivedMeansLateSet` | internal/session/store.go:139-148 | A transaction counts as set late exactly when a Set of it was applied after it had been handed out |
| `ProtocolTheorems.TakeIsPermanentIffNoLateSet` | internal/session/store.go:153-167 | After a take that finds a transaction, heard of or not, no later read finds it, if and only if no Set of it arrives late: one login response yields at most one session |
| `ProtocolTheorems.LogoutIsPermanentIffNoLateSet` | internal/auth/session_handlers.go:56-76 | After the Del of a session is applied, heard of or not, no later read of it succeeds, if and only if no Set of it arrives after the Del; no other login, callback or logout still in flight can bring it back |
| `ProtocolTheorems.LateSetIsAlwaysPossible` | internal/session/redis_backend.go:40-42 | In every reachable state a Set once sent may arrive, and its session is then readable: the condition is needed |
| `ProtocolCompleteness.LoginRedeemedTwice` | internal/session/store.go:150-167 | Witness: from any state, two callbacks of one login can each be handed its transaction, when its Set reaches the store again in between |
| `ProtocolCompleteness.LogoutUndone` | internal/auth/session_handlers.go:71-76 | Witness: wherever in a reachable system a logout is about to delete, it can be answered 204 and its session be readable afterwards |
| `ProtocolTheorems.OneRecordPerId` | internal/session/store.go:98-128 | Write-once: whenever an id is stored, at any two times of a run, it holds the same record |
| `ProtocolTheorems.OnlyMatchingCallbacksRemove` | internal/auth/oidc.go:151-166 | A stored transaction disappears only by the GETDEL, prompt or late, of a callback whose cookie and state parameter both name it |
| `ProtocolTheorems.SessionWindow` | internal/auth/oidc.go:191-209 | Every stored session has a positive, finite lifetime and is readable exactly while the time is before ExpiresAt plus the delay from computing the TTL to applying the Set |
| `ProtocolTheorems.ExpiryIsExactIffStoredAtOnce` | internal/auth/oidc.go:191-209 | "Readable only before the ID token's own expiry" holds of a stored session if and only if that delay is zero |
| `ProtocolTheorems.LoginWindow` | internal/auth/oidc.go:120-124 | A login transaction is readable exactly until five minutes after its last Set |
| `ProtocolTheorems.LogoutAcceptance` | internal/auth/session_handlers.go:44-77 | 204 only if Origin is the configured one, the cookie named a session live at the read, and the header was its 43-character CSRF token, which is no other session's; the session is then gone, unless a Set of it arrived after a Del of it |
| `ProtocolTheorems.RestoredMeansLateSet` | internal/auth/session_handlers.go:56-76 | A session counts as restored exactly when a Set of it was applied after a Del of it |
| `ProtocolTheorems.UpstreamTokenIsOwn` | internal/httpapi/middleware.go:46-61 | Every upstream call carries the ID token of the record its own cookie named, read live earlier in that request; the token is signed for that record's subject, and no other session has it unless made from the same transaction, set late |
| `ProtocolTheorems.RefreshedTokensLogInNobody` | cmd/mockoidc/server.go:218-232 | An ID token issued by a refresh is acceptable for no login transaction of the run at any time |
| `ProtocolInvariants.RunInv` | internal/auth/oidc.go:107-217 | Hence the invariant holds in every state of every run |
| `ProtocolBrowsers.CallbackReachesOnlyItsOwnLogin` | internal/auth/oidc.go:143-166 | A browser's callback reaches the store, in time or late, only to remove the state in the last login cookie that browser had received, set by a login it had itself requested |
| `ProtocolBrowsers.SessionBelongsToStartingBrowser` | internal/auth/oidc.go:143-217 | A session made by a browser's callback comes from a login that same browser started |
| `ProtocolBrowsers.OnlyMostRecentLoginCompletes` | internal/auth/oidc.go:128-157 | In a browser that awaits each response, a login completes only if no later login had given that browser a cookie when it sent the callback |
| `ProtocolCompleteness.HonestLoginSucceeds` | internal/auth/oidc.go:107-217 | From any state whatever an honest login can be carried through, if ID tokens live a second longer than the leeway of their checks: it stores a session for the authorized subject and the browser holds its id; with a positive store delay that session is readable at its own ExpiresAt |
| `Provider.RedeemedCodeIsGone` | cmd/mockoidc/server.go:192-201 | An attempt that names a stored code removes it for good, whatever its redirect URI, verifier or age |
| `Provider.OneIssuePerCode` | cmd/mockoidc/server.go:192-216 | Two attempts that both issued tokens for one code are the same attempt |
| `Provider.RefreshKeepsSubject` | cmd/mockoidc/server.go:218-253 | However long the chain of refreshes, a refresh token acts for the subject of the code the chain started from |
| `Provider.RefreshedTokensHaveNoNonce` | cmd/mockoidc/server.go:229-231 | No ID token signed by a refresh has a nonce |
| `ProviderServer.Server.HandleAuthorize` | cmd/mockoidc/server.go:112-160 | The handler is the Authorize step for what it reads from the query; the first failed check is the reason; otherwise it redirects to the URI with code and state set in its query, and a malformed URI leaves the recorded code undelivered |
| `ProviderServer.Server.HandleToken` | cmd/mockoidc/server.go:162-190 | Malformed and unauthenticated requests change nothing; authenticated ones are the code grant or the refresh step |
| `ProviderServer.Server.HandleAuthorizationCodeGrant` | cmd/mockoidc/server.go:192-216 | The handler is Receive, Redeem, Settle, with its clock read separately for age, signature and refresh token; the named code is gone afterwards; tokens are issued exactly when code, age, redirect URI and verifier all fit, with the code's subject and nonce |
| `ProviderServer.Server.TakeCode` | cmd/mockoidc/server.go:195-200 | The first locked section: the code read is the code removed, and it is the Redeem step |
| `ProviderServer.Server.SettleCode` | cmd/mockoidc/server.go:202-216 | From any state in which this grant has its code: the Settle step, and its answer |
| `ProviderServer.Server.HandleRefreshTokenGrant` | cmd/mockoidc/server.go:218-232 | The handler is the Refresh step, with its clock read separately for age, signature and new token; the token presented stays as it was and no code is touched |
| `ProviderServer.RedirectReads` | cmd/mockoidc/server.go:148-159 | The callback's query reads back the code and the state, and every other parameter of the redirect URI as it was |
| `ByteStore.SessionReadsExactly` | internal/session/store.go:114-128 | Over any bytes in the backend, a session reads as a record exactly when its key holds, unexpired, a nonce followed by a sealing under this key of bytes that unmarshal to it; anything else is an error |
| `ByteStore.LoginReadsExactly` | internal/session/store.go:153-167 | The same for login transactions |
| `IdealPrimitives.IdealExists` | internal/session/crypto.go:39-58 | All assumptions on sealing and codecs can be met together |
| `IdealPrimitives.SigningExists` | cmd/mockoidc/server.go:255-274 | The assumptions on signing can be met |
| `ByteStore.ForeignKeyIsRefused` | internal/session/crypto.go:51-58 | What was sealed under another key never decodes |
| `ByteStore.KeysAreDisjoint` | internal/session/store.go:19-20 | No ids, however chosen, make a session key and a login key equal, and a key determines its id |
| `ByteStore.StepRefines` | internal/session/store.go:83-167 | One call on the encrypted bytes answers what two typed maps would, and leaves bytes that mean the changed maps, for every fault |
| `ByteStore.StoreIsTwoMaps` | internal/session/store.go:83-167 | From an empty store, every sequence of calls with any client-supplied ids is answered as a session map and a login map would answer it |
| `SessionStore.Encryptor.Seal` | internal/session/crypto.go:39-45 | The result is the 12 drawn bytes followed by the sealing under them; with fewer there is no result |
| `SessionStore.NewStore` | internal/session/store.go:61-67 | A store is made exactly with a 32-byte key |
| `SessionStore.GenerateID` | internal/session/store.go:75-81 | Exactly the next 32 random bytes, encoded; a short draw is an error |
| `SessionStore.Store.CreateSession` | internal/session/store.go:98-107 | The call on bytes and on the typed maps agree, with the id and nonce cut from the random source in that order; a short draw changes nothing |
| `SessionStore.Store.GetSession` | internal/session/store.go:114-128 | The answer is that of the typed map at that time; nothing changes |
| `SessionStore.Store.DeleteSession` | internal/session/store.go:132-134 | The call on bytes and on the typed maps agree |
| `SessionStore.Store.CreateLoginTransaction` | internal/session/store.go:139-148 | As CreateSession, for login transactions |
| `SessionStore.Store.TakeLoginTransaction` | internal/session/store.go:153-167 | Read and removed together, on bytes and on the typed map alike |
| `AuthHandlers.Handler.LoginHandler` | internal/auth/oidc.go:107-139 | Uninterrupted, the handler is a stretch of Protocol for its request that ends with the response it wrote and the store as it left it; it redirects exactly when the random bytes were there and the Set was acknowledged, to the authorization URL of that state, nonce and challenge |
| `AuthHandlers.ProviderReadsLogin` | internal/auth/oidc.go:137-138 | The provider reads the query of that URL as exactly this login: client, redirect URI, S256 challenge, nonce and state |
| `AuthHandlers.Handler.DrawLogin` | internal/auth/oidc.go:108-124 | From any state with the request begun: the next three tokens are nonce, verifier and state, and the request is about to store its transaction |
| `AuthHandlers.Handler.StoreLogin` | internal/auth/oidc.go:120-138 | From any state with the request about to store its transaction: the Set, and the answer that follows from its reply |
| `AuthHandlers.Handler.CallbackHandler` | internal/auth/oidc.go:143-217 | The same for a callback; 302 exactly when cookie, state, transaction, error, code, grant, ID token checks, remaining life, randomness and Set are all in order; a mismatch clears the cookie and touches neither store nor provider |
| `AuthHandlers.Handler.CheckCookie` | internal/auth/oidc.go:144-157 | From any state with the request begun: past the check exactly if the cookie is there and equals a state that is not empty; the cookie is cleared whatever follows |
| `AuthHandlers.Handler.TakeTransaction` | internal/auth/oidc.go:162-176 | From any state with the request about to take: the transaction is spent, and error and code are looked at after that |
| `AuthHandlers.Handler.CodeExchange` | internal/auth/oidc.go:181-189 | From any state with the request about to exchange: a token comes back exactly when the provider would grant this code for this verifier and the ID token passes issuer, audience, nonce, expiry and issue-time checks |
| `AuthHandlers.Handler.DrawSession` | internal/auth/oidc.go:191-209 | From any state with a verified token: 401 if it has no life left; otherwise subject, expiry, lifetime and token of the record come from the same claims |
| `AuthHandlers.Handler.StoreSession` | internal/auth/oidc.go:203-216 | From any state with the record about to be stored: the Set, and the answer that follows from its reply |
| `AuthHandlers.Handler.StoredSessionsAgree` | internal/auth/oidc.go:107-217 | After a handler has served a request from a reachable system, whatever the store's bytes now read as a session satisfies Agreement |
| `Traces.StretchLeavesHandler` | internal/auth/oidc.go:107-217 | Nothing the rest of the system does between two steps of a handler moves it or changes its request |
| `AuthHandlers.Handler.SessionHandler` | internal/auth/session_handlers.go:23-38 | Uninterrupted, a stretch of Protocol; an identity is reported exactly for an absent or matching Origin and a cookie naming a live session |
| `AuthHandlers.Handler.ReadStatus` | internal/auth/session_handlers.go:30-34 | From any state with the request about to read: the identity of the live session, or none |
| `AuthHandlers.Handler.LogoutHandler` | internal/auth/session_handlers.go:44-77 | Uninterrupted, a stretch of Protocol; 204 exactly when Origin, live session and CSRF header agree and the Del is acknowledged, and otherwise no session is lost except to that Del |
| `AuthHandlers.Handler.ReadForLogout` | internal/auth/session_handlers.go:56-69 | From any state with the request about to read: on to the Del exactly for a live session whose CSRF token equals the header |
| `AuthHandlers.Handler.EndSession` | internal/auth/session_handlers.go:71-76 | From any state with the request about to delete: the Del, and 204 or 500 as it is heard of |
| `ConstantTime.ConstantTimeEqual` | internal/auth/oidc.go:225-227 | String equality, both directions |
| `Cookies.CookieNames` | internal/auth/cookies.go:16-27 | The two cookies never share a name, and carry the host prefix exactly outside insecure mode |
| `Cookies.ResponseWriter.Add` | internal/auth/cookies.go:34-84 | One more Set-Cookie changes what a browser makes of its own cookie only, and every cookie written is acceptable to browsers under its name |
| `Base64Url.DecodeEncode` | internal/auth/random.go:17-23 | Decoding undoes encoding for byte strings of every length |
| `Base64Url.EncodeInjective` | internal/auth/random.go:17-23 | Distinct draws have distinct tokens |
| `Base64Url.EncodeLength` | internal/session/store.go:75-81 | n bytes make ceil(4n/3) characters |
| `Base64Url.TokenShape` | internal/auth/oidc.go:113-118 | A token is 43 characters, decodes to its 32 bytes, and is a code verifier as section 4.1 of RFC 7636 defines it |
| `QueryString.TokensUnchanged` | cmd/mockoidc/server.go:153-158 | A token is printed into a query as it is |
| `LabelRegex.ValidNamesAreLabels` | internal/httpapi/validate.go:15-19 | The regular expression, under a formal semantics with whole-text anchors, accepts exactly the labels of section 2.1 of RFC 1123: every string, both directions |
| `UpstreamPaths.ReadUndoesPrint` | internal/capsule/client.go:116-136 | Prefix, namespace, resource, name, kind of call, limit and log options all come back from the printed path, for two- and three-segment prefixes |
| `UpstreamPaths.DistinctCallsDistinctPaths` | internal/capsule/client.go:116-136 | Distinct valid calls never print the same path |
| `Decimal.ParseOfFormat` | internal/capsule/logs.go:38-46 | Printing then reading gives back every 64-bit integer and refuses every other |
| `QueryString.ParseEncode` | internal/capsule/logs.go:51 | A printed query reads back as exactly its pairs |
| `LogOptions.ParseLogOptions` | internal/httpapi/logs.go:99-134 | Field by field, the method computes what ParseOptions says, the first bad parameter being the error |
| `LogOptions.LogOptionsFixedPoint` | internal/httpapi/logs.go:99-134 | For every query text that parses, parsing the query printed upstream gives the same options, and that query always bounds lines and bytes |
| `LogStreams.CopyLogStream` | internal/httpapi/logs.go:81-97 | The loop writes what Copied says for any read schedule and write faults, and nothing is unflushed when a read begins; it ends because empty reads are finite |
| `LogStreams.CopiedIsPrefix` | internal/httpapi/logs.go:72-97 | What is written is always a prefix of the first 50 MiB of the source |
| `LogStreams.CopiedIsEverything` | internal/httpapi/logs.go:72-97 | With a writer that never fails, it is all of it |
| `CapsuleClient.ReadBounded` | internal/capsule/client.go:178-187 | Succeeds exactly when the source ends cleanly within the limit, then with all of it; never takes more than limit + 1 bytes |
| `CapsuleClient.DecodeAllIsPointwise` | internal/capsule/client.go:87-98 | All or nothing: there is a result exactly when each item decodes, and then in order |
| `CapsuleClient.Client.Do` | internal/capsule/client.go:147-176 | One GET with the bearer token and a fixed Accept; 401 and 403 kept apart, everything else unexpected is one error |
| `CapsuleClient.Client.ListNamespaces` | internal/capsule/client.go:76-100 | One request, and every name or an error |
| `CapsuleClient.Client.ListNamespacedResource` | internal/capsule/client.go:116-130 | One request for the printed list path, and its items or an error |
| `CapsuleClient.Client.StreamPodLogs` | internal/capsule/logs.go:31-77 | One request for the log path with the printed query; the body is handed on only on 200 |
| `Routes.NewRouter` | internal/httpapi/router.go:20-64 | The registrations, one by one, make the table |
| `Routes.TableAgainstDocument` | docs/route-allowlist.md:21-75 | A request finds a route exactly when the document lists it, or lists it under GET and this is HEAD, or it is GET or HEAD of /healthz or /readyz; a documented request finds its documented handler |
| `Routes.FindIsClaimed` | internal/httpapi/router.go:20-64 | Whatever registered route matches a request, it is that one handler, reading the request's own names: among several matching routes the order cannot matter |
| `Routes.DispatchIsClaimed` | internal/httpapi/router.go:20-64 | For every method and raw path a handler is reached exactly for clean paths that a route claims, with or without a frontend |
| `Routes.DispatchedHandler` | internal/httpapi/router.go:20-64 | And it is the claimed one, with this request's names |
| `Routes.HeadIsGet` | internal/httpapi/router.go:42-57 | HEAD is dispatched as GET |
| `HttpApi.Api.ServeHTTP` | internal/httpapi/router.go:20-64 | For every method, path, query, cookies and store outcome: the upstream calls are a prefix of those the document permits for the request's own names, sent with the live session's token; none without one; a documented API request without a live session is 401, with one it has exactly the calls, the answer and the log stream of its route |
| `ApiRequests.Serve` | internal/httpapi/middleware.go:46-61 | From a reachable system with this store, ServeHTTP uninterrupted is that request's stretch of Protocol: the calls on record grow by what the client sent, every one with a token the provider signed for the session's subject, which no other session has unless made from the same transaction, set late |
| `ApiRequests.ReadSession` | internal/httpapi/middleware.go:53-57 | From any state with the request about to read its session: on to its handler exactly with the live record, otherwise 401 |
| `ApiRequests.SendUpstream` | internal/capsule/client.go:147-176 | From any state with the request being served: one upstream request with the token of the record that was read, and one call on record |
| `ApiRequests.ServingIsOwned` | internal/httpapi/middleware.go:58-59 | Whatever was interleaved, a request being served in a reachable system has its own session's record and token |
| `HttpApi.Confined` | docs/route-allowlist.md:21-75 | Seen from upstream, each request is a GET with that token whose path can only be read as a permitted call of a documented route; methods other than GET and HEAD cause none |
| `HttpApi.Api.NamespacesHandler` | internal/httpapi/namespaces.go:23-47 | One call; every name in order, or the error preserved |
| `HttpApi.Api.ListResourceHandler` | internal/httpapi/resources.go:21-52 | No call for an invalid namespace; otherwise one, and all summaries or an error |
| `HttpApi.Api.GetResourceHandler` | internal/httpapi/resources.go:56-83 | No call for an invalid name; otherwise one |
| `HttpApi.Api.OverviewHandler` | internal/httpapi/overview.go:88-138 | Two calls in order, the second only if the first succeeded; all or nothing |
| `HttpApi.Api.EventsHandler` | internal/httpapi/events.go:60-91 | One call with a limit of 200; all summaries or an error |
| `HttpApi.Api.PodLogsHandler` | internal/httpapi/logs.go:39-74 | No call unless names and options are valid; on success what is written is a start of the first 50 MiB of the body, all of it if no write fails, and nothing is unflushed when a read begins; otherwise nothing is written |

## Left out

- SessionStore.Encryptor.Seal: nonces are taken as drawn; that none repeats under one key is not needed by any theorem and not stated.
- ConstantTime.ConstantTimeCompare: equality is proved, running time is not modelled.
- ProtocolBrowsers.OnlyMostRecentLoginCompletes: a later login whose response never reached the browser does not count, because the browser then still holds the earlier cookie.
- HttpApi.Api.ServeHTTP: the /auth and health routes and the frontend are dispatched but answered elsewhere; security headers are not modelled.
- Reading a whole body uses a fixed 512-byte buffer, where Go grows its own; any chunking of the source is covered.
- Redis rounds lifetimes to milliseconds; here they are exact.
- The status and body of an API answer are in HttpApi; Protocol records only that the request was served, and its calls.
- Secrecy: that drawn values and sealed records cannot be guessed or read is an assumption, not a theorem.
- Where bytes are stored: sealing binds no key name, so bytes moved from one session key to another read there as the same record (`MovedBytesReadTheSame`).
- The body of a HEAD response, which the HTTP server discards: `ServeHTTP` says what the handler writes.
- Redirects the Go HTTP client would follow from an upstream answer.
- AES-GCM, SHA-256, RSA and JWT internals, discovery, TLS, the Redis protocol, encoding/json.
- Cookie lifetimes: Max-Age is computed as in the code, but no claim is made that a cookie ends before or after its session.
- The ten-minute bound on log streams: a cancelled stream is a read error at any point.
- Refresh by the server and idle timeouts: not implemented in the repository.
- The field-copying summarize functions, configuration, health probes, static assets, deployment and user interface: easy members or plumbing.
