/**
 The whole login system as one state machine: any number of browsers and other
 HTTP clients, any number of request handlers in flight on any number of
 stateless replicas, the shared session store (as the vault it implements),
 the OpenID provider, and one clock. A handler is split at every store and
 provider call; between two of its steps anything else may happen.

 Faults. A store command may be refused, may be applied and acknowledged, or
 may be applied with its reply lost, and the client library may send it again
 while the handler waits, so a command may be applied several times. A command
 that was ever sent may also be applied late, at any time after, even when its
 handler has given up or has been answered. A handler may give up at any wait. A
 browser may stop waiting for a response, lose a response, or drop a cookie.

 Two assumptions about 256-bit random draws: a draw is a value nobody has used
 before, and a client can only send a drawn value after some response carried
 it out of the system (`exposed`).
 */
module Protocol {
  import opened Wrappers
  import opened SessionTypes
  import Base64Url
  import V = Vault
  import P = Provider

  /** `offset` is the clock leeway given to the ID token checks. */
  datatype Config = Config(provider: P.Config, redirectURI: string, externalOrigin: string, offset: int)

  // ----- Requests and responses -----

  datatype Request =
    | LoginRequest
    | CallbackRequest(stateCookie: Option<string>, state: string, error: string, code: string)
    | LogoutRequest(origin: string, sessionCookie: Option<string>, csrfHeader: string)
    | StatusRequest(origin: string, sessionCookie: Option<string>)
    | ApiRequest(sessionCookie: Option<string>)

  datatype CookieOp = Keep | Clear | SetTo(value: string)

  datatype Body =
    | Plain
    | ToProvider(state: string, nonce: string, codeChallenge: string)
    | ToHome
    | Anonymous
    | Identity(subject: string, csrfToken: string)

  datatype Response = Response(status: int, loginCookie: CookieOp, sessionCookie: CookieOp, body: Body)

  function Fail(status: int): Response { Response(status, Keep, Keep, Plain) }

  /** A callback that got past its cookie clears it whatever happens next. */
  function FailCallback(status: int): Response { Response(status, Clear, Keep, Plain) }

  // ----- Handlers in flight -----

  /** What a callback knows once the code exchange has returned. */
  datatype Evidence = Evidence(state: string, txn: LoginTransaction, gid: nat, idToken: string)

  datatype Pc =
    | Begin
    | LoginStoring(state: string, txn: LoginTransaction)
    | Taking(state: string)
    | Exchanging(state: string, txn: LoginTransaction)
    | Verified(ev: Evidence)
    | Timed(ev: Evidence, expiresAt: int, ttl: int, ttlAt: int)
    | SessionStoring(id: string, rec: Record, ttl: int)
    | LogoutReading(id: string)
    | LogoutDeleting(id: string)
    | StatusReading(id: string)
    | ApiReading(id: string)
    | ApiServing(id: string, rec: Record)
    | Done(resp: Response)

  /** `seen` counts the login-cookie events the sending browser had received; `awaited`: it still waits. */
  datatype Handler = Handler(req: Request, sender: Option<nat>, seen: nat, awaited: bool, pc: Pc)

  datatype Jar = Jar(login: Option<string>, session: Option<string>)

  // ----- History, read by no step -----

  /** What a random string was drawn for. */
  datatype Purpose =
    | AsState(rid: nat)
    | AsNonce(state: string)
    | AsVerifier(state: string)
    | AsSessionId(rid: nat)
    | AsCsrf(id: string)

  datatype LoginBirth = LoginBirth(rid: nat, txn: LoginTransaction)

  datatype SessionBirth = SessionBirth(rid: nat, ev: Evidence, rec: Record, ttl: int, ttlAt: int)

  /** A response to request rid changed the login cookie. */
  datatype CookieEvent = CookieEvent(rid: nat, op: CookieOp)

  datatype UpstreamCall = UpstreamCall(rid: nat, id: string, token: string)

  /**
   `taken`: which transaction each callback was handed. `revived`: transactions
   set late, after they had been handed out. `restored`: sessions set late, after
   they had been deleted. `deletes`: sessions a DEL has been sent for.
   */
  datatype History = History(
    logins: map<string, LoginBirth>,
    loginSetAt: map<string, int>,
    taken: map<nat, string>,
    revived: set<string>,
    sessions: map<string, SessionBirth>,
    sessionOf: map<nat, string>,
    sessionSetAt: map<string, int>,
    loggedOut: set<string>,
    restored: set<string>,
    deletes: set<string>,
    cookies: map<nat, seq<CookieEvent>>,
    calls: seq<UpstreamCall>)

  datatype State = State(
    now: int,
    vault: V.Vault,
    op: P.Op,
    owner: map<nat, nat>,
    drawn: map<string, Purpose>,
    exposed: set<string>,
    handlers: seq<Handler>,
    jars: map<nat, Jar>,
    log: History)

  ghost predicate Init(s: State)
  {
    && s.vault == V.Empty && s.op == P.Initial && s.owner == map[] && s.drawn == map[] && s.exposed == {}
    && s.handlers == [] && s.jars == map[]
    && s.log == History(map[], map[], map[], {}, map[], map[], map[], {}, {}, {}, map[], [])
  }

  // ----- Steps -----

  /** A command that writes the store, under the name or by the handler it was sent for. */
  datatype Command =
    | SetLogin(state: string)
    | TakeLogin(rid: nat)
    | SetSession(id: string)
    | DelSession(id: string)

  datatype Action =
    | Tick(elapsed: nat)
    // clients
    | BrowserSend(browser: nat, req: Request)
    | ClientSend(req: Request)
    | Deliver(rid: nat)
    | StopWaiting(rid: nat)
    | DropLoginCookie(browser: nat)
    | DropSessionCookie(browser: nat)
    // login
    | LoginDraw(rid: nat, nonce: string, verifier: string, state: string)
    | LoginSet(rid: nat, acknowledged: bool)
    // callback
    | CallbackCheck(rid: nat)
    | CallbackTake(rid: nat, answered: bool)
    | TokenSend(rid: nat, gid: nat)
    | CallbackVerify(rid: nat, gid: nat)
    | CallbackTtl(rid: nat)
    | CallbackDraw(rid: nat, csrf: string, id: string)
    | SessionSet(rid: nat, acknowledged: bool)
    // session endpoints
    | SessionCheck(rid: nat)
    | SessionGet(rid: nat)
    | LogoutDel(rid: nat, acknowledged: bool)
    | ApiCall(rid: nat)
    | ApiFinish(rid: nat)
    // a command sent earlier reaches the store now
    | Late(command: Command)
    // any wait may end in an error
    | GiveUp(rid: nat)
    // the provider, serving anyone
    | ProviderStep(action: P.Action)

  predicate At(s: State, rid: nat)
  {
    rid < |s.handlers|
  }

  ghost predicate Fresh(s: State, x: string)
  {
    Base64Url.IsToken(x) && x !in s.drawn && x !in s.exposed
  }

  /** The client-chosen strings of a request that name stored things. */
  function Supplied(req: Request): set<string>
  {
    match req
    case LoginRequest => {}
    case CallbackRequest(c, state, _, _) => Names(c) + {state}
    case LogoutRequest(_, c, csrf) => Names(c) + {csrf}
    case StatusRequest(_, c) => Names(c)
    case ApiRequest(c) => Names(c)
  }

  function Names(c: Option<string>): set<string>
  {
    if c.Some? then {c.value} else {}
  }

  /** Drawn values are not guessed. */
  ghost predicate Sendable(s: State, req: Request)
  {
    forall x <- Supplied(req) :: x in s.drawn ==> x in s.exposed
  }

  function JarOf(s: State, b: nat): Jar
  {
    if b in s.jars then s.jars[b] else Jar(None, None)
  }

  function CookiesOf(s: State, b: nat): seq<CookieEvent>
  {
    if b in s.log.cookies then s.log.cookies[b] else []
  }

  /** A browser sends exactly what its jar holds. */
  predicate CarriesJar(req: Request, jar: Jar)
  {
    match req
    case LoginRequest => true
    case CallbackRequest(c, _, _, _) => c == jar.login
    case LogoutRequest(_, c, _) => c == jar.session
    case StatusRequest(_, c) => c == jar.session
    case ApiRequest(c) => c == jar.session
  }

  /** The ID token checks of section 3.1.3.7 of OpenID Connect Core 1.0 that the client library makes. */
  predicate Acceptable(cfg: Config, c: P.Claims, nonce: string, now: int)
  {
    && c.iss == cfg.provider.issuerURL
    && c.aud == cfg.provider.clientID
    && c.nonce == nonce
    && now + cfg.offset < Seconds(c.exp)
    && Seconds(c.iat) <= now + cfg.offset
  }

  /** Exchange succeeded: the handler's own request was granted a token that passes the checks. */
  predicate ExchangeReturns(cfg: Config, s: State, rid: nat, gid: nat, txn: LoginTransaction)
  {
    && gid in s.owner && s.owner[gid] == rid
    && gid in s.op.grants && s.op.grants[gid].phase.Issued?
    && var token := s.op.grants[gid].phase.idToken;
    && token in s.op.signed && Acceptable(cfg, s.op.signed[token], txn.nonce, s.now)
  }

  /** A handler waiting for the store, the provider or the random source. */
  predicate CanFail(h: Handler)
  {
    match h.pc
    case Begin => h.req.LoginRequest?
    case Verified(_) => false
    case Done(_) => false
    case _ => true
  }

  /** A handler waiting for a session record. */
  predicate ReadsSession(h: Handler)
  {
    (h.pc.LogoutReading? && h.req.LogoutRequest?) || h.pc.StatusReading? || h.pc.ApiReading?
  }

  /** The command has been sent, whatever became of its handler. */
  predicate Sent(s: State, c: Command)
  {
    match c
    case SetLogin(st) => st in s.log.logins
    case TakeLogin(rid) => At(s, rid) && PastCookie(s.handlers[rid])
    case SetSession(id) => id in s.log.sessions
    case DelSession(id) => id in s.log.deletes
  }

  /** A callback whose cookie matched, and which has begun to take its transaction. */
  predicate PastCookie(h: Handler)
  {
    h.req.CallbackRequest? && h.req.state != "" && h.req.stateCookie == Some(h.req.state) && !h.pc.Begin?
  }

  ghost predicate Enabled(cfg: Config, s: State, a: Action)
  {
    match a
    case Tick(_) => true
    case BrowserSend(b, req) => CarriesJar(req, JarOf(s, b)) && Sendable(s, req)
    case ClientSend(req) => Sendable(s, req)
    case Deliver(rid) => At(s, rid) && s.handlers[rid].pc.Done? && s.handlers[rid].awaited
    case StopWaiting(rid) => At(s, rid)
    case DropLoginCookie(_) => true
    case DropSessionCookie(_) => true
    case LoginDraw(rid, nonce, verifier, state) =>
      && At(s, rid) && s.handlers[rid].pc.Begin? && s.handlers[rid].req.LoginRequest?
      && Fresh(s, nonce) && Fresh(s, verifier) && Fresh(s, state)
      && nonce != verifier && nonce != state && verifier != state
    case LoginSet(rid, _) => At(s, rid) && s.handlers[rid].pc.LoginStoring?
    case CallbackCheck(rid) => At(s, rid) && s.handlers[rid].pc.Begin? && s.handlers[rid].req.CallbackRequest?
    case CallbackTake(rid, _) => At(s, rid) && s.handlers[rid].pc.Taking?
    case TokenSend(rid, gid) => At(s, rid) && s.handlers[rid].pc.Exchanging? && gid !in s.op.grants
    case CallbackVerify(rid, gid) =>
      At(s, rid) && s.handlers[rid].pc.Exchanging? && ExchangeReturns(cfg, s, rid, gid, s.handlers[rid].pc.txn)
    case CallbackTtl(rid) => At(s, rid) && s.handlers[rid].pc.Verified? && s.handlers[rid].pc.ev.idToken in s.op.signed
    case CallbackDraw(rid, csrf, id) =>
      At(s, rid) && s.handlers[rid].pc.Timed? && s.handlers[rid].pc.ev.idToken in s.op.signed
      && Fresh(s, csrf) && Fresh(s, id) && csrf != id
    case SessionSet(rid, _) => At(s, rid) && s.handlers[rid].pc.SessionStoring?
    case SessionCheck(rid) =>
      At(s, rid) && s.handlers[rid].pc.Begin?
      && (s.handlers[rid].req.LogoutRequest? || s.handlers[rid].req.StatusRequest? || s.handlers[rid].req.ApiRequest?)
    case SessionGet(rid) =>
      At(s, rid) && ReadsSession(s.handlers[rid])
    case LogoutDel(rid, _) => At(s, rid) && s.handlers[rid].pc.LogoutDeleting?
    case ApiCall(rid) => At(s, rid) && s.handlers[rid].pc.ApiServing?
    case ApiFinish(rid) => At(s, rid) && s.handlers[rid].pc.ApiServing?
    case Late(c) => Sent(s, c)
    case GiveUp(rid) => At(s, rid) && CanFail(s.handlers[rid])
    case ProviderStep(pa) => P.Enabled(cfg.provider, s.op, pa, s.now)
  }

  // The kinds of step.

  predicate ClientStep(a: Action)
  {
    a.BrowserSend? || a.ClientSend? || a.Deliver? || a.StopWaiting? || a.DropLoginCookie? || a.DropSessionCookie?
  }

  predicate CallbackStep(a: Action)
  {
    a.CallbackCheck? || a.CallbackTake? || a.TokenSend? || a.CallbackVerify? || a.CallbackTtl? || a.CallbackDraw?
  }

  predicate StoreStep(a: Action)
  {
    a.LoginDraw? || a.LoginSet? || a.SessionSet? || a.SessionGet? || a.LogoutDel?
  }

  predicate OtherStep(a: Action)
  {
    a.Tick? || a.SessionCheck? || a.ApiCall? || a.ApiFinish? || a.Late? || a.GiveUp? || a.ProviderStep?
  }

  function Step(cfg: Config, s: State, a: Action): State
    requires Enabled(cfg, s, a)
  {
    if ClientStep(a) then ClientStepped(cfg, s, a)
    else if CallbackStep(a) then CallbackStepped(cfg, s, a)
    else if StoreStep(a) then StoreStepped(cfg, s, a)
    else OtherStepped(cfg, s, a)
  }

  function ClientStepped(cfg: Config, s: State, a: Action): State
    requires ClientStep(a) && Enabled(cfg, s, a)
  {
    match a
    case BrowserSend(b, req) => Arrive(s, Handler(req, Some(b), |CookiesOf(s, b)|, true, Begin))
    case ClientSend(req) => Arrive(s, Handler(req, None, 0, false, Begin))
    case Deliver(rid) => Received(s, rid)
    case StopWaiting(rid) => s.(handlers := s.handlers[rid := s.handlers[rid].(awaited := false)])
    case DropLoginCookie(b) => s.(jars := s.jars[b := JarOf(s, b).(login := None)])
    case DropSessionCookie(b) => s.(jars := s.jars[b := JarOf(s, b).(session := None)])
  }

  function CallbackStepped(cfg: Config, s: State, a: Action): State
    requires CallbackStep(a) && Enabled(cfg, s, a)
  {
    match a
    case CallbackCheck(rid) => CallbackChecked(s, rid)
    case CallbackTake(rid, answered) => CallbackTook(s, rid, answered)
    case TokenSend(rid, gid) => TokenSent(cfg, s, rid, gid)
    case CallbackVerify(rid, gid) => CallbackVerified(s, rid, gid)
    case CallbackTtl(rid) => CallbackTimed(s, rid)
    case CallbackDraw(rid, csrf, id) => CallbackDrew(s, rid, csrf, id)
  }

  function StoreStepped(cfg: Config, s: State, a: Action): State
    requires StoreStep(a) && Enabled(cfg, s, a)
  {
    match a
    case LoginDraw(rid, nonce, verifier, state) => LoginDrew(s, rid, state, LoginTransaction(nonce, verifier, s.now))
    case LoginSet(rid, acknowledged) => LoginStored(cfg, s, rid, acknowledged)
    case SessionSet(rid, acknowledged) => SessionStored(s, rid, acknowledged)
    case SessionGet(rid) => SessionGot(s, rid)
    case LogoutDel(rid, acknowledged) => LogoutDeleted(s, rid, acknowledged)
  }

  function OtherStepped(cfg: Config, s: State, a: Action): State
    requires OtherStep(a) && Enabled(cfg, s, a)
  {
    match a
    case Tick(elapsed) => s.(now := s.now + elapsed)
    case SessionCheck(rid) => SessionChecked(cfg, s, rid)
    case ApiCall(rid) => ApiCalled(s, rid)
    case ApiFinish(rid) => Goto(s, rid, Done(Response(200, Keep, Keep, Plain)))
    case Late(c) => Applied(s, c)
    case GiveUp(rid) => Goto(s, rid, Done(GivenUp(s.handlers[rid].pc)))
    case ProviderStep(pa) => s.(op := P.Step(cfg.provider, s.op, pa, s.now))
  }

  function Goto(s: State, rid: nat, pc: Pc): State
    requires At(s, rid)
  {
    s.(handlers := s.handlers[rid := s.handlers[rid].(pc := pc)])
  }

  function Arrive(s: State, h: Handler): State
  {
    s.(handlers := s.handlers + [h], exposed := s.exposed + Supplied(h.req))
  }

  function Apply(c: Option<string>, op: CookieOp): Option<string>
  {
    match op
    case Keep => c
    case Clear => None
    case SetTo(v) => Some(v)
  }

  /** Set-Cookie takes effect when the browser receives the response. */
  function Received(s: State, rid: nat): State
    requires At(s, rid) && s.handlers[rid].pc.Done?
  {
    var h := s.handlers[rid];
    var resp := h.pc.resp;
    var s1 := s.(handlers := s.handlers[rid := h.(awaited := false)]);
    match h.sender
    case None => s1
    case Some(b) =>
      var jar := JarOf(s, b);
      var s2 := s1.(jars := s.jars[b := Jar(Apply(jar.login, resp.loginCookie),
                                            Apply(jar.session, resp.sessionCookie))]);
      if resp.loginCookie.Keep? then s2
      else s2.(log := s.log.(cookies := s.log.cookies[b := CookiesOf(s, b) + [CookieEvent(rid, resp.loginCookie)]]))
  }

  /** Nonce, verifier and state are drawn; the transaction is built. */
  function LoginDrew(s: State, rid: nat, state: string, txn: LoginTransaction): State
    requires At(s, rid)
  {
    Goto(s, rid, LoginStoring(state, txn))
      .(drawn := s.drawn[state := AsState(rid)][txn.nonce := AsNonce(state)][txn.pkceVerifier := AsVerifier(state)],
        log := s.log.(logins := s.log.logins[state := LoginBirth(rid, txn)]))
  }

  /** SET of the login transaction; the state leaves the system with the response. */
  function LoginStored(cfg: Config, s: State, rid: nat, acknowledged: bool): State
    requires At(s, rid) && s.handlers[rid].pc.LoginStoring?
  {
    var pc := s.handlers[rid].pc;
    var s1 := s.(vault := V.PutLogin(s.vault, pc.state, pc.txn, LOGIN_TRANSACTION_TTL, s.now),
                 log := s.log.(loginSetAt := s.log.loginSetAt[pc.state := s.now]));
    if !acknowledged then s1
    else
      var challenge := cfg.provider.s256(pc.txn.pkceVerifier);
      Goto(s1, rid, Done(Response(302, SetTo(pc.state), Keep, ToProvider(pc.state, pc.txn.nonce, challenge))))
        .(exposed := s.exposed + {pc.state, pc.txn.nonce})
  }

  /** The cookie binds the callback to the browser; nothing is read from the store before it matches. */
  function CallbackChecked(s: State, rid: nat): State
    requires At(s, rid) && s.handlers[rid].req.CallbackRequest?
  {
    var req := s.handlers[rid].req;
    if req.stateCookie.None? then Goto(s, rid, Done(Fail(400)))
    else if req.state == "" || req.state != req.stateCookie.value then Goto(s, rid, Done(FailCallback(400)))
    else Goto(s, rid, Taking(req.state))
  }

  /** GETDEL: read and delete in one command. Unanswered, the transaction is gone and nobody has it. */
  function CallbackTook(s: State, rid: nat, answered: bool): State
    requires At(s, rid) && s.handlers[rid].pc.Taking?
  {
    var h := s.handlers[rid];
    var found := V.Look(s.vault.logins, h.pc.state, s.now);
    var s1 := s.(vault := V.DropLogin(s.vault, h.pc.state));
    if !answered then s1
    else if found.None? then Goto(s1, rid, AfterTake(h.req, h.pc.state, found))
    else Goto(s1.(log := s.log.(taken := s.log.taken[rid := h.pc.state])), rid, AfterTake(h.req, h.pc.state, found))
  }

  /** The transaction is spent before `error` and `code` are looked at. */
  function AfterTake(req: Request, state: string, found: Option<LoginTransaction>): Pc
  {
    if found.None? || ErrorOf(req) != "" || CodeOf(req) == "" then Done(FailCallback(400))
    else Exchanging(state, found.value)
  }

  function CodeOf(req: Request): string { if req.CallbackRequest? then req.code else "" }

  function ErrorOf(req: Request): string { if req.CallbackRequest? then req.error else "" }

  /** One POST to the token endpoint; the client library may send several. */
  function TokenSent(cfg: Config, s: State, rid: nat, gid: nat): State
    requires At(s, rid) && s.handlers[rid].pc.Exchanging?
  {
    var h := s.handlers[rid];
    var g := P.Grant(CodeOf(h.req), h.pc.txn.pkceVerifier, cfg.redirectURI, P.Received);
    s.(op := s.op.(grants := s.op.grants[gid := g]), owner := s.owner[gid := rid])
  }

  function CallbackVerified(s: State, rid: nat, gid: nat): State
    requires At(s, rid) && s.handlers[rid].pc.Exchanging?
    requires gid in s.op.grants && s.op.grants[gid].phase.Issued?
  {
    var pc := s.handlers[rid].pc;
    Goto(s, rid, Verified(Evidence(pc.state, pc.txn, gid, s.op.grants[gid].phase.idToken)))
  }

  /** The session's lifetime is computed here, once. */
  function CallbackTimed(s: State, rid: nat): State
    requires At(s, rid) && s.handlers[rid].pc.Verified? && s.handlers[rid].pc.ev.idToken in s.op.signed
  {
    var ev := s.handlers[rid].pc.ev;
    var expiresAt := Seconds(s.op.signed[ev.idToken].exp);
    var ttl := expiresAt - s.now;
    if ttl <= 0 then Goto(s, rid, Done(FailCallback(401)))
    else Goto(s, rid, Timed(ev, expiresAt, ttl, s.now))
  }

  /** CSRF token and session id are drawn; the record is built. */
  function CallbackDrew(s: State, rid: nat, csrf: string, id: string): State
    requires At(s, rid) && s.handlers[rid].pc.Timed? && s.handlers[rid].pc.ev.idToken in s.op.signed
  {
    var pc := s.handlers[rid].pc;
    var rec := Record(s.op.signed[pc.ev.idToken].sub, pc.ev.idToken, pc.expiresAt, s.now, csrf);
    Goto(s, rid, SessionStoring(id, rec, pc.ttl))
      .(drawn := s.drawn[id := AsSessionId(rid)][csrf := AsCsrf(id)],
        log := s.log.(sessions := s.log.sessions[id := SessionBirth(rid, pc.ev, rec, pc.ttl, pc.ttlAt)],
                      sessionOf := s.log.sessionOf[rid := id]))
  }

  /** SET of the session; its id leaves the system with the response. */
  function SessionStored(s: State, rid: nat, acknowledged: bool): State
    requires At(s, rid) && s.handlers[rid].pc.SessionStoring?
  {
    var SessionStoring(id, rec, ttl) := s.handlers[rid].pc;
    var s1 := s.(vault := V.PutSession(s.vault, id, rec, ttl, s.now),
                 log := s.log.(sessionSetAt := s.log.sessionSetAt[id := s.now]));
    if !acknowledged then s1
    else Goto(s1, rid, Done(Response(302, Clear, SetTo(id), ToHome))).(exposed := s.exposed + {id})
  }

  /** What logout, status and API requests check before reading the store. */
  function SessionChecked(cfg: Config, s: State, rid: nat): State
    requires At(s, rid)
  {
    match s.handlers[rid].req
    case LogoutRequest(origin, cookie, _) =>
      if origin != cfg.externalOrigin then Goto(s, rid, Done(Fail(403)))
      else if cookie.None? then Goto(s, rid, Done(Fail(401)))
      else Goto(s, rid, LogoutReading(cookie.value))
    case StatusRequest(origin, cookie) =>
      if origin != "" && origin != cfg.externalOrigin then Goto(s, rid, Done(Fail(403)))
      else if cookie.None? then Goto(s, rid, Done(Response(200, Keep, Keep, Anonymous)))
      else Goto(s, rid, StatusReading(cookie.value))
    case ApiRequest(cookie) =>
      if cookie.None? then Goto(s, rid, Done(Fail(401)))
      else Goto(s, rid, ApiReading(cookie.value))
    case _ => s
  }

  /** GET of the session record. */
  function SessionGot(s: State, rid: nat): State
    requires At(s, rid) && ReadsSession(s.handlers[rid])
  {
    var h := s.handlers[rid];
    match V.Look(s.vault.sessions, h.pc.id, s.now)
    case None => Goto(s, rid, Done(GivenUp(h.pc)))
    case Some(rec) =>
      if h.pc.LogoutReading? then
        if h.req.csrfHeader != rec.csrfToken then Goto(s, rid, Done(Fail(403)))
        else Goto(s, rid, LogoutDeleting(h.pc.id)).(log := s.log.(deletes := s.log.deletes + {h.pc.id}))
      else if h.pc.StatusReading? then
        Goto(s, rid, Done(Response(200, Keep, Keep, Identity(rec.subject, rec.csrfToken))))
          .(exposed := s.exposed + {rec.csrfToken})
      else Goto(s, rid, ApiServing(h.pc.id, rec))
  }

  /** DEL of the session. */
  function LogoutDeleted(s: State, rid: nat, acknowledged: bool): State
    requires At(s, rid) && s.handlers[rid].pc.LogoutDeleting?
  {
    var id := s.handlers[rid].pc.id;
    var s1 := s.(vault := V.DropSession(s.vault, id), log := s.log.(loggedOut := s.log.loggedOut + {id}));
    if !acknowledged then s1
    else Goto(s1, rid, Done(Response(204, Keep, Clear, Plain)))
  }

  /** A command takes effect once more, or for the first time. */
  function Applied(s: State, c: Command): State
    requires Sent(s, c)
  {
    match c
    case SetLogin(st) =>
      s.(vault := V.PutLogin(s.vault, st, s.log.logins[st].txn, LOGIN_TRANSACTION_TTL, s.now),
         log := s.log.(loginSetAt := s.log.loginSetAt[st := s.now],
                       revived := s.log.revived + (if st in s.log.taken.Values then {st} else {})))
    case TakeLogin(rid) => s.(vault := V.DropLogin(s.vault, s.handlers[rid].req.state))
    case SetSession(id) =>
      s.(vault := V.PutSession(s.vault, id, s.log.sessions[id].rec, s.log.sessions[id].ttl, s.now),
         log := s.log.(sessionSetAt := s.log.sessionSetAt[id := s.now],
                       restored := s.log.restored + ({id} * s.log.loggedOut)))
    case DelSession(id) =>
      s.(vault := V.DropSession(s.vault, id), log := s.log.(loggedOut := s.log.loggedOut + {id}))
  }

  /** One upstream call with the token of the record read at the start of the request. */
  function ApiCalled(s: State, rid: nat): State
    requires At(s, rid) && s.handlers[rid].pc.ApiServing?
  {
    var pc := s.handlers[rid].pc;
    s.(log := s.log.(calls := s.log.calls + [UpstreamCall(rid, pc.id, pc.rec.idToken)]))
  }

  /** The response of a handler whose pending step failed. */
  function GivenUp(pc: Pc): Response
  {
    match pc
    case Begin => Fail(500)
    case LoginStoring(_, _) => Fail(500)
    case Taking(_) => FailCallback(400)
    case Exchanging(_, _) => FailCallback(401)
    case Verified(_) => FailCallback(500)
    case Timed(_, _, _, _) => FailCallback(500)
    case SessionStoring(_, _, _) => FailCallback(500)
    case LogoutReading(_) => Response(401, Keep, Clear, Plain)
    case LogoutDeleting(_) => Fail(500)
    case StatusReading(_) => Response(200, Keep, Keep, Anonymous)
    case ApiReading(_) => Fail(401)
    case ApiServing(_, _) => Fail(502)
    case Done(resp) => resp
  }

  // ----- Runs -----

  /** states[i] --actions[i]--> states[i+1], from an initial state. */
  ghost predicate Run(cfg: Config, states: seq<State>, actions: seq<Action>)
  {
    && |states| == |actions| + 1
    && Init(states[0])
    && forall i {:trigger StepAt(cfg, states, actions, i)} :: 0 <= i < |actions| ==> StepAt(cfg, states, actions, i)
  }

  ghost predicate StepAt(cfg: Config, states: seq<State>, actions: seq<Action>, i: int)
    requires |states| == |actions| + 1 && 0 <= i < |actions|
  {
    Enabled(cfg, states[i], actions[i]) && states[i + 1] == Step(cfg, states[i], actions[i])
  }
}
