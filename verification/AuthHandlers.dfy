/**
 The four /auth handlers as the server runs them, over the encrypted store, the
 random source, the provider's server and a response writer.

 A handler is a sequence of segments, each with at most one call to the store or
 to the provider. A segment is proved from any state of Protocol in which the
 request is at that point, however the system came to be there, to take the
 request's own next steps: it leaves the store meaning what Protocol's vault is.
 By Traces.StretchLeavesHandler nothing others do in between moves the request, so
 this covers every interleaving. The handler methods below compose the segments
 uninterrupted, and there the response written is the one Protocol's handler ends
 with, and its conditions are exact.
 */
module AuthHandlers {
  import opened Wrappers
  import opened SessionTypes
  import opened Base64Url
  import opened ByteStreams
  import opened ByteStore
  import opened SessionStore
  import opened Cookies
  import opened Protocol
  import opened Traces
  import ConstantTime
  import V = Vault
  import P = Provider
  import S = ProviderServer
  import Q = QueryString
  import T = ProtocolTheorems

  /** What the handlers look at. Absent headers and parameters are empty. */
  datatype HttpRequest = HttpRequest(
    cookies: seq<(string, string)>,
    origin: string,
    csrfHeader: string,
    state: string,
    error: string,
    code: string)

  const BLANK := Response(200, Keep, Keep, Plain)

  /** The i-th token a random source will yield. */
  function TokenAt(drawn: seq<byte>, i: nat): string
    requires TOKEN_BYTES * (i + 1) <= |drawn|
  {
    Encode(drawn[TOKEN_BYTES * i..TOKEN_BYTES * i + TOKEN_BYTES])
  }

  /** The assumption on randomness, for the coming n tokens. */
  ghost predicate FreshTokens(s: State, drawn: seq<byte>, n: nat)
  {
    && (forall i: nat :: i < n && TOKEN_BYTES * (i + 1) <= |drawn| ==> Fresh(s, TokenAt(drawn, i)))
    && (forall i: nat, j: nat ::
      i < j < n && TOKEN_BYTES * (j + 1) <= |drawn| ==>
        TokenAt(drawn, i) != TokenAt(drawn, j))
  }

  /** Bytes a login draws for its nonce, verifier and state. */
  const LOGIN_TOKENS := 3 * TOKEN_BYTES

  /** Bytes a callback draws for its CSRF token and session id. */
  const SESSION_TOKENS := 2 * TOKEN_BYTES

  method DrawPair(rand: Reader) returns (r: Option<(string, string)>)
    modifies rand
    ensures var drawn := Source(old(rand.script));
            if |drawn| < SESSION_TOKENS then r == None
            else r == Some((TokenAt(drawn, 0), TokenAt(drawn, 1))) && Source(rand.script) == drawn[SESSION_TOKENS..]
  {
    ghost var drawn := Source(rand.script);
    var first := GenerateID(rand);
    if first.None? {
      return None;
    }
    var second := GenerateID(rand);
    if second.None? {
      return None;
    }
    assert drawn[TOKEN_BYTES..][..TOKEN_BYTES] == drawn[32..64];
    r := Some((first.value, second.value));
  }

  method DrawTriple(rand: Reader) returns (r: Option<(string, string, string)>)
    modifies rand
    ensures var drawn := Source(old(rand.script));
            if |drawn| < LOGIN_TOKENS then r == None
            else
              && r == Some((TokenAt(drawn, 0), TokenAt(drawn, 1), TokenAt(drawn, 2)))
              && Source(rand.script) == drawn[LOGIN_TOKENS..]
  {
    ghost var drawn := Source(rand.script);
    var pair := DrawPair(rand);
    if pair.None? {
      return None;
    }
    var third := GenerateID(rand);
    if third.None? {
      return None;
    }
    assert drawn[SESSION_TOKENS..][..TOKEN_BYTES] == drawn[64..96];
    r := Some((pair.value.0, pair.value.1, third.value));
  }

  // ----- Where a login sends the browser -----

  /** The parameters of the authorization request, as the client library sets them. */
  function AuthorizeQuery(cfg: Config, scope: string, state: string, nonce: string, challenge: string): Q.Query
  {
    var q := Q.Set(Q.Set([], "response_type", "code"), "client_id", cfg.provider.clientID);
    var q := Q.Set(q, "redirect_uri", cfg.redirectURI);
    var q := Q.Set(if scope == "" then q else Q.Set(q, "scope", scope), "state", state);
    Q.Set(Q.Set(Q.Set(q, "code_challenge", challenge), "code_challenge_method", "S256"), "nonce", nonce)
  }

  function AuthorizeURL(cfg: Config, scope: string, state: string, nonce: string, challenge: string): string
  {
    cfg.provider.issuerURL + "/authorize?" + Q.Encode(AuthorizeQuery(cfg, scope, state, nonce, challenge))
  }

  /** What each parameter is. */
  lemma AuthorizeParameter(cfg: Config, scope: string, state: string, nonce: string, challenge: string, key: string)
    ensures Q.Get(AuthorizeQuery(cfg, scope, state, nonce, challenge), key) ==
            if key == "nonce" then nonce
            else if key == "code_challenge_method" then "S256"
            else if key == "code_challenge" then challenge
            else if key == "state" then state
            else if key == "scope" then scope
            else if key == "redirect_uri" then cfg.redirectURI
            else if key == "client_id" then cfg.provider.clientID
            else if key == "response_type" then "code"
            else ""
  {
    var q0 := Q.Set([], "response_type", "code");
    var q1 := Q.Set(q0, "client_id", cfg.provider.clientID);
    var q2 := Q.Set(q1, "redirect_uri", cfg.redirectURI);
    var q3 := if scope == "" then q2 else Q.Set(q2, "scope", scope);
    var q4 := Q.Set(q3, "state", state);
    var q5 := Q.Set(q4, "code_challenge", challenge);
    var q6 := Q.Set(q5, "code_challenge_method", "S256");
    Q.GetSet([], "response_type", "code", key);
    Q.GetSet(q0, "client_id", cfg.provider.clientID, key);
    Q.GetSet(q1, "redirect_uri", cfg.redirectURI, key);
    Q.GetSet(q2, "scope", scope, key);
    Q.GetSet(q3, "state", state, key);
    Q.GetSet(q4, "code_challenge", challenge, key);
    Q.GetSet(q5, "code_challenge_method", "S256", key);
    Q.GetSet(q6, "nonce", nonce, key);
  }

  /** The provider reads the URL's query as the request for exactly this login, whoever is to log in. */
  lemma ProviderReadsLogin(cfg: Config, scope: string, state: string, nonce: string, challenge: string)
    ensures var text := Q.Encode(AuthorizeQuery(cfg, scope, state, nonce, challenge));
            S.AuthorizeRequestOf(Q.Parse(text)) ==
            P.AuthorizeRequest("code", cfg.provider.clientID, cfg.redirectURI, challenge, "S256", nonce, state, "")
  {
    ReadParameter(cfg, scope, state, nonce, challenge, "response_type");
    ReadParameter(cfg, scope, state, nonce, challenge, "client_id");
    ReadParameter(cfg, scope, state, nonce, challenge, "redirect_uri");
    ReadParameter(cfg, scope, state, nonce, challenge, "code_challenge");
    ReadParameter(cfg, scope, state, nonce, challenge, "code_challenge_method");
    ReadParameter(cfg, scope, state, nonce, challenge, "nonce");
    ReadParameter(cfg, scope, state, nonce, challenge, "state");
    ReadParameter(cfg, scope, state, nonce, challenge, "login_hint");
  }

  lemma ReadParameter(cfg: Config, scope: string, state: string, nonce: string, challenge: string, key: string)
    ensures var q := AuthorizeQuery(cfg, scope, state, nonce, challenge);
            && Q.Get(Q.Parse(Q.Encode(q)), key) == Q.Get(q, key)
            && (key == "response_type" ==> Q.Get(q, key) == "code")
            && (key == "client_id" ==> Q.Get(q, key) == cfg.provider.clientID)
            && (key == "redirect_uri" ==> Q.Get(q, key) == cfg.redirectURI)
            && (key == "code_challenge" ==> Q.Get(q, key) == challenge)
            && (key == "code_challenge_method" ==> Q.Get(q, key) == "S256")
            && (key == "nonce" ==> Q.Get(q, key) == nonce)
            && (key == "state" ==> Q.Get(q, key) == state)
            && (key == "login_hint" ==> Q.Get(q, key) == "")
  {
    Q.ParseEncode(AuthorizeQuery(cfg, scope, state, nonce, challenge), key);
    AuthorizeParameter(cfg, scope, state, nonce, challenge, key);
  }

  // ----- What a request needs -----

  /** Request rid has arrived and nothing has been done for it. */
  ghost predicate Arrived(s: State, rid: nat, req: Request)
  {
    At(s, rid) && PcOf(s, rid) == Begin && s.handlers[rid].req == req
  }

  /** The callback is past its cookie check, with a state of its own. */
  ghost predicate AtTaking(s: State, rid: nat, r: HttpRequest)
  {
    && At(s, rid) && PcOf(s, rid) == Taking(r.state)
    && CodeOf(s.handlers[rid].req) == r.code && ErrorOf(s.handlers[rid].req) == r.error
  }

  /** When each wait of a callback ends, and how. */
  datatype CallbackEnv = CallbackEnv(
    takenAt: int, take: Fault,
    exchange: Fault, draws: S.Draws, verifiedAt: int,
    ttlAt: int, createdAt: int,
    setAt: int, set_: Fault)

  predicate InOrder(start: int, e: CallbackEnv)
  {
    start <= e.takenAt <= e.draws.takenAt && e.draws.InOrder()
      && e.draws.now <= e.verifiedAt <= e.ttlAt <= e.createdAt <= e.setAt
  }

  /** The provider would issue tokens for this code, and the client would accept them. */
  predicate Redeemable(cfg: Config, op: P.Op, code: string, txn: LoginTransaction, d: S.Draws, verifiedAt: int)
  {
    && code in op.codes
    && P.GrantAccepted(cfg.provider, P.Grant(code, txn.pkceVerifier, cfg.redirectURI, P.Received),
                       Some(op.codes[code]), d.clock.checked)
    && Acceptable(cfg, ClaimsOf(cfg, op, code, d), txn.nonce, verifiedAt)
  }

  /** The claims the provider signs for a stored code. */
  function ClaimsOf(cfg: Config, op: P.Op, code: string, d: S.Draws): P.Claims
    requires code in op.codes
  {
    P.ClaimsFor(cfg.provider, op.codes[code].subject, op.codes[code].nonce, d.clock.signed)
  }

  /** The transaction is there and the code is good for it. */
  ghost predicate Redeems(cfg: Config, s: State, r: HttpRequest, e: CallbackEnv)
  {
    && e.take.Fine? && V.Look(s.vault.logins, r.state, e.takenAt).Some?
    && r.error == "" && r.code != ""
    && e.exchange.Fine?
    && Redeemable(cfg, s.op, r.code, V.Look(s.vault.logins, r.state, e.takenAt).value, e.draws, e.verifiedAt)
  }

  /** The token still has some life, and everything after it works. */
  predicate Opens(claims: P.Claims, drawn: seq<byte>, e: CallbackEnv)
  {
    Seconds(claims.exp) > e.ttlAt && |drawn| >= SESSION_TOKENS + NONCE_SIZE && e.set_.Fine?
  }

  /** Everything a callback needs, past its cookie, to end in a session. */
  ghost predicate Completes(cfg: Config, s: State, r: HttpRequest, e: CallbackEnv, drawn: seq<byte>)
  {
    Redeems(cfg, s, r, e) && Opens(ClaimsOf(cfg, s.op, r.code, e.draws), drawn, e)
  }

  /** What a login has drawn. */
  datatype Started = Started(state: string, txn: LoginTransaction)
  {
    function Response(cfg: Config): Response
    {
      Protocol.Response(302, SetTo(state), Keep, ToProvider(state, txn.nonce, Challenge(cfg)))
    }

    function Challenge(cfg: Config): string { cfg.provider.s256(txn.pkceVerifier) }
  }

  /** A session about to be stored. */
  datatype Built = Built(id: string, rec: Record, ttl: int)
  {
    function Response(): Response { Protocol.Response(302, Clear, SetTo(id), ToHome) }
  }

  function CallbackResponse(r: Result<Built, int>): Response
  {
    match r case Success(b) => b.Response() case Failure(status) => FailCallback(status)
  }

  class Handler {
    const cfg: Config
    const store: Store
    const rand: Reader
    const idp: S.Server
    const claimsOf: string -> P.Claims
    const scope: string

    constructor (cfg: Config, scope: string, store: Store, rand: Reader, idp: S.Server, claimsOf: string -> P.Claims)
      ensures this.cfg == cfg && this.scope == scope && this.store == store && this.rand == rand
      ensures this.idp == idp && this.claimsOf == claimsOf
    {
      this.cfg, this.scope, this.store, this.rand, this.idp, this.claimsOf := cfg, scope, store, rand, idp, claimsOf;
    }

    /** A redirect to the provider is the URL of the login it announces. */
    predicate Announces(body: Body, location: string)
    {
      body.ToProvider? && location == AuthorizeURL(cfg, scope, body.state, body.nonce, body.codeChallenge)
    }

    /** The store means a vault, the provider is the configured one, and its tokens are read as signed. */
    ghost predicate Valid()
      reads this, store, store.backend, idp
    {
      && store.Valid() && idp.Valid() && idp.cfg == cfg.provider
      && S.ReadsBack(idp.sign, claimsOf)
    }

    /** The system is in state s, which steps of Protocol have led to from s0. */
    ghost predicate Here(s0: State, t: seq<Action>, s: State)
      reads this, store, store.backend, idp
    {
      Valid() && s.vault == store.backend.vault && s.op == idp.op && Leads(cfg, s0, t, s)
    }

    /** And request rid has its answer. */
    ghost predicate Served(s0: State, t: seq<Action>, s: State, rid: nat, resp: Response)
      reads this, store, store.backend, idp
    {
      Here(s0, t, s) && At(s, rid) && PcOf(s, rid) == Done(resp)
    }

    /**
     What the handlers store agrees with login and provider: after a request has
     been served from a reachable state, whatever bytes the store now reads as a
     session have a whole story in that system.
     */
    lemma StoredSessionsAgree(s0: State, t: seq<Action>, s: State, rid: nat, resp: Response, id: string, now: int,
                              rec: Record)
      requires Reachable(cfg, s0) && Served(s0, t, s, rid, resp)
      requires ReadSession(store.enc.p, store.enc.key, store.backend.data, id, now, Fine) == Success(rec)
      ensures T.Agreed(cfg, s, id, rec)
    {
      store.ReadsVault(id, now);
      ReachableLeads(cfg, s0, t, s);
      var states, actions :| Run(cfg, states, actions) && states[|actions|] == s;
      T.Agreement(cfg, states, actions, |actions|, id);
    }

    // ----- Login -----

    /** Begin: the three draws, and the transaction that is to be stored. */
    method DrawLogin(drawnAt: int, ghost s0: State, ghost t0: seq<Action>, ghost s: State, ghost rid: nat)
      returns (r: Option<Started>, ghost t: seq<Action>, ghost s': State)
      requires Here(s0, t0, s) && Arrived(s, rid, LoginRequest) && s.now <= drawnAt
               && FreshTokens(s, Source(rand.script), 3)
      modifies rand
      ensures Here(s0, t, s') && At(s', rid) && s'.now <= drawnAt
      ensures var drawn := Source(old(rand.script));
              if |drawn| < LOGIN_TOKENS then r == None && PcOf(s', rid) == Done(Fail(500))
              else
                && r
                  == Some(Started(TokenAt(drawn, 2), LoginTransaction(TokenAt(drawn, 0), TokenAt(drawn, 1), drawnAt)))
                && PcOf(s', rid) == LoginStoring(r.value.state, r.value.txn)
                && Source(rand.script) == drawn[LOGIN_TOKENS..]
    {
      var drawn := DrawTriple(rand);
      if drawn.None? {
        t, s' := GiveUpStep(cfg, s0, t0, s, rid);
        return None, t, s';
      }
      var (nonce, verifier, state) := drawn.value;
      t, s' := DrawStep(cfg, s0, t0, s, rid, drawnAt, nonce, verifier, state);
      r := Some(Started(state, LoginTransaction(nonce, verifier, drawnAt)));
    }

    /** LoginStoring: the SET. */
    method StoreLogin(l: Started, setAt: int, fault: Fault, ghost s0: State, ghost t0: seq<Action>, ghost s: State,
                      ghost rid: nat)
      returns (ok: bool, ghost t: seq<Action>, ghost s': State)
      requires Here(s0, t0, s) && At(s, rid) && PcOf(s, rid) == LoginStoring(l.state, l.txn) && s.now <= setAt
      modifies store.backend, rand
      ensures ok <==> |Source(old(rand.script))| >= NONCE_SIZE && fault.Fine?
      ensures Served(s0, t, s', rid, if ok then l.Response(cfg) else Fail(500))
    {
      ghost var sent := |Source(rand.script)| >= NONCE_SIZE;
      var put := store.PutLogin(l.state, l.txn, LOGIN_TRANSACTION_TTL, setAt, fault, rand);
      t, s' := StoreLoginSteps(cfg, s0, t0, s, rid, setAt, if sent then fault else Refused);
      ok := put.Success?;
    }

    method StartLogin(drawnAt: int, setAt: int, fault: Fault, ghost s: State, ghost rid: nat)
      returns (r: Option<Started>, ghost t: seq<Action>, ghost s': State)
      requires Here(s, [], s) && Arrived(s, rid, LoginRequest) && s.now <= drawnAt <= setAt
               && FreshTokens(s, Source(rand.script), 3)
      modifies store.backend, rand
      ensures Served(s, t, s', rid, if r.Some? then r.value.Response(cfg) else Fail(500))
      ensures r.Some? <==> |Source(old(rand.script))| >= LOGIN_TOKENS + NONCE_SIZE && fault.Fine?
    {
      r, t, s' := DrawLogin(drawnAt, s, [], s, rid);
      if r.Some? {
        var ok;
        ok, t, s' := StoreLogin(r.value, setAt, fault, s, t, s', rid);
        r := if ok then r else None;
      }
    }

    method LoginHandler(w: ResponseWriter, drawnAt: int, setAt: int, fault: Fault, ghost s: State, ghost rid: nat)
      returns (ghost t: seq<Action>, ghost s': State)
      requires Here(s, [], s) && Arrived(s, rid, LoginRequest) && s.now <= drawnAt <= setAt
      requires w.Valid() && w.view == BLANK && FreshTokens(s, Source(rand.script), 3)
      modifies w, store.backend, rand
      ensures w.Valid() && Served(s, t, s', rid, w.view)
      ensures w.view.status == 302 <==> |Source(old(rand.script))| >= LOGIN_TOKENS + NONCE_SIZE && fault.Fine?
      ensures w.view.status == 302 ==> Announces(w.view.body, w.location)
    {
      var started;
      started, t, s' := StartLogin(drawnAt, setAt, fault, s, rid);
      if started.None? {
        w.Finish(500, Plain);
        return;
      }
      AnswerLogin(w, started.value);
    }

    method AnswerLogin(w: ResponseWriter, l: Started)
      requires w.Valid() && w.view == BLANK
      modifies w
      ensures w.Valid() && w.view == l.Response(cfg) && Announces(w.view.body, w.location)
    {
      w.SetLoginStateCookie(l.state, LOGIN_TRANSACTION_TTL);
      var url := AuthorizeURL(cfg, scope, l.state, l.txn.nonce, l.Challenge(cfg));
      w.Redirect(url, ToProvider(l.state, l.txn.nonce, l.Challenge(cfg)));
    }

    // ----- Callback -----

    /** Taking: the GETDEL. The transaction is spent before anything else is looked at. */
    method TakeTransaction(r: HttpRequest, e: CallbackEnv, ghost s0: State, ghost t0: seq<Action>, ghost s: State,
                           ghost rid: nat)
      returns (txn: Option<LoginTransaction>, ghost t: seq<Action>, ghost s': State)
      requires Here(s0, t0, s) && AtTaking(s, rid, r) && s.now <= e.takenAt
      modifies store.backend
      ensures Here(s0, t, s') && Same(s, s', rid) && s'.now <= e.takenAt && s'.op == s.op
      ensures s'.vault == if e.take.Refused? then s.vault else V.DropLogin(s.vault, r.state)
      ensures txn == if e.take.Fine? then V.Look(s.vault.logins, r.state, e.takenAt) else None
      ensures PcOf(s', rid) == AfterTake(s.handlers[rid].req, r.state, txn)
    {
      var taken := store.TakeLoginTransaction(r.state, e.takenAt, e.take);
      t, s' := TakeSteps(cfg, s0, t0, s, rid, e);
      txn := if taken.Failure? then None else Some(taken.value);
    }

    /** Exchanging: one POST to the token endpoint and the checks on what it returns. */
    method CodeExchange(code: string, txn: LoginTransaction, e: CallbackEnv, ghost gid: nat,
                        ghost s0: State, ghost t0: seq<Action>, ghost s: State, ghost rid: nat)
      returns (token: Option<string>, ghost t: seq<Action>, ghost s': State)
      requires Here(s0, t0, s) && At(s, rid) && PcOf(s, rid).Exchanging? && PcOf(s, rid).txn == txn
      requires CodeOf(s.handlers[rid].req) == code && s.now <= e.draws.takenAt && e.draws.InOrder()
               && e.draws.now <= e.verifiedAt
      requires gid !in s.op.grants && e.draws.refresh !in s.op.minting
      modifies idp
      ensures Here(s0, t, s') && Same(s, s', rid) && s'.vault == s.vault
      ensures token.Some? <==> e.exchange.Fine? && Redeemable(cfg, s.op, code, txn, e.draws, e.verifiedAt)
      ensures token.None? ==> PcOf(s', rid) == Done(FailCallback(401))
      ensures token.Some? ==> s'.now == e.verifiedAt && Holding(s', rid, token.value,
              ClaimsOf(cfg, s.op, code, e.draws))
                              && claimsOf(token.value) == ClaimsOf(cfg, s.op, code, e.draws)
    {
      var asked := Ask(code, txn, e, gid);
      if asked.None? {
        t, s' := FailedExchangeSteps(cfg, s0, t0, s, rid, idp.sign, e, gid, idp.op);
        return None, t, s';
      }
      t, s' := ExchangeSteps(cfg, s0, t0, s, rid, idp.sign, e, gid, idp.op, asked.value);
      token := asked;
    }

    method Ask(code: string, txn: LoginTransaction, e: CallbackEnv, ghost gid: nat) returns (token: Option<string>)
      requires Valid() && gid !in idp.op.grants && e.draws.refresh !in idp.op.minting && e.draws.InOrder()
      modifies idp
      ensures Valid()
      ensures token.Some? <==> e.exchange.Fine? && Redeemable(cfg, old(idp.op), code, txn, e.draws, e.verifiedAt)
      ensures if e.exchange.Refused? then idp.op == old(idp.op)
              else S.GrantSteps(cfg.provider, idp.sign, old(idp.op), FormFor(cfg, code, txn), e.draws, gid, idp.op)
      ensures token.Some? ==> Exchanged(idp.op, gid, token.value, ClaimsOf(cfg, old(idp.op), code, e.draws))
                              && claimsOf(token.value) == ClaimsOf(cfg, old(idp.op), code, e.draws)
    {
      if e.exchange.Refused? {
        return None;
      }
      var reply := idp.HandleAuthorizationCodeGrant(FormFor(cfg, code, txn), e.draws, gid);
      if e.exchange.Lost? || reply.Refusal? {
        return None;
      }
      var claims := claimsOf(reply.idToken);
      if !Acceptable(cfg, claims, txn.nonce, e.verifiedAt) {
        return None;
      }
      token := Some(reply.idToken);
    }

    /** Verified: the lifetime, the two draws, and the record that is to be stored. */
    method DrawSession(idToken: string, e: CallbackEnv, ghost s0: State, ghost t0: seq<Action>, ghost s: State,
                       ghost rid: nat)
      returns (r: Result<Built, int>, ghost t: seq<Action>, ghost s': State)
      requires Here(s0, t0, s) && Holding(s, rid, idToken, claimsOf(idToken))
      requires s.now <= e.ttlAt <= e.createdAt && FreshTokens(s, Source(rand.script), 2)
      modifies rand
      ensures Here(s0, t, s') && At(s', rid) && s'.now <= e.createdAt && s'.vault == s.vault
      ensures r == BuiltFrom(idToken, claimsOf(idToken), Source(old(rand.script)), e)
      ensures PcOf(s', rid) == if r.Success? then SessionStoring(r.value.id, r.value.rec, r.value.ttl)
              else Done(FailCallback(r.error))
      ensures r.Success? ==> Source(rand.script) == Source(old(rand.script))[SESSION_TOKENS..]
    {
      t, s' := SessionDraws(cfg, s0, t0, s, rid, Source(rand.script), e);
      r := Build(idToken, e);
    }

    method Build(idToken: string, e: CallbackEnv) returns (r: Result<Built, int>)
      modifies rand
      ensures r == BuiltFrom(idToken, claimsOf(idToken), Source(old(rand.script)), e)
      ensures r.Success? ==> Source(rand.script) == Source(old(rand.script))[SESSION_TOKENS..]
    {
      var claims := claimsOf(idToken);
      var expiresAt := Seconds(claims.exp);
      var ttl := expiresAt - e.ttlAt;
      if ttl <= 0 {
        return Failure(401);
      }
      var pair := DrawPair(rand);
      if pair.None? {
        return Failure(500);
      }
      var (csrf, id) := pair.value;
      r := Success(Built(id, Record(claims.sub, idToken, expiresAt, e.createdAt, csrf), ttl));
    }

    /** SessionStoring: the SET. */
    method StoreSession(b: Built, setAt: int, fault: Fault, ghost s0: State, ghost t0: seq<Action>, ghost s: State,
                        ghost rid: nat)
      returns (ok: bool, ghost t: seq<Action>, ghost s': State)
      requires Here(s0, t0, s) && At(s, rid) && PcOf(s, rid) == SessionStoring(b.id, b.rec, b.ttl) && s.now <= setAt
      modifies store.backend, rand
      ensures ok <==> |Source(old(rand.script))| >= NONCE_SIZE && fault.Fine?
      ensures Served(s0, t, s', rid, if ok then b.Response() else FailCallback(500))
    {
      ghost var sent := |Source(rand.script)| >= NONCE_SIZE;
      var put := store.PutSession(b.id, b.rec, b.ttl, setAt, fault, rand);
      t, s' := StoreSessionSteps(cfg, s0, t0, s, rid, setAt, if sent then fault else Refused);
      ok := put.Success?;
    }

    /** Take, then error, code and exchange, in that order. */
    method RedeemLogin(r: HttpRequest, e: CallbackEnv, ghost gid: nat, ghost s0: State, ghost t0: seq<Action>,
                       ghost s: State, ghost rid: nat)
      returns (res: Result<string, int>, ghost t: seq<Action>, ghost s': State)
      requires Here(s0, t0, s) && InOrder(s.now, e) && AtTaking(s, rid, r)
      requires gid !in s.op.grants && e.draws.refresh !in s.op.minting
      modifies store.backend, idp
      ensures Here(s0, t, s') && Same(s, s', rid)
      ensures res.Success? <==> Redeems(cfg, s, r, e)
      ensures res.Failure? ==> PcOf(s', rid) == Done(FailCallback(res.error)) && res.error in {400, 401}
      ensures res.Success? ==> s'.now == e.verifiedAt && Holding(s', rid, res.value,
              ClaimsOf(cfg, s.op, r.code, e.draws))
                               && claimsOf(res.value) == ClaimsOf(cfg, s.op, r.code, e.draws)
    {
      var txn;
      txn, t, s' := TakeTransaction(r, e, s0, t0, s, rid);
      if txn.None? {
        return Failure(400), t, s';
      }
      if r.error != "" {
        return Failure(400), t, s';
      }
      if r.code == "" {
        return Failure(400), t, s';
      }
      var token;
      token, t, s' := CodeExchange(r.code, txn.value, e, gid, s0, t, s', rid);
      res := if token.None? then Failure(401) else Success(token.value);
    }

    /** The verified token becomes a stored session that lives as long as the token. */
    method OpenSession(idToken: string, e: CallbackEnv, ghost s0: State, ghost t0: seq<Action>, ghost s: State,
                       ghost rid: nat)
      returns (r: Result<Built, int>, ghost t: seq<Action>, ghost s': State)
      requires Here(s0, t0, s) && Holding(s, rid, idToken, claimsOf(idToken))
      requires s.now <= e.ttlAt <= e.createdAt <= e.setAt && FreshTokens(s, Source(rand.script), 2)
      modifies store.backend, rand
      ensures Served(s0, t, s', rid, CallbackResponse(r))
      ensures r.Success? <==> Opens(claimsOf(idToken), Source(old(rand.script)), e)
      ensures r.Success? ==> r == BuiltFrom(idToken, claimsOf(idToken), Source(old(rand.script)), e)
      ensures r.Failure? ==> r.error in {401, 500}
    {
      var built;
      built, t, s' := DrawSession(idToken, e, s0, t0, s, rid);
      if built.Failure? {
        return built, t, s';
      }
      var ok;
      ok, t, s' := StoreSession(built.value, e.setAt, e.set_, s0, t, s', rid);
      r := if ok then built else Failure(500);
    }

    /** Everything after the cookie check. */
    method CompleteLogin(r: HttpRequest, e: CallbackEnv, ghost gid: nat, ghost s0: State, ghost t0: seq<Action>,
                         ghost s: State, ghost rid: nat)
      returns (res: Result<Built, int>, ghost t: seq<Action>, ghost s': State)
      requires Here(s0, t0, s) && InOrder(s.now, e) && AtTaking(s, rid, r)
      requires gid !in s.op.grants && e.draws.refresh !in s.op.minting && FreshTokens(s, Source(rand.script), 2)
      modifies store.backend, rand, idp
      ensures Served(s0, t, s', rid, CallbackResponse(res))
      ensures res.Success? <==> Completes(cfg, s, r, e, Source(old(rand.script)))
      ensures if res.Success? then res.value.ttl > 0 else res.error in {400, 401, 500}
    {
      var token;
      token, t, s' := RedeemLogin(r, e, gid, s0, t0, s, rid);
      if token.Failure? {
        return Failure(token.error), t, s';
      }
      FreshStays(s, s', rid, Source(rand.script), 2);
      res, t, s' := OpenSession(token.value, e, s0, t, s', rid);
    }

    method CallbackHandler(w: ResponseWriter, r: HttpRequest, e: CallbackEnv, ghost gid: nat, ghost s: State,
                           ghost rid: nat)
      returns (ghost t: seq<Action>, ghost s': State)
      requires Here(s, [], s) && InOrder(s.now, e)
      requires Arrived(s, rid, CallbackRequest(Find(r.cookies, LoginStateCookieName(w.insecure)), r.state, r.error,
               r.code))
      requires gid !in s.op.grants && e.draws.refresh !in s.op.minting && FreshTokens(s, Source(rand.script), 2)
      requires w.Valid() && w.view == BLANK
      modifies w, store.backend, rand, idp
      ensures w.Valid() && Served(s, t, s', rid, w.view)
      ensures w.view.status == 302 <==>
              && Find(r.cookies, LoginStateCookieName(w.insecure)) == Some(r.state) && r.state != ""
              && Completes(cfg, s, r, e, Source(old(rand.script)))
      ensures w.view.status == 302 ==> w.location == "/"
      // A mismatch clears the cookie and touches neither store nor provider.
      ensures var cookie := Find(r.cookies, LoginStateCookieName(w.insecure));
              cookie.Some? && (r.state == "" || r.state != cookie.value) ==>
                w.view == FailCallback(400) && s'.vault == s.vault && s'.op == s.op
    {
      var ok;
      ok, t, s' := CheckCookie(w, r, s, rid);
      if ok {
        FreshStays(s, s', rid, Source(rand.script), 2);
        var outcome;
        outcome, t, s' := CompleteLogin(r, e, gid, s, t, s', rid);
        Conclude(w, outcome);
      }
    }

    /** Begin: the state must be that of the cookie, which is cleared whatever follows. */
    method CheckCookie(w: ResponseWriter, r: HttpRequest, ghost s: State, ghost rid: nat)
      returns (ok: bool, ghost t: seq<Action>, ghost s': State)
      requires Here(s, [], s) && w.Valid() && w.view == BLANK
      requires Arrived(s, rid, CallbackRequest(Find(r.cookies, LoginStateCookieName(w.insecure)), r.state, r.error,
               r.code))
      modifies w
      ensures w.Valid() && Here(s, t, s') && Same(s, s', rid) && s'.now == s.now && s'.vault == s.vault && s'.op == s.op
      ensures ok <==> Find(r.cookies, LoginStateCookieName(w.insecure)) == Some(r.state) && r.state != ""
      ensures if ok then AtTaking(s', rid, r) && w.view == BLANK.(loginCookie := Clear)
              else
                && PcOf(s', rid) == Done(w.view)
                && w.view == if Find(r.cookies, LoginStateCookieName(w.insecure)).None? then Fail(400)
                  else FailCallback(400)
    {
      var cookie := Find(r.cookies, LoginStateCookieName(w.insecure));
      t, s' := CheckStep(cfg, s, [], s, rid);
      if cookie.None? {
        w.Finish(400, Plain);
        return false, t, s';
      }
      w.ClearLoginStateCookie();
      var same := ConstantTime.ConstantTimeEqual(r.state, cookie.value);
      if r.state == "" || !same {
        w.Finish(400, Plain);
        return false, t, s';
      }
      ok := true;
    }

    // ----- Session endpoints -----

    /** StatusReading: the GET. */
    method ReadStatus(id: string, readAt: int, fault: Fault, ghost s0: State, ghost t0: seq<Action>, ghost s: State,
                      ghost rid: nat)
      returns (body: Body, ghost t: seq<Action>, ghost s': State)
      requires Here(s0, t0, s) && At(s, rid) && PcOf(s, rid) == StatusReading(id) && s.now <= readAt
      ensures Served(s0, t, s', rid, Response(200, Keep, Keep, body))
      ensures body == if !fault.Fine? then Anonymous else
                        match V.Look(s.vault.sessions, id, readAt)
                        case None => Anonymous
                        case Some(rec) => Identity(rec.subject, rec.csrfToken)
    {
      var rec := store.GetSession(id, readAt, fault);
      t, s' := StatusReadSteps(cfg, s0, t0, s, rid, readAt, fault);
      body := if rec.Success? then Identity(rec.value.subject, rec.value.csrfToken) else Anonymous;
    }

    /** Begin: a mismatched Origin is refused, a missing one is not; then the read, if there is a cookie. */
    method Status(r: HttpRequest, cookie: Option<string>, readAt: int, fault: Fault, ghost s: State, ghost rid: nat)
      returns (resp: (int, Body), ghost t: seq<Action>, ghost s': State)
      requires Here(s, [], s) && s.now <= readAt && Arrived(s, rid, StatusRequest(r.origin, cookie))
      ensures Served(s, t, s', rid, Response(resp.0, Keep, Keep, resp.1))
      ensures resp.1.Identity? <==>
                && (r.origin == "" || r.origin == cfg.externalOrigin)
                && cookie.Some? && fault.Fine? && V.Look(s.vault.sessions, cookie.value, readAt).Some?
    {
      t, s' := SessionCheckStep(cfg, s, [], s, rid);
      if r.origin != "" && r.origin != cfg.externalOrigin {
        return (403, Plain), t, s';
      }
      resp := (200, Anonymous);
      if cookie.Some? {
        var body;
        body, t, s' := ReadStatus(cookie.value, readAt, fault, s, t, s', rid);
        resp := (200, body);
      }
    }

    method SessionHandler(w: ResponseWriter, r: HttpRequest, readAt: int, fault: Fault, ghost s: State, ghost rid: nat)
      returns (ghost t: seq<Action>, ghost s': State)
      requires Here(s, [], s) && s.now <= readAt
      requires Arrived(s, rid, StatusRequest(r.origin, Find(r.cookies, SessionCookieName(w.insecure))))
      requires w.Valid() && w.view == BLANK
      modifies w
      ensures w.Valid() && Served(s, t, s', rid, w.view)
      ensures var cookie := Find(r.cookies, SessionCookieName(w.insecure));
              w.view.body.Identity? <==>
                && (r.origin == "" || r.origin == cfg.externalOrigin)
                && cookie.Some? && fault.Fine? && V.Look(s.vault.sessions, cookie.value, readAt).Some?
    {
      var resp;
      resp, t, s' := Status(r, Find(r.cookies, SessionCookieName(w.insecure)), readAt, fault, s, rid);
      w.Finish(resp.0, resp.1);
    }

    /** LogoutReading: the GET. */
    method ReadForLogout(id: string, e: LogoutEnv, ghost s0: State, ghost t0: seq<Action>, ghost s: State,
                         ghost rid: nat)
      returns (rec: Option<Record>, ghost t: seq<Action>, ghost s': State)
      requires Here(s0, t0, s) && At(s, rid) && PcOf(s, rid) == LogoutReading(id)
               && s.handlers[rid].req.LogoutRequest? && s.now <= e.readAt
      ensures Here(s0, t, s') && At(s', rid) && s'.now <= e.readAt && s'.vault == s.vault
      ensures rec == if e.read.Fine? then V.Look(s.vault.sessions, id, e.readAt) else None
      ensures PcOf(s', rid) == match rec
                               case None => Done(Response(401, Keep, Clear, Plain))
                               case Some(found) =>
                                 if s.handlers[rid].req.csrfHeader != found.csrfToken then Done(Fail(403))
                                   else LogoutDeleting(id)
    {
      var found := store.GetSession(id, e.readAt, e.read);
      t, s' := LogoutReadSteps(cfg, s0, t0, s, rid, e);
      rec := if found.Failure? then None else Some(found.value);
    }

    /** LogoutDeleting: the DEL, and the answer to it. */
    method EndSession(w: ResponseWriter, id: string, e: LogoutEnv, ghost s0: State, ghost t0: seq<Action>,
                      ghost s: State, ghost rid: nat)
      returns (ghost t: seq<Action>, ghost s': State)
      requires Here(s0, t0, s) && s.now <= e.deletedAt && At(s, rid) && PcOf(s, rid) == LogoutDeleting(id)
      requires w.Valid() && w.view == BLANK
      modifies w, store.backend
      ensures w.Valid() && Served(s0, t, s', rid, w.view)
      ensures w.view.status == (if e.delete.Fine? then 204 else 500)
      ensures s'.vault == if e.delete.Refused? then s.vault else V.DropSession(s.vault, id)
    {
      var gone := store.DeleteSession(id, e.deletedAt, e.delete);
      t, s' := LogoutDelSteps(cfg, s0, t0, s, rid, e);
      if gone.Failure? {
        w.Finish(500, Plain);
        return;
      }
      w.ClearSessionCookie();
      w.Finish(204, Plain);
    }

    /**
     204 exactly when the origin is this server's, the cookie names a live session, and
     the header is its CSRF token.
     */
    method LogoutHandler(w: ResponseWriter, r: HttpRequest, e: LogoutEnv, ghost s: State, ghost rid: nat)
      returns (ghost t: seq<Action>, ghost s': State)
      requires Here(s, [], s) && s.now <= e.readAt <= e.deletedAt
      requires Arrived(s, rid, LogoutRequest(r.origin, Find(r.cookies, SessionCookieName(w.insecure)), r.csrfHeader))
      requires w.Valid() && w.view == BLANK
      modifies w, store.backend
      ensures w.Valid() && Served(s, t, s', rid, w.view)
      ensures w.view.status == 204 <==>
              Deletes(cfg, s, r, Find(r.cookies, SessionCookieName(w.insecure)), e)
              && e.delete.Fine?
      ensures s'.vault == if Deletes(cfg, s, r, Find(r.cookies, SessionCookieName(w.insecure)), e) && !e.delete.Refused?
                          then V.DropSession(s.vault, Find(r.cookies, SessionCookieName(w.insecure)).value) else s.vault
    {
      t, s' := SessionCheckStep(cfg, s, [], s, rid);
      if r.origin != cfg.externalOrigin {
        w.Finish(403, Plain);
        return;
      }
      var cookie := Find(r.cookies, SessionCookieName(w.insecure));
      if cookie.None? {
        w.Finish(401, Plain);
        return;
      }
      var rec;
      rec, t, s' := ReadForLogout(cookie.value, e, s, t, s', rid);
      if rec.None? {
        w.ClearSessionCookie();
        w.Finish(401, Plain);
        return;
      }
      var same := ConstantTime.ConstantTimeEqual(r.csrfHeader, rec.value.csrfToken);
      if !same {
        w.Finish(403, Plain);
        return;
      }
      t, s' := EndSession(w, cookie.value, e, s, t, s', rid);
    }
  }

  method Conclude(w: ResponseWriter, outcome: Result<Built, int>)
    requires w.Valid() && w.view == BLANK.(loginCookie := Clear) && (outcome.Success? ==> outcome.value.ttl > 0)
    modifies w
    ensures w.Valid() && w.view == CallbackResponse(outcome) && (outcome.Success? ==> w.location == "/")
  {
    if outcome.Failure? {
      w.Finish(outcome.error, Plain);
      return;
    }
    w.SetSessionCookie(outcome.value.id, outcome.value.ttl);
    w.Redirect("/", ToHome);
  }

  datatype LogoutEnv = LogoutEnv(readAt: int, read: Fault, deletedAt: int, delete: Fault)

  /** The logout reaches its Del. */
  ghost predicate Deletes(cfg: Config, s: State, r: HttpRequest, cookie: Option<string>, e: LogoutEnv)
  {
    && r.origin == cfg.externalOrigin && cookie.Some? && e.read.Fine?
    && V.Look(s.vault.sessions, cookie.value, e.readAt).Some?
    && V.Look(s.vault.sessions, cookie.value, e.readAt).value.csrfToken == r.csrfHeader
  }

  function FormFor(cfg: Config, code: string, txn: LoginTransaction): S.TokenForm
  {
    S.TokenForm(true, Some((cfg.provider.clientID, cfg.provider.clientSecret)), "", "",
                "authorization_code", code, cfg.redirectURI, txn.pkceVerifier, "")
  }

  /** The grant was issued this token, signed with these claims. */
  predicate Exchanged(op: P.Op, gid: nat, token: string, claims: P.Claims)
  {
    && gid in op.grants && op.grants[gid].phase.Issued? && op.grants[gid].phase.idToken == token
    && token in op.signed && op.signed[token] == claims
  }

  /** The callback has verified this token, signed with these claims. */
  ghost predicate Holding(s: State, rid: nat, token: string, claims: P.Claims)
  {
    && At(s, rid) && PcOf(s, rid).Verified? && PcOf(s, rid).ev.idToken == token
    && token in s.op.signed && s.op.signed[token] == claims
  }

  /** Subject, lifetime and token of a session come from one set of claims; no life left is 401. */
  function BuiltFrom(idToken: string, claims: P.Claims, drawn: seq<byte>, e: CallbackEnv): Result<Built, int>
  {
    var ttl := Seconds(claims.exp) - e.ttlAt;
    if ttl <= 0 then Failure(401)
    else if |drawn| < SESSION_TOKENS then Failure(500)
    else Success(Built(TokenAt(drawn, 1), Record(claims.sub, idToken, Seconds(claims.exp), e.createdAt,
                                                 TokenAt(drawn, 0)), ttl))
  }

  // ----- The steps of each segment -----

  lemma FreshStays(s: State, s': State, rid: nat, drawn: seq<byte>, n: nat)
    requires Same(s, s', rid) && FreshTokens(s, drawn, n)
    ensures FreshTokens(s', drawn, n)
  {
  }

  lemma StoreLoginSteps(cfg: Config, s0: State, t0: seq<Action>, s: State, rid: nat, setAt: int, fault: Fault)
    returns (t: seq<Action>, s': State)
    requires Leads(cfg, s0, t0, s) && At(s, rid) && PcOf(s, rid).LoginStoring? && s.now <= setAt
    ensures Leads(cfg, s0, t, s')
    ensures var pc := PcOf(s, rid);
            var vault := if fault.Refused? then s.vault
              else V.PutLogin(s.vault, pc.state, pc.txn, LOGIN_TRANSACTION_TTL, setAt);
            Now(s', rid, s'.now, Done(if fault.Fine? then Started(pc.state, pc.txn).Response(cfg) else Fail(500)),
                vault, s.op)
  {
    t, s' := t0, s;
    if !fault.Refused? {
      t, s' := LoginSetStep(cfg, s0, t, s', rid, setAt, fault.Fine?);
    }
    if !fault.Fine? {
      t, s' := GiveUpStep(cfg, s0, t, s', rid);
    }
  }

  lemma TakeSteps(cfg: Config, s0: State, t0: seq<Action>, s: State, rid: nat, e: CallbackEnv)
    returns (t: seq<Action>, s': State)
    requires Leads(cfg, s0, t0, s) && At(s, rid) && PcOf(s, rid).Taking? && s.now <= e.takenAt
    ensures Leads(cfg, s0, t, s') && Same(s, s', rid) && s'.now <= e.takenAt && s'.op == s.op
    ensures s'.vault == if e.take.Refused? then s.vault else V.DropLogin(s.vault, PcOf(s, rid).state)
    ensures var found := if e.take.Fine? then V.Look(s.vault.logins, PcOf(s, rid).state, e.takenAt) else None;
            PcOf(s', rid) == AfterTake(s.handlers[rid].req, PcOf(s, rid).state, found)
  {
    t, s' := t0, s;
    if !e.take.Refused? {
      t, s' := TakeStep(cfg, s0, t, s', rid, e.takenAt, e.take.Fine?);
    }
    if !e.take.Fine? {
      t, s' := GiveUpStep(cfg, s0, t, s', rid);
    }
  }

  /** The provider serves the request, whoever hears of it. */
  lemma GrantRequestSteps(cfg: Config, s0: State, t0: seq<Action>, s: State, rid: nat, sign: P.Claims -> string,
                          d: S.Draws, gid: nat, op': P.Op)
    returns (t: seq<Action>, s': State)
    requires Leads(cfg, s0, t0, s) && At(s, rid) && PcOf(s, rid).Exchanging? && s.now <= d.takenAt && d.InOrder()
             && gid !in s.op.grants
    requires S.GrantSteps(cfg.provider, sign, s.op, FormFor(cfg, CodeOf(s.handlers[rid].req), PcOf(s, rid).txn), d,
             gid, op')
    ensures Leads(cfg, s0, t, s') && Same(s, s', rid) && gid in s'.owner && s'.owner[gid] == rid
    ensures Now(s', rid, d.now, PcOf(s, rid), s.vault, op')
  {
    var f := FormFor(cfg, CodeOf(s.handlers[rid].req), PcOf(s, rid).txn);
    var op1, op2 :|
      && S.StepTo(cfg.provider, s.op, P.Receive(gid, f.code, f.codeVerifier, f.redirectURI), d.takenAt, op1)
      && S.StepTo(cfg.provider, op1, P.Redeem(gid), d.takenAt, op2)
      && S.StepTo(cfg.provider, op2, S.SettleOf(cfg.provider, sign, S.Found(s.op, f.code), d, gid), d.now, op');
    t, s' := SendStep(cfg, s0, t0, s, rid, d.takenAt, gid);
    t, s' := ProviderSteps(cfg, s0, t, s', rid, d.takenAt, P.Redeem(gid));
    t, s' := ProviderSteps(cfg, s0, t, s', rid, d.now, S.SettleOf(cfg.provider, sign, S.Found(s.op, f.code), d, gid));
  }

  lemma FailedExchangeSteps(cfg: Config, s0: State, t0: seq<Action>, s: State, rid: nat, sign: P.Claims -> string,
                            e: CallbackEnv, gid: nat, op': P.Op)
    returns (t: seq<Action>, s': State)
    requires Leads(cfg, s0, t0, s) && At(s, rid) && PcOf(s, rid).Exchanging? && s.now <= e.draws.takenAt
             && e.draws.InOrder() && gid !in s.op.grants
    requires if e.exchange.Refused? then op' == s.op
             else S.GrantSteps(cfg.provider, sign, s.op, FormFor(cfg, CodeOf(s.handlers[rid].req), PcOf(s, rid).txn),
                               e.draws, gid, op')
    ensures Leads(cfg, s0, t, s') && Same(s, s', rid)
    ensures Now(s', rid, s'.now, Done(FailCallback(401)), s.vault, op')
  {
    t, s' := t0, s;
    if !e.exchange.Refused? {
      t, s' := GrantRequestSteps(cfg, s0, t, s', rid, sign, e.draws, gid, op');
    }
    t, s' := GiveUpStep(cfg, s0, t, s', rid);
  }

  lemma ExchangeSteps(cfg: Config, s0: State, t0: seq<Action>, s: State, rid: nat, sign: P.Claims -> string,
                      e: CallbackEnv, gid: nat, op': P.Op, token: string)
    returns (t: seq<Action>, s': State)
    requires Leads(cfg, s0, t0, s) && At(s, rid) && PcOf(s, rid).Exchanging? && gid !in s.op.grants
    requires s.now <= e.draws.takenAt && e.draws.InOrder() && e.draws.now <= e.verifiedAt
    requires S.GrantSteps(cfg.provider, sign, s.op, FormFor(cfg, CodeOf(s.handlers[rid].req), PcOf(s, rid).txn),
             e.draws, gid, op')
    requires token in op'.signed && Exchanged(op', gid, token, op'.signed[token])
             && Acceptable(cfg, op'.signed[token], PcOf(s, rid).txn.nonce, e.verifiedAt)
    ensures Leads(cfg, s0, t, s') && Same(s, s', rid)
    ensures Now(s', rid, e.verifiedAt, Verified(Evidence(PcOf(s, rid).state, PcOf(s, rid).txn, gid, token)), s.vault,
            op')
  {
    t, s' := GrantRequestSteps(cfg, s0, t0, s, rid, sign, e.draws, gid, op');
    t, s' := VerifyStep(cfg, s0, t, s', rid, e.verifiedAt, gid);
  }

  lemma SessionDraws(cfg: Config, s0: State, t0: seq<Action>, s: State, rid: nat, drawn: seq<byte>, e: CallbackEnv)
    returns (t: seq<Action>, s': State)
    requires Leads(cfg, s0, t0, s) && At(s, rid) && PcOf(s, rid).Verified? && PcOf(s, rid).ev.idToken in s.op.signed
    requires s.now <= e.ttlAt <= e.createdAt && FreshTokens(s, drawn, 2)
    ensures Leads(cfg, s0, t, s') && At(s', rid) && s'.now <= e.createdAt && s'.op == s.op && s'.vault == s.vault
    ensures var b := BuiltFrom(PcOf(s, rid).ev.idToken, s.op.signed[PcOf(s, rid).ev.idToken], drawn, e);
            PcOf(s', rid) == if b.Success? then SessionStoring(b.value.id, b.value.rec, b.value.ttl)
              else Done(FailCallback(b.error))
  {
    t, s' := TtlStep(cfg, s0, t0, s, rid, e.ttlAt);
    if PcOf(s', rid).Timed? {
      if |drawn| >= SESSION_TOKENS {
        t, s' := SessionDrawStep(cfg, s0, t, s', rid, e.createdAt, TokenAt(drawn, 0), TokenAt(drawn, 1));
      } else {
        t, s' := GiveUpStep(cfg, s0, t, s', rid);
      }
    }
  }

  lemma StoreSessionSteps(cfg: Config, s0: State, t0: seq<Action>, s: State, rid: nat, setAt: int, fault: Fault)
    returns (t: seq<Action>, s': State)
    requires Leads(cfg, s0, t0, s) && At(s, rid) && PcOf(s, rid).SessionStoring? && s.now <= setAt
    ensures Leads(cfg, s0, t, s')
    ensures var pc := PcOf(s, rid);
            var vault := if fault.Refused? then s.vault else V.PutSession(s.vault, pc.id, pc.rec, pc.ttl, setAt);
            Now(s', rid, s'.now, Done(if fault.Fine? then Built(pc.id, pc.rec, pc.ttl).Response()
              else FailCallback(500)), vault, s.op)
  {
    t, s' := t0, s;
    if !fault.Refused? {
      t, s' := SessionSetStep(cfg, s0, t, s', rid, setAt, fault.Fine?);
    }
    if !fault.Fine? {
      t, s' := GiveUpStep(cfg, s0, t, s', rid);
    }
  }

  lemma StatusReadSteps(cfg: Config, s0: State, t0: seq<Action>, s: State, rid: nat, readAt: int, fault: Fault)
    returns (t: seq<Action>, s': State)
    requires Leads(cfg, s0, t0, s) && At(s, rid) && PcOf(s, rid).StatusReading? && s.now <= readAt
    ensures Leads(cfg, s0, t, s')
    ensures var found := if fault.Fine? then V.Look(s.vault.sessions, PcOf(s, rid).id, readAt) else None;
            var body := match found case None => Anonymous case Some(rec) => Identity(rec.subject, rec.csrfToken);
            Now(s', rid, s'.now, Done(Response(200, Keep, Keep, body)), s.vault, s.op)
  {
    if fault.Fine? {
      t, s' := StatusGetStep(cfg, s0, t0, s, rid, readAt);
    } else {
      t, s' := GiveUpStep(cfg, s0, t0, s, rid);
    }
  }

  lemma LogoutReadSteps(cfg: Config, s0: State, t0: seq<Action>, s: State, rid: nat, e: LogoutEnv)
    returns (t: seq<Action>, s': State)
    requires Leads(cfg, s0, t0, s) && At(s, rid) && PcOf(s, rid).LogoutReading? && s.handlers[rid].req.LogoutRequest?
             && s.now <= e.readAt
    ensures Leads(cfg, s0, t, s') && s'.now <= e.readAt
    ensures var id := PcOf(s, rid).id;
            var found := if e.read.Fine? then V.Look(s.vault.sessions, id, e.readAt) else None;
            var next := match found
                        case None => Done(Response(401, Keep, Clear, Plain))
                        case Some(rec) => if s.handlers[rid].req.csrfHeader != rec.csrfToken then Done(Fail(403))
                          else LogoutDeleting(id);
            Now(s', rid, s'.now, next, s.vault, s.op)
  {
    if e.read.Fine? {
      t, s' := LogoutGetStep(cfg, s0, t0, s, rid, e.readAt);
    } else {
      t, s' := GiveUpStep(cfg, s0, t0, s, rid);
    }
  }

  lemma LogoutDelSteps(cfg: Config, s0: State, t0: seq<Action>, s: State, rid: nat, e: LogoutEnv)
    returns (t: seq<Action>, s': State)
    requires Leads(cfg, s0, t0, s) && At(s, rid) && PcOf(s, rid).LogoutDeleting? && s.now <= e.deletedAt
    ensures Leads(cfg, s0, t, s')
    ensures var vault := if e.delete.Refused? then s.vault else V.DropSession(s.vault, PcOf(s, rid).id);
            Now(s', rid, s'.now, Done(if e.delete.Fine? then Response(204, Keep, Clear, Plain) else Fail(500)),
                vault, s.op)
  {
    t, s' := t0, s;
    if !e.delete.Refused? {
      t, s' := DelStep(cfg, s0, t, s', rid, e.deletedAt, e.delete.Fine?);
    }
    if !e.delete.Fine? {
      t, s' := GiveUpStep(cfg, s0, t, s', rid);
    }
  }
}
