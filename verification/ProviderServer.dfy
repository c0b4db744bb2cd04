/**
 The provider's server object: two maps behind a mutex, changed by the
 /authorize and /token handlers. Each handler is proved to be the corresponding
 steps of Provider, so every theorem about runs of Provider is about this code.
 */
module ProviderServer {
  import opened Wrappers
  import opened SessionTypes
  import opened Provider
  import Q = QueryString
  import opened Folding

  /** A parsed URL: what precedes its query, and the query as text. */
  datatype Url = Url(base: string, query: string)

  /** Where an /authorize request may end. */
  datatype AuthorizeReply = BadRequest(reason: string) | RedirectTo(url: Url)

  /** What /authorize looks at. */
  function AuthorizeRequestOf(q: Q.Query): AuthorizeRequest
  {
    AuthorizeRequest(
      Q.Get(q, "response_type"), Q.Get(q, "client_id"), Q.Get(q, "redirect_uri"), Q.Get(q, "code_challenge"),
      Q.Get(q, "code_challenge_method"), Q.Get(q, "nonce"), Q.Get(q, "state"), Q.Get(q, "login_hint"))
  }

  /** The redirect URI's own query with the code, and the state if there is one, set in it. */
  function RedirectQuery(query: string, code: string, state: string): string
  {
    var withCode := Q.Set(Q.Parse(query), "code", code);
    Q.Encode(if state == "" then withCode else Q.Set(withCode, "state", state))
  }

  /** The callback reads back the code and the state that were sent, and any other parameter as it was. */
  lemma RedirectReads(query: string, code: string, state: string, key: string)
    ensures Q.Get(Q.Parse(RedirectQuery(query, code, state)), key) ==
            if key == "code" then code
            else if key == "state" && state != "" then state
            else Q.Get(Q.Parse(query), key)
  {
    var q := Q.Parse(query);
    var withCode := Q.Set(q, "code", code);
    Q.ParseEncode(if state == "" then withCode else Q.Set(withCode, "state", state), key);
    Q.GetSet(q, "code", code, key);
    Q.GetSet(withCode, "state", state, key);
  }

  /** The form of /token; absent fields are empty. `basic` is the Authorization header, when it is Basic. */
  datatype TokenForm = TokenForm(
    wellFormed: bool,
    basic: Option<(string, string)>,
    clientID: string,
    clientSecret: string,
    grantType: string,
    code: string,
    redirectURI: string,
    codeVerifier: string,
    refreshToken: string)

  datatype TokenReply =
    | Refusal(error: string)
    | Tokens(idToken: string, refreshToken: string)

  /** What the random source and the clock give one token request. */
  datatype Draws = Draws(refresh: string, takenAt: int, clock: Clock, now: int)
  {
    /** The clock does not run backwards while the request is served. */
    predicate InOrder() { takenAt <= clock.checked <= clock.signed <= now }
  }

  predicate Authentic(cfg: Config, f: TokenForm)
  {
    if f.basic.Some? then f.basic.value == (cfg.clientID, cfg.clientSecret)
    else f.clientID == cfg.clientID && f.clientSecret == cfg.clientSecret
  }

  /** A token determines the claims signed into it. */
  ghost predicate Signs(sign: Claims -> string)
  {
    forall a, b :: sign(a) == sign(b) ==> a == b
  }

  /** Why a request is refused: the first check it fails. */
  function FirstFailure(cfg: Config, q: AuthorizeRequest): string
  {
    if q.responseType != "code" then "unsupported_response_type"
    else if q.clientID != cfg.clientID then "unauthorized_client"
    else if q.redirectURI == "" then "invalid_request: redirect_uri required"
    else "invalid_request: PKCE (S256) is required"
  }

  /** Reading a token's claims undoes signing. */
  ghost predicate ReadsBack(sign: Claims -> string, read: string -> Claims)
  {
    forall c :: read(sign(c)) == c
  }

  class Server {
    const cfg: Config
    const sign: Claims -> string
    const parseURL: string -> Option<Url>
    var codes: map<string, AuthCode>
    var tokens: map<string, RefreshToken>
    ghost var op: Op

    constructor (cfg: Config, sign: Claims -> string, parseURL: string -> Option<Url>)
      requires Signs(sign)
      ensures Valid() && op == Initial && this.cfg == cfg && this.sign == sign && this.parseURL == parseURL
    {
      this.cfg, this.sign, this.parseURL := cfg, sign, parseURL;
      codes, tokens, op := map[], map[], Initial;
    }

    ghost predicate Valid()
      reads this
    {
      && op.codes == codes && op.tokens == tokens
      && Sound(cfg, sign, op)
    }

    /** The server did this one step. */
    twostate predicate Stepped(a: Action, now: int)
      reads this
    {
      old(Enabled(cfg, op, a, now)) && op == Step(cfg, old(op), a, now)
    }

    /** The server did the Refresh step that this form asks for, and answered accordingly. */
    twostate predicate Refreshed(f: TokenForm, d: Draws, r: TokenReply)
      reads this
    {
      var a := RefreshOf(cfg, sign, old(op), f, d);
      Stepped(a, d.now) && r == RefreshReply(old(op), a)
    }

    /** A code is recorded before the redirect URI is parsed; a malformed one leaves it undelivered. */
    method HandleAuthorize(query: Q.Query, code: string, now: int) returns (r: AuthorizeReply)
      requires Valid() && code !in op.everCodes
      modifies this
      ensures Valid() && Stepped(Authorize(AuthorizeRequestOf(query), code), now)
      ensures var q := AuthorizeRequestOf(query);
              if AuthorizeAccepted(cfg, q) then
                r == match parseURL(q.redirectURI)
                     case None => BadRequest("invalid_request: malformed redirect_uri")
                     case Some(dest) => RedirectTo(Url(dest.base, RedirectQuery(dest.query, code, q.state)))
              else r == BadRequest(FirstFailure(cfg, q))
    {
      ghost var req := AuthorizeRequestOf(query);
      AuthorizeStep(cfg, sign, op, req, code, now);
      op := Step(cfg, op, Authorize(req, code), now);

      if Q.Get(query, "response_type") != "code" {
        return BadRequest("unsupported_response_type");
      }
      if Q.Get(query, "client_id") != cfg.clientID {
        return BadRequest("unauthorized_client");
      }
      var redirectURI := Q.Get(query, "redirect_uri");
      if redirectURI == "" {
        return BadRequest("invalid_request: redirect_uri required");
      }
      if Q.Get(query, "code_challenge_method") != "S256" || Q.Get(query, "code_challenge") == "" {
        return BadRequest("invalid_request: PKCE (S256) is required");
      }
      var subject := Q.Get(query, "login_hint");
      if subject == "" {
        subject := DEFAULT_SUBJECT;
      }
      var ac := AuthCode(subject, redirectURI, Q.Get(query, "nonce"), Q.Get(query, "code_challenge"), now + MINUTE);
      codes := codes[code := ac];
      var dest := parseURL(redirectURI);
      if dest.None? {
        return BadRequest("invalid_request: malformed redirect_uri");
      }
      var destQuery := Q.Set(Q.Parse(dest.value.query), "code", code);
      var state := Q.Get(query, "state");
      if state != "" {
        destQuery := Q.Set(destQuery, "state", state);
      }
      r := RedirectTo(Url(dest.value.base, Q.Encode(destQuery)));
    }

    /** Basic credentials, when present, are the only ones looked at. */
    method AuthenticateClient(f: TokenForm) returns (ok: bool)
      ensures ok <==> Authentic(cfg, f)
    {
      if f.basic.Some? {
        return f.basic.value.0 == cfg.clientID && f.basic.value.1 == cfg.clientSecret;
      }
      ok := f.clientID == cfg.clientID && f.clientSecret == cfg.clientSecret;
    }

    /** A request that is refused before its grant type is looked at changes nothing. */
    method HandleToken(f: TokenForm, d: Draws, ghost gid: nat) returns (r: TokenReply)
      requires Valid() && gid !in op.grants && d.refresh !in op.minting && d.InOrder()
      modifies this
      ensures Valid()
      ensures !f.wellFormed ==> r == Refusal("invalid_request") && op == old(op)
      ensures f.wellFormed && !Authentic(cfg, f) ==> r == Refusal("invalid_client") && op == old(op)
      ensures f.wellFormed && Authentic(cfg, f) ==>
                if f.grantType == "authorization_code" then
                  GrantSteps(cfg, sign, old(op), f, d, gid, op) && r == GrantReply(cfg, op, gid)
                else if f.grantType == "refresh_token" then
                  Refreshed(f, d, r)
                else r == Refusal("unsupported_grant_type") && op == old(op)
    {
      if !f.wellFormed {
        return Refusal("invalid_request");
      }
      var ok := AuthenticateClient(f);
      if !ok {
        return Refusal("invalid_client");
      }
      if f.grantType == "authorization_code" {
        r := HandleAuthorizationCodeGrant(f, d, gid);
      } else if f.grantType == "refresh_token" {
        r := HandleRefreshTokenGrant(f, d);
      } else {
        r := Refusal("unsupported_grant_type");
      }
    }

    /** Receive, Redeem, Settle. */
    method HandleAuthorizationCodeGrant(f: TokenForm, d: Draws, ghost gid: nat) returns (r: TokenReply)
      requires Valid() && gid !in op.grants && d.refresh !in op.minting && d.InOrder()
      modifies this
      ensures Valid()
      ensures GrantSteps(cfg, sign, old(op), f, d, gid, op) && r == GrantReply(cfg, op, gid)
      ensures f.code !in codes
      ensures r.Tokens?
              ==> Issues(op, gid, r, ClaimsFor(cfg, old(codes)[f.code].subject, old(codes)[f.code].nonce,
              d.clock.signed))
      ensures r.Tokens? <==>
                && f.code in old(codes)
                && d.clock.checked <= old(codes)[f.code].expiresAt
                && f.redirectURI == old(codes)[f.code].redirectURI
                && VerifyPKCE(cfg, old(codes)[f.code].codeChallenge, f.codeVerifier)
    {
      var found := TakeCode(f, d.takenAt, gid);
      r := SettleCode(found, f, d, gid);
    }

    /** The first locked section: whatever is stored under the code is removed with the read. */
    method TakeCode(f: TokenForm, now: int, ghost gid: nat) returns (found: Option<AuthCode>)
      requires Valid() && gid !in op.grants
      modifies this
      ensures Valid() && found == Found(old(op), f.code) && codes == old(codes) - {f.code} && tokens == old(tokens)
      ensures op.minting == old(op).minting
      ensures gid in op.grants && op.grants[gid] == Grant(f.code, f.codeVerifier, f.redirectURI, Redeemed(found, now))
      ensures exists op1 ::
                StepTo(cfg, old(op), Receive(gid, f.code, f.codeVerifier, f.redirectURI), now, op1)
                  && StepTo(cfg, op1, Redeem(gid), now, op)
    {
      ghost var op1 := ReceiveStep(cfg, sign, op, f, gid, now);
      op := RedeemStep(cfg, sign, op1, gid, now);
      if f.code !in codes {
        return None;
      }
      found := Some(codes[f.code]);
      codes := codes - {f.code};
    }

    /** The checks, the signature, and the second locked section, from any state in which this grant has its code. */
    method SettleCode(found: Option<AuthCode>, f: TokenForm, d: Draws, ghost gid: nat) returns (r: TokenReply)
      requires Valid() && d.refresh !in op.minting && d.InOrder()
      requires gid in op.grants && op.grants[gid] == Grant(f.code, f.codeVerifier, f.redirectURI,
               Redeemed(found, d.takenAt))
      modifies this
      ensures Valid() && codes == old(codes)
      ensures StepTo(cfg, old(op), SettleOf(cfg, sign, found, d, gid), d.now, op) && r == GrantReply(cfg, op, gid)
      ensures r.Tokens? <==> GrantAccepted(cfg, old(op).grants[gid], found, d.clock.checked)
      ensures r.Tokens? ==> Issues(op, gid, r, ClaimsFor(cfg, found.value.subject, found.value.nonce, d.clock.signed))
    {
      op := SettleStep(cfg, sign, op, found, d, gid);
      if found.None? {
        return Refusal("invalid_grant");
      }
      var ac := found.value;
      if d.clock.checked > ac.expiresAt {
        return Refusal("invalid_grant");
      }
      if f.redirectURI != ac.redirectURI {
        return Refusal("invalid_grant");
      }
      if !VerifyPKCE(cfg, ac.codeChallenge, f.codeVerifier) {
        return Refusal("invalid_grant");
      }
      r := IssueTokens(ac.subject, ac.nonce, d.clock.signed, d);
    }

    /** The refresh token stays: it may be used again until it expires. */
    method HandleRefreshTokenGrant(f: TokenForm, d: Draws) returns (r: TokenReply)
      requires Valid() && d.refresh !in op.minting && d.InOrder()
      modifies this
      ensures Valid()
      ensures Refreshed(f, d, r)
      ensures f.refreshToken in old(tokens) ==>
              f.refreshToken in tokens
              && tokens[f.refreshToken] == old(tokens)[f.refreshToken]
      ensures codes == old(codes)
    {
      RefreshStepKeeps(cfg, sign, op, f, d);
      op := Step(cfg, op, RefreshOf(cfg, sign, op, f, d), d.now);

      var ok := f.refreshToken in tokens;
      if !ok || d.clock.checked > tokens[f.refreshToken].expiresAt {
        return Refusal("invalid_grant");
      }
      r := IssueTokens(tokens[f.refreshToken].subject, "", d.clock.signed, d);
    }

    method IssueTokens(subject: string, nonce: string, signedAt: int, d: Draws) returns (r: TokenReply)
      modifies this`tokens
      ensures tokens == old(tokens)[d.refresh := RefreshToken(subject, d.now + HOUR)]
      ensures r == Tokens(sign(ClaimsFor(cfg, subject, nonce, signedAt)), d.refresh)
    {
      var idToken := SignIDToken(subject, nonce, signedAt);
      tokens := tokens[d.refresh := RefreshToken(subject, d.now + HOUR)];
      r := Tokens(idToken, d.refresh);
    }

    /** Seconds since 1970 at signing and at expiry; an empty nonce is no nonce claim. */
    method SignIDToken(subject: string, nonce: string, now: int) returns (t: string)
      ensures t == sign(ClaimsFor(cfg, subject, nonce, now))
    {
      var claims := Claims(cfg.issuerURL, subject, cfg.clientID, Unix(now), Unix(now + cfg.idTokenTTL), "");
      if nonce != "" {
        claims := claims.(nonce := nonce);
      }
      t := sign(claims);
    }
  }

  /** The state machine's invariant, and that all tokens are signed with this key. */
  ghost predicate Sound(cfg: Config, sign: Claims -> string, op: Op)
  {
    forall o {:trigger Unfold(o)} :: Unfold(o) ==> Inv(cfg, op) && Signs(sign) && SignedHere(sign, op)
  }

  /** This reply's ID token was signed with these claims, for this grant. */
  ghost predicate Issues(op: Op, gid: nat, r: TokenReply, claims: Claims)
    requires r.Tokens?
  {
    && gid in op.grants && op.grants[gid].phase == Issued(r.idToken, r.refreshToken)
    && r.idToken in op.signed && op.signed[r.idToken] == claims
  }

  ghost predicate SignedHere(sign: Claims -> string, op: Op)
  {
    forall t <- op.signed :: t == sign(op.signed[t])
  }

  // ----- What the two grants are, in steps -----

  /** Signed, whatever becomes of it: the claims of the code that was found. */
  function SettleOf(cfg: Config, sign: Claims -> string, found: Option<AuthCode>, d: Draws, gid: nat): Action
  {
    var token := if found.None? then ""
      else sign(ClaimsFor(cfg, found.value.subject, found.value.nonce, d.clock.signed));
    Settle(gid, token, d.refresh, d.clock)
  }

  function RefreshOf(cfg: Config, sign: Claims -> string, op: Op, f: TokenForm, d: Draws): Action
  {
    var token := if f.refreshToken !in op.tokens then ""
      else sign(ClaimsFor(cfg, op.tokens[f.refreshToken].subject, "", d.clock.signed));
    Refresh(f.refreshToken, token, d.refresh, d.clock)
  }

  ghost predicate StepTo(cfg: Config, op: Op, a: Action, now: int, op': Op)
  {
    Enabled(cfg, op, a, now) && op' == Step(cfg, op, a, now)
  }

  /** Receive, Redeem, Settle. */
  ghost predicate GrantSteps(cfg: Config, sign: Claims -> string, op: Op, f: TokenForm, d: Draws, gid: nat, op': Op)
  {
    exists op1, op2 ::
      && StepTo(cfg, op, Receive(gid, f.code, f.codeVerifier, f.redirectURI), d.takenAt, op1)
      && StepTo(cfg, op1, Redeem(gid), d.takenAt, op2)
      && StepTo(cfg, op2, SettleOf(cfg, sign, Found(op, f.code), d, gid), d.now, op')
  }

  function Found(op: Op, code: string): Option<AuthCode>
  {
    if code in op.codes then Some(op.codes[code]) else None
  }

  function GrantReply(cfg: Config, op: Op, gid: nat): TokenReply
  {
    if gid in op.grants && op.grants[gid].phase.Issued? then
      Tokens(op.grants[gid].phase.idToken, op.grants[gid].phase.refresh)
    else Refusal("invalid_grant")
  }

  function RefreshReply(op: Op, a: Action): TokenReply
  {
    if a.Refresh? && RefreshAccepted(op, a.token, a.clock.checked) then Tokens(a.idToken, a.refresh)
    else Refusal("invalid_grant")
  }

  lemma ReceiveStep(cfg: Config, sign: Claims -> string, op: Op, f: TokenForm, gid: nat, now: int) returns (op': Op)
    requires Sound(cfg, sign, op) && gid !in op.grants
    ensures StepTo(cfg, op, Receive(gid, f.code, f.codeVerifier, f.redirectURI), now, op')
    ensures Sound(cfg, sign, op') && op'.minting == op.minting && op'.codes == op.codes && op'.tokens == op.tokens
    ensures gid in op'.grants && op'.grants[gid] == Grant(f.code, f.codeVerifier, f.redirectURI, Received)
  {
    assert Unfold(0);
    op' := Step(cfg, op, Receive(gid, f.code, f.codeVerifier, f.redirectURI), now);
    StepKeeps(cfg, op, Receive(gid, f.code, f.codeVerifier, f.redirectURI), now);
  }

  lemma RedeemStep(cfg: Config, sign: Claims -> string, op: Op, gid: nat, now: int) returns (op': Op)
    requires Sound(cfg, sign, op) && gid in op.grants && op.grants[gid].phase.Received?
    ensures StepTo(cfg, op, Redeem(gid), now, op')
    ensures Sound(cfg, sign, op') && op'.minting == op.minting
    ensures op'.codes == op.codes - {op.grants[gid].code} && op'.tokens == op.tokens
    ensures gid in op'.grants
            && op'.grants[gid] == op.grants[gid].(phase := Redeemed(Found(op, op.grants[gid].code), now))
  {
    assert Unfold(0);
    op' := Step(cfg, op, Redeem(gid), now);
    StepKeeps(cfg, op, Redeem(gid), now);
  }

  lemma SettleSound(cfg: Config, sign: Claims -> string, op: Op, found: Option<AuthCode>, d: Draws, gid: nat)
    returns (op': Op)
    requires Sound(cfg, sign, op) && d.refresh !in op.minting
    requires gid in op.grants && op.grants[gid].phase == Redeemed(found, d.takenAt) && d.InOrder()
    ensures StepTo(cfg, op, SettleOf(cfg, sign, found, d, gid), d.now, op') && Sound(cfg, sign, op')
  {
    var settle := SettleOf(cfg, sign, found, d, gid);
    assert Unfold(0);
    op' := Step(cfg, op, settle, d.now);
    StepKeeps(cfg, op, settle, d.now);
  }

  lemma SettleStep(cfg: Config, sign: Claims -> string, op: Op, found: Option<AuthCode>, d: Draws, gid: nat)
    returns (op': Op)
    requires Sound(cfg, sign, op) && d.refresh !in op.minting
    requires gid in op.grants && op.grants[gid].phase == Redeemed(found, d.takenAt) && d.InOrder()
    ensures StepTo(cfg, op, SettleOf(cfg, sign, found, d, gid), d.now, op')
    ensures Sound(cfg, sign, op') && op'.codes == op.codes
    ensures if GrantAccepted(cfg, op.grants[gid], found, d.clock.checked) then
              && op'.tokens == op.tokens[d.refresh := RefreshToken(found.value.subject, d.now + HOUR)]
              && GrantReply(cfg, op', gid)
                == Tokens(sign(ClaimsFor(cfg, found.value.subject, found.value.nonce, d.clock.signed)), d.refresh)
              && Issues(op', gid, GrantReply(cfg, op', gid),
                        ClaimsFor(cfg, found.value.subject, found.value.nonce, d.clock.signed))
            else op'.tokens == op.tokens && GrantReply(cfg, op', gid) == Refusal("invalid_grant")
  {
    op' := SettleSound(cfg, sign, op, found, d, gid);
  }

  lemma AuthorizeStep(cfg: Config, sign: Claims -> string, op: Op, q: AuthorizeRequest, code: string, now: int)
    requires Sound(cfg, sign, op) && code !in op.everCodes
    ensures Enabled(cfg, op, Authorize(q, code), now)
    ensures var op' := Step(cfg, op, Authorize(q, code), now);
            && Sound(cfg, sign, op') && op'.tokens == op.tokens
            && op'.codes == if AuthorizeAccepted(cfg, q) then op.codes[code := CodeFor(q, now)] else op.codes
  {
    assert Unfold(0);
    StepKeeps(cfg, op, Authorize(q, code), now);
  }

  lemma RefreshStepKeeps(cfg: Config, sign: Claims -> string, op: Op, f: TokenForm, d: Draws)
    requires Sound(cfg, sign, op) && d.refresh !in op.minting && d.InOrder()
    ensures var a := RefreshOf(cfg, sign, op, f, d);
            && Enabled(cfg, op, a, d.now)
            && var op' := Step(cfg, op, a, d.now);
            && Sound(cfg, sign, op') && op'.codes == op.codes
            && op'.tokens == if RefreshAccepted(op, f.refreshToken, d.clock.checked)
                             then op.tokens[d.refresh := RefreshToken(op.tokens[f.refreshToken].subject, d.now + HOUR)]
                             else op.tokens
    ensures f.refreshToken in op.tokens ==> f.refreshToken != d.refresh
  {
    assert Unfold(0);
    assert f.refreshToken in op.tokens ==> TokenInv(op, f.refreshToken);
    StepKeeps(cfg, op, RefreshOf(cfg, sign, op, f, d), d.now);
  }
}
