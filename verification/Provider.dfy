/**
 The OpenID provider as a state machine. The authorization_code grant is split
 where its handler leaves the mutex: Receive, Redeem (look up and delete the
 code), Settle (check, sign, record a refresh token), so any number of grant
 requests may be interleaved, naming any code, from any authenticated client.

 SHA-256 followed by base64url is the function field `s256` of Config. An ID
 token is a string the provider has recorded in `signed`; nobody else can add
 to that map, which is how signatures are modelled.
 */
module Provider {
  import opened Wrappers
  import opened SessionTypes

  datatype Config = Config(
    issuerURL: string,
    clientID: string,
    clientSecret: string,
    idTokenTTL: int,
    s256: string -> string)

  datatype AuthCode = AuthCode(
    subject: string,
    redirectURI: string,
    nonce: string,
    codeChallenge: string,
    expiresAt: int)

  datatype RefreshToken = RefreshToken(subject: string, expiresAt: int)

  /** ID token claims; an empty nonce is an absent nonce claim. `iat` and `exp` are in seconds. */
  datatype Claims = Claims(iss: string, sub: string, aud: string, iat: int, exp: int, nonce: string)

  datatype AuthorizeRequest = AuthorizeRequest(
    responseType: string,
    clientID: string,
    redirectURI: string,
    codeChallenge: string,
    codeChallengeMethod: string,
    nonce: string,
    state: string,
    loginHint: string)

  datatype Phase =
    | Received
    | Redeemed(found: Option<AuthCode>, at: int)
    | Refused
    | Issued(idToken: string, refresh: string)

  /** One authenticated authorization_code request. */
  datatype Grant = Grant(code: string, verifier: string, redirectURI: string, phase: Phase)

  /** Where a refresh token came from. */
  datatype Minting = ByGrant(gid: nat) | ByRefresh(previous: string)

  datatype Op = Op(
    codes: map<string, AuthCode>,
    tokens: map<string, RefreshToken>,
    grants: map<nat, Grant>,
    signed: map<string, Claims>,
    // History, read by no step: every code and refresh token ever recorded,
    // the grant that removed each code, and the ID tokens signed by a refresh.
    everCodes: map<string, AuthCode>,
    redeemer: map<string, nat>,
    minting: map<string, Minting>,
    refreshed: set<string>)

  const Initial := Op(map[], map[], map[], map[], map[], map[], map[], {})

  /** A token handler reads its clock to check an age and again to sign; its refresh token is recorded last. */
  datatype Clock = Clock(checked: int, signed: int)

  datatype Action =
    | Authorize(req: AuthorizeRequest, code: string)
    | Receive(gid: nat, code: string, verifier: string, redirectURI: string)
    | Redeem(gid: nat)
    | Settle(gid: nat, idToken: string, refresh: string, clock: Clock)
    | Refresh(token: string, idToken: string, refresh: string, clock: Clock)

  const DEFAULT_SUBJECT := "test-user@example.com"

  /** The checks before a code is drawn. */
  predicate AuthorizeAccepted(cfg: Config, req: AuthorizeRequest)
  {
    && req.responseType == "code"
    && req.clientID == cfg.clientID
    && req.redirectURI != ""
    && req.codeChallengeMethod == "S256"
    && req.codeChallenge != ""
  }

  function CodeFor(req: AuthorizeRequest, now: int): AuthCode
  {
    AuthCode(
      if req.loginHint == "" then DEFAULT_SUBJECT else req.loginHint,
      req.redirectURI, req.nonce, req.codeChallenge, now + MINUTE)
  }

  predicate VerifyPKCE(cfg: Config, challenge: string, verifier: string)
  {
    verifier != "" && cfg.s256(verifier) == challenge
  }

  /** What a redeemed code must still satisfy. */
  predicate GrantAccepted(cfg: Config, g: Grant, found: Option<AuthCode>, now: int)
  {
    && found.Some?
    && now <= found.value.expiresAt
    && g.redirectURI == found.value.redirectURI
    && VerifyPKCE(cfg, found.value.codeChallenge, g.verifier)
  }

  function ClaimsFor(cfg: Config, subject: string, nonce: string, now: int): Claims
  {
    Claims(cfg.issuerURL, subject, cfg.clientID, Unix(now), Unix(now + cfg.idTokenTTL), nonce)
  }

  predicate RefreshAccepted(op: Op, token: string, now: int)
  {
    token in op.tokens && now <= op.tokens[token].expiresAt
  }

  /** Draws are fresh; a string already signed carries its own claims for ever. */
  ghost predicate Enabled(cfg: Config, op: Op, a: Action, now: int)
  {
    match a
    case Authorize(req, code) => AuthorizeAccepted(cfg, req) ==> code !in op.everCodes
    case Receive(gid, _, _, _) => gid !in op.grants
    case Redeem(gid) => gid in op.grants && op.grants[gid].phase.Received?
    case Settle(gid, idToken, refresh, clock) =>
      && gid in op.grants && op.grants[gid].phase.Redeemed?
      && op.grants[gid].phase.at <= clock.checked <= clock.signed <= now
      && (GrantAccepted(cfg, op.grants[gid], op.grants[gid].phase.found, clock.checked) ==>
            var ac := op.grants[gid].phase.found.value;
            CanSign(op, idToken, ClaimsFor(cfg, ac.subject, ac.nonce, clock.signed)) && refresh !in op.minting)
    case Refresh(token, idToken, refresh, clock) =>
      && clock.checked <= clock.signed <= now
      && (RefreshAccepted(op, token, clock.checked) ==>
            CanSign(op, idToken, ClaimsFor(cfg, op.tokens[token].subject, "", clock.signed)) && refresh !in op.minting)
  }

  predicate CanSign(op: Op, idToken: string, claims: Claims)
  {
    idToken in op.signed ==> op.signed[idToken] == claims
  }

  function Step(cfg: Config, op: Op, a: Action, now: int): Op
    requires Enabled(cfg, op, a, now)
  {
    match a
    case Authorize(req, code) =>
      if AuthorizeAccepted(cfg, req) then RecordCode(op, code, CodeFor(req, now)) else op
    case Receive(gid, code, verifier, redirectURI) =>
      op.(grants := op.grants[gid := Grant(code, verifier, redirectURI, Received)])
    case Redeem(gid) => TakeCode(op, gid, now)
    case Settle(gid, idToken, refresh, clock) =>
      var g := op.grants[gid];
      if GrantAccepted(cfg, g, g.phase.found, clock.checked) then
        var ac := g.phase.found.value;
        MintTokens(op, idToken, ClaimsFor(cfg, ac.subject, ac.nonce, clock.signed), refresh,
                   RefreshToken(ac.subject, now + HOUR), ByGrant(gid))
          .(grants := op.grants[gid := g.(phase := Issued(idToken, refresh))])
      else WithPhase(op, gid, Refused)
    case Refresh(token, idToken, refresh, clock) =>
      if RefreshAccepted(op, token, clock.checked) then
        var subject := op.tokens[token].subject;
        MintTokens(op, idToken, ClaimsFor(cfg, subject, "", clock.signed), refresh,
                   RefreshToken(subject, now + HOUR), ByRefresh(token))
          .(refreshed := op.refreshed + {idToken})
      else op
  }

  function WithPhase(op: Op, gid: nat, phase: Phase): Op
    requires gid in op.grants
  {
    op.(grants := op.grants[gid := op.grants[gid].(phase := phase)])
  }

  function RecordCode(op: Op, code: string, ac: AuthCode): Op
  {
    op.(codes := op.codes[code := ac], everCodes := op.everCodes[code := ac])
  }

  /** The locked section of the code grant: whatever is stored under the code is removed with the read. */
  function TakeCode(op: Op, gid: nat, now: int): Op
    requires gid in op.grants
  {
    var g := op.grants[gid];
    if g.code in op.codes then
      op.(codes := op.codes - {g.code},
          redeemer := op.redeemer[g.code := gid],
          grants := op.grants[gid := g.(phase := Redeemed(Some(op.codes[g.code]), now))])
    else op.(grants := op.grants[gid := g.(phase := Redeemed(None, now))])
  }

  function MintTokens(op: Op, idToken: string, claims: Claims, refresh: string, rt: RefreshToken, how: Minting): Op
  {
    op.(signed := op.signed[idToken := claims],
        tokens := op.tokens[refresh := rt],
        minting := op.minting[refresh := how])
  }

  // ----- What every step keeps -----

  ghost predicate CodesInv(op: Op)
  {
    && (forall c <- op.codes :: c in op.everCodes && op.everCodes[c] == op.codes[c])
    && (forall c <- op.redeemer :: c !in op.codes && c in op.everCodes)
  }

  /** The code a grant has taken is recorded under that grant and is the code as authorized. */
  ghost predicate Took(op: Op, gid: nat, g: Grant, ac: AuthCode)
  {
    g.code in op.redeemer && op.redeemer[g.code] == gid
    && g.code in op.everCodes && op.everCodes[g.code] == ac
  }

  ghost predicate GrantInv(cfg: Config, op: Op, gid: nat, g: Grant)
  {
    match g.phase
    case Received => true
    case Redeemed(None, _) => true
    case Redeemed(Some(ac), _) => Took(op, gid, g, ac)
    case Refused => true
    case Issued(idToken, refresh) =>
      && g.code in op.everCodes
      && var ac := op.everCodes[g.code];
      && Took(op, gid, g, ac)
      && g.redirectURI == ac.redirectURI
      && VerifyPKCE(cfg, ac.codeChallenge, g.verifier)
      && idToken in op.signed
      && op.signed[idToken].iss == cfg.issuerURL
      && op.signed[idToken].aud == cfg.clientID
      && op.signed[idToken].sub == ac.subject
      && op.signed[idToken].nonce == ac.nonce
      && refresh in op.minting && op.minting[refresh] == ByGrant(gid)
  }

  ghost predicate GrantsInv(cfg: Config, op: Op)
  {
    forall gid {:trigger GrantInv(cfg, op, gid, op.grants[gid])} :: gid in op.grants
      ==> GrantInv(cfg, op, gid, op.grants[gid])
  }

  /** A grant that has not taken its code is nobody's redeemer; a redeemer has taken it. */
  ghost predicate RedeemersInv(op: Op)
  {
    forall c <- op.redeemer ::
      var gid := op.redeemer[c];
      gid in op.grants && op.grants[gid].code == c && !op.grants[gid].phase.Received?
  }

  ghost predicate TokenInv(op: Op, t: string)
  {
    t in op.minting && t in op.tokens &&
    match op.minting[t]
    case ByGrant(gid) =>
      && gid in op.grants && op.grants[gid].phase.Issued? && op.grants[gid].phase.refresh == t
      && op.grants[gid].code in op.everCodes
      && op.everCodes[op.grants[gid].code].subject == op.tokens[t].subject
    case ByRefresh(p) => p in op.tokens && op.tokens[p].subject == op.tokens[t].subject
  }

  // The explicit trigger keeps the solver from walking refresh chains by itself.
  ghost predicate TokensInv(op: Op)
  {
    && (forall t {:trigger TokenInv(op, t)} :: t in op.tokens || t in op.minting ==> TokenInv(op, t))
    && (forall t <- op.refreshed :: t in op.signed && op.signed[t].nonce == "")
  }

  ghost predicate Inv(cfg: Config, op: Op)
  {
    CodesInv(op) && GrantsInv(cfg, op) && RedeemersInv(op) && TokensInv(op)
  }

  ghost predicate Extends<V>(m: map<string, V>, m': map<string, V>)
  {
    forall k <- m :: k in m' && m'[k] == m[k]
  }

  /** A request keeps its parameters, and a settled grant is settled for good. */
  ghost predicate Advances(m: map<nat, Grant>, m': map<nat, Grant>)
  {
    forall gid <- m ::
      && gid in m'
      && m'[gid] == m[gid].(phase := m'[gid].phase)
      && (m'[gid].phase == m[gid].phase || m[gid].phase.Received? || m[gid].phase.Redeemed?)
      && (m'[gid].phase.Received? ==> m[gid].phase.Received?)
  }

  /** What no step takes back. */
  ghost predicate Grows(op: Op, op': Op)
  {
    && Extends(op.everCodes, op'.everCodes)
    && Extends(op.redeemer, op'.redeemer)
    && Extends(op.signed, op'.signed)
    && Extends(op.tokens, op'.tokens)
    && Extends(op.minting, op'.minting)
    && Advances(op.grants, op'.grants)
  }

  lemma GrowsTransitive(op: Op, op1: Op, op2: Op)
    requires Grows(op, op1) && Grows(op1, op2)
    ensures Grows(op, op2)
  {
  }

  lemma GrantStays(cfg: Config, op: Op, op': Op, gid: nat, g: Grant)
    requires GrantInv(cfg, op, gid, g) && Grows(op, op')
    ensures GrantInv(cfg, op', gid, g)
  {
  }

  lemma TokenStays(op: Op, op': Op, t: string)
    requires TokenInv(op, t) && Grows(op, op')
    ensures TokenInv(op', t)
  {
  }

  lemma GrantsStay(cfg: Config, op: Op, op': Op, except: set<nat>)
    requires GrantsInv(cfg, op) && Grows(op, op')
    requires forall gid <- op'.grants :: gid !in except ==> gid in op.grants && op'.grants[gid] == op.grants[gid]
    requires forall gid <- except :: gid in op'.grants && GrantInv(cfg, op', gid, op'.grants[gid])
    ensures GrantsInv(cfg, op')
  {
    forall gid <- op'.grants ensures GrantInv(cfg, op', gid, op'.grants[gid]) {
      if gid !in except {
        GrantStays(cfg, op, op', gid, op.grants[gid]);
      }
    }
  }

  lemma TokensStay(op: Op, op': Op)
    requires TokensInv(op) && Grows(op, op')
    requires op'.tokens == op.tokens && op'.minting == op.minting && op'.refreshed == op.refreshed
    ensures TokensInv(op')
  {
    forall t | t in op'.tokens || t in op'.minting ensures TokenInv(op', t) {
      assert TokenInv(op, t);
      TokenStays(op, op', t);
    }
  }

  lemma AuthorizeKeeps(cfg: Config, op: Op, code: string, ac: AuthCode)
    requires Inv(cfg, op) && code !in op.everCodes
    ensures Inv(cfg, RecordCode(op, code, ac)) && Grows(op, RecordCode(op, code, ac))
  {
    var op' := RecordCode(op, code, ac);
    GrantsStay(cfg, op, op', {});
    TokensStay(op, op');
  }

  lemma ReceiveKeeps(cfg: Config, op: Op, gid: nat, g: Grant)
    requires Inv(cfg, op) && gid !in op.grants && g.phase.Received?
    ensures Inv(cfg, op.(grants := op.grants[gid := g])) && Grows(op, op.(grants := op.grants[gid := g]))
  {
    var op' := op.(grants := op.grants[gid := g]);
    GrantsStay(cfg, op, op', {gid});
    TokensStay(op, op');
  }

  lemma RedeemGrows(op: Op, gid: nat, now: int)
    requires CodesInv(op) && gid in op.grants && op.grants[gid].phase.Received?
    ensures Grows(op, TakeCode(op, gid, now))
  {
  }

  lemma RedeemKeepsCodes(op: Op, gid: nat, now: int)
    requires CodesInv(op) && gid in op.grants
    ensures CodesInv(TakeCode(op, gid, now))
  {
  }

  lemma RedeemRecorded(cfg: Config, op: Op, gid: nat, now: int)
    requires CodesInv(op) && RedeemersInv(op) && gid in op.grants && op.grants[gid].phase.Received?
    ensures var op' := TakeCode(op, gid, now); RedeemersInv(op') && GrantInv(cfg, op', gid, op'.grants[gid])
  {
  }

  lemma RedeemKeeps(cfg: Config, op: Op, gid: nat, now: int)
    requires Inv(cfg, op) && gid in op.grants && op.grants[gid].phase.Received?
    ensures Inv(cfg, TakeCode(op, gid, now)) && Grows(op, TakeCode(op, gid, now))
  {
    var op' := TakeCode(op, gid, now);
    RedeemGrows(op, gid, now);
    RedeemKeepsCodes(op, gid, now);
    RedeemRecorded(cfg, op, gid, now);
    GrantsStay(cfg, op, op', {gid});
    TokensStay(op, op');
  }

  lemma RefuseKeeps(cfg: Config, op: Op, gid: nat)
    requires Inv(cfg, op) && gid in op.grants && op.grants[gid].phase.Redeemed?
    ensures Inv(cfg, WithPhase(op, gid, Refused)) && Grows(op, WithPhase(op, gid, Refused))
  {
    var op' := WithPhase(op, gid, Refused);
    GrantsStay(cfg, op, op', {gid});
    TokensStay(op, op');
  }

  /** Signing and recording a refresh token keeps everything settled so far. */
  lemma MintGrows(op: Op, idToken: string, claims: Claims, refresh: string, rt: RefreshToken, how: Minting)
    requires CanSign(op, idToken, claims) && refresh !in op.minting && refresh !in op.tokens
    ensures Grows(op, MintTokens(op, idToken, claims, refresh, rt, how))
  {
  }

  /** A new refresh token that is itself accounted for leaves the others so. */
  lemma MintKeepsTokens(op: Op, op': Op, refresh: string)
    requires TokensInv(op) && Grows(op, op') && TokenInv(op', refresh)
    requires op'.tokens.Keys <= op.tokens.Keys + {refresh} && op'.minting.Keys <= op.minting.Keys + {refresh}
    requires forall t <- op'.refreshed :: t in op'.signed && op'.signed[t].nonce == ""
    ensures TokensInv(op')
  {
    forall t | t in op'.tokens || t in op'.minting ensures TokenInv(op', t) {
      if t != refresh {
        assert TokenInv(op, t);
        TokenStays(op, op', t);
      }
    }
  }

  lemma RefreshIsNew(op: Op, refresh: string)
    requires TokensInv(op) && refresh !in op.minting
    ensures refresh !in op.tokens
  {
    assert TokenInv(op, refresh) || refresh !in op.tokens;
  }

  lemma SettleGrows(cfg: Config, op: Op, a: Action, now: int)
    requires Inv(cfg, op) && Enabled(cfg, op, a, now) && a.Settle?
    requires GrantAccepted(cfg, op.grants[a.gid], op.grants[a.gid].phase.found, a.clock.checked)
    ensures Grows(op, Step(cfg, op, a, now))
  {
    var ac := op.grants[a.gid].phase.found.value;
    RefreshIsNew(op, a.refresh);
    MintGrows(op, a.idToken, ClaimsFor(cfg, ac.subject, ac.nonce, a.clock.signed), a.refresh,
              RefreshToken(ac.subject, now + HOUR), ByGrant(a.gid));
  }

  lemma SettleIssues(cfg: Config, op: Op, a: Action, now: int)
    requires Inv(cfg, op) && Enabled(cfg, op, a, now) && a.Settle?
    requires GrantAccepted(cfg, op.grants[a.gid], op.grants[a.gid].phase.found, a.clock.checked)
    ensures Inv(cfg, Step(cfg, op, a, now)) && Grows(op, Step(cfg, op, a, now))
  {
    var op' := Step(cfg, op, a, now);
    SettleGrows(cfg, op, a, now);
    assert GrantInv(cfg, op, a.gid, op.grants[a.gid]);
    GrantsStay(cfg, op, op', {a.gid});
    MintKeepsTokens(op, op', a.refresh);
  }

  lemma SettleKeeps(cfg: Config, op: Op, a: Action, now: int)
    requires Inv(cfg, op) && Enabled(cfg, op, a, now) && a.Settle?
    ensures Inv(cfg, Step(cfg, op, a, now)) && Grows(op, Step(cfg, op, a, now))
  {
    if GrantAccepted(cfg, op.grants[a.gid], op.grants[a.gid].phase.found, a.clock.checked) {
      SettleIssues(cfg, op, a, now);
    } else {
      RefuseKeeps(cfg, op, a.gid);
    }
  }

  lemma RefreshKeeps(cfg: Config, op: Op, a: Action, now: int)
    requires Inv(cfg, op) && Enabled(cfg, op, a, now) && a.Refresh?
    ensures Inv(cfg, Step(cfg, op, a, now)) && Grows(op, Step(cfg, op, a, now))
  {
    if RefreshAccepted(op, a.token, a.clock.checked) {
      var subject := op.tokens[a.token].subject;
      var op' := Step(cfg, op, a, now);
      RefreshIsNew(op, a.refresh);
      MintGrows(op, a.idToken, ClaimsFor(cfg, subject, "", a.clock.signed), a.refresh,
                RefreshToken(subject, now + HOUR), ByRefresh(a.token));
      assert Grows(op, op');
      GrantsStay(cfg, op, op', {});
      MintKeepsTokens(op, op', a.refresh);
    }
  }

  lemma StepKeeps(cfg: Config, op: Op, a: Action, now: int)
    requires Inv(cfg, op) && Enabled(cfg, op, a, now)
    ensures Inv(cfg, Step(cfg, op, a, now)) && Grows(op, Step(cfg, op, a, now))
  {
    match a
    case Authorize(req, code) =>
      if AuthorizeAccepted(cfg, req) {
        AuthorizeKeeps(cfg, op, code, CodeFor(req, now));
      }
    case Receive(gid, code, verifier, redirectURI) =>
      ReceiveKeeps(cfg, op, gid, Grant(code, verifier, redirectURI, Received));
    case Redeem(gid) => RedeemKeeps(cfg, op, gid, now);
    case Settle(_, _, _, _) => SettleKeeps(cfg, op, a, now);
    case Refresh(_, _, _, _) => RefreshKeeps(cfg, op, a, now);
  }

  // ----- Whole runs -----

  datatype Event = Event(action: Action, now: int)

  /** states[i] --events[i]--> states[i+1], from the initial state. */
  ghost predicate Run(cfg: Config, states: seq<Op>, events: seq<Event>)
  {
    && |states| == |events| + 1
    && states[0] == Initial
    && forall i {:trigger StepAt(cfg, states, events, i)} :: 0 <= i < |events| ==> StepAt(cfg, states, events, i)
  }

  ghost predicate StepAt(cfg: Config, states: seq<Op>, events: seq<Event>, i: int)
    requires |states| == |events| + 1 && 0 <= i < |events|
  {
    && Enabled(cfg, states[i], events[i].action, events[i].now)
    && states[i + 1] == Step(cfg, states[i], events[i].action, events[i].now)
  }

  lemma {:induction false} RunInv(cfg: Config, states: seq<Op>, events: seq<Event>, i: nat)
    requires Run(cfg, states, events) && i < |states|
    ensures Inv(cfg, states[i])
  {
    if i > 0 {
      RunInv(cfg, states, events, i - 1);
      assert StepAt(cfg, states, events, i - 1);
      StepKeeps(cfg, states[i - 1], events[i - 1].action, events[i - 1].now);
    }
  }

  lemma {:induction false} RunGrows(cfg: Config, states: seq<Op>, events: seq<Event>, i: nat, j: nat)
    requires Run(cfg, states, events) && i <= j < |states|
    ensures Grows(states[i], states[j])
    decreases j - i
  {
    if i < j {
      RunGrows(cfg, states, events, i, j - 1);
      RunInv(cfg, states, events, j - 1);
      assert StepAt(cfg, states, events, j - 1);
      StepKeeps(cfg, states[j - 1], events[j - 1].action, events[j - 1].now);
      GrowsTransitive(states[i], states[j - 1], states[j]);
    }
  }

  /**
   Section 4.1.2 of RFC 6749: a code is used at most once. Whatever the redirect
   URI, verifier or age, an attempt naming a stored code removes it for good.
   */
  lemma RedeemedCodeIsGone(cfg: Config, states: seq<Op>, events: seq<Event>, i: nat, j: nat, gid: nat)
    requires Run(cfg, states, events) && i < j < |states|
    requires events[i].action == Redeem(gid) && gid in states[i].grants
    requires states[i].grants[gid].code in states[i].codes
    ensures states[i].grants[gid].code !in states[j].codes
  {
    assert StepAt(cfg, states, events, i);
    RunGrows(cfg, states, events, i + 1, j);
    RunInv(cfg, states, events, j);
  }

  /** At most one attempt per code ever issues tokens, and what it issues is for that code. */
  lemma OneIssuePerCode(cfg: Config, states: seq<Op>, events: seq<Event>, i: nat, g1: nat, g2: nat)
    requires Run(cfg, states, events) && i < |states|
    requires g1 in states[i].grants && states[i].grants[g1].phase.Issued?
    requires g2 in states[i].grants && states[i].grants[g2].phase.Issued?
    requires states[i].grants[g1].code == states[i].grants[g2].code
    ensures g1 == g2
  {
    RunInv(cfg, states, events, i);
    assert GrantInv(cfg, states[i], g1, states[i].grants[g1]);
    assert GrantInv(cfg, states[i], g2, states[i].grants[g2]);
  }

  /** chain[0] was issued by grant gid, and each later token by refreshing the one before it. */
  ghost predicate RefreshChain(op: Op, gid: nat, chain: seq<string>)
  {
    && |chain| > 0
    && (forall i :: 0 <= i < |chain| ==> chain[i] in op.minting)
    && op.minting[chain[0]] == ByGrant(gid)
    && (forall i :: 0 < i < |chain| ==> op.minting[chain[i]] == ByRefresh(chain[i - 1]))
  }

  lemma {:induction false} ChainSubject(cfg: Config, op: Op, gid: nat, chain: seq<string>)
    requires Inv(cfg, op) && RefreshChain(op, gid, chain)
    ensures gid in op.grants && op.grants[gid].code in op.everCodes
    ensures chain[|chain| - 1] in op.tokens
    ensures op.tokens[chain[|chain| - 1]].subject == op.everCodes[op.grants[gid].code].subject
  {
    assert TokenInv(op, chain[|chain| - 1]);
    if |chain| > 1 {
      ChainSubject(cfg, op, gid, chain[..|chain| - 1]);
    }
  }

  /** However long the chain, a refresh token acts for the subject of the code it started from. */
  lemma RefreshKeepsSubject(cfg: Config, states: seq<Op>, events: seq<Event>, i: nat, gid: nat, chain: seq<string>)
    requires Run(cfg, states, events) && i < |states| && RefreshChain(states[i], gid, chain)
    ensures gid in states[i].grants && states[i].grants[gid].code in states[i].everCodes
    ensures chain[|chain| - 1] in states[i].tokens
    ensures states[i].tokens[chain[|chain| - 1]].subject == states[i].everCodes[states[i].grants[gid].code].subject
  {
    RunInv(cfg, states, events, i);
    ChainSubject(cfg, states[i], gid, chain);
  }

  /** Section 12.2 of OpenID Connect Core 1.0: no ID token signed by a refresh carries a nonce. */
  lemma RefreshedTokensHaveNoNonce(cfg: Config, states: seq<Op>, events: seq<Event>, i: nat, token: string)
    requires Run(cfg, states, events) && i < |states| && token in states[i].refreshed
    ensures token in states[i].signed && states[i].signed[token].nonce == ""
  {
    RunInv(cfg, states, events, i);
  }
}
