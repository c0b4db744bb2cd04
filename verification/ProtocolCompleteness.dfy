/**
 The other half of Agreement: whatever else is in flight, an honest login can
 always be completed, and what it stores is a session for the authorized subject.
 */
module ProtocolCompleteness {
  import opened Wrappers
  import opened SessionTypes
  import opened Protocol
  import opened ProtocolTheorems
  import I = ProtocolInvariants
  import T = Traces
  import V = Vault
  import P = Provider

  ghost predicate Reaches(cfg: Config, s: State, s': State)
  {
    exists actions {:trigger T.Path(cfg, s, actions, s')} :: T.Path(cfg, s, actions, s')
  }

  lemma OneMore(cfg: Config, s: State, s1: State, a: Action)
    requires Reaches(cfg, s, s1) && Enabled(cfg, s1, a)
    ensures Reaches(cfg, s, Step(cfg, s1, a))
  {
    var actions :| T.Path(cfg, s, actions, s1);
    T.Join(cfg, s, actions, s1, a);
  }

  /** The random draws of one login, all fresh and distinct. */
  datatype Draws = Draws(nonce: string, verifier: string, state: string, csrf: string, id: string)

  ghost predicate FreshDraws(s: State, d: Draws)
  {
    && Fresh(s, d.nonce) && Fresh(s, d.verifier) && Fresh(s, d.state) && LaterDraws(s, d)
    && d.nonce != d.verifier && d.nonce != d.state && d.verifier != d.state
    && {d.csrf, d.id} !! {d.nonce, d.verifier, d.state}
  }

  ghost predicate LaterDraws(s: State, d: Draws)
  {
    Fresh(s, d.csrf) && Fresh(s, d.id) && d.csrf != d.id
  }

  /** A login request of browser b is about to be stored. */
  ghost predicate Drawn(s: State, b: nat, rid: nat, d: Draws, txn: LoginTransaction)
  {
    && txn.nonce == d.nonce && txn.pkceVerifier == d.verifier
    && At(s, rid) && s.handlers[rid].sender == Some(b) && s.handlers[rid].awaited
    && s.handlers[rid].pc == LoginStoring(d.state, txn)
    && d.state in s.log.logins && s.log.logins[d.state].txn == txn
    && LaterDraws(s, d) && {d.csrf, d.id} !! {d.nonce, d.state}
  }

  lemma Ask(cfg: Config, s: State, b: nat, d: Draws) returns (s': State, rid: nat, txn: LoginTransaction)
    requires FreshDraws(s, d)
    ensures Reaches(cfg, s, s') && Drawn(s', b, rid, d, txn) && s'.now == s.now && s'.op == s.op && s'.owner == s.owner
  {
    rid := |s.handlers|;
    txn := LoginTransaction(d.nonce, d.verifier, s.now);
    assert T.Path(cfg, s, [], s);
    var s1 := Arrive(s, Handler(LoginRequest, Some(b), |CookiesOf(s, b)|, true, Begin));
    assert s1 == Step(cfg, s, BrowserSend(b, LoginRequest));
    OneMore(cfg, s, s, BrowserSend(b, LoginRequest));
    assert s1.exposed == s.exposed && s1.drawn == s.drawn;
    s' := LoginDrew(s1, rid, d.state, txn);
    OneMore(cfg, s, s1, LoginDraw(rid, d.nonce, d.verifier, d.state));
  }

  /** Browser b holds the cookie of a stored login transaction. */
  ghost predicate Started(s: State, b: nat, d: Draws, txn: LoginTransaction)
  {
    && txn.nonce == d.nonce && txn.pkceVerifier == d.verifier
    && JarOf(s, b).login == Some(d.state)
    && V.Look(s.vault.logins, d.state, s.now) == Some(txn)
    && d.state in s.log.logins && s.log.logins[d.state].txn == txn
    && d.state in s.exposed
    && LaterDraws(s, d)
  }

  lemma Answer(cfg: Config, s0: State, s: State, b: nat, rid: nat, d: Draws, txn: LoginTransaction) returns (s': State)
    requires Reaches(cfg, s0, s) && Drawn(s, b, rid, d, txn)
    ensures Reaches(cfg, s0, s') && Started(s', b, d, txn) && s'.now == s.now && s'.op == s.op && s'.owner == s.owner
  {
    var s1 := LoginStored(cfg, s, rid, true);
    OneMore(cfg, s0, s, LoginSet(rid, true));
    s' := Received(s1, rid);
    OneMore(cfg, s0, s1, Deliver(rid));
  }

  /** The browser follows the redirect; `hint` is who logs in at the provider. */
  function AuthorizeFor(cfg: Config, d: Draws, hint: string): P.AuthorizeRequest
  {
    P.AuthorizeRequest("code", cfg.provider.clientID, cfg.redirectURI, cfg.provider.s256(d.verifier), "S256",
                       d.nonce, d.state, hint)
  }

  lemma Authorize(cfg: Config, s0: State, s: State, b: nat, d: Draws, txn: LoginTransaction, hint: string, code: string)
    returns (s': State)
    requires Reaches(cfg, s0, s) && Started(s, b, d, txn)
    requires cfg.redirectURI != "" && cfg.provider.s256(d.verifier) != "" && code !in s.op.everCodes
    ensures Reaches(cfg, s0, s') && Started(s', b, d, txn) && s'.now == s.now && s'.owner == s.owner
    ensures s'.op == P.RecordCode(s.op, code, P.CodeFor(AuthorizeFor(cfg, d, hint), s.now))
  {
    var pa := P.Authorize(AuthorizeFor(cfg, d, hint), code);
    s' := s.(op := P.Step(cfg.provider, s.op, pa, s.now));
    OneMore(cfg, s0, s, ProviderStep(pa));
  }

  /** The callback of browser b has taken its transaction. */
  ghost predicate Took(s: State, b: nat, rid: nat, d: Draws, txn: LoginTransaction, code: string)
  {
    && At(s, rid) && s.handlers[rid].sender == Some(b) && s.handlers[rid].awaited
    && s.handlers[rid].req == CallbackRequest(Some(d.state), d.state, "", code)
    && s.handlers[rid].pc == Exchanging(d.state, txn)
    && LaterDraws(s, d)
  }

  lemma Return(cfg: Config, s0: State, s: State, b: nat, d: Draws, txn: LoginTransaction, code: string)
    returns (s': State, rid: nat)
    requires Reaches(cfg, s0, s) && Started(s, b, d, txn) && code != "" && d.state != ""
    ensures Reaches(cfg, s0, s') && Took(s', b, rid, d, txn, code) && s'.now == s.now && s'.op == s.op
            && s'.owner == s.owner
  {
    var s2;
    s2, rid := Come(cfg, s0, s, b, d, txn, code);
    s' := CallbackTook(s2, rid, true);
    OneMore(cfg, s0, s2, CallbackTake(rid, true));
  }

  /** The callback arrives and its cookie matches. */
  lemma Come(cfg: Config, s0: State, s: State, b: nat, d: Draws, txn: LoginTransaction, code: string)
    returns (s': State, rid: nat)
    requires Reaches(cfg, s0, s) && Started(s, b, d, txn) && code != "" && d.state != ""
    ensures Reaches(cfg, s0, s') && s'.now == s.now && s'.op == s.op && s'.owner == s.owner
    ensures s'.vault == s.vault && Started(s', b, d, txn)
    ensures |s.handlers| == rid && |s'.handlers| == rid + 1 && s'.handlers[..rid] == s.handlers
    ensures At(s', rid) && s'.handlers[rid].sender == Some(b) && s'.handlers[rid].awaited
            && s'.handlers[rid].pc == Taking(d.state)
    ensures s'.handlers[rid].req == CallbackRequest(Some(d.state), d.state, "", code)
  {
    rid := |s.handlers|;
    var req := CallbackRequest(Some(d.state), d.state, "", code);
    var s1 := Arrive(s, Handler(req, Some(b), |CookiesOf(s, b)|, true, Begin));
    OneMore(cfg, s0, s, BrowserSend(b, req));
    assert s1.exposed == s.exposed;
    s' := Goto(s1, rid, Taking(d.state));
    OneMore(cfg, s0, s1, CallbackCheck(rid));
  }

  /** Grant gid, owned by rid, holds the code's record. */
  ghost predicate Redeemed(cfg: Config, s: State, rid: nat, gid: nat, d: Draws, code: string, ac: P.AuthCode)
  {
    && gid in s.owner && s.owner[gid] == rid
    && gid in s.op.grants
    && s.op.grants[gid] == P.Grant(code, d.verifier, cfg.redirectURI, P.Redeemed(Some(ac), s.now))
  }

  lemma Post(cfg: Config, s0: State, s: State, b: nat, rid: nat, gid: nat, d: Draws, txn: LoginTransaction,
             code: string)
    returns (s': State)
    requires Reaches(cfg, s0, s) && Took(s, b, rid, d, txn, code) && gid !in s.op.grants
    ensures Reaches(cfg, s0, s') && Took(s', b, rid, d, txn, code) && s'.now == s.now
    ensures gid in s'.owner && s'.owner[gid] == rid
    ensures var g := P.Grant(code, txn.pkceVerifier, cfg.redirectURI, P.Received);
            s'.op == s.op.(grants := s.op.grants[gid := g])
  {
    s' := TokenSent(cfg, s, rid, gid);
    OneMore(cfg, s0, s, TokenSend(rid, gid));
  }

  lemma Exchange(cfg: Config, s0: State, s: State, b: nat, rid: nat, gid: nat, d: Draws, txn: LoginTransaction,
                 code: string)
    returns (s': State)
    requires Reaches(cfg, s0, s) && Took(s, b, rid, d, txn, code) && txn.pkceVerifier == d.verifier
    requires gid !in s.op.grants && code in s.op.codes
    ensures Reaches(cfg, s0, s') && Took(s', b, rid, d, txn, code)
            && Redeemed(cfg, s', rid, gid, d, code, s.op.codes[code])
    ensures s'.now == s.now && s'.op.signed == s.op.signed && s'.op.minting == s.op.minting
  {
    var s1 := Post(cfg, s0, s, b, rid, gid, d, txn, code);
    s' := s1.(op := P.TakeCode(s1.op, gid, s1.now));
    OneMore(cfg, s0, s1, ProviderStep(P.Redeem(gid)));
  }

  /** The code exchange has returned an ID token with these claims. */
  ghost predicate Exchanged(s: State, b: nat, rid: nat, d: Draws, idToken: string, claims: P.Claims)
  {
    && At(s, rid) && s.handlers[rid].sender == Some(b) && s.handlers[rid].awaited
    && s.handlers[rid].pc.Verified? && s.handlers[rid].pc.ev.idToken == idToken
    && idToken in s.op.signed && s.op.signed[idToken] == claims
    && LaterDraws(s, d)
  }

  lemma Issue(cfg: Config, s0: State, s: State, b: nat, rid: nat, gid: nat, d: Draws, txn: LoginTransaction,
              code: string,
              ac: P.AuthCode, idToken: string, refresh: string) returns (s': State)
    requires Reaches(cfg, s0, s) && Took(s, b, rid, d, txn, code) && Redeemed(cfg, s, rid, gid, d, code, ac)
    requires P.GrantAccepted(cfg.provider, s.op.grants[gid], Some(ac), s.now) && ac.nonce == txn.nonce
    requires idToken !in s.op.signed && refresh !in s.op.minting
    requires cfg.offset >= 0 && cfg.provider.idTokenTTL >= cfg.offset + Seconds(1)
    ensures Reaches(cfg, s0, s') && s'.now == s.now
    ensures Exchanged(s', b, rid, d, idToken, P.ClaimsFor(cfg.provider, ac.subject, ac.nonce, s.now))
  {
    var s1 := Sign(cfg, s0, s, b, rid, gid, d, txn, code, ac, idToken, refresh);
    s' := CallbackVerified(s1, rid, gid);
    OneMore(cfg, s0, s1, CallbackVerify(rid, gid));
  }

  lemma Sign(cfg: Config, s0: State, s: State, b: nat, rid: nat, gid: nat, d: Draws, txn: LoginTransaction,
             code: string,
             ac: P.AuthCode, idToken: string, refresh: string) returns (s': State)
    requires Reaches(cfg, s0, s) && Took(s, b, rid, d, txn, code) && Redeemed(cfg, s, rid, gid, d, code, ac)
    requires P.GrantAccepted(cfg.provider, s.op.grants[gid], Some(ac), s.now)
    requires idToken !in s.op.signed && refresh !in s.op.minting
    ensures Reaches(cfg, s0, s') && s'.now == s.now && Took(s', b, rid, d, txn, code) && s'.owner == s.owner
    ensures gid in s'.op.grants && s'.op.grants[gid].phase == P.Issued(idToken, refresh)
    ensures idToken in s'.op.signed && s'.op.signed[idToken] == P.ClaimsFor(cfg.provider, ac.subject, ac.nonce, s.now)
  {
    var pa := P.Settle(gid, idToken, refresh, P.Clock(s.now, s.now));
    s' := s.(op := P.Step(cfg.provider, s.op, pa, s.now));
    OneMore(cfg, s0, s, ProviderStep(pa));
  }

  /** Browser b is logged in as `subject` under session id d.id, readable until `delay` after its token expires. */
  ghost predicate LoggedIn(s: State, b: nat, d: Draws, subject: string, idToken: string, delay: nat)
  {
    && JarOf(s, b).session == Some(d.id)
    && d.id in s.vault.sessions
    && var rec := s.vault.sessions[d.id].value;
    && rec.subject == subject && rec.idToken == idToken && rec.csrfToken == d.csrf
    && forall t :: V.Look(s.vault.sessions, d.id, t) == if t < rec.expiresAt + delay then Some(rec) else None
  }

  /** The record is built, with a lifetime that ends with the token. */
  lemma Build(cfg: Config, s0: State, s: State, b: nat, rid: nat, d: Draws, idToken: string, claims: P.Claims)
    returns (s': State)
    requires Reaches(cfg, s0, s) && Exchanged(s, b, rid, d, idToken, claims) && s.now < Seconds(claims.exp)
    ensures Reaches(cfg, s0, s') && s'.now == s.now
    ensures At(s', rid) && s'.handlers[rid].sender == Some(b) && s'.handlers[rid].awaited
    ensures var expiresAt := Seconds(claims.exp);
            s'.handlers[rid].pc == SessionStoring(d.id, Record(claims.sub, idToken, expiresAt, s.now, d.csrf),
                                                  expiresAt - s.now)
  {
    var s1 := Time(cfg, s0, s, b, rid, d, idToken, claims);
    s' := CallbackDrew(s1, rid, d.csrf, d.id);
    OneMore(cfg, s0, s1, CallbackDraw(rid, d.csrf, d.id));
  }

  lemma Time(cfg: Config, s0: State, s: State, b: nat, rid: nat, d: Draws, idToken: string, claims: P.Claims)
    returns (s': State)
    requires Reaches(cfg, s0, s) && Exchanged(s, b, rid, d, idToken, claims) && s.now < Seconds(claims.exp)
    ensures Reaches(cfg, s0, s') && s'.now == s.now && LaterDraws(s', d)
    ensures At(s', rid) && s'.handlers[rid].sender == Some(b) && s'.handlers[rid].awaited
    ensures idToken in s'.op.signed && s'.op.signed[idToken] == claims
    ensures var expiresAt := Seconds(claims.exp);
            s'.handlers[rid].pc == Timed(s.handlers[rid].pc.ev, expiresAt, expiresAt - s.now, s.now)
  {
    s' := CallbackTimed(s, rid);
    OneMore(cfg, s0, s, CallbackTtl(rid));
  }

  lemma Finish(cfg: Config, s0: State, s: State, b: nat, rid: nat, d: Draws, idToken: string, claims: P.Claims,
               delay: nat)
    returns (s': State)
    requires Reaches(cfg, s0, s) && Exchanged(s, b, rid, d, idToken, claims) && s.now < Seconds(claims.exp)
    ensures Reaches(cfg, s0, s') && LoggedIn(s', b, d, claims.sub, idToken, delay)
  {
    var s2 := Build(cfg, s0, s, b, rid, d, idToken, claims);
    var s3 := s2.(now := s2.now + delay);
    OneMore(cfg, s0, s2, Tick(delay));
    s' := Store(cfg, s0, s3, b, rid, d);
  }

  lemma Store(cfg: Config, s0: State, s: State, b: nat, rid: nat, d: Draws) returns (s': State)
    requires Reaches(cfg, s0, s) && At(s, rid) && s.handlers[rid].sender == Some(b) && s.handlers[rid].awaited
    requires s.handlers[rid].pc.SessionStoring? && s.handlers[rid].pc.id == d.id && s.handlers[rid].pc.ttl > 0
    ensures Reaches(cfg, s0, s') && JarOf(s', b).session == Some(d.id)
    ensures d.id in s'.vault.sessions
    ensures s'.vault.sessions[d.id] == V.Timed(s.handlers[rid].pc.rec, Some(s.now + s.handlers[rid].pc.ttl))
  {
    var s1 := SessionStored(s, rid, true);
    OneMore(cfg, s0, s, SessionSet(rid, true));
    s' := Received(s1, rid);
    OneMore(cfg, s0, s1, Deliver(rid));
  }

  /**
   From any state whatever, with fresh draws and an ID token lifetime of at least
   a second over the leeway of the checks, browser b can log in as the subject the provider authorizes. If the
   store takes `delay` to apply the record, the session outlives its token by
   just that: for any positive delay it is readable at its own ExpiresAt.
   */
  lemma HonestLoginSucceeds(cfg: Config, s: State, b: nat, d: Draws, hint: string, code: string, gid: nat,
                            idToken: string,
                            refresh: string, delay: nat)
    requires FreshDraws(s, d) && d.state != "" && d.verifier != "" && hint != "" && code != ""
    requires cfg.redirectURI != "" && cfg.provider.s256(d.verifier) != ""
    requires cfg.offset >= 0 && cfg.provider.idTokenTTL >= cfg.offset + Seconds(1)
    requires code !in s.op.everCodes && gid !in s.op.grants && idToken !in s.op.signed && refresh !in s.op.minting
    ensures exists s' :: Reaches(cfg, s, s') && LoggedIn(s', b, d, hint, idToken, delay)
  {
    var s1, r1, txn := Ask(cfg, s, b, d);
    var s2 := Answer(cfg, s, s1, b, r1, d, txn);
    var s3 := Authorize(cfg, s, s2, b, d, txn, hint, code);
    var s4, r4 := Return(cfg, s, s3, b, d, txn, code);
    var ac := P.CodeFor(AuthorizeFor(cfg, d, hint), s.now);
    var s5 := Exchange(cfg, s, s4, b, r4, gid, d, txn, code);
    var s6 := Issue(cfg, s, s5, b, r4, gid, d, txn, code, ac, idToken, refresh);
    var claims := P.ClaimsFor(cfg.provider, hint, d.nonce, s.now);
    var s7 := Finish(cfg, s, s6, b, r4, d, idToken, claims, delay);
  }

  // ----- What late commands can do -----

  /** Step a finds a live transaction under st and hands it to callback rid; it leads from s to s'. */
  ghost predicate Handed(cfg: Config, s: State, rid: nat, st: string, s': State)
  {
    && Enabled(cfg, s, CallbackTake(rid, true)) && Finds(s, CallbackTake(rid, true), st)
    && s' == Step(cfg, s, CallbackTake(rid, true))
    && rid in s'.log.taken && s'.log.taken[rid] == st
  }

  /**
   "A state can only ever be redeemed once" fails: a browser starts one login and
   sends its callback twice; the first is handed the transaction, the SET that
   stored it reaches the store again, and the second is handed it as well.
   */
  lemma LoginRedeemedTwice(cfg: Config, s: State, b: nat, d: Draws, code: string)
    requires FreshDraws(s, d) && d.state != "" && d.verifier != "" && code != ""
    ensures exists s1, q, s2, s3, r, s4 ::
              && Reaches(cfg, s, s1) && Handed(cfg, s1, q, d.state, s2)
              && Reaches(cfg, s2, s3) && Handed(cfg, s3, r, d.state, s4) && q != r
  {
    var a, r0, txn := Ask(cfg, s, b, d);
    var started := Answer(cfg, s, a, b, r0, d, txn);
    var first, q := Come(cfg, s, started, b, d, txn, code);
    var s1, r := Come(cfg, s, first, b, d, txn, code);
    assert s1.handlers[q] == first.handlers[q];
    var s2, s3 := TakeAndRevive(cfg, s1, q, r, d.state);
    var s4 := Step(cfg, s3, CallbackTake(r, true));
    assert Handed(cfg, s3, r, d.state, s4);
  }

  lemma TakeAndRevive(cfg: Config, s: State, q: nat, r: nat, st: string) returns (s1: State, s2: State)
    requires At(s, q) && At(s, r) && q != r && PcAt(s, q, st) && PcAt(s, r, st)
    requires V.Look(s.vault.logins, st, s.now).Some? && st in s.log.logins
    ensures Handed(cfg, s, q, st, s1) && Reaches(cfg, s1, s2) && At(s2, r) && PcAt(s2, r, st)
    ensures V.Look(s2.vault.logins, st, s2.now).Some?
  {
    s1 := Step(cfg, s, CallbackTake(q, true));
    s2 := Step(cfg, s1, Late(SetLogin(st)));
    Nowhere(cfg, s1);
    OneMore(cfg, s1, s1, Late(SetLogin(st)));
  }

  predicate PcAt(s: State, rid: nat, st: string)
    requires At(s, rid)
  {
    s.handlers[rid].req.CallbackRequest? && s.handlers[rid].pc == Taking(st)
  }

  lemma Nowhere(cfg: Config, s: State)
    ensures Reaches(cfg, s, s)
  {
    assert T.Path(cfg, s, [], s);
  }

  /**
   A logout may be answered 204 and its session be readable again: wherever a
   handler is about to delete, its DEL may be acknowledged and the session's SET,
   sent long before, reach the store after it.
   */
  lemma LogoutUndone(cfg: Config, s: State, rid: nat)
    requires T.Reachable(cfg, s) && At(s, rid) && s.handlers[rid].pc.LogoutDeleting?
    ensures exists s' :: Reaches(cfg, s, s') && Answered204(s', rid)
                         && V.Look(s'.vault.sessions, s.handlers[rid].pc.id, s'.now).Some?
  {
    var id := s.handlers[rid].pc.id;
    SentSetMayCome(cfg, s, rid);
    var s1 := Step(cfg, s, LogoutDel(rid, true));
    Nowhere(cfg, s);
    OneMore(cfg, s, s, LogoutDel(rid, true));
    var s2 := ComeBack(cfg, s, s1, id);
    assert Answered204(s2, rid);
  }

  lemma SentSetMayCome(cfg: Config, s: State, rid: nat)
    requires T.Reachable(cfg, s) && At(s, rid) && s.handlers[rid].pc.LogoutDeleting?
    ensures var id := s.handlers[rid].pc.id; id in s.log.sessions && s.log.sessions[id].ttl > 0
    ensures s.handlers[rid].req.LogoutRequest?
  {
    var states, actions :| Run(cfg, states, actions) && states[|actions|] == s;
    I.RunInv(cfg, states, actions, |actions|);
    I.HandlerAt(cfg, s, rid);
    I.BirthAt(cfg, s, s.handlers[rid].pc.id);
  }

  lemma ComeBack(cfg: Config, s0: State, s: State, id: string) returns (s': State)
    requires Reaches(cfg, s0, s) && id in s.log.sessions && s.log.sessions[id].ttl > 0
    ensures Reaches(cfg, s0, s') && s'.handlers == s.handlers && V.Look(s'.vault.sessions, id, s'.now).Some?
  {
    s' := Step(cfg, s, Late(SetSession(id)));
    OneMore(cfg, s0, s, Late(SetSession(id)));
  }
}
