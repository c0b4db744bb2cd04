/** What every step of the whole system keeps. */
module ProtocolInvariants {
  import opened Wrappers
  import opened SessionTypes
  import opened Protocol
  import Base64Url
  import V = Vault
  import P = Provider

  ghost predicate Extends<K, W>(m: map<K, W>, m': map<K, W>)
  {
    forall k <- m :: k in m' && m'[k] == m[k]
  }

  /** A request never changes under its handler. */
  ghost predicate SameRequests(hs: seq<Handler>, hs': seq<Handler>)
  {
    && |hs| <= |hs'|
    && forall i :: 0 <= i < |hs| ==>
         hs'[i].req == hs[i].req && hs'[i].sender == hs[i].sender && hs'[i].seen == hs[i].seen
  }

  /** What no step takes back. */
  ghost predicate Grows(s: State, s': State)
  {
    && s.now <= s'.now
    && Extends(s.drawn, s'.drawn)
    && s.exposed <= s'.exposed
    && Extends(s.log.logins, s'.log.logins)
    && Extends(s.log.taken, s'.log.taken)
    && Extends(s.log.sessions, s'.log.sessions)
    && s.log.loggedOut <= s'.log.loggedOut
    && s.log.revived <= s'.log.revived
    && s.log.restored <= s'.log.restored
    && s.log.deletes <= s'.log.deletes
    && Extends(s.owner, s'.owner)
    && P.Grows(s.op, s'.op)
    && SameRequests(s.handlers, s'.handlers)
  }

  // The explicit triggers make a proof name the entry or handler it is about,
  // which keeps the solver from walking the whole state by itself.
  //
  // Each invariant is stated over the parts of the state it reads, so that a
  // step that leaves those parts alone keeps it by equality.

  // ----- Draws -----

  ghost predicate DrawnFor(drawn: map<string, Purpose>, x: string, p: Purpose)
  {
    x in drawn && drawn[x] == p
  }

  ghost predicate TokensInv(drawn: map<string, Purpose>)
  {
    forall x {:trigger Base64Url.IsToken(x)} :: x in drawn ==> Base64Url.IsToken(x)
  }

  ghost predicate LoginDrawsInv(drawn: map<string, Purpose>, logins: map<string, LoginBirth>)
  {
    forall st <- logins ::
      && DrawnFor(drawn, st, AsState(logins[st].rid))
      && DrawnFor(drawn, logins[st].txn.nonce, AsNonce(st))
      && DrawnFor(drawn, logins[st].txn.pkceVerifier, AsVerifier(st))
  }

  ghost predicate SessionDrawsInv(drawn: map<string, Purpose>, sessions: map<string, SessionBirth>)
  {
    forall id <- sessions ::
      && DrawnFor(drawn, id, AsSessionId(sessions[id].rid))
      && DrawnFor(drawn, sessions[id].rec.csrfToken, AsCsrf(id))
  }

  // ----- Secrets: a state or id is unknown outside until its handler responds -----

  ghost predicate Unexposed(exposed: set<string>, pc: Pc)
  {
    match pc
    case LoginStoring(st, _) => st !in exposed
    case SessionStoring(id, _, _) => id !in exposed
    case _ => true
  }

  ghost predicate SecretInv(handlers: seq<Handler>, exposed: set<string>)
  {
    forall rid {:trigger Unexposed(exposed, handlers[rid].pc)} ::
      0 <= rid < |handlers| ==> Unexposed(exposed, handlers[rid].pc)
  }

  // ----- Evidence of a login -----

  /** Handler rid took the transaction of its own cookie, and grant gid turned its code into this ID token. */
  ghost predicate Sound(cfg: Config, s: State, rid: nat, ev: Evidence)
  {
    && At(s, rid) && s.handlers[rid].req.CallbackRequest?
    && var req := s.handlers[rid].req;
    && req.state == ev.state && req.stateCookie == Some(ev.state)
    && rid in s.log.taken && s.log.taken[rid] == ev.state
    && ev.state in s.log.logins && s.log.logins[ev.state].txn == ev.txn
    && ev.gid in s.owner && s.owner[ev.gid] == rid
    && ev.gid in s.op.grants
    && var g := s.op.grants[ev.gid];
    && g.code == req.code && g.verifier == ev.txn.pkceVerifier && g.redirectURI == cfg.redirectURI
    && g.phase.Issued? && g.phase.idToken == ev.idToken
    && ev.idToken in s.op.signed && s.op.signed[ev.idToken].nonce == ev.txn.nonce
  }

  ghost predicate HandlerInv(cfg: Config, s: State, rid: nat, h: Handler)
  {
    && Supplied(h.req) <= s.exposed
    && match h.pc
       case Begin => true
       case LoginStoring(st, txn) =>
         h.req.LoginRequest? && st in s.log.logins && s.log.logins[st] == LoginBirth(rid, txn)
       case Taking(st) =>
         h.req.CallbackRequest? && h.req.state == st && h.req.stateCookie == Some(st)
       case Exchanging(st, txn) =>
         && h.req.CallbackRequest? && h.req.state == st && h.req.stateCookie == Some(st)
         && rid in s.log.taken && s.log.taken[rid] == st
         && st in s.log.logins && s.log.logins[st].txn == txn
       case Verified(ev) => At(s, rid) && s.handlers[rid].req == h.req && Sound(cfg, s, rid, ev)
       case Timed(ev, expiresAt, ttl, ttlAt) =>
         && At(s, rid) && s.handlers[rid].req == h.req && Sound(cfg, s, rid, ev)
         && expiresAt == Seconds(s.op.signed[ev.idToken].exp)
         && ttl == expiresAt - ttlAt && ttl > 0 && ttlAt <= s.now
       case SessionStoring(id, rec, ttl) =>
         && id in s.log.sessions
         && s.log.sessions[id].rid == rid && s.log.sessions[id].rec == rec && s.log.sessions[id].ttl == ttl
       case LogoutReading(id) => h.req.LogoutRequest? && h.req.sessionCookie == Some(id)
         && h.req.origin == cfg.externalOrigin
       case LogoutDeleting(id) => LogoutGood(cfg, s, h.req, id)
       case StatusReading(id) => h.req.StatusRequest? && h.req.sessionCookie == Some(id)
       case ApiReading(id) => h.req.ApiRequest? && h.req.sessionCookie == Some(id)
       case ApiServing(id, rec) =>
         h.req.ApiRequest? && h.req.sessionCookie == Some(id) && id in s.log.sessions && s.log.sessions[id].rec == rec
       case Done(resp) => ResponseInv(cfg, s, rid, h.req, resp)
  }

  /** A logout that may delete session id. */
  ghost predicate LogoutGood(cfg: Config, s: State, req: Request, id: string)
  {
    && req.LogoutRequest?
    && req.origin == cfg.externalOrigin
    && req.sessionCookie == Some(id)
    && id in s.log.sessions
    && req.csrfHeader == s.log.sessions[id].rec.csrfToken
  }

  ghost predicate ResponseInv(cfg: Config, s: State, rid: nat, req: Request, resp: Response)
  {
    && (resp.loginCookie.SetTo? ==>
          && req.LoginRequest?
          && var st := resp.loginCookie.value;
          st in s.log.logins && s.log.logins[st].rid == rid)
    && (resp.sessionCookie.SetTo? ==>
          var id := resp.sessionCookie.value;
          id in s.log.sessions && s.log.sessions[id].rid == rid)
    && (resp.status == 204 ==>
          && req.LogoutRequest? && req.sessionCookie.Some?
          && LogoutGood(cfg, s, req, req.sessionCookie.value)
          && req.sessionCookie.value in s.log.loggedOut)
  }

  ghost predicate HandlersInv(cfg: Config, s: State)
  {
    forall rid {:trigger HandlerInv(cfg, s, rid, s.handlers[rid])} ::
      0 <= rid < |s.handlers| ==> HandlerInv(cfg, s, rid, s.handlers[rid])
  }

  /** Token requests sent by callbacks carry the callback's own code and transaction. */
  ghost predicate OwnerInv(redirectURI: string, owner: map<nat, nat>, grants: map<nat, P.Grant>, handlers: seq<Handler>,
                           taken: map<nat, string>, logins: map<string, LoginBirth>)
  {
    forall gid <- owner ::
      && gid in grants && owner[gid] < |handlers| && handlers[owner[gid]].req.CallbackRequest?
      && OwnedGrant(redirectURI, grants[gid], owner[gid], handlers[owner[gid]].req, taken, logins)
  }

  ghost predicate OwnedGrant(redirectURI: string, g: P.Grant, rid: nat, req: Request,
                             taken: map<nat, string>, logins: map<string, LoginBirth>)
    requires req.CallbackRequest?
  {
    && rid in taken && taken[rid] == req.state
    && req.state in logins
    && g.code == req.code
    && g.redirectURI == redirectURI
    && g.verifier == logins[req.state].txn.pkceVerifier
  }

  ghost predicate BirthInv(cfg: Config, s: State, id: string, b: SessionBirth)
  {
    && Sound(cfg, s, b.rid, b.ev)
    && b.rec.idToken == b.ev.idToken
    && b.rec.subject == s.op.signed[b.ev.idToken].sub
    && b.rec.expiresAt == Seconds(s.op.signed[b.ev.idToken].exp)
    && b.ttl == b.rec.expiresAt - b.ttlAt && b.ttl > 0
    && b.ttlAt <= s.now
    && b.rid in s.log.sessionOf && s.log.sessionOf[b.rid] == id
  }

  ghost predicate BirthsInv(cfg: Config, s: State)
  {
    && (forall id {:trigger BirthInv(cfg, s, id, s.log.sessions[id])} ::
          id in s.log.sessions ==> BirthInv(cfg, s, id, s.log.sessions[id]))
    && (forall rid <- s.log.sessionOf ::
          At(s, rid) && (s.handlers[rid].pc.SessionStoring? || s.handlers[rid].pc.Done?))
  }

  // ----- The store -----

  ghost predicate LoginEntryInv(log: History, now: int, st: string, e: V.Timed<LoginTransaction>)
  {
    && st in log.logins && e.value == log.logins[st].txn
    && (st in log.taken.Values ==> st in log.revived)
    && st in log.loginSetAt && log.loginSetAt[st] <= now
    && e.deadline == Some(log.loginSetAt[st] + LOGIN_TRANSACTION_TTL)
  }

  ghost predicate SessionEntryInv(log: History, now: int, id: string, e: V.Timed<Record>)
  {
    && id in log.sessions && e.value == log.sessions[id].rec
    && (id in log.loggedOut ==> id in log.restored)
    && id in log.sessionSetAt && log.sessions[id].ttlAt <= log.sessionSetAt[id] <= now
    && e.deadline == Some(log.sessionSetAt[id] + log.sessions[id].ttl)
  }

  ghost predicate VaultInv(vault: V.Vault, log: History, now: int)
  {
    && (forall st {:trigger LoginEntryInv(log, now, st, vault.logins[st])} ::
          st in vault.logins ==> LoginEntryInv(log, now, st, vault.logins[st]))
    && (forall id {:trigger SessionEntryInv(log, now, id, vault.sessions[id])} ::
          id in vault.sessions ==> SessionEntryInv(log, now, id, vault.sessions[id]))
  }

  ghost predicate CallsInv(calls: seq<UpstreamCall>, handlers: seq<Handler>, sessions: map<string, SessionBirth>)
  {
    forall i :: 0 <= i < |calls| ==>
      && calls[i].rid < |handlers| && handlers[calls[i].rid].req == ApiRequest(Some(calls[i].id))
      && calls[i].id in sessions && calls[i].token == sessions[calls[i].id].rec.idToken
  }

  ghost predicate DrawInv(s: State)
  {
    TokensInv(s.drawn) && LoginDrawsInv(s.drawn, s.log.logins) && SessionDrawsInv(s.drawn, s.log.sessions)
  }

  ghost predicate OutsideInv(s: State)
  {
    SecretInv(s.handlers, s.exposed) && s.log.taken.Values <= s.exposed && s.log.loggedOut <= s.exposed
      && s.log.deletes <= s.exposed
  }

  predicate PastTake(pc: Pc)
  {
    pc.Exchanging? || pc.Verified? || pc.Timed? || pc.SessionStoring? || pc.Done?
  }

  /** A callback is handed one transaction, once; only a late SET hands the same one to another. */
  ghost predicate TakesInv(taken: map<nat, string>, revived: set<string>, handlers: seq<Handler>)
  {
    && (forall rid <- taken :: rid < |handlers| && PastTake(handlers[rid].pc))
    && (forall r, q :: r in taken && q in taken && r != q && taken[r] == taken[q] ==> taken[r] in revived)
  }

  ghost predicate OwnersInv(cfg: Config, s: State)
  {
    OwnerInv(cfg.redirectURI, s.owner, s.op.grants, s.handlers, s.log.taken, s.log.logins)
  }

  datatype Part = OfProvider | OfDraws | OfSecrets | OfHandlers | OfOwners | OfBirths | OfStore | OfCalls | OfTakes

  ghost predicate Holds(cfg: Config, s: State, part: Part)
  {
    match part
    case OfProvider => P.Inv(cfg.provider, s.op)
    case OfDraws => DrawInv(s)
    case OfSecrets => OutsideInv(s)
    case OfHandlers => HandlersInv(cfg, s)
    case OfOwners => OwnersInv(cfg, s)
    case OfBirths => BirthsInv(cfg, s)
    case OfStore => VaultInv(s.vault, s.log, s.now)
    case OfCalls => CallsInv(s.log.calls, s.handlers, s.log.sessions)
    case OfTakes => TakesInv(s.log.taken, s.log.revived, s.handlers)
  }

  /** The invariant, part by part; a proof opens the parts it needs. */
  ghost predicate Inv(cfg: Config, s: State)
  {
    forall part {:trigger Holds(cfg, s, part)} :: Holds(cfg, s, part)
  }

  lemma Open(cfg: Config, s: State)
    requires Inv(cfg, s)
    ensures P.Inv(cfg.provider, s.op) && DrawInv(s) && OutsideInv(s) && HandlersInv(cfg, s) && OwnersInv(cfg, s)
    ensures BirthsInv(cfg, s) && VaultInv(s.vault, s.log, s.now) && CallsInv(s.log.calls, s.handlers, s.log.sessions)
    ensures TakesInv(s.log.taken, s.log.revived, s.handlers)
  {
    assert Holds(cfg, s, OfTakes);
    assert Holds(cfg, s, OfProvider) && Holds(cfg, s, OfDraws) && Holds(cfg, s, OfSecrets) && Holds(cfg, s, OfHandlers);
    assert Holds(cfg, s, OfOwners) && Holds(cfg, s, OfBirths) && Holds(cfg, s, OfStore) && Holds(cfg, s, OfCalls);
  }

  lemma Close(cfg: Config, s: State)
    requires P.Inv(cfg.provider, s.op) && DrawInv(s) && OutsideInv(s) && HandlersInv(cfg, s) && OwnersInv(cfg, s)
    requires BirthsInv(cfg, s) && VaultInv(s.vault, s.log, s.now) && CallsInv(s.log.calls, s.handlers, s.log.sessions)
    requires TakesInv(s.log.taken, s.log.revived, s.handlers)
    ensures Inv(cfg, s)
  {
  }

  lemma HandlerAt(cfg: Config, s: State, rid: nat)
    requires Inv(cfg, s) && At(s, rid)
    ensures HandlerInv(cfg, s, rid, s.handlers[rid]) && Unexposed(s.exposed, s.handlers[rid].pc)
    ensures rid in s.log.sessionOf ==> s.handlers[rid].pc.SessionStoring? || s.handlers[rid].pc.Done?
    ensures rid in s.log.taken ==> PastTake(s.handlers[rid].pc)
  {
    assert Holds(cfg, s, OfHandlers) && Holds(cfg, s, OfSecrets) && Holds(cfg, s, OfBirths) && Holds(cfg, s, OfTakes);
  }

  lemma OwnedAt(cfg: Config, s: State, gid: nat)
    requires Inv(cfg, s) && gid in s.owner
    ensures gid in s.op.grants && At(s, s.owner[gid]) && s.handlers[s.owner[gid]].req.CallbackRequest?
    ensures OwnedGrant(cfg.redirectURI, s.op.grants[gid], s.owner[gid], s.handlers[s.owner[gid]].req, s.log.taken,
            s.log.logins)
  {
    assert Holds(cfg, s, OfOwners);
  }

  /** The secret of handler rid, if it has one, was drawn for it and is unknown outside. */
  lemma SecretAt(cfg: Config, s: State, rid: nat)
    requires Inv(cfg, s) && At(s, rid)
    ensures var pc := s.handlers[rid].pc;
            && (pc.LoginStoring? ==> DrawnFor(s.drawn, pc.state, AsState(rid)) && pc.state !in s.exposed)
            && (pc.SessionStoring? ==> DrawnFor(s.drawn, pc.id, AsSessionId(rid)) && pc.id !in s.exposed)
  {
    HandlerAt(cfg, s, rid);
    assert Holds(cfg, s, OfDraws);
  }

  lemma LoginEntryAt(cfg: Config, s: State, st: string)
    requires Inv(cfg, s) && st in s.vault.logins
    ensures LoginEntryInv(s.log, s.now, st, s.vault.logins[st])
  {
    assert Holds(cfg, s, OfStore);
  }

  lemma SessionEntryAt(cfg: Config, s: State, id: string)
    requires Inv(cfg, s) && id in s.vault.sessions
    ensures SessionEntryInv(s.log, s.now, id, s.vault.sessions[id])
  {
    assert Holds(cfg, s, OfStore);
  }

  lemma BirthAt(cfg: Config, s: State, id: string)
    requires Inv(cfg, s) && id in s.log.sessions
    ensures BirthInv(cfg, s, id, s.log.sessions[id])
    ensures DrawnFor(s.drawn, id, AsSessionId(s.log.sessions[id].rid))
    ensures DrawnFor(s.drawn, s.log.sessions[id].rec.csrfToken, AsCsrf(id))
  {
    assert Holds(cfg, s, OfBirths) && Holds(cfg, s, OfDraws);
  }

  lemma LoginBirthAt(cfg: Config, s: State, st: string)
    requires Inv(cfg, s) && st in s.log.logins
    ensures DrawnFor(s.drawn, st, AsState(s.log.logins[st].rid))
    ensures DrawnFor(s.drawn, s.log.logins[st].txn.nonce, AsNonce(st))
    ensures DrawnFor(s.drawn, s.log.logins[st].txn.pkceVerifier, AsVerifier(st))
  {
    assert Holds(cfg, s, OfDraws);
  }

  // ----- What growth alone preserves -----

  lemma SoundStays(cfg: Config, s: State, s': State, rid: nat, ev: Evidence)
    requires Sound(cfg, s, rid, ev) && Grows(s, s')
    ensures Sound(cfg, s', rid, ev)
    ensures s'.op.signed[ev.idToken] == s.op.signed[ev.idToken]
  {
  }

  lemma HandlerStays(cfg: Config, s: State, s': State, rid: nat, h: Handler)
    requires HandlerInv(cfg, s, rid, h) && Grows(s, s')
    ensures HandlerInv(cfg, s', rid, h)
  {
    match h.pc
    case Verified(ev) => SoundStays(cfg, s, s', rid, ev);
    case Timed(ev, _, _, _) => SoundStays(cfg, s, s', rid, ev);
    case _ =>
  }

  lemma BirthStays(cfg: Config, s: State, s': State, id: string, b: SessionBirth)
    requires BirthInv(cfg, s, id, b) && Grows(s, s')
    requires Extends(s.log.sessionOf, s'.log.sessionOf)
    ensures BirthInv(cfg, s', id, b)
  {
    SoundStays(cfg, s, s', b.rid, b.ev);
  }

  lemma GrowsTransitive(s: State, s1: State, s2: State)
    requires Grows(s, s1) && Grows(s1, s2)
    ensures Grows(s, s2)
  {
  }

  lemma HandlersStay(cfg: Config, s: State, s': State, except: set<nat>)
    requires HandlersInv(cfg, s) && Grows(s, s')
    requires forall i :: 0 <= i < |s'.handlers| && i !in except ==>
               i < |s.handlers| && s'.handlers[i] == s.handlers[i].(awaited := s'.handlers[i].awaited)
    requires forall i <- except :: i < |s'.handlers| && HandlerInv(cfg, s', i, s'.handlers[i])
    ensures HandlersInv(cfg, s')
  {
    forall i | 0 <= i < |s'.handlers| ensures HandlerInv(cfg, s', i, s'.handlers[i]) {
      if i !in except {
        HandlerStays(cfg, s, s', i, s.handlers[i]);
        assert HandlerInv(cfg, s', i, s.handlers[i]);
      }
    }
  }

  lemma SecretStays(handlers: seq<Handler>, exposed: set<string>, rid: nat, h: Handler)
    requires SecretInv(handlers, exposed) && rid < |handlers| && Unexposed(exposed, h.pc)
    ensures SecretInv(handlers[rid := h], exposed)
  {
    var handlers' := handlers[rid := h];
    forall i | 0 <= i < |handlers'| ensures Unexposed(exposed, handlers'[i].pc) {
      assert Unexposed(exposed, handlers[i].pc) || i == rid;
    }
  }

  lemma SecretAppends(handlers: seq<Handler>, h: Handler, exposed: set<string>)
    requires SecretInv(handlers, exposed) && Unexposed(exposed, h.pc)
    ensures SecretInv(handlers + [h], exposed)
  {
    forall i | 0 <= i < |handlers + [h]| ensures Unexposed(exposed, (handlers + [h])[i].pc) {
      assert i < |handlers| ==> Unexposed(exposed, handlers[i].pc);
    }
  }

  lemma OwnersStay(cfg: Config, s: State, s': State)
    requires OwnerInv(cfg.redirectURI, s.owner, s.op.grants, s.handlers, s.log.taken, s.log.logins)
    requires Grows(s, s') && s'.owner == s.owner
    ensures OwnerInv(cfg.redirectURI, s'.owner, s'.op.grants, s'.handlers, s'.log.taken, s'.log.logins)
  {
  }

  lemma BirthsStay(cfg: Config, s: State, s': State)
    requires BirthsInv(cfg, s) && Grows(s, s')
    requires s'.log.sessions == s.log.sessions && s'.log.sessionOf == s.log.sessionOf
    requires forall rid <- s.log.sessionOf ::
             At(s', rid)
             && (s'.handlers[rid].pc.SessionStoring? || s'.handlers[rid].pc.Done?)
    ensures BirthsInv(cfg, s')
  {
    forall id <- s'.log.sessions ensures BirthInv(cfg, s', id, s'.log.sessions[id]) {
      BirthStays(cfg, s, s', id, s.log.sessions[id]);
    }
  }

  /** Entries are kept, dropped or as new as the log says. */
  lemma VaultFollows(vault: V.Vault, log: History, now: int, vault': V.Vault, log': History, now': int)
    requires VaultInv(vault, log, now)
    requires forall st <- vault'.logins ::
               (st in vault.logins && LoginEntryInv(log, now, st, vault.logins[st])) ==>
                 LoginEntryInv(log', now', st, vault'.logins[st])
    requires forall st <- vault'.logins :: st !in vault.logins ==> LoginEntryInv(log', now', st, vault'.logins[st])
    requires forall id <- vault'.sessions ::
               (id in vault.sessions && SessionEntryInv(log, now, id, vault.sessions[id])) ==>
                 SessionEntryInv(log', now', id, vault'.sessions[id])
    requires forall id <- vault'.sessions ::
             id !in vault.sessions ==>
               SessionEntryInv(log', now', id, vault'.sessions[id])
    ensures VaultInv(vault', log', now')
  {
    forall st | st in vault'.logins ensures LoginEntryInv(log', now', st, vault'.logins[st]) {
      if st in vault.logins {
        assert LoginEntryInv(log, now, st, vault.logins[st]);
      }
    }
    forall id | id in vault'.sessions ensures SessionEntryInv(log', now', id, vault'.sessions[id]) {
      if id in vault.sessions {
        assert SessionEntryInv(log, now, id, vault.sessions[id]);
      }
    }
  }

  lemma VaultStays(s: State, s': State)
    requires VaultInv(s.vault, s.log, s.now) && Grows(s, s')
    requires s'.vault == s.vault && s'.log.taken == s.log.taken && s'.log.loggedOut == s.log.loggedOut
    requires s'.log.loginSetAt == s.log.loginSetAt && s'.log.sessionSetAt == s.log.sessionSetAt
    ensures VaultInv(s'.vault, s'.log, s'.now)
  {
    VaultFollows(s.vault, s.log, s.now, s'.vault, s'.log, s'.now);
  }

  lemma CallsStay(s: State, s': State)
    requires CallsInv(s.log.calls, s.handlers, s.log.sessions) && Grows(s, s') && s'.log.calls == s.log.calls
    ensures CallsInv(s'.log.calls, s'.handlers, s'.log.sessions)
  {
  }

  lemma TakesStay(s: State, s': State)
    requires TakesInv(s.log.taken, s.log.revived, s.handlers) && Grows(s, s') && s'.log.taken == s.log.taken
    requires forall rid <- s.log.taken :: At(s', rid) && PastTake(s'.handlers[rid].pc)
    ensures TakesInv(s'.log.taken, s'.log.revived, s'.handlers)
  {
  }

  /** A step that moves no handler keeps what is said about handlers, sessions and takes. */
  lemma HandlersAlone(cfg: Config, s: State, s': State)
    requires Inv(cfg, s) && Grows(s, s') && s'.handlers == s.handlers
    requires s'.log.sessions == s.log.sessions && s'.log.sessionOf == s.log.sessionOf && s'.log.taken == s.log.taken
    ensures HandlersInv(cfg, s') && BirthsInv(cfg, s') && TakesInv(s'.log.taken, s'.log.revived, s'.handlers)
  {
    assert Holds(cfg, s, OfHandlers) && Holds(cfg, s, OfBirths) && Holds(cfg, s, OfTakes);
    HandlersStay(cfg, s, s', {});
    BirthsStay(cfg, s, s');
    TakesStay(s, s');
  }

  /** Draws and secrets, when nothing is drawn, exposed, taken or deleted. */
  lemma SecretsAlone(cfg: Config, s: State, s': State)
    requires Inv(cfg, s) && s'.drawn == s.drawn && s'.exposed == s.exposed && s'.handlers == s.handlers
    requires s'.log.logins == s.log.logins && s'.log.sessions == s.log.sessions && s'.log.taken == s.log.taken
    requires s'.log.loggedOut == s.log.loggedOut && s'.log.deletes == s.log.deletes
    ensures DrawInv(s') && OutsideInv(s')
  {
    assert Holds(cfg, s, OfDraws) && Holds(cfg, s, OfSecrets);
  }

  lemma VaultAndCallsStay(cfg: Config, s: State, s': State)
    requires Inv(cfg, s) && Grows(s, s') && s'.vault == s.vault
    requires s'.log.taken == s.log.taken && s'.log.loggedOut == s.log.loggedOut && s'.log.calls == s.log.calls
    requires s'.log.loginSetAt == s.log.loginSetAt && s'.log.sessionSetAt == s.log.sessionSetAt
    ensures VaultInv(s'.vault, s'.log, s'.now) && CallsInv(s'.log.calls, s'.handlers, s'.log.sessions)
  {
    assert Holds(cfg, s, OfStore) && Holds(cfg, s, OfCalls);
    VaultStays(s, s');
    CallsStay(s, s');
  }

  /** Provider, owners and calls, when only the store and its history change. */
  lemma OutsideStore(cfg: Config, s: State, s': State)
    requires Inv(cfg, s) && Grows(s, s') && s'.op == s.op && s'.owner == s.owner && s'.log.calls == s.log.calls
    ensures P.Inv(cfg.provider, s'.op) && OwnersInv(cfg, s') && CallsInv(s'.log.calls, s'.handlers, s'.log.sessions)
  {
    assert Holds(cfg, s, OfProvider) && Holds(cfg, s, OfOwners) && Holds(cfg, s, OfCalls);
    OwnersStay(cfg, s, s');
    CallsStay(s, s');
  }

  // ----- The small updates every step is made of -----

  lemma GotoGrows(s: State, rid: nat, pc: Pc)
    requires At(s, rid)
    ensures Grows(s, Goto(s, rid, pc))
  {
  }

  lemma GotoKeepsTakes(cfg: Config, s: State, rid: nat, pc: Pc)
    requires Inv(cfg, s) && At(s, rid) && (rid in s.log.taken ==> PastTake(pc))
    ensures TakesInv(s.log.taken, s.log.revived, Goto(s, rid, pc).handlers)
  {
    assert Holds(cfg, s, OfTakes);
  }

  /** A handler moves to a program counter that fits the rest of the state. */
  lemma GotoKeeps(cfg: Config, s: State, rid: nat, pc: Pc)
    requires Inv(cfg, s) && At(s, rid)
    requires HandlerInv(cfg, s, rid, s.handlers[rid].(pc := pc)) && Unexposed(s.exposed, pc)
    requires rid in s.log.sessionOf ==> pc.SessionStoring? || pc.Done?
    requires rid in s.log.taken ==> PastTake(pc)
    ensures Inv(cfg, Goto(s, rid, pc)) && Grows(s, Goto(s, rid, pc))
  {
    var s' := Goto(s, rid, pc);
    GotoGrows(s, rid, pc);
    assert HandlersInv(cfg, s') && BirthsInv(cfg, s') by {
      assert Holds(cfg, s, OfHandlers) && Holds(cfg, s, OfBirths);
      HandlerStays(cfg, s, s', rid, s.handlers[rid].(pc := pc));
      HandlersStay(cfg, s, s', {rid});
      BirthsStay(cfg, s, s');
    }
    assert DrawInv(s') && OutsideInv(s') by {
      assert Holds(cfg, s, OfSecrets) && Holds(cfg, s, OfDraws);
      SecretStays(s.handlers, s.exposed, rid, s.handlers[rid].(pc := pc));
    }
    GotoKeepsTakes(cfg, s, rid, pc);
    VaultAndCallsStay(cfg, s, s');
    OutsideStore(cfg, s, s');
    Close(cfg, s');
  }

  function Expose(s: State, xs: set<string>): State
  {
    s.(exposed := s.exposed + xs)
  }

  lemma ExposeKeeps(cfg: Config, s: State, xs: set<string>)
    requires Inv(cfg, s)
    requires forall rid :: 0 <= rid < |s.handlers| ==> Unexposed(s.exposed + xs, s.handlers[rid].pc)
    ensures Inv(cfg, Expose(s, xs)) && Grows(s, Expose(s, xs))
  {
    var s' := Expose(s, xs);
    assert Grows(s, s');
    HandlersAlone(cfg, s, s');
    assert DrawInv(s') && OutsideInv(s') by {
      assert Holds(cfg, s, OfDraws) && Holds(cfg, s, OfSecrets);
    }
    VaultAndCallsStay(cfg, s, s');
    OutsideStore(cfg, s, s');
    Close(cfg, s');
  }

  lemma TickKeeps(cfg: Config, s: State, elapsed: nat)
    requires Inv(cfg, s)
    ensures Inv(cfg, s.(now := s.now + elapsed)) && Grows(s, s.(now := s.now + elapsed))
  {
    var s' := s.(now := s.now + elapsed);
    assert Grows(s, s');
    HandlersAlone(cfg, s, s');
    SecretsAlone(cfg, s, s');
    VaultAndCallsStay(cfg, s, s');
    OutsideStore(cfg, s, s');
    Close(cfg, s');
  }

  /** Nothing but jars, the cookie history and who still waits. */
  lemma BrowserSideKeeps(cfg: Config, s: State, s': State)
    requires Inv(cfg, s)
    requires s' == s.(handlers := s'.handlers, jars := s'.jars, log := s.log.(cookies := s'.log.cookies))
    requires |s'.handlers| == |s.handlers|
    requires forall i :: 0 <= i < |s.handlers| ==> s'.handlers[i] == s.handlers[i].(awaited := s'.handlers[i].awaited)
    ensures Inv(cfg, s') && Grows(s, s')
  {
    Open(cfg, s);
    assert Grows(s, s');
    HandlersStay(cfg, s, s', {});
    OwnersStay(cfg, s, s');
    BirthsStay(cfg, s, s');
    TakesStay(s, s');
    VaultStays(s, s');
    CallsStay(s, s');
    Close(cfg, s');
  }

  lemma AppendKeeps(cfg: Config, s: State, h: Handler)
    requires Inv(cfg, s) && h.pc.Begin? && Supplied(h.req) <= s.exposed
    ensures var s' := s.(handlers := s.handlers + [h]); Inv(cfg, s') && Grows(s, s')
  {
    Open(cfg, s);
    var s' := s.(handlers := s.handlers + [h]);
    assert Grows(s, s');
    HandlersStay(cfg, s, s', {|s.handlers|});
    SecretAppends(s.handlers, h, s.exposed);
    OwnersStay(cfg, s, s');
    BirthsStay(cfg, s, s');
    TakesStay(s, s');
    VaultStays(s, s');
    CallsStay(s, s');
    Close(cfg, s');
  }

  lemma ArriveKeeps(cfg: Config, s: State, h: Handler)
    requires Inv(cfg, s) && h.pc.Begin? && Sendable(s, h.req)
    ensures Inv(cfg, Arrive(s, h)) && Grows(s, Arrive(s, h))
  {
    forall rid | 0 <= rid < |s.handlers| ensures Unexposed(s.exposed + Supplied(h.req), s.handlers[rid].pc) {
      SecretAt(cfg, s, rid);
    }
    var s1 := Expose(s, Supplied(h.req));
    ExposeKeeps(cfg, s, Supplied(h.req));
    AppendKeeps(cfg, s1, h);
    assert Arrive(s, h) == s1.(handlers := s1.handlers + [h]);
    GrowsTransitive(s, s1, Arrive(s, h));
  }

  lemma ProviderKeeps(cfg: Config, s: State, pa: P.Action)
    requires Inv(cfg, s) && P.Enabled(cfg.provider, s.op, pa, s.now)
    ensures var s' := s.(op := P.Step(cfg.provider, s.op, pa, s.now)); Inv(cfg, s') && Grows(s, s')
  {
    var s' := s.(op := P.Step(cfg.provider, s.op, pa, s.now));
    assert P.Inv(cfg.provider, s'.op) && P.Grows(s.op, s'.op) by {
      assert Holds(cfg, s, OfProvider);
      P.StepKeeps(cfg.provider, s.op, pa, s.now);
    }
    assert Grows(s, s');
    HandlersAlone(cfg, s, s');
    SecretsAlone(cfg, s, s');
    VaultAndCallsStay(cfg, s, s');
    assert OwnersInv(cfg, s') by {
      assert Holds(cfg, s, OfOwners);
      OwnersStay(cfg, s, s');
    }
    Close(cfg, s');
  }

  // ----- Login -----

  function DrawLogin(s: State, rid: nat, st: string, txn: LoginTransaction): State
  {
    s.(drawn := s.drawn[st := AsState(rid)][txn.nonce := AsNonce(st)][txn.pkceVerifier := AsVerifier(st)],
       log := s.log.(logins := s.log.logins[st := LoginBirth(rid, txn)]))
  }

  lemma DrawsStay(drawn: map<string, Purpose>, drawn': map<string, Purpose>,
                  logins: map<string, LoginBirth>, sessions: map<string, SessionBirth>)
    requires LoginDrawsInv(drawn, logins) && SessionDrawsInv(drawn, sessions) && Extends(drawn, drawn')
    ensures LoginDrawsInv(drawn', logins) && SessionDrawsInv(drawn', sessions)
  {
  }

  lemma DrawLoginExtends(s: State, rid: nat, st: string, txn: LoginTransaction)
    requires TokensInv(s.drawn) && Fresh(s, st) && Fresh(s, txn.nonce) && Fresh(s, txn.pkceVerifier)
    requires st != txn.nonce && st != txn.pkceVerifier && txn.nonce != txn.pkceVerifier
    ensures var drawn' := DrawLogin(s, rid, st, txn).drawn; Extends(s.drawn, drawn') && TokensInv(drawn')
  {
  }

  lemma LoginBirthRecorded(drawn: map<string, Purpose>, logins: map<string, LoginBirth>, st: string, b: LoginBirth)
    requires LoginDrawsInv(drawn, logins) && DrawnFor(drawn, st, AsState(b.rid))
    requires DrawnFor(drawn, b.txn.nonce, AsNonce(st)) && DrawnFor(drawn, b.txn.pkceVerifier, AsVerifier(st))
    ensures LoginDrawsInv(drawn, logins[st := b])
  {
  }

  /** Three fresh, distinct draws and their record. */
  lemma DrawLoginKeepsDraws(s: State, rid: nat, st: string, txn: LoginTransaction)
    requires TokensInv(s.drawn) && LoginDrawsInv(s.drawn, s.log.logins) && SessionDrawsInv(s.drawn, s.log.sessions)
    requires Fresh(s, st) && Fresh(s, txn.nonce) && Fresh(s, txn.pkceVerifier)
    requires st != txn.nonce && st != txn.pkceVerifier && txn.nonce != txn.pkceVerifier
    ensures var s' := DrawLogin(s, rid, st, txn);
            && Extends(s.drawn, s'.drawn) && st !in s.log.logins
            && TokensInv(s'.drawn) && LoginDrawsInv(s'.drawn, s'.log.logins)
              && SessionDrawsInv(s'.drawn, s'.log.sessions)
  {
    var drawn' := DrawLogin(s, rid, st, txn).drawn;
    DrawLoginExtends(s, rid, st, txn);
    DrawsStay(s.drawn, drawn', s.log.logins, s.log.sessions);
    LoginBirthRecorded(drawn', s.log.logins, st, LoginBirth(rid, txn));
  }

  lemma DrawLoginGrows(s: State, rid: nat, st: string, txn: LoginTransaction)
    requires Extends(s.drawn, DrawLogin(s, rid, st, txn).drawn) && st !in s.log.logins
    ensures Grows(s, DrawLogin(s, rid, st, txn))
  {
  }

  lemma DrawLoginKeeps(cfg: Config, s: State, rid: nat, st: string, txn: LoginTransaction)
    requires Inv(cfg, s)
    requires Fresh(s, st) && Fresh(s, txn.nonce) && Fresh(s, txn.pkceVerifier)
    requires st != txn.nonce && st != txn.pkceVerifier && txn.nonce != txn.pkceVerifier
    ensures var s' := DrawLogin(s, rid, st, txn); Inv(cfg, s') && Grows(s, s')
  {
    var s' := DrawLogin(s, rid, st, txn);
    assert DrawInv(s') && Grows(s, s') by {
      assert Holds(cfg, s, OfDraws);
      DrawLoginKeepsDraws(s, rid, st, txn);
      DrawLoginGrows(s, rid, st, txn);
    }
    assert Holds(cfg, s, OfSecrets);
    HandlersAlone(cfg, s, s');
    VaultAndCallsStay(cfg, s, s');
    OutsideStore(cfg, s, s');
    Close(cfg, s');
  }

  lemma LoginDrawKeeps(cfg: Config, s: State, rid: nat, st: string, txn: LoginTransaction)
    requires Inv(cfg, s) && At(s, rid) && s.handlers[rid].pc.Begin? && s.handlers[rid].req.LoginRequest?
    requires Fresh(s, st) && Fresh(s, txn.nonce) && Fresh(s, txn.pkceVerifier)
    requires st != txn.nonce && st != txn.pkceVerifier && txn.nonce != txn.pkceVerifier
    ensures Inv(cfg, LoginDrew(s, rid, st, txn)) && Grows(s, LoginDrew(s, rid, st, txn))
  {
    var s1 := DrawLogin(s, rid, st, txn);
    DrawLoginKeeps(cfg, s, rid, st, txn);
    HandlerAt(cfg, s1, rid);
    GotoKeeps(cfg, s1, rid, LoginStoring(st, txn));
    var s' := Goto(s1, rid, LoginStoring(st, txn));
    assert s' == LoginDrew(s, rid, st, txn);
    GrowsTransitive(s, s1, s');
  }

  lemma PutLoginKeepsVault(vault: V.Vault, log: History, now: int, st: string)
    requires VaultInv(vault, log, now) && st in log.logins && (st in log.taken.Values ==> st in log.revived)
    ensures VaultInv(V.PutLogin(vault, st, log.logins[st].txn, LOGIN_TRANSACTION_TTL, now),
                     log.(loginSetAt := log.loginSetAt[st := now]), now)
  {
    VaultFollows(vault, log, now, V.PutLogin(vault, st, log.logins[st].txn, LOGIN_TRANSACTION_TTL, now),
                 log.(loginSetAt := log.loginSetAt[st := now]), now);
  }

  function Put(s: State, st: string): State
    requires st in s.log.logins
  {
    s.(vault := V.PutLogin(s.vault, st, s.log.logins[st].txn, LOGIN_TRANSACTION_TTL, s.now),
       log := s.log.(loginSetAt := s.log.loginSetAt[st := s.now]))
  }

  lemma PutKeeps(cfg: Config, s: State, st: string)
    requires Inv(cfg, s) && st in s.log.logins && (st in s.log.taken.Values ==> st in s.log.revived)
    ensures Inv(cfg, Put(s, st)) && Grows(s, Put(s, st))
  {
    var s' := Put(s, st);
    assert Grows(s, s');
    assert VaultInv(s'.vault, s'.log, s'.now) by {
      assert Holds(cfg, s, OfStore);
      PutLoginKeepsVault(s.vault, s.log, s.now, st);
    }
    HandlersAlone(cfg, s, s');
    SecretsAlone(cfg, s, s');
    OutsideStore(cfg, s, s');
    Close(cfg, s');
  }

  lemma LoginPutKeeps(cfg: Config, s: State, rid: nat)
    requires Inv(cfg, s) && At(s, rid) && s.handlers[rid].pc.LoginStoring?
    ensures Inv(cfg, LoginStored(cfg, s, rid, false)) && Grows(s, LoginStored(cfg, s, rid, false))
  {
    HandlerAt(cfg, s, rid);
    assert Holds(cfg, s, OfSecrets);
    PutKeeps(cfg, s, s.handlers[rid].pc.state);
    assert LoginStored(cfg, s, rid, false) == Put(s, s.handlers[rid].pc.state);
  }

  lemma LoginSetKeeps(cfg: Config, s: State, rid: nat)
    requires Inv(cfg, s) && At(s, rid) && s.handlers[rid].pc.LoginStoring?
    ensures Inv(cfg, LoginStored(cfg, s, rid, true)) && Grows(s, LoginStored(cfg, s, rid, true))
  {
    var pc := s.handlers[rid].pc;
    HandlerAt(cfg, s, rid);
    LoginBirthAt(cfg, s, pc.state);
    var s1, s3 := LoginStored(cfg, s, rid, false), LoginStored(cfg, s, rid, true);
    LoginPutKeeps(cfg, s, rid);
    var s2 := Goto(s1, rid, s3.handlers[rid].pc);
    GotoKeeps(cfg, s1, rid, s3.handlers[rid].pc);
    forall i | 0 <= i < |s2.handlers| ensures Unexposed(s2.exposed + {pc.state, pc.txn.nonce}, s2.handlers[i].pc) {
      SecretAt(cfg, s2, i);
    }
    ExposeKeeps(cfg, s2, {pc.state, pc.txn.nonce});
    assert s3 == Expose(s2, {pc.state, pc.txn.nonce});
    GrowsTransitive(s, s1, s2);
    GrowsTransitive(s, s2, s3);
  }

  // ----- Callback -----

  lemma CallbackCheckKeeps(cfg: Config, s: State, rid: nat)
    requires Inv(cfg, s) && At(s, rid) && s.handlers[rid].pc.Begin? && s.handlers[rid].req.CallbackRequest?
    ensures Inv(cfg, CallbackChecked(s, rid)) && Grows(s, CallbackChecked(s, rid))
  {
    var req := s.handlers[rid].req;
    HandlerAt(cfg, s, rid);
    if req.stateCookie.None? {
      GotoKeeps(cfg, s, rid, Done(Fail(400)));
    } else if req.state == "" || req.state != req.stateCookie.value {
      GotoKeeps(cfg, s, rid, Done(FailCallback(400)));
    } else {
      GotoKeeps(cfg, s, rid, Taking(req.state));
    }
  }

  function Take(s: State, rid: nat, st: string): State
  {
    s.(vault := V.DropLogin(s.vault, st), log := s.log.(taken := s.log.taken[rid := st]))
  }

  lemma TakeKeepsVault(vault: V.Vault, log: History, now: int, rid: nat, st: string)
    requires VaultInv(vault, log, now)
    ensures VaultInv(V.DropLogin(vault, st), log.(taken := log.taken[rid := st]), now)
  {
    VaultFollows(vault, log, now, V.DropLogin(vault, st), log.(taken := log.taken[rid := st]), now);
  }

  lemma TakeKeepsTakes(cfg: Config, s: State, rid: nat, st: string, pc: Pc)
    requires Inv(cfg, s) && At(s, rid) && s.handlers[rid].pc.Taking? && st in s.vault.logins && PastTake(pc)
    ensures rid !in s.log.taken
    ensures var s' := Goto(Take(s, rid, st), rid, pc);
            TakesInv(s'.log.taken, s'.log.revived, s'.handlers)
            && Grows(s, s')
  {
    assert Holds(cfg, s, OfTakes);
    LoginEntryAt(cfg, s, st);
  }

  lemma TakeKeepsHandlers(cfg: Config, s: State, rid: nat, st: string, pc: Pc)
    requires Inv(cfg, s) && At(s, rid) && s.handlers[rid].pc.Taking?
    requires Grows(s, Goto(Take(s, rid, st), rid, pc))
    requires HandlerInv(cfg, Goto(Take(s, rid, st), rid, pc), rid, s.handlers[rid].(pc := pc))
    ensures var s' := Goto(Take(s, rid, st), rid, pc); HandlersInv(cfg, s') && BirthsInv(cfg, s')
  {
    var s' := Goto(Take(s, rid, st), rid, pc);
    HandlerAt(cfg, s, rid);
    assert Holds(cfg, s, OfHandlers) && Holds(cfg, s, OfBirths);
    HandlersStay(cfg, s, s', {rid});
    BirthsStay(cfg, s, s');
  }

  lemma TakeKeepsRest(cfg: Config, s: State, rid: nat, st: string, pc: Pc)
    requires Inv(cfg, s) && At(s, rid) && st in s.exposed && rid !in s.log.taken && Unexposed(s.exposed, pc)
    ensures var s' := Goto(Take(s, rid, st), rid, pc);
            DrawInv(s') && OutsideInv(s')
            && VaultInv(s'.vault, s'.log, s'.now)
  {
    assert Holds(cfg, s, OfDraws) && Holds(cfg, s, OfSecrets) && Holds(cfg, s, OfStore);
    SecretStays(s.handlers, s.exposed, rid, s.handlers[rid].(pc := pc));
    TakeKeepsVault(s.vault, s.log, s.now, rid, st);
  }

  /** The transaction leaves the store in the step that hands it out. */
  lemma TakeKeeps(cfg: Config, s: State, rid: nat, st: string, pc: Pc)
    requires Inv(cfg, s) && At(s, rid) && s.handlers[rid].pc.Taking? && st in s.exposed && st in s.vault.logins
    requires PastTake(pc) && Unexposed(s.exposed, pc)
    requires HandlerInv(cfg, Goto(Take(s, rid, st), rid, pc), rid, s.handlers[rid].(pc := pc))
    ensures var s' := Goto(Take(s, rid, st), rid, pc); Inv(cfg, s') && Grows(s, s')
  {
    var s' := Goto(Take(s, rid, st), rid, pc);
    TakeKeepsTakes(cfg, s, rid, st, pc);
    TakeKeepsHandlers(cfg, s, rid, st, pc);
    TakeKeepsRest(cfg, s, rid, st, pc);
    OutsideStore(cfg, s, s');
    Close(cfg, s');
  }

  lemma DropKeeps(cfg: Config, s: State, st: string)
    requires Inv(cfg, s)
    ensures var s' := s.(vault := V.DropLogin(s.vault, st)); Inv(cfg, s') && Grows(s, s')
  {
    var s' := s.(vault := V.DropLogin(s.vault, st));
    assert Grows(s, s');
    assert VaultInv(s'.vault, s'.log, s'.now) by {
      assert Holds(cfg, s, OfStore);
      VaultFollows(s.vault, s.log, s.now, s'.vault, s'.log, s'.now);
    }
    HandlersAlone(cfg, s, s');
    SecretsAlone(cfg, s, s');
    OutsideStore(cfg, s, s');
    Close(cfg, s');
  }

  lemma CallbackTakeKeeps(cfg: Config, s: State, rid: nat, answered: bool)
    requires Inv(cfg, s) && At(s, rid) && s.handlers[rid].pc.Taking?
    ensures Inv(cfg, CallbackTook(s, rid, answered)) && Grows(s, CallbackTook(s, rid, answered))
  {
    var s', h := CallbackTook(s, rid, answered), s.handlers[rid];
    var st := h.pc.state;
    HandlerAt(cfg, s, rid);
    if !answered {
      DropKeeps(cfg, s, st);
    } else if V.Look(s.vault.logins, st, s.now).None? {
      var s1 := s.(vault := V.DropLogin(s.vault, st));
      DropKeeps(cfg, s, st);
      GotoKeeps(cfg, s1, rid, s'.handlers[rid].pc);
      GrowsTransitive(s, s1, s');
    } else {
      LoginEntryAt(cfg, s, st);
      assert s' == Goto(Take(s, rid, st), rid, s'.handlers[rid].pc);
      TakeKeeps(cfg, s, rid, st, s'.handlers[rid].pc);
    }
  }

  function Own(s: State, rid: nat, gid: nat, g: P.Grant): State
  {
    s.(op := s.op.(grants := s.op.grants[gid := g]), owner := s.owner[gid := rid])
  }

  lemma OwnerExtended(redirectURI: string, owner: map<nat, nat>, grants: map<nat, P.Grant>, handlers: seq<Handler>,
                      taken: map<nat, string>, logins: map<string, LoginBirth>, rid: nat, gid: nat, g: P.Grant)
    requires OwnerInv(redirectURI, owner, grants, handlers, taken, logins)
    requires gid !in grants && rid < |handlers| && handlers[rid].req.CallbackRequest?
    requires OwnedGrant(redirectURI, g, rid, handlers[rid].req, taken, logins)
    ensures OwnerInv(redirectURI, owner[gid := rid], grants[gid := g], handlers, taken, logins)
    ensures Extends(owner, owner[gid := rid])
  {
  }

  lemma OwnKeeps(cfg: Config, s: State, rid: nat, gid: nat, g: P.Grant)
    requires Inv(cfg, s) && gid !in s.op.grants && g.phase.Received?
    requires At(s, rid) && s.handlers[rid].req.CallbackRequest?
    requires OwnedGrant(cfg.redirectURI, g, rid, s.handlers[rid].req, s.log.taken, s.log.logins)
    ensures Inv(cfg, Own(s, rid, gid, g)) && Grows(s, Own(s, rid, gid, g))
  {
    var s' := Own(s, rid, gid, g);
    assert P.Inv(cfg.provider, s'.op) && P.Grows(s.op, s'.op) by {
      assert Holds(cfg, s, OfProvider);
      P.ReceiveKeeps(cfg.provider, s.op, gid, g);
    }
    assert OwnersInv(cfg, s') && Extends(s.owner, s'.owner) by {
      assert Holds(cfg, s, OfOwners);
      OwnerExtended(cfg.redirectURI, s.owner, s.op.grants, s.handlers, s.log.taken, s.log.logins, rid, gid, g);
    }
    assert Grows(s, s');
    HandlersAlone(cfg, s, s');
    SecretsAlone(cfg, s, s');
    VaultAndCallsStay(cfg, s, s');
    Close(cfg, s');
  }

  lemma TokenSendKeeps(cfg: Config, s: State, rid: nat, gid: nat)
    requires Inv(cfg, s) && At(s, rid) && s.handlers[rid].pc.Exchanging? && gid !in s.op.grants
    ensures Inv(cfg, TokenSent(cfg, s, rid, gid)) && Grows(s, TokenSent(cfg, s, rid, gid))
  {
    var s' := TokenSent(cfg, s, rid, gid);
    HandlerAt(cfg, s, rid);
    OwnKeeps(cfg, s, rid, gid, s'.op.grants[gid]);
    assert s' == Own(s, rid, gid, s'.op.grants[gid]);
  }

  lemma CallbackVerifyKeeps(cfg: Config, s: State, rid: nat, gid: nat)
    requires Inv(cfg, s) && At(s, rid) && s.handlers[rid].pc.Exchanging?
    requires ExchangeReturns(cfg, s, rid, gid, s.handlers[rid].pc.txn)
    ensures Inv(cfg, CallbackVerified(s, rid, gid)) && Grows(s, CallbackVerified(s, rid, gid))
  {
    var pc := s.handlers[rid].pc;
    var ev := Evidence(pc.state, pc.txn, gid, s.op.grants[gid].phase.idToken);
    HandlerAt(cfg, s, rid);
    OwnedAt(cfg, s, gid);
    assert Sound(cfg, s, rid, ev);
    GotoKeeps(cfg, s, rid, Verified(ev));
  }

  lemma CallbackTtlKeeps(cfg: Config, s: State, rid: nat)
    requires Inv(cfg, s) && At(s, rid) && s.handlers[rid].pc.Verified? && s.handlers[rid].pc.ev.idToken in s.op.signed
    ensures Inv(cfg, CallbackTimed(s, rid)) && Grows(s, CallbackTimed(s, rid))
  {
    var h, ev := s.handlers[rid], s.handlers[rid].pc.ev;
    var expiresAt := Seconds(s.op.signed[ev.idToken].exp);
    HandlerAt(cfg, s, rid);
    assert Sound(cfg, s, rid, ev);
    if expiresAt - s.now <= 0 {
      GotoKeeps(cfg, s, rid, Done(FailCallback(401)));
    } else {
      assert HandlerInv(cfg, s, rid, h.(pc := Timed(ev, expiresAt, expiresAt - s.now, s.now)));
      GotoKeeps(cfg, s, rid, Timed(ev, expiresAt, expiresAt - s.now, s.now));
    }
  }

  lemma DrawSessionKeepsDraws(s: State, rid: nat, id: string, b: SessionBirth)
    requires TokensInv(s.drawn) && LoginDrawsInv(s.drawn, s.log.logins) && SessionDrawsInv(s.drawn, s.log.sessions)
    requires Fresh(s, id) && Fresh(s, b.rec.csrfToken) && id != b.rec.csrfToken && b.rid == rid
    ensures var drawn' := s.drawn[id := AsSessionId(rid)][b.rec.csrfToken := AsCsrf(id)];
            && Extends(s.drawn, drawn') && TokensInv(drawn')
            && LoginDrawsInv(drawn', s.log.logins) && SessionDrawsInv(drawn', s.log.sessions[id := b])
  {
    var drawn' := s.drawn[id := AsSessionId(rid)][b.rec.csrfToken := AsCsrf(id)];
    assert Extends(s.drawn, drawn');
    DrawsStay(s.drawn, drawn', s.log.logins, s.log.sessions);
  }

  lemma DrawSessionKeepsBirths(cfg: Config, s: State, s': State, rid: nat, id: string, b: SessionBirth)
    requires BirthsInv(cfg, s) && Grows(s, s') && At(s', rid)
    requires s'.log.sessions == s.log.sessions[id := b] && s'.log.sessionOf == s.log.sessionOf[rid := id]
    requires rid !in s.log.sessionOf && BirthInv(cfg, s', id, b)
    requires At(s, rid) && s'.handlers == s.handlers[rid := s'.handlers[rid]] && s'.handlers[rid].pc.SessionStoring?
    ensures BirthsInv(cfg, s')
  {
    forall i <- s'.log.sessions ensures BirthInv(cfg, s', i, s'.log.sessions[i]) {
      if i != id {
        BirthStays(cfg, s, s', i, s.log.sessions[i]);
      }
    }
  }

  lemma CallbackDrawGrows(s: State, rid: nat, csrf: string, id: string)
    requires At(s, rid) && s.handlers[rid].pc.Timed? && s.handlers[rid].pc.ev.idToken in s.op.signed
    requires Extends(s.drawn, CallbackDrew(s, rid, csrf, id).drawn) && id !in s.log.sessions
    ensures Grows(s, CallbackDrew(s, rid, csrf, id))
  {
  }

  lemma CallbackDrawSound(cfg: Config, s: State, rid: nat, csrf: string, id: string)
    requires At(s, rid) && s.handlers[rid].pc.Timed? && HandlerInv(cfg, s, rid, s.handlers[rid])
    requires Grows(s, CallbackDrew(s, rid, csrf, id))
    ensures var s' := CallbackDrew(s, rid, csrf, id);
            && BirthInv(cfg, s', id, s'.log.sessions[id]) && HandlerInv(cfg, s', rid, s'.handlers[rid])
  {
    SoundStays(cfg, s, CallbackDrew(s, rid, csrf, id), rid, s.handlers[rid].pc.ev);
  }

  lemma CallbackDrawFresh(cfg: Config, s: State, rid: nat, csrf: string, id: string)
    requires Inv(cfg, s) && At(s, rid) && s.handlers[rid].pc.Timed? && s.handlers[rid].pc.ev.idToken in s.op.signed
    requires Fresh(s, csrf) && Fresh(s, id) && csrf != id
    ensures var s' := CallbackDrew(s, rid, csrf, id); id !in s.log.sessions && Grows(s, s') && DrawInv(s')
  {
    assert Holds(cfg, s, OfDraws);
    DrawSessionKeepsDraws(s, rid, id, CallbackDrew(s, rid, csrf, id).log.sessions[id]);
    CallbackDrawGrows(s, rid, csrf, id);
  }

  lemma CallbackDrawRecords(cfg: Config, s: State, rid: nat, csrf: string, id: string)
    requires Inv(cfg, s) && At(s, rid) && s.handlers[rid].pc.Timed? && s.handlers[rid].pc.ev.idToken in s.op.signed
    requires id !in s.exposed && Grows(s, CallbackDrew(s, rid, csrf, id))
    ensures var s' := CallbackDrew(s, rid, csrf, id); BirthsInv(cfg, s') && HandlersInv(cfg, s') && OutsideInv(s')
  {
    var s' := CallbackDrew(s, rid, csrf, id);
    HandlerAt(cfg, s, rid);
    CallbackDrawSound(cfg, s, rid, csrf, id);
    assert Holds(cfg, s, OfHandlers) && Holds(cfg, s, OfBirths) && Holds(cfg, s, OfSecrets);
    DrawSessionKeepsBirths(cfg, s, s', rid, id, s'.log.sessions[id]);
    HandlersStay(cfg, s, s', {rid});
    SecretStays(s.handlers, s.exposed, rid, s'.handlers[rid]);
  }

  lemma CallbackDrawKeeps(cfg: Config, s: State, rid: nat, csrf: string, id: string)
    requires Inv(cfg, s) && At(s, rid) && s.handlers[rid].pc.Timed? && s.handlers[rid].pc.ev.idToken in s.op.signed
    requires Fresh(s, csrf) && Fresh(s, id) && csrf != id
    ensures Inv(cfg, CallbackDrew(s, rid, csrf, id)) && Grows(s, CallbackDrew(s, rid, csrf, id))
  {
    CallbackDrawFresh(cfg, s, rid, csrf, id);
    CallbackDrawRecords(cfg, s, rid, csrf, id);
    VaultAndCallsStay(cfg, s, CallbackDrew(s, rid, csrf, id));
    OutsideStore(cfg, s, CallbackDrew(s, rid, csrf, id));
    assert TakesInv(s.log.taken, s.log.revived, CallbackDrew(s, rid, csrf, id).handlers) by {
      assert Holds(cfg, s, OfTakes);
    }
    Close(cfg, CallbackDrew(s, rid, csrf, id));
  }

  lemma PutSessionKeepsVault(vault: V.Vault, log: History, now: int, id: string)
    requires VaultInv(vault, log, now) && id in log.sessions && log.sessions[id].ttl > 0
             && log.sessions[id].ttlAt <= now
    requires id in log.loggedOut ==> id in log.restored
    ensures VaultInv(V.PutSession(vault, id, log.sessions[id].rec, log.sessions[id].ttl, now),
                     log.(sessionSetAt := log.sessionSetAt[id := now]), now)
  {
    VaultFollows(vault, log, now, V.PutSession(vault, id, log.sessions[id].rec, log.sessions[id].ttl, now),
                 log.(sessionSetAt := log.sessionSetAt[id := now]), now);
  }

  function Store(s: State, id: string): State
    requires id in s.log.sessions
  {
    s.(vault := V.PutSession(s.vault, id, s.log.sessions[id].rec, s.log.sessions[id].ttl, s.now),
       log := s.log.(sessionSetAt := s.log.sessionSetAt[id := s.now]))
  }

  lemma StoreKeeps(cfg: Config, s: State, id: string)
    requires Inv(cfg, s) && id in s.log.sessions && (id in s.log.loggedOut ==> id in s.log.restored)
    ensures Inv(cfg, Store(s, id)) && Grows(s, Store(s, id))
  {
    var s' := Store(s, id);
    assert Grows(s, s');
    assert VaultInv(s'.vault, s'.log, s'.now) by {
      BirthAt(cfg, s, id);
      assert Holds(cfg, s, OfStore);
      PutSessionKeepsVault(s.vault, s.log, s.now, id);
    }
    HandlersAlone(cfg, s, s');
    SecretsAlone(cfg, s, s');
    OutsideStore(cfg, s, s');
    Close(cfg, s');
  }

  lemma SessionPutKeeps(cfg: Config, s: State, rid: nat)
    requires Inv(cfg, s) && At(s, rid) && s.handlers[rid].pc.SessionStoring?
    ensures Inv(cfg, SessionStored(s, rid, false)) && Grows(s, SessionStored(s, rid, false))
  {
    HandlerAt(cfg, s, rid);
    assert Holds(cfg, s, OfSecrets);
    StoreKeeps(cfg, s, s.handlers[rid].pc.id);
    assert SessionStored(s, rid, false) == Store(s, s.handlers[rid].pc.id);
  }

  lemma SessionSetKeeps(cfg: Config, s: State, rid: nat)
    requires Inv(cfg, s) && At(s, rid) && s.handlers[rid].pc.SessionStoring?
    ensures Inv(cfg, SessionStored(s, rid, true)) && Grows(s, SessionStored(s, rid, true))
  {
    var id := s.handlers[rid].pc.id;
    HandlerAt(cfg, s, rid);
    SecretAt(cfg, s, rid);
    var s1, s3 := SessionStored(s, rid, false), SessionStored(s, rid, true);
    SessionPutKeeps(cfg, s, rid);
    var s2 := Goto(s1, rid, s3.handlers[rid].pc);
    GotoKeeps(cfg, s1, rid, s3.handlers[rid].pc);
    forall i | 0 <= i < |s2.handlers| ensures Unexposed(s2.exposed + {id}, s2.handlers[i].pc) {
      SecretAt(cfg, s2, i);
    }
    ExposeKeeps(cfg, s2, {id});
    assert s3 == Expose(s2, {id});
    GrowsTransitive(s, s1, s2);
    GrowsTransitive(s, s2, s3);
  }

  // ----- Session endpoints -----

  lemma SessionCheckKeeps(cfg: Config, s: State, rid: nat)
    requires Inv(cfg, s) && At(s, rid) && s.handlers[rid].pc.Begin?
    ensures Inv(cfg, SessionChecked(cfg, s, rid)) && Grows(s, SessionChecked(cfg, s, rid))
  {
    HandlerAt(cfg, s, rid);
    match s.handlers[rid].req
    case LogoutRequest(origin, cookie, _) =>
      if origin != cfg.externalOrigin {
        GotoKeeps(cfg, s, rid, Done(Fail(403)));
      } else if cookie.None? {
        GotoKeeps(cfg, s, rid, Done(Fail(401)));
      } else {
        GotoKeeps(cfg, s, rid, LogoutReading(cookie.value));
      }
    case StatusRequest(origin, cookie) =>
      if origin != "" && origin != cfg.externalOrigin {
        GotoKeeps(cfg, s, rid, Done(Fail(403)));
      } else if cookie.None? {
        GotoKeeps(cfg, s, rid, Done(Response(200, Keep, Keep, Anonymous)));
      } else {
        GotoKeeps(cfg, s, rid, StatusReading(cookie.value));
      }
    case ApiRequest(cookie) =>
      if cookie.None? {
        GotoKeeps(cfg, s, rid, Done(Fail(401)));
      } else {
        GotoKeeps(cfg, s, rid, ApiReading(cookie.value));
      }
    case _ =>
  }

  /** A DEL has been sent. */
  function Mark(s: State, id: string): State
  {
    s.(log := s.log.(deletes := s.log.deletes + {id}))
  }

  lemma MarkKeeps(cfg: Config, s: State, id: string)
    requires Inv(cfg, s) && id in s.exposed
    ensures Inv(cfg, Mark(s, id)) && Grows(s, Mark(s, id))
  {
    var s' := Mark(s, id);
    assert Grows(s, s');
    HandlersAlone(cfg, s, s');
    assert DrawInv(s') && OutsideInv(s') by {
      assert Holds(cfg, s, OfDraws) && Holds(cfg, s, OfSecrets);
    }
    VaultAndCallsStay(cfg, s, s');
    OutsideStore(cfg, s, s');
    Close(cfg, s');
  }

  lemma FoundNothingKeeps(cfg: Config, s: State, rid: nat)
    requires Inv(cfg, s) && At(s, rid) && ReadsSession(s.handlers[rid])
    ensures var s1 := Goto(s, rid, Done(GivenUp(s.handlers[rid].pc))); Inv(cfg, s1) && Grows(s, s1)
  {
    HandlerAt(cfg, s, rid);
    GotoKeeps(cfg, s, rid, Done(GivenUp(s.handlers[rid].pc)));
  }

  lemma FoundFits(cfg: Config, s: State, rid: nat, rec: Record)
    requires Inv(cfg, s) && At(s, rid) && ReadsSession(s.handlers[rid])
    requires V.Look(s.vault.sessions, s.handlers[rid].pc.id, s.now) == Some(rec)
    ensures var pc := SessionGot(s, rid).handlers[rid].pc;
            HandlerInv(cfg, s, rid, s.handlers[rid].(pc := pc)) && Unexposed(s.exposed, pc)
  {
    HandlerAt(cfg, s, rid);
    SessionEntryAt(cfg, s, s.handlers[rid].pc.id);
  }

  lemma FoundKeeps(cfg: Config, s: State, rid: nat, rec: Record)
    requires Inv(cfg, s) && At(s, rid) && ReadsSession(s.handlers[rid])
    requires V.Look(s.vault.sessions, s.handlers[rid].pc.id, s.now) == Some(rec)
    ensures var s1 := Goto(s, rid, SessionGot(s, rid).handlers[rid].pc); Inv(cfg, s1) && Grows(s, s1)
  {
    FoundFits(cfg, s, rid, rec);
    HandlerAt(cfg, s, rid);
    GotoKeeps(cfg, s, rid, SessionGot(s, rid).handlers[rid].pc);
  }

  lemma GotKeeps(cfg: Config, s: State, rid: nat)
    requires Inv(cfg, s) && At(s, rid) && ReadsSession(s.handlers[rid])
    ensures var s1 := Goto(s, rid, SessionGot(s, rid).handlers[rid].pc); Inv(cfg, s1) && Grows(s, s1)
  {
    match V.Look(s.vault.sessions, s.handlers[rid].pc.id, s.now)
    case None => FoundNothingKeeps(cfg, s, rid);
    case Some(rec) => FoundKeeps(cfg, s, rid, rec);
  }

  /** A CSRF token becomes known with the answer to a status request. */
  lemma TellKeeps(cfg: Config, s: State, id: string)
    requires Inv(cfg, s) && id in s.log.sessions
    ensures Inv(cfg, Expose(s, {s.log.sessions[id].rec.csrfToken}))
            && Grows(s, Expose(s, {s.log.sessions[id].rec.csrfToken}))
  {
    BirthAt(cfg, s, id);
    var csrf := s.log.sessions[id].rec.csrfToken;
    forall i | 0 <= i < |s.handlers| ensures Unexposed(s.exposed + {csrf}, s.handlers[i].pc) {
      SecretAt(cfg, s, i);
    }
    ExposeKeeps(cfg, s, {csrf});
  }

  lemma SessionGetKeeps(cfg: Config, s: State, rid: nat)
    requires Inv(cfg, s) && At(s, rid) && ReadsSession(s.handlers[rid])
    ensures Inv(cfg, SessionGot(s, rid)) && Grows(s, SessionGot(s, rid))
  {
    var s', h := SessionGot(s, rid), s.handlers[rid];
    var s1 := Goto(s, rid, s'.handlers[rid].pc);
    GotKeeps(cfg, s, rid);
    if h.pc.StatusReading? && V.Look(s.vault.sessions, h.pc.id, s.now).Some? {
      SessionEntryAt(cfg, s, h.pc.id);
      TellKeeps(cfg, s1, h.pc.id);
      assert s' == Expose(s1, {s1.log.sessions[h.pc.id].rec.csrfToken});
      GrowsTransitive(s, s1, s');
    } else if s'.handlers[rid].pc.LogoutDeleting? {
      HandlerAt(cfg, s, rid);
      MarkKeeps(cfg, s1, h.pc.id);
      assert s' == Mark(s1, h.pc.id);
      GrowsTransitive(s, s1, s');
    } else {
      assert s' == s1;
    }
  }

  function Forget(s: State, id: string): State
  {
    s.(vault := V.DropSession(s.vault, id), log := s.log.(loggedOut := s.log.loggedOut + {id}))
  }

  lemma ForgetKeepsVault(vault: V.Vault, log: History, now: int, id: string)
    requires VaultInv(vault, log, now)
    ensures VaultInv(V.DropSession(vault, id), log.(loggedOut := log.loggedOut + {id}), now)
  {
    VaultFollows(vault, log, now, V.DropSession(vault, id), log.(loggedOut := log.loggedOut + {id}), now);
  }

  lemma ForgetKeeps(cfg: Config, s: State, id: string)
    requires Inv(cfg, s) && id in s.exposed
    ensures Inv(cfg, Forget(s, id)) && Grows(s, Forget(s, id))
  {
    var s' := Forget(s, id);
    assert Grows(s, s');
    assert VaultInv(s'.vault, s'.log, s'.now) by {
      assert Holds(cfg, s, OfStore);
      ForgetKeepsVault(s.vault, s.log, s.now, id);
    }
    HandlersAlone(cfg, s, s');
    assert DrawInv(s') && OutsideInv(s') by {
      assert Holds(cfg, s, OfDraws) && Holds(cfg, s, OfSecrets);
    }
    OutsideStore(cfg, s, s');
    Close(cfg, s');
  }

  lemma LogoutDelKeeps(cfg: Config, s: State, rid: nat, acknowledged: bool)
    requires Inv(cfg, s) && At(s, rid) && s.handlers[rid].pc.LogoutDeleting?
    ensures Inv(cfg, LogoutDeleted(s, rid, acknowledged)) && Grows(s, LogoutDeleted(s, rid, acknowledged))
  {
    var s', id := LogoutDeleted(s, rid, acknowledged), s.handlers[rid].pc.id;
    HandlerAt(cfg, s, rid);
    var s1 := Forget(s, id);
    ForgetKeeps(cfg, s, id);
    if acknowledged {
      HandlerAt(cfg, s1, rid);
      GotoKeeps(cfg, s1, rid, s'.handlers[rid].pc);
      assert s' == Goto(s1, rid, s'.handlers[rid].pc);
      GrowsTransitive(s, s1, s');
    }
  }

  lemma CallsExtended(calls: seq<UpstreamCall>, c: UpstreamCall, handlers: seq<Handler>, sessions: map<string,
                      SessionBirth>)
    requires CallsInv(calls, handlers, sessions)
    requires c.rid < |handlers| && handlers[c.rid].req == ApiRequest(Some(c.id))
    requires c.id in sessions && c.token == sessions[c.id].rec.idToken
    ensures CallsInv(calls + [c], handlers, sessions)
  {
  }

  lemma ApiCallKeeps(cfg: Config, s: State, rid: nat)
    requires Inv(cfg, s) && At(s, rid) && s.handlers[rid].pc.ApiServing?
    ensures Inv(cfg, ApiCalled(s, rid)) && Grows(s, ApiCalled(s, rid))
  {
    var s', pc := ApiCalled(s, rid), s.handlers[rid].pc;
    HandlerAt(cfg, s, rid);
    assert Grows(s, s');
    HandlersAlone(cfg, s, s');
    SecretsAlone(cfg, s, s');
    assert CallsInv(s'.log.calls, s'.handlers, s'.log.sessions) && VaultInv(s'.vault, s'.log, s'.now) by {
      assert Holds(cfg, s, OfCalls) && Holds(cfg, s, OfStore);
      CallsExtended(s.log.calls, UpstreamCall(rid, pc.id, pc.rec.idToken), s.handlers, s.log.sessions);
      VaultStays(s, s');
    }
    assert P.Inv(cfg.provider, s'.op) && OwnersInv(cfg, s') by {
      assert Holds(cfg, s, OfProvider) && Holds(cfg, s, OfOwners);
      OwnersStay(cfg, s, s');
    }
    Close(cfg, s');
  }

  lemma GiveUpKeeps(cfg: Config, s: State, rid: nat)
    requires Inv(cfg, s) && At(s, rid) && CanFail(s.handlers[rid])
    ensures var s' := Goto(s, rid, Done(GivenUp(s.handlers[rid].pc))); Inv(cfg, s') && Grows(s, s')
  {
    HandlerAt(cfg, s, rid);
    GotoKeeps(cfg, s, rid, Done(GivenUp(s.handlers[rid].pc)));
  }

  lemma FinishKeeps(cfg: Config, s: State, rid: nat)
    requires Inv(cfg, s) && At(s, rid) && s.handlers[rid].pc.ApiServing?
    ensures var s' := Goto(s, rid, Done(Response(200, Keep, Keep, Plain))); Inv(cfg, s') && Grows(s, s')
  {
    HandlerAt(cfg, s, rid);
    GotoKeeps(cfg, s, rid, Done(Response(200, Keep, Keep, Plain)));
  }

  // ----- Commands that come late -----

  function Revive(s: State, st: string): State
  {
    s.(log := s.log.(revived := s.log.revived + (if st in s.log.taken.Values then {st} else {})))
  }

  function Restore(s: State, id: string): State
  {
    s.(log := s.log.(restored := s.log.restored + ({id} * s.log.loggedOut)))
  }

  /** A longer list of revived or restored names is as good. */
  lemma ListKeeps(cfg: Config, s: State, s': State)
    requires Inv(cfg, s) && s' == s.(log := s.log.(revived := s'.log.revived, restored := s'.log.restored))
    requires s.log.revived <= s'.log.revived && s.log.restored <= s'.log.restored
    ensures Inv(cfg, s') && Grows(s, s')
  {
    assert Grows(s, s');
    HandlersAlone(cfg, s, s');
    SecretsAlone(cfg, s, s');
    VaultAndCallsStay(cfg, s, s');
    OutsideStore(cfg, s, s');
    Close(cfg, s');
  }

  lemma LateKeeps(cfg: Config, s: State, c: Command)
    requires Inv(cfg, s) && Sent(s, c)
    ensures Inv(cfg, Applied(s, c)) && Grows(s, Applied(s, c))
  {
    match c
    case SetLogin(st) =>
      var s1 := Revive(s, st);
      ListKeeps(cfg, s, s1);
      PutKeeps(cfg, s1, st);
      assert Applied(s, c) == Put(s1, st);
      GrowsTransitive(s, s1, Applied(s, c));
    case TakeLogin(rid) => DropKeeps(cfg, s, s.handlers[rid].req.state);
    case SetSession(id) =>
      var s1 := Restore(s, id);
      ListKeeps(cfg, s, s1);
      StoreKeeps(cfg, s1, id);
      assert Applied(s, c) == Store(s1, id);
      GrowsTransitive(s, s1, Applied(s, c));
    case DelSession(id) =>
      assert Holds(cfg, s, OfSecrets);
      ForgetKeeps(cfg, s, id);
  }

  // ----- Every step -----

  lemma DeliverKeeps(cfg: Config, s: State, rid: nat)
    requires Inv(cfg, s) && At(s, rid) && s.handlers[rid].pc.Done?
    ensures Inv(cfg, Received(s, rid)) && Grows(s, Received(s, rid))
  {
    BrowserSideKeeps(cfg, s, Received(s, rid));
  }

  lemma ClientStepKeeps(cfg: Config, s: State, a: Action)
    requires Inv(cfg, s) && Enabled(cfg, s, a)
    requires ClientStep(a)
    ensures Inv(cfg, Step(cfg, s, a)) && Grows(s, Step(cfg, s, a))
  {
    if a.BrowserSend? {
      ArriveKeeps(cfg, s, Handler(a.req, Some(a.browser), |CookiesOf(s, a.browser)|, true, Begin));
    } else if a.ClientSend? {
      ArriveKeeps(cfg, s, Handler(a.req, None, 0, false, Begin));
    } else if a.Deliver? {
      DeliverKeeps(cfg, s, a.rid);
    } else {
      BrowserSideKeeps(cfg, s, Step(cfg, s, a));
    }
  }

  lemma CallbackStepKeeps(cfg: Config, s: State, a: Action)
    requires Inv(cfg, s) && Enabled(cfg, s, a)
    requires CallbackStep(a)
    ensures Inv(cfg, Step(cfg, s, a)) && Grows(s, Step(cfg, s, a))
  {
    match a
    case CallbackCheck(rid) => CallbackCheckKeeps(cfg, s, rid);
    case CallbackTake(rid, answered) => CallbackTakeKeeps(cfg, s, rid, answered);
    case TokenSend(rid, gid) => TokenSendKeeps(cfg, s, rid, gid);
    case CallbackVerify(rid, gid) => CallbackVerifyKeeps(cfg, s, rid, gid);
    case CallbackTtl(rid) => CallbackTtlKeeps(cfg, s, rid);
    case CallbackDraw(rid, csrf, id) => CallbackDrawKeeps(cfg, s, rid, csrf, id);
  }

  lemma StoreStepKeeps(cfg: Config, s: State, a: Action)
    requires Inv(cfg, s) && Enabled(cfg, s, a)
    requires StoreStep(a)
    ensures Inv(cfg, Step(cfg, s, a)) && Grows(s, Step(cfg, s, a))
  {
    match a
    case LoginDraw(rid, nonce, verifier, state) => LoginDrawKeeps(cfg, s, rid, state,
        LoginTransaction(nonce, verifier, s.now));
    case LoginSet(rid, acknowledged) => if acknowledged { LoginSetKeeps(cfg, s, rid); }
      else { LoginPutKeeps(cfg, s, rid); }
    case SessionSet(rid, acknowledged) => if acknowledged { SessionSetKeeps(cfg, s, rid); }
      else { SessionPutKeeps(cfg, s, rid); }
    case SessionGet(rid) => SessionGetKeeps(cfg, s, rid);
    case LogoutDel(rid, acknowledged) => LogoutDelKeeps(cfg, s, rid, acknowledged);
  }

  lemma OtherStepKeeps(cfg: Config, s: State, a: Action)
    requires Inv(cfg, s) && Enabled(cfg, s, a)
    requires OtherStep(a)
    ensures Inv(cfg, Step(cfg, s, a)) && Grows(s, Step(cfg, s, a))
  {
    match a
    case Tick(elapsed) => TickKeeps(cfg, s, elapsed);
    case SessionCheck(rid) => SessionCheckKeeps(cfg, s, rid);
    case ApiCall(rid) => ApiCallKeeps(cfg, s, rid);
    case ApiFinish(rid) => FinishKeeps(cfg, s, rid);
    case Late(c) => LateKeeps(cfg, s, c);
    case GiveUp(rid) => GiveUpKeeps(cfg, s, rid);
    case ProviderStep(pa) => ProviderKeeps(cfg, s, pa);
  }

  lemma StepKeeps(cfg: Config, s: State, a: Action)
    requires Inv(cfg, s) && Enabled(cfg, s, a)
    ensures Inv(cfg, Step(cfg, s, a)) && Grows(s, Step(cfg, s, a))
  {
    if ClientStep(a) {
      ClientStepKeeps(cfg, s, a);
    } else if StoreStep(a) {
      StoreStepKeeps(cfg, s, a);
    } else if OtherStep(a) {
      OtherStepKeeps(cfg, s, a);
    } else {
      CallbackStepKeeps(cfg, s, a);
    }
  }

  lemma InitInv(cfg: Config, s: State)
    requires Init(s)
    ensures Inv(cfg, s)
  {
    Close(cfg, s);
  }

  lemma {:induction false} RunInv(cfg: Config, states: seq<State>, actions: seq<Action>, i: nat)
    requires Run(cfg, states, actions) && i < |states|
    ensures Inv(cfg, states[i])
  {
    if i == 0 {
      InitInv(cfg, states[0]);
    } else {
      RunInv(cfg, states, actions, i - 1);
      assert StepAt(cfg, states, actions, i - 1);
      StepKeeps(cfg, states[i - 1], actions[i - 1]);
    }
  }

  lemma RunStep(cfg: Config, states: seq<State>, actions: seq<Action>, i: nat)
    requires Run(cfg, states, actions) && i < |actions|
    ensures Inv(cfg, states[i]) && Grows(states[i], states[i + 1])
  {
    RunInv(cfg, states, actions, i);
    assert StepAt(cfg, states, actions, i);
    StepKeeps(cfg, states[i], actions[i]);
  }

  lemma {:induction false} RunGrows(cfg: Config, states: seq<State>, actions: seq<Action>, i: nat, j: nat)
    requires Run(cfg, states, actions) && i <= j < |states|
    ensures Grows(states[i], states[j])
    decreases j - i
  {
    if i < j {
      RunGrows(cfg, states, actions, i, j - 1);
      RunStep(cfg, states, actions, j - 1);
      GrowsTransitive(states[i], states[j - 1], states[j]);
    }
  }
}
