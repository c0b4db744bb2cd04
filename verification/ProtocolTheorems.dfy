/** What holds in every run of the whole system. */
module ProtocolTheorems {
  import opened Wrappers
  import opened SessionTypes
  import opened Protocol
  import opened ProtocolInvariants
  import Base64Url
  import V = Vault
  import P = Provider

  // ----- Agreement between browser login, provider and session -----

  /** The whole story of one stored session. */
  ghost predicate Agreed(cfg: Config, s: State, id: string, rec: Record)
  {
    && id in s.log.sessions && s.log.sessions[id].rec == rec
    && var b := s.log.sessions[id];
    && var ev := b.ev;
    // one consumed login transaction
    && b.rid in s.log.taken && s.log.taken[b.rid] == ev.state
    && ev.state in s.log.logins && s.log.logins[ev.state].txn == ev.txn
    && (ev.state in s.vault.logins ==> ev.state in s.log.revived)
    // one consumed authorization code
    && ev.gid in s.op.grants
    && var code := s.op.grants[ev.gid].code;
    && code in s.op.redeemer && s.op.redeemer[code] == ev.gid
    && code !in s.op.codes
    && code in s.op.everCodes
    && var ac := s.op.everCodes[code];
    // and they agree
    && rec.subject == ac.subject
    && ac.nonce == ev.txn.nonce
    && ac.codeChallenge == cfg.provider.s256(ev.txn.pkceVerifier)
    && ac.redirectURI == cfg.redirectURI
    // the token upstream will see is the provider's, for that subject
    && rec.idToken in s.op.signed
    && s.op.signed[rec.idToken].sub == ac.subject
    && rec.expiresAt == Seconds(s.op.signed[rec.idToken].exp)
  }

  lemma BirthAgrees(cfg: Config, s: State, id: string)
    requires Inv(cfg, s) && id in s.log.sessions
    ensures Agreed(cfg, s, id, s.log.sessions[id].rec)
  {
    var b := s.log.sessions[id];
    BirthAt(cfg, s, id);
    Open(cfg, s);
    assert P.GrantInv(cfg.provider, s.op, b.ev.gid, s.op.grants[b.ev.gid]);
    assert b.ev.state in s.vault.logins ==> LoginEntryInv(s.log, s.now, b.ev.state, s.vault.logins[b.ev.state]);
    assert s.log.taken[b.rid] in s.log.taken.Values;
  }

  lemma Agreement(cfg: Config, states: seq<State>, actions: seq<Action>, i: nat, id: string)
    requires Run(cfg, states, actions) && i < |states| && id in states[i].vault.sessions
    ensures Agreed(cfg, states[i], id, states[i].vault.sessions[id].value)
  {
    RunInv(cfg, states, actions, i);
    SessionEntryAt(cfg, states[i], id);
    BirthAgrees(cfg, states[i], id);
  }

  /**
   Two sessions share no request, code or CSRF token; nor state, nonce, verifier
   or ID token, unless their one transaction was set late after it had been taken.
   */
  ghost predicate Unrelated(s: State, id1: string, id2: string)
    requires id1 in s.log.sessions && id2 in s.log.sessions
    requires s.log.sessions[id1].ev.gid in s.op.grants && s.log.sessions[id2].ev.gid in s.op.grants
  {
    var b1, b2 := s.log.sessions[id1], s.log.sessions[id2];
    && b1.rid != b2.rid
    && s.op.grants[b1.ev.gid].code != s.op.grants[b2.ev.gid].code
    && b1.rec.csrfToken != b2.rec.csrfToken
    && if b1.ev.state == b2.ev.state then b1.ev.state in s.log.revived
       else
         && b1.ev.txn.nonce != b2.ev.txn.nonce
         && b1.ev.txn.pkceVerifier != b2.ev.txn.pkceVerifier
         && b1.rec.idToken != b2.rec.idToken
  }

  lemma BirthsUnrelated(cfg: Config, s: State, id1: string, id2: string)
    requires Inv(cfg, s) && id1 in s.log.sessions && id2 in s.log.sessions && id1 != id2
    ensures s.log.sessions[id1].ev.gid in s.op.grants && s.log.sessions[id2].ev.gid in s.op.grants
    ensures Unrelated(s, id1, id2)
  {
    BirthAgrees(cfg, s, id1);
    BirthAgrees(cfg, s, id2);
    BirthAt(cfg, s, id1);
    BirthAt(cfg, s, id2);
    assert Holds(cfg, s, OfTakes);
    LoginBirthAt(cfg, s, s.log.sessions[id1].ev.state);
    LoginBirthAt(cfg, s, s.log.sessions[id2].ev.state);
  }

  /** Injectivity of Agreement, for sessions stored at any two moments of a run. */
  lemma AgreementIsOneToOne(cfg: Config, states: seq<State>, actions: seq<Action>, i: nat, j: nat, id1: string,
                            id2: string)
    requires Run(cfg, states, actions) && i <= j < |states| && id1 != id2
    requires id1 in states[i].vault.sessions && id2 in states[j].vault.sessions
    ensures var s := states[j];
            && Agreed(cfg, s, id1, states[i].vault.sessions[id1].value)
            && Agreed(cfg, s, id2, states[j].vault.sessions[id2].value)
            && Unrelated(s, id1, id2)
  {
    RunInv(cfg, states, actions, i);
    RunInv(cfg, states, actions, j);
    RunGrows(cfg, states, actions, i, j);
    SessionEntryAt(cfg, states[i], id1);
    SessionEntryAt(cfg, states[j], id2);
    BirthAgrees(cfg, states[j], id1);
    BirthAgrees(cfg, states[j], id2);
    BirthsUnrelated(cfg, states[j], id1, id2);
  }

  // ----- Sessions are write-once -----

  /** Whenever and wherever it is read, an id has one record. */
  lemma OneRecordPerId(cfg: Config, states: seq<State>, actions: seq<Action>, i: nat, j: nat, id: string)
    requires Run(cfg, states, actions) && i < |states| && j < |states|
    requires id in states[i].vault.sessions && id in states[j].vault.sessions
    ensures states[i].vault.sessions[id].value == states[j].vault.sessions[id].value
  {
    var k := if i <= j then j else i;
    RunInv(cfg, states, actions, i);
    RunInv(cfg, states, actions, j);
    RunGrows(cfg, states, actions, i, k);
    RunGrows(cfg, states, actions, j, k);
    SessionEntryAt(cfg, states[i], id);
    SessionEntryAt(cfg, states[j], id);
  }

  // ----- What is deleted stays deleted -----

  ghost predicate LoginGone(s: State, st: string)
  {
    st in s.exposed && st !in s.vault.logins
  }

  ghost predicate SessionGone(s: State, id: string)
  {
    id in s.exposed && id !in s.vault.sessions
  }

  /** The store after a step: five kinds of step write it, the others leave it alone. */
  ghost function VaultAfter(cfg: Config, s: State, a: Action): V.Vault
    requires Enabled(cfg, s, a)
  {
    match a
    case LoginSet(rid, _) =>
      V.PutLogin(s.vault, s.handlers[rid].pc.state, s.handlers[rid].pc.txn, LOGIN_TRANSACTION_TTL, s.now)
    case CallbackTake(rid, _) => V.DropLogin(s.vault, s.handlers[rid].pc.state)
    case SessionSet(rid, _) =>
      V.PutSession(s.vault, s.handlers[rid].pc.id, s.handlers[rid].pc.rec, s.handlers[rid].pc.ttl, s.now)
    case LogoutDel(rid, _) => V.DropSession(s.vault, s.handlers[rid].pc.id)
    case Late(c) => Applied(s, c).vault
    case _ => s.vault
  }

  predicate WritesVault(a: Action)
  {
    a.LoginSet? || a.CallbackTake? || a.SessionSet? || a.LogoutDel? || a.Late?
  }

  lemma OthersLeaveVault(cfg: Config, s: State, a: Action)
    requires Enabled(cfg, s, a) && !WritesVault(a)
    ensures Step(cfg, s, a).vault == s.vault
  {
    if a.LoginDraw? || a.CallbackCheck? || a.TokenSend? || a.CallbackVerify? || a.CallbackTtl? || a.CallbackDraw? {
      CallbacksLeaveVault(cfg, s, a);
    }
  }

  lemma CallbacksLeaveVault(cfg: Config, s: State, a: Action)
    requires Enabled(cfg, s, a)
    requires a.LoginDraw? || a.CallbackCheck? || a.TokenSend? || a.CallbackVerify? || a.CallbackTtl? || a.CallbackDraw?
    ensures Step(cfg, s, a).vault == s.vault
  {
  }

  lemma LoginWritersEffect(cfg: Config, s: State, a: Action)
    requires Enabled(cfg, s, a) && (a.LoginSet? || a.CallbackTake?)
    ensures Step(cfg, s, a).vault == VaultAfter(cfg, s, a)
  {
  }

  lemma SessionWritersEffect(cfg: Config, s: State, a: Action)
    requires Enabled(cfg, s, a) && (a.SessionSet? || a.LogoutDel?)
    ensures Step(cfg, s, a).vault == VaultAfter(cfg, s, a)
  {
  }

  lemma VaultEffect(cfg: Config, s: State, a: Action)
    requires Enabled(cfg, s, a)
    ensures Step(cfg, s, a).vault == VaultAfter(cfg, s, a)
  {
    if a.LoginSet? || a.CallbackTake? {
      LoginWritersEffect(cfg, s, a);
    } else if a.SessionSet? || a.LogoutDel? {
      SessionWritersEffect(cfg, s, a);
    } else if !a.Late? {
      OthersLeaveVault(cfg, s, a);
    }
  }

  /** Only a late SET stores anything under a name the outside world already knows. */
  lemma GoneStays(cfg: Config, s: State, a: Action, x: string)
    requires Inv(cfg, s) && Enabled(cfg, s, a)
    ensures LoginGone(s, x) && a != Late(SetLogin(x)) ==> LoginGone(Step(cfg, s, a), x)
    ensures SessionGone(s, x) && a != Late(SetSession(x)) ==> SessionGone(Step(cfg, s, a), x)
  {
    StepKeeps(cfg, s, a);
    VaultEffect(cfg, s, a);
    assert Holds(cfg, s, OfSecrets);
    GoneFromVault(cfg, s, a, x);
  }

  lemma GoneFromVault(cfg: Config, s: State, a: Action, x: string)
    requires SecretInv(s.handlers, s.exposed) && Enabled(cfg, s, a)
    ensures LoginGone(s, x) && a != Late(SetLogin(x)) ==> x !in VaultAfter(cfg, s, a).logins
    ensures SessionGone(s, x) && a != Late(SetSession(x)) ==> x !in VaultAfter(cfg, s, a).sessions
  {
    if a.LoginSet? || a.SessionSet? {
      assert Unexposed(s.exposed, s.handlers[a.rid].pc);
    }
  }

  /** Between two moments, command c arrives late. */
  ghost predicate ComesLate(actions: seq<Action>, i: int, j: int, c: Command)
  {
    exists k :: 0 <= i <= k < j && k < |actions| && actions[k] == Late(c)
  }

  lemma {:induction false} GoneForGood(cfg: Config, states: seq<State>, actions: seq<Action>, i: nat, j: nat, x: string)
    requires Run(cfg, states, actions) && i <= j < |states|
    ensures LoginGone(states[i], x) && !ComesLate(actions, i, j, SetLogin(x)) ==> LoginGone(states[j], x)
    ensures SessionGone(states[i], x) && !ComesLate(actions, i, j, SetSession(x)) ==> SessionGone(states[j], x)
    decreases j - i
  {
    if i < j {
      GoneForGood(cfg, states, actions, i, j - 1, x);
      RunInv(cfg, states, actions, j - 1);
      assert StepAt(cfg, states, actions, j - 1);
      GoneStays(cfg, states[j - 1], actions[j - 1], x);
      assert !ComesLate(actions, i, j, SetLogin(x)) ==>
             !ComesLate(actions, i, j - 1, SetLogin(x))
             && actions[j - 1] != Late(SetLogin(x));
      assert !ComesLate(actions, i, j, SetSession(x)) ==>
             !ComesLate(actions, i, j - 1, SetSession(x))
             && actions[j - 1] != Late(SetSession(x));
    }
  }

  /** A late SET puts a name back, readable from that very step. */
  lemma LateSetPutsBack(cfg: Config, states: seq<State>, actions: seq<Action>, i: nat, j: nat, c: Command)
    requires Run(cfg, states, actions) && j < |states| && ComesLate(actions, i, j, c)
    ensures c.SetLogin? ==> exists k :: i < k <= j && V.Look(states[k].vault.logins, c.state, states[k].now).Some?
    ensures c.SetSession? ==> exists k :: i < k <= j && V.Look(states[k].vault.sessions, c.id, states[k].now).Some?
  {
    var k :| i <= k < j && actions[k] == Late(c);
    assert StepAt(cfg, states, actions, k);
    RunInv(cfg, states, actions, k);
    if c.SetSession? {
      BirthAt(cfg, states[k], c.id);
      assert V.Look(states[k + 1].vault.sessions, c.id, states[k + 1].now).Some?;
    } else if c.SetLogin? {
      assert V.Look(states[k + 1].vault.logins, c.state, states[k + 1].now).Some?;
    }
  }

  /** The step is a GETDEL for st that finds a live transaction, whether or not its reply arrives. */
  predicate Finds(s: State, a: Action, st: string)
  {
    && a.CallbackTake? && At(s, a.rid) && s.handlers[a.rid].pc == Taking(st)
    && V.Look(s.vault.logins, st, s.now).Some?
  }

  lemma FoundIsGone(cfg: Config, states: seq<State>, actions: seq<Action>, i: nat, st: string)
    requires Run(cfg, states, actions) && i < |actions| && Finds(states[i], actions[i], st)
    ensures LoginGone(states[i + 1], st)
  {
    RunStep(cfg, states, actions, i);
    assert StepAt(cfg, states, actions, i);
    HandlerAt(cfg, states[i], actions[i].rid);
  }

  /**
   Take-once: racing, repeated and unanswered callbacks together find a
   transaction at most once, if and only if no SET of it arrives late.
   Completeness has a run in which one does, and two callbacks find it.
   */
  lemma TakeIsPermanentIffNoLateSet(cfg: Config, states: seq<State>, actions: seq<Action>, i: nat, j: nat, st: string)
    requires Run(cfg, states, actions) && i < j < |states| && Finds(states[i], actions[i], st)
    ensures (forall k, t :: i < k <= j ==> V.Look(states[k].vault.logins, st, t) == None)
            <==> !ComesLate(actions, i + 1, j, SetLogin(st))
  {
    FoundIsGone(cfg, states, actions, i, st);
    if ComesLate(actions, i + 1, j, SetLogin(st)) {
      LateSetPutsBack(cfg, states, actions, i + 1, j, SetLogin(st));
    } else {
      forall k, t | i < k <= j ensures V.Look(states[k].vault.logins, st, t) == None {
        assert !ComesLate(actions, i + 1, k, SetLogin(st));
        GoneForGood(cfg, states, actions, i + 1, k, st);
      }
    }
  }

  lemma DeletedIsGone(cfg: Config, states: seq<State>, actions: seq<Action>, i: nat, rid: nat, acknowledged: bool,
                      id: string)
    requires Run(cfg, states, actions) && i < |actions|
    requires actions[i] == LogoutDel(rid, acknowledged) && At(states[i], rid)
             && states[i].handlers[rid].pc == LogoutDeleting(id)
    ensures SessionGone(states[i + 1], id)
  {
    RunStep(cfg, states, actions, i);
    assert StepAt(cfg, states, actions, i);
    HandlerAt(cfg, states[i], rid);
  }

  /**
   Logout is permanent from the moment the DEL is applied, acknowledged or not,
   if and only if no SET of that session arrives after it. No other login,
   callback or logout, however delayed, can bring the session back.
   */
  lemma LogoutIsPermanentIffNoLateSet(cfg: Config, states: seq<State>, actions: seq<Action>, i: nat, j: nat,
                                      rid: nat, acknowledged: bool, id: string)
    requires Run(cfg, states, actions) && i < j < |states|
    requires actions[i] == LogoutDel(rid, acknowledged) && At(states[i], rid)
             && states[i].handlers[rid].pc == LogoutDeleting(id)
    ensures (forall k, t :: i < k <= j ==> V.Look(states[k].vault.sessions, id, t) == None)
            <==> !ComesLate(actions, i + 1, j, SetSession(id))
  {
    DeletedIsGone(cfg, states, actions, i, rid, acknowledged, id);
    if ComesLate(actions, i + 1, j, SetSession(id)) {
      LateSetPutsBack(cfg, states, actions, i + 1, j, SetSession(id));
    } else {
      forall k, t | i < k <= j ensures V.Look(states[k].vault.sessions, id, t) == None {
        assert !ComesLate(actions, i + 1, k, SetSession(id));
        GoneForGood(cfg, states, actions, i + 1, k, id);
      }
    }
  }

  lemma RemovedByTake(cfg: Config, s: State, a: Action, st: string)
    requires HandlersInv(cfg, s) && Enabled(cfg, s, a)
    requires st in s.vault.logins && st !in VaultAfter(cfg, s, a).logins
    ensures exists rid :: TakenBy(s, a, rid, st)
  {
    if a.CallbackTake? {
      assert HandlerInv(cfg, s, a.rid, s.handlers[a.rid]);
      assert TakenBy(s, a, a.rid, st);
    } else {
      assert TakenBy(s, a, a.command.rid, st);
    }
  }

  /** The step is a GETDEL sent by callback rid, whose cookie and query both name st. */
  predicate TakenBy(s: State, a: Action, rid: nat, st: string)
  {
    && At(s, rid) && (a == Late(TakeLogin(rid)) || (a.CallbackTake? && a.rid == rid))
    && s.handlers[rid].req.CallbackRequest? && s.handlers[rid].req.state == st
      && s.handlers[rid].req.stateCookie == Some(st)
  }

  /** A stored transaction is only ever removed by a callback whose cookie and query both name it. */
  lemma OnlyMatchingCallbacksRemove(cfg: Config, states: seq<State>, actions: seq<Action>, i: nat, st: string)
    requires Run(cfg, states, actions) && i < |actions|
    requires st in states[i].vault.logins && st !in states[i + 1].vault.logins
    ensures exists rid :: TakenBy(states[i], actions[i], rid, st)
  {
    RunInv(cfg, states, actions, i);
    assert StepAt(cfg, states, actions, i);
    VaultEffect(cfg, states[i], actions[i]);
    Open(cfg, states[i]);
    RemovedByTake(cfg, states[i], actions[i], st);
  }

  // ----- Expiry -----

  /**
   A session is readable exactly until its token's expiry plus the delay between
   computing the lifetime and the store applying it; its lifetime is positive.
   */
  lemma SessionWindow(cfg: Config, states: seq<State>, actions: seq<Action>, i: nat, id: string, t: int)
    requires Run(cfg, states, actions) && i < |states| && id in states[i].vault.sessions
    ensures var s := states[i];
            && id in s.log.sessions && id in s.log.sessionSetAt
            && var b, setAt := s.log.sessions[id], s.log.sessionSetAt[id];
            && b.ttlAt <= setAt <= s.now && b.ttl > 0 && s.vault.sessions[id].deadline == Some(setAt + b.ttl)
            && (V.Look(s.vault.sessions, id, t).Some? <==> t < b.rec.expiresAt + (setAt - b.ttlAt))
  {
    RunInv(cfg, states, actions, i);
    var s := states[i];
    SessionEntryAt(cfg, s, id);
    BirthAt(cfg, s, id);
  }

  /**
   "No session outlives its ID token" is not what the code guarantees: it holds
   for a stored session if and only if the store applied the record at the very
   instant the lifetime was computed.
   */
  lemma ExpiryIsExactIffStoredAtOnce(cfg: Config, states: seq<State>, actions: seq<Action>, i: nat, id: string)
    requires Run(cfg, states, actions) && i < |states| && id in states[i].vault.sessions
    ensures var s := states[i];
            && id in s.log.sessions && id in s.log.sessionSetAt
            && ((forall t :: s.log.sessions[id].rec.expiresAt <= t ==> V.Look(s.vault.sessions, id, t) == None)
                <==> s.log.sessionSetAt[id] == s.log.sessions[id].ttlAt)
  {
    var s := states[i];
    SessionWindow(cfg, states, actions, i, id, s.now);
    var expiresAt := s.log.sessions[id].rec.expiresAt;
    SessionWindow(cfg, states, actions, i, id, expiresAt);
    forall t ensures expiresAt <= t && s.log.sessionSetAt[id] == s.log.sessions[id].ttlAt
      ==> V.Look(s.vault.sessions, id, t) == None {
      SessionWindow(cfg, states, actions, i, id, t);
    }
  }

  /** A login transaction is readable for exactly five minutes from its last SET. */
  lemma LoginWindow(cfg: Config, states: seq<State>, actions: seq<Action>, i: nat, st: string, t: int)
    requires Run(cfg, states, actions) && i < |states| && st in states[i].vault.logins
    ensures var s := states[i];
            && st in s.log.loginSetAt && s.log.loginSetAt[st] <= s.now
            && s.vault.logins[st].deadline == Some(s.log.loginSetAt[st] + Seconds(300))
            && (V.Look(s.vault.logins, st, t).Some? <==> t < s.log.loginSetAt[st] + Seconds(300))
  {
    RunInv(cfg, states, actions, i);
    LoginEntryAt(cfg, states[i], st);
  }

  // ----- Reads that authorize -----

  /** Step j is the store read of handler rid, and it found rec live under id. */
  ghost predicate ReadLive(states: seq<State>, actions: seq<Action>, j: nat, rid: nat, id: string, rec: Record)
    requires |states| == |actions| + 1
  {
    && j < |actions| && actions[j] == SessionGet(rid)
    && At(states[j], rid) && ReadsSession(states[j].handlers[rid]) && states[j].handlers[rid].pc.id == id
    && V.Look(states[j].vault.sessions, id, states[j].now) == Some(rec)
  }

  /** The handler states that mean a session was accepted. */
  predicate Accepting(pc: Pc)
  {
    pc.LogoutDeleting? || pc.ApiServing? || (pc.Done? && pc.resp.status == 204)
  }

  /** The step put handler rid where it was not before. */
  ghost predicate Moves(cfg: Config, s: State, a: Action, rid: nat)
  {
    && Enabled(cfg, s, a) && At(Step(cfg, s, a), rid)
    && (!At(s, rid) || s.handlers[rid].pc != Step(cfg, s, a).handlers[rid].pc)
  }

  lemma ClientsAcceptNothing(cfg: Config, s: State, a: Action, rid: nat)
    requires Moves(cfg, s, a, rid)
    requires ClientStep(a) || a.Tick? || a.TokenSend? || a.ApiCall? || a.ProviderStep?
    ensures !Accepting(Step(cfg, s, a).handlers[rid].pc)
  {
  }

  lemma LoginsAcceptNothing(cfg: Config, s: State, a: Action, rid: nat)
    requires Moves(cfg, s, a, rid)
    requires a.LoginDraw? || a.LoginSet?
    ensures !Accepting(Step(cfg, s, a).handlers[rid].pc)
  {
  }

  lemma CallbackChecksAcceptNothing(cfg: Config, s: State, a: Action, rid: nat)
    requires Moves(cfg, s, a, rid) && a.CallbackCheck?
    ensures !Accepting(Step(cfg, s, a).handlers[rid].pc)
  {
  }

  lemma TakesAcceptNothing(cfg: Config, s: State, a: Action, rid: nat)
    requires Moves(cfg, s, a, rid) && a.CallbackTake?
    ensures !Accepting(Step(cfg, s, a).handlers[rid].pc)
  {
  }

  lemma SessionSetAcceptsNothing(cfg: Config, s: State, a: Action, rid: nat)
    requires Moves(cfg, s, a, rid) && a.SessionSet?
    ensures !Accepting(Step(cfg, s, a).handlers[rid].pc)
  {
  }

  lemma ExchangesAcceptNothing(cfg: Config, s: State, a: Action, rid: nat)
    requires Moves(cfg, s, a, rid)
    requires a.CallbackVerify? || a.CallbackTtl? || a.CallbackDraw?
    ensures !Accepting(Step(cfg, s, a).handlers[rid].pc)
  {
  }

  lemma ChecksAcceptNothing(cfg: Config, s: State, a: Action, rid: nat)
    requires Moves(cfg, s, a, rid)
    requires a.ApiFinish? || a.GiveUp?
    ensures !Accepting(Step(cfg, s, a).handlers[rid].pc)
  {
  }

  lemma CheckedAcceptsNothing(cfg: Config, s: State, rid: nat)
    requires At(s, rid)
    ensures var hs := SessionChecked(cfg, s, rid).handlers;
            && |hs| == |s.handlers| && hs == s.handlers[rid := hs[rid]]
            && (hs[rid].pc == s.handlers[rid].pc || !Accepting(hs[rid].pc))
  {
  }

  lemma SessionChecksAcceptNothing(cfg: Config, s: State, a: Action, rid: nat)
    requires Moves(cfg, s, a, rid) && a.SessionCheck?
    ensures !Accepting(Step(cfg, s, a).handlers[rid].pc)
  {
    CheckedAcceptsNothing(cfg, s, a.rid);
  }

  /** A handler starts deleting, or serving, only in the step that reads the live record. */
  lemma AcceptedByRead(cfg: Config, s: State, rid: nat)
    requires At(s, rid) && ReadsSession(s.handlers[rid]) && Accepting(SessionGot(s, rid).handlers[rid].pc)
    ensures var pc' := SessionGot(s, rid).handlers[rid].pc;
            && !pc'.Done?
            && s.handlers[rid].pc.id == pc'.id
            && var found := V.Look(s.vault.sessions, pc'.id, s.now);
            && found.Some?
            && (pc'.LogoutDeleting? ==>
              s.handlers[rid].req.LogoutRequest?
              && s.handlers[rid].req.csrfHeader == found.value.csrfToken)
            && (pc'.ApiServing? ==> pc'.rec == found.value)
  {
    if V.Look(s.vault.sessions, s.handlers[rid].pc.id, s.now).None? {
      NothingFoundAcceptsNothing(s, rid);
    }
  }

  lemma NothingFoundAcceptsNothing(s: State, rid: nat)
    requires At(s, rid) && ReadsSession(s.handlers[rid]) && V.Look(s.vault.sessions, s.handlers[rid].pc.id, s.now).None?
    ensures !Accepting(SessionGot(s, rid).handlers[rid].pc)
  {
  }

  lemma OthersAcceptNothing(cfg: Config, s: State, a: Action, rid: nat)
    requires Moves(cfg, s, a, rid) && !a.SessionGet? && !a.LogoutDel?
    ensures !Accepting(Step(cfg, s, a).handlers[rid].pc)
  {
    if ClientStep(a) || a.Tick? || a.TokenSend? || a.ApiCall? || a.ProviderStep? {
      ClientsAcceptNothing(cfg, s, a, rid);
    } else if a.ApiFinish? || a.GiveUp? {
      ChecksAcceptNothing(cfg, s, a, rid);
    } else if a.SessionCheck? {
      SessionChecksAcceptNothing(cfg, s, a, rid);
    } else if a.LoginDraw? || a.LoginSet? {
      LoginsAcceptNothing(cfg, s, a, rid);
    } else if a.CallbackCheck? {
      CallbackChecksAcceptNothing(cfg, s, a, rid);
    } else if a.CallbackTake? {
      TakesAcceptNothing(cfg, s, a, rid);
    } else if a.SessionSet? {
      SessionSetAcceptsNothing(cfg, s, a, rid);
    } else {
      ExchangesAcceptNothing(cfg, s, a, rid);
    }
  }

  /** Accepting states are entered by the read of the record and by the acknowledged DEL, and in no other way. */
  lemma AcceptingSteps(cfg: Config, s: State, a: Action, rid: nat)
    requires Moves(cfg, s, a, rid) && Accepting(Step(cfg, s, a).handlers[rid].pc)
    ensures At(s, rid)
    ensures (a == SessionGet(rid) && ReadsSession(s.handlers[rid]) && Step(cfg, s, a) == SessionGot(s, rid))
         || (a == LogoutDel(rid, true) && s.handlers[rid].pc.LogoutDeleting?
           && Step(cfg, s, a) == LogoutDeleted(s, rid, true))
  {
    if a.SessionGet? {
      GetAcceptsItself(cfg, s, a, rid);
    } else if a.LogoutDel? {
      DelAcceptsItself(cfg, s, a, rid);
    } else {
      OthersAcceptNothing(cfg, s, a, rid);
    }
  }

  lemma GetAcceptsItself(cfg: Config, s: State, a: Action, rid: nat)
    requires Moves(cfg, s, a, rid) && a.SessionGet?
    ensures a.rid == rid && At(s, rid) && ReadsSession(s.handlers[rid]) && Step(cfg, s, a) == SessionGot(s, rid)
  {
  }

  lemma DelAcceptsItself(cfg: Config, s: State, a: Action, rid: nat)
    requires Moves(cfg, s, a, rid) && a.LogoutDel?
    ensures a == LogoutDel(rid, true) && At(s, rid) && s.handlers[rid].pc.LogoutDeleting?
            && Step(cfg, s, a) == LogoutDeleted(s, rid, true)
  {
  }

  lemma {:induction false} ServingHasRead(cfg: Config, states: seq<State>, actions: seq<Action>, i: nat, rid: nat)
    requires Run(cfg, states, actions) && i < |states| && At(states[i], rid)
    requires states[i].handlers[rid].pc.ApiServing?
    ensures var pc := states[i].handlers[rid].pc;
            exists j: nat :: j < i && ReadLive(states, actions, j, rid, pc.id, pc.rec)
  {
    if At(states[i - 1], rid) && states[i - 1].handlers[rid].pc == states[i].handlers[rid].pc {
      ServingHasRead(cfg, states, actions, i - 1, rid);
    } else {
      assert StepAt(cfg, states, actions, i - 1);
      AcceptingSteps(cfg, states[i - 1], actions[i - 1], rid);
      AcceptedByRead(cfg, states[i - 1], rid);
      var pc := states[i].handlers[rid].pc;
      assert ReadLive(states, actions, i - 1, rid, pc.id, pc.rec);
    }
  }

  /** Handler rid read the live record of session id and its header equalled that record's CSRF token. */
  ghost predicate CsrfChecked(states: seq<State>, actions: seq<Action>, j: nat, rid: nat, id: string, header: string)
    requires |states| == |actions| + 1
  {
    && j < |actions| && actions[j] == SessionGet(rid) && At(states[j], rid)
    && var found := V.Look(states[j].vault.sessions, id, states[j].now);
    && found.Some? && found.value.csrfToken == header
  }

  lemma {:induction false} DeletingHasRead(cfg: Config, states: seq<State>, actions: seq<Action>, i: nat, rid: nat)
    requires Run(cfg, states, actions) && i < |states| && At(states[i], rid)
    requires states[i].handlers[rid].pc.LogoutDeleting? && states[i].handlers[rid].req.LogoutRequest?
    ensures exists j: nat :: j < i && CsrfChecked(states, actions, j, rid, states[i].handlers[rid].pc.id,
            states[i].handlers[rid].req.csrfHeader)
  {
    RunGrows(cfg, states, actions, i - 1, i);
    if At(states[i - 1], rid) && states[i - 1].handlers[rid].pc == states[i].handlers[rid].pc {
      DeletingHasRead(cfg, states, actions, i - 1, rid);
    } else {
      assert StepAt(cfg, states, actions, i - 1);
      AcceptingSteps(cfg, states[i - 1], actions[i - 1], rid);
      AcceptedByRead(cfg, states[i - 1], rid);
      assert CsrfChecked(states, actions, i - 1, rid, states[i].handlers[rid].pc.id,
             states[i].handlers[rid].req.csrfHeader);
    }
  }

  lemma AnsweredByDel(cfg: Config, s: State, a: Action, rid: nat)
    requires Moves(cfg, s, a, rid) && Accepting(Step(cfg, s, a).handlers[rid].pc)
             && Step(cfg, s, a).handlers[rid].pc.Done?
    ensures a == LogoutDel(rid, true) && At(s, rid) && s.handlers[rid].pc.LogoutDeleting?
  {
    AcceptingSteps(cfg, s, a, rid);
    if a.SessionGet? {
      AcceptedByRead(cfg, s, rid);
    }
  }

  /** Somewhere before i the CSRF check passed against a live record, and then the DEL was acknowledged. */
  ghost predicate LoggedOut(states: seq<State>, actions: seq<Action>, i: nat, rid: nat, id: string, header: string)
    requires |states| == |actions| + 1
  {
    exists j: nat, k: nat :: j < k < i && k < |actions| && CsrfChecked(states, actions, j, rid, id, header)
      && actions[k] == LogoutDel(rid, true)
  }

  lemma CheckThenDel(cfg: Config, states: seq<State>, actions: seq<Action>, i: nat, rid: nat)
    requires Run(cfg, states, actions) && i < |actions| && actions[i] == LogoutDel(rid, true) && At(states[i], rid)
    ensures var req := states[i].handlers[rid].req;
            req.LogoutRequest? && req.sessionCookie.Some?
            && LoggedOut(states, actions, i + 1, rid, req.sessionCookie.value, req.csrfHeader)
  {
    RunInv(cfg, states, actions, i);
    assert StepAt(cfg, states, actions, i);
    HandlerAt(cfg, states[i], rid);
    DeletingHasRead(cfg, states, actions, i, rid);
  }

  ghost predicate Answered204(s: State, rid: nat)
  {
    At(s, rid) && s.handlers[rid].pc.Done? && s.handlers[rid].pc.resp.status == 204
  }

  /** Either it was answered already, or this step answers it. */
  lemma AnswerStep(cfg: Config, s: State, a: Action, rid: nat)
    requires Enabled(cfg, s, a) && Answered204(Step(cfg, s, a), rid)
    ensures Answered204(s, rid) || (a == LogoutDel(rid, true) && At(s, rid))
  {
    if !Answered204(s, rid) {
      AnsweredByDel(cfg, s, a, rid);
    }
  }

  lemma {:induction false} AnswerFollowsCheck(cfg: Config, states: seq<State>, actions: seq<Action>, i: nat, rid: nat)
    requires Run(cfg, states, actions) && i < |states| && Answered204(states[i], rid)
    ensures var req := states[i].handlers[rid].req;
            req.LogoutRequest? && req.sessionCookie.Some?
            && LoggedOut(states, actions, i, rid, req.sessionCookie.value, req.csrfHeader)
  {
    RunGrows(cfg, states, actions, i - 1, i);
    assert StepAt(cfg, states, actions, i - 1);
    AnswerStep(cfg, states[i - 1], actions[i - 1], rid);
    if Answered204(states[i - 1], rid) {
      AnswerFollowsCheck(cfg, states, actions, i - 1, rid);
    } else {
      CheckThenDel(cfg, states, actions, i - 1, rid);
    }
  }

  lemma DeletedIsAbsent(s: State, id: string)
    requires VaultInv(s.vault, s.log, s.now) && id in s.log.loggedOut
    ensures id in s.vault.sessions ==> id in s.log.restored
  {
    assert id in s.vault.sessions ==> SessionEntryInv(s.log, s.now, id, s.vault.sessions[id]);
  }

  /**
   A logout answers 204 only if its Origin is the configured one, its cookie
   named a session live at the read, and its header was that session's 43
   character CSRF token and no other session's. Afterwards the session is gone,
   unless a SET of it has arrived late.
   */
  lemma LogoutAcceptance(cfg: Config, states: seq<State>, actions: seq<Action>, i: nat, rid: nat)
    requires Run(cfg, states, actions) && i < |states| && Answered204(states[i], rid)
    ensures var s, req := states[i], states[i].handlers[rid].req;
            && req.LogoutRequest? && req.origin == cfg.externalOrigin && req.sessionCookie.Some?
            && var id := req.sessionCookie.value;
            && LoggedOut(states, actions, i, rid, id, req.csrfHeader)
            && |req.csrfHeader| == 43
            && (id in s.vault.sessions ==> id in s.log.restored)
            && id in s.log.sessions
            && (forall other <- s.log.sessions :: other != id ==> s.log.sessions[other].rec.csrfToken != req.csrfHeader)
  {
    RunInv(cfg, states, actions, i);
    AnswerFollowsCheck(cfg, states, actions, i, rid);
    var s, req := states[i], states[i].handlers[rid].req;
    HandlerAt(cfg, s, rid);
    var id := req.sessionCookie.value;
    BirthAt(cfg, s, id);
    Open(cfg, s);
    assert Base64Url.IsToken(req.csrfHeader);
    Base64Url.TokenShape(req.csrfHeader);
    DeletedIsAbsent(s, id);
    forall other <- s.log.sessions | other != id ensures s.log.sessions[other].rec.csrfToken != req.csrfHeader {
      BirthsUnrelated(cfg, s, id, other);
    }
  }

  /** No other session has this one's ID token, but for one made from the same transaction when that was set late. */
  ghost predicate OnlyHolder(s: State, id: string)
    requires id in s.log.sessions
  {
    var b := s.log.sessions[id];
    forall other <- s.log.sessions :: other != id && s.log.sessions[other].rec.idToken == b.rec.idToken ==>
      s.log.sessions[other].ev.state == b.ev.state && b.ev.state in s.log.revived
  }

  lemma HolderIsOnly(cfg: Config, s: State, id: string)
    requires Inv(cfg, s) && id in s.log.sessions
    ensures OnlyHolder(s, id)
  {
    forall other <- s.log.sessions | other != id && s.log.sessions[other].rec.idToken == s.log.sessions[id].rec.idToken
      ensures s.log.sessions[other].ev.state == s.log.sessions[id].ev.state
              && s.log.sessions[id].ev.state in s.log.revived
    {
      BirthsUnrelated(cfg, s, id, other);
    }
  }

  /**
   Every upstream call carries the ID token of the record its own cookie named,
   read live earlier in the same request; it is that subject's token, and only a
   session of the very same login, set late, could ever hold it too.
   */
  lemma UpstreamTokenIsOwn(cfg: Config, states: seq<State>, actions: seq<Action>, i: nat, rid: nat)
    requires Run(cfg, states, actions) && i < |actions| && actions[i] == ApiCall(rid) && At(states[i], rid)
    ensures var s, h := states[i], states[i].handlers[rid];
            && h.pc.ApiServing? && h.pc.id in s.log.sessions
            && h.req == ApiRequest(Some(h.pc.id))
            && (exists j: nat :: j < i && ReadLive(states, actions, j, rid, h.pc.id, h.pc.rec))
            && states[i + 1].log.calls == s.log.calls + [UpstreamCall(rid, h.pc.id, h.pc.rec.idToken)]
            && h.pc.rec.idToken in s.op.signed && s.op.signed[h.pc.rec.idToken].sub == h.pc.rec.subject
            && OnlyHolder(s, h.pc.id)
  {
    assert StepAt(cfg, states, actions, i);
    var s, h := states[i], states[i].handlers[rid];
    RunInv(cfg, states, actions, i);
    HandlerAt(cfg, s, rid);
    ServingHasRead(cfg, states, actions, i, rid);
    BirthAgrees(cfg, s, h.pc.id);
    HolderIsOnly(cfg, s, h.pc.id);
  }

  /** An ID token signed by a refresh completes no login, now or ever: its nonce is that of no transaction. */
  lemma RefreshedTokensLogInNobody(cfg: Config, states: seq<State>, actions: seq<Action>, i: nat, token: string,
                                   st: string, now: int)
    requires Run(cfg, states, actions) && i < |states|
    requires token in states[i].op.refreshed && st in states[i].log.logins
    ensures token in states[i].op.signed
    ensures !Acceptable(cfg, states[i].op.signed[token], states[i].log.logins[st].txn.nonce, now)
  {
    RunInv(cfg, states, actions, i);
    var s := states[i];
    LoginBirthAt(cfg, s, st);
    Open(cfg, s);
    Base64Url.TokenShape(s.log.logins[st].txn.nonce);
  }

  // ----- What the lists of late names mean -----

  /** A session is listed as restored exactly when a SET of it arrived after a DEL of it was applied. */
  lemma {:induction false} RestoredMeansLateSet(cfg: Config, states: seq<State>, actions: seq<Action>, i: nat,
                                                id: string)
    requires Run(cfg, states, actions) && i < |states|
    ensures id in states[i].log.restored <==>
            exists k {:trigger states[k]} :: 0 <= k < i && actions[k] == Late(SetSession(id))
              && id in states[k].log.loggedOut
  {
    if i > 0 {
      RestoredMeansLateSet(cfg, states, actions, i - 1, id);
      assert StepAt(cfg, states, actions, i - 1);
      RestoredByLateSet(cfg, states[i - 1], actions[i - 1], id);
    }
  }

  lemma RestoredByLateSet(cfg: Config, s: State, a: Action, id: string)
    requires Enabled(cfg, s, a)
    ensures id in Step(cfg, s, a).log.restored <==>
            id in s.log.restored
            || (a == Late(SetSession(id)) && id in s.log.loggedOut)
  {
    if !a.Late? {
      ListsStay(cfg, s, a);
    }
  }

  lemma ClientsLeaveLists(cfg: Config, s: State, a: Action)
    requires Enabled(cfg, s, a) && ClientStep(a)
    ensures Step(cfg, s, a).log.restored == s.log.restored && Step(cfg, s, a).log.revived == s.log.revived
  {
  }

  lemma CallbacksLeaveLists(cfg: Config, s: State, a: Action)
    requires Enabled(cfg, s, a) && CallbackStep(a)
    ensures Step(cfg, s, a).log.restored == s.log.restored && Step(cfg, s, a).log.revived == s.log.revived
  {
  }

  lemma ReadLeavesLists(s: State, rid: nat)
    requires At(s, rid) && ReadsSession(s.handlers[rid])
    ensures SessionGot(s, rid).log.restored == s.log.restored && SessionGot(s, rid).log.revived == s.log.revived
  {
  }

  lemma SessionSetLeavesLists(s: State, rid: nat, acknowledged: bool)
    requires At(s, rid) && s.handlers[rid].pc.SessionStoring?
    ensures SessionStored(s, rid, acknowledged).log.restored == s.log.restored
    ensures SessionStored(s, rid, acknowledged).log.revived == s.log.revived
  {
  }

  lemma DelLeavesLists(s: State, rid: nat, acknowledged: bool)
    requires At(s, rid) && s.handlers[rid].pc.LogoutDeleting?
    ensures LogoutDeleted(s, rid, acknowledged).log.restored == s.log.restored
    ensures LogoutDeleted(s, rid, acknowledged).log.revived == s.log.revived
  {
  }

  lemma LoginSetLeavesLists(cfg: Config, s: State, rid: nat, acknowledged: bool)
    requires At(s, rid) && s.handlers[rid].pc.LoginStoring?
    ensures LoginStored(cfg, s, rid, acknowledged).log.restored == s.log.restored
    ensures LoginStored(cfg, s, rid, acknowledged).log.revived == s.log.revived
  {
  }

  lemma StoresLeaveLists(cfg: Config, s: State, a: Action)
    requires Enabled(cfg, s, a) && StoreStep(a)
    ensures Step(cfg, s, a).log.restored == s.log.restored && Step(cfg, s, a).log.revived == s.log.revived
  {
    if a.SessionGet? {
      ReadLeavesLists(s, a.rid);
    } else if a.SessionSet? {
      SessionSetLeavesLists(s, a.rid, a.acknowledged);
    } else if a.LogoutDel? {
      DelLeavesLists(s, a.rid, a.acknowledged);
    } else if a.LoginSet? {
      LoginSetLeavesLists(cfg, s, a.rid, a.acknowledged);
    }
  }

  lemma ListsStay(cfg: Config, s: State, a: Action)
    requires Enabled(cfg, s, a) && !a.Late?
    ensures Step(cfg, s, a).log.restored == s.log.restored && Step(cfg, s, a).log.revived == s.log.revived
  {
    if ClientStep(a) {
      ClientsLeaveLists(cfg, s, a);
    } else if CallbackStep(a) {
      CallbacksLeaveLists(cfg, s, a);
    } else if StoreStep(a) {
      StoresLeaveLists(cfg, s, a);
    }
  }

  /** A transaction is listed as revived exactly when a SET of it arrived after it had been handed out. */
  lemma {:induction false} RevivedMeansLateSet(cfg: Config, states: seq<State>, actions: seq<Action>, i: nat,
                                               st: string)
    requires Run(cfg, states, actions) && i < |states|
    ensures st in states[i].log.revived <==>
            exists k {:trigger states[k]} :: 0 <= k < i && actions[k] == Late(SetLogin(st))
              && st in states[k].log.taken.Values
  {
    if i > 0 {
      RevivedMeansLateSet(cfg, states, actions, i - 1, st);
      assert StepAt(cfg, states, actions, i - 1);
      RevivedByLateSet(cfg, states[i - 1], actions[i - 1], st);
    }
  }

  lemma RevivedByLateSet(cfg: Config, s: State, a: Action, st: string)
    requires Enabled(cfg, s, a)
    ensures st in Step(cfg, s, a).log.revived <==>
            st in s.log.revived
            || (a == Late(SetLogin(st)) && st in s.log.taken.Values)
  {
    if !a.Late? {
      ListsStay(cfg, s, a);
    }
  }

  /**
   Nothing in the code prevents it: in every reachable state a SET once sent may
   arrive, and the session is readable.
   */
  lemma LateSetIsAlwaysPossible(cfg: Config, states: seq<State>, actions: seq<Action>, i: nat, id: string)
    requires Run(cfg, states, actions) && i < |states| && id in states[i].log.sessions
    ensures var a := Late(SetSession(id));
            Enabled(cfg, states[i], a) && V.Look(Step(cfg, states[i], a).vault.sessions, id, states[i].now)
              == Some(states[i].log.sessions[id].rec)
  {
    RunInv(cfg, states, actions, i);
    BirthAt(cfg, states[i], id);
  }
}
