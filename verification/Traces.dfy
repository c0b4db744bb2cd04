/**
 Finite stretches of a run of Protocol, and what each step looks like to the
 handler that takes it. The handlers of AuthHandlers produce such stretches.
 */
module Traces {
  import opened Wrappers
  import opened SessionTypes
  import opened Protocol
  import opened Folding
  import V = Vault
  import P = Provider

  ghost predicate Path(cfg: Config, s: State, trace: seq<Action>, s': State)
    decreases |trace|
  {
    if trace == [] then s' == s
    else Enabled(cfg, s, trace[0]) && Path(cfg, Step(cfg, s, trace[0]), trace[1..], s')
  }

  /** Path, unfolded only where `Unfold` is mentioned: the proofs about handlers need no step's definition. */
  ghost predicate Leads(cfg: Config, s: State, trace: seq<Action>, s': State)
  {
    forall o {:trigger Unfold(o)} :: Unfold(o) ==> Path(cfg, s, trace, s')
  }

  lemma {:induction false} Join(cfg: Config, s: State, t1: seq<Action>, s1: State, a: Action)
    requires Path(cfg, s, t1, s1) && Enabled(cfg, s1, a)
    ensures Path(cfg, s, t1 + [a], Step(cfg, s1, a))
    decreases |t1|
  {
    if t1 == [] {
      assert t1 + [a] == [a];
    } else {
      Join(cfg, Step(cfg, s, t1[0]), t1[1..], s1, a);
      assert (t1 + [a])[1..] == t1[1..] + [a];
    }
  }

  ghost predicate Reachable(cfg: Config, s: State)
  {
    exists states, actions :: Run(cfg, states, actions) && states[|actions|] == s
  }

  lemma ReachableStep(cfg: Config, s: State, a: Action)
    requires Reachable(cfg, s) && Enabled(cfg, s, a)
    ensures Reachable(cfg, Step(cfg, s, a))
  {
    var states, actions :| Run(cfg, states, actions) && states[|actions|] == s;
    var states', actions' := states + [Step(cfg, s, a)], actions + [a];
    forall i | 0 <= i < |actions'| ensures StepAt(cfg, states', actions', i) {
      assert i < |actions| ==> StepAt(cfg, states, actions, i);
    }
    assert Run(cfg, states', actions');
  }

  lemma {:induction false} ReachablePath(cfg: Config, s: State, trace: seq<Action>, s': State)
    requires Reachable(cfg, s) && Path(cfg, s, trace, s')
    ensures Reachable(cfg, s')
    decreases |trace|
  {
    if trace != [] {
      ReachableStep(cfg, s, trace[0]);
      ReachablePath(cfg, Step(cfg, s, trace[0]), trace[1..], s');
    }
  }

  /** Where a stretch from a reachable state ends is reachable, so every theorem about runs holds there. */
  lemma ReachableLeads(cfg: Config, s: State, trace: seq<Action>, s': State)
    requires Reachable(cfg, s) && Leads(cfg, s, trace, s')
    ensures Reachable(cfg, s')
  {
    assert Unfold(0);
    ReachablePath(cfg, s, trace, s');
  }

  lemma Nothing(cfg: Config, s: State)
    ensures Leads(cfg, s, [], s)
  {
  }

  /** One more step. */
  lemma Then(cfg: Config, s0: State, t0: seq<Action>, s: State, a: Action) returns (t: seq<Action>, s': State)
    requires Leads(cfg, s0, t0, s) && Enabled(cfg, s, a)
    ensures Leads(cfg, s0, t, s') && s' == Step(cfg, s, a)
  {
    t, s' := t0 + [a], Step(cfg, s, a);
    assert Unfold(0);
    Join(cfg, s0, t0, s, a);
  }

  function Later(s: State, now: int): State
  {
    s.(now := now)
  }

  /** Waiting, then one more step. */
  lemma WaitThen(cfg: Config, s0: State, t0: seq<Action>, s: State, now: int, a: Action)
    returns (t: seq<Action>, s': State)
    requires Leads(cfg, s0, t0, s) && s.now <= now && Enabled(cfg, Later(s, now), a)
    ensures Leads(cfg, s0, t, s') && s' == Step(cfg, Later(s, now), a)
  {
    t, s' := Then(cfg, s0, t0, s, Tick(now - s.now));
    assert s' == Later(s, now);
    t, s' := Then(cfg, s0, t, s', a);
  }

  // ----- A handler's view -----

  function PcOf(s: State, rid: nat): Pc
    requires At(s, rid)
  {
    s.handlers[rid].pc
  }

  /** Same request, nothing drawn or exposed meanwhile. */
  ghost predicate Same(s: State, s': State, rid: nat)
  {
    && At(s, rid) && At(s', rid) && s'.handlers[rid].req == s.handlers[rid].req
    && s'.drawn == s.drawn && s'.exposed == s.exposed
  }

  /** Where the system is, seen from one handler. */
  ghost predicate Now(s: State, rid: nat, now: int, pc: Pc, vault: V.Vault, op: P.Op)
  {
    At(s, rid) && s.now == now && PcOf(s, rid) == pc && s.vault == vault && s.op == op
  }

  lemma GiveUpStep(cfg: Config, s0: State, t0: seq<Action>, s: State, rid: nat) returns (t: seq<Action>, s': State)
    requires Leads(cfg, s0, t0, s)
    requires At(s, rid) && CanFail(s.handlers[rid])
    ensures Leads(cfg, s0, t, s') && Same(s, s', rid) && s'.log == s.log
    ensures Now(s', rid, s.now, Done(GivenUp(PcOf(s, rid))), s.vault, s.op)
  {
    t, s' := Then(cfg, s0, t0, s, GiveUp(rid));
  }

  lemma DrawStep(cfg: Config, s0: State, t0: seq<Action>, s: State, rid: nat, now: int, nonce: string,
                 verifier: string, state: string)
    returns (t: seq<Action>, s': State)
    requires Leads(cfg, s0, t0, s)
    requires At(s, rid) && PcOf(s, rid).Begin? && s.handlers[rid].req.LoginRequest? && s.now <= now
    requires Fresh(s, nonce) && Fresh(s, verifier) && Fresh(s, state)
    requires nonce != verifier && nonce != state && verifier != state
    ensures Leads(cfg, s0, t, s') && At(s', rid)
    ensures Now(s', rid, now, LoginStoring(state, LoginTransaction(nonce, verifier, now)), s.vault, s.op)
  {
    t, s' := WaitThen(cfg, s0, t0, s, now, LoginDraw(rid, nonce, verifier, state));
  }

  lemma LoginSetStep(cfg: Config, s0: State, t0: seq<Action>, s: State, rid: nat, now: int, acknowledged: bool)
    returns (t: seq<Action>, s': State)
    requires Leads(cfg, s0, t0, s)
    requires At(s, rid) && PcOf(s, rid).LoginStoring? && s.now <= now
    ensures Leads(cfg, s0, t, s')
    ensures var pc := PcOf(s, rid);
            var vault := V.PutLogin(s.vault, pc.state, pc.txn, LOGIN_TRANSACTION_TTL, now);
            var challenge := cfg.provider.s256(pc.txn.pkceVerifier);
            var next := if acknowledged
              then Done(Response(302, SetTo(pc.state), Keep, ToProvider(pc.state, pc.txn.nonce, challenge))) else pc;
            Now(s', rid, now, next, vault, s.op)
  {
    t, s' := WaitThen(cfg, s0, t0, s, now, LoginSet(rid, acknowledged));
  }

  lemma CheckStep(cfg: Config, s0: State, t0: seq<Action>, s: State, rid: nat) returns (t: seq<Action>, s': State)
    requires Leads(cfg, s0, t0, s)
    requires At(s, rid) && PcOf(s, rid).Begin? && s.handlers[rid].req.CallbackRequest?
    ensures Leads(cfg, s0, t, s') && Same(s, s', rid)
    ensures var req := s.handlers[rid].req;
            var next := if req.stateCookie.None? then Done(Fail(400))
                        else if req.state == "" || req.state != req.stateCookie.value then Done(FailCallback(400))
                        else Taking(req.state);
            Now(s', rid, s.now, next, s.vault, s.op)
  {
    t, s' := Then(cfg, s0, t0, s, CallbackCheck(rid));
  }

  lemma TakeStep(cfg: Config, s0: State, t0: seq<Action>, s: State, rid: nat, now: int, answered: bool)
    returns (t: seq<Action>, s': State)
    requires Leads(cfg, s0, t0, s)
    requires At(s, rid) && PcOf(s, rid).Taking? && s.now <= now
    ensures Leads(cfg, s0, t, s') && Same(s, s', rid)
    ensures var state := PcOf(s, rid).state;
            var next := if answered then AfterTake(s.handlers[rid].req, state, V.Look(s.vault.logins, state, now))
              else PcOf(s, rid);
            Now(s', rid, now, next, V.DropLogin(s.vault, state), s.op)
  {
    t, s' := WaitThen(cfg, s0, t0, s, now, CallbackTake(rid, answered));
  }

  lemma SendStep(cfg: Config, s0: State, t0: seq<Action>, s: State, rid: nat, now: int, gid: nat)
    returns (t: seq<Action>, s': State)
    requires Leads(cfg, s0, t0, s)
    requires At(s, rid) && PcOf(s, rid).Exchanging? && s.now <= now && gid !in s.op.grants
    ensures Leads(cfg, s0, t, s') && Same(s, s', rid) && gid in s'.owner && s'.owner[gid] == rid
    ensures var g := P.Grant(CodeOf(s.handlers[rid].req), PcOf(s, rid).txn.pkceVerifier, cfg.redirectURI, P.Received);
            Now(s', rid, now, PcOf(s, rid), s.vault, s.op.(grants := s.op.grants[gid := g]))
  {
    t, s' := WaitThen(cfg, s0, t0, s, now, TokenSend(rid, gid));
  }

  lemma ProviderSteps(cfg: Config, s0: State, t0: seq<Action>, s: State, rid: nat, now: int, a: P.Action)
    returns (t: seq<Action>, s': State)
    requires Leads(cfg, s0, t0, s)
    requires At(s, rid) && s.now <= now && P.Enabled(cfg.provider, s.op, a, now)
    ensures Leads(cfg, s0, t, s') && Same(s, s', rid) && s'.owner == s.owner
    ensures Now(s', rid, now, PcOf(s, rid), s.vault, P.Step(cfg.provider, s.op, a, now))
  {
    t, s' := WaitThen(cfg, s0, t0, s, now, ProviderStep(a));
  }

  lemma VerifyStep(cfg: Config, s0: State, t0: seq<Action>, s: State, rid: nat, now: int, gid: nat)
    returns (t: seq<Action>, s': State)
    requires Leads(cfg, s0, t0, s)
    requires At(s, rid) && PcOf(s, rid).Exchanging? && s.now <= now
    requires ExchangeReturns(cfg, Later(s, now), rid, gid, PcOf(s, rid).txn)
    ensures Leads(cfg, s0, t, s') && Same(s, s', rid)
    ensures Now(s', rid, now,
            Verified(Evidence(PcOf(s, rid).state, PcOf(s, rid).txn, gid, s.op.grants[gid].phase.idToken)), s.vault,
            s.op)
  {
    t, s' := WaitThen(cfg, s0, t0, s, now, CallbackVerify(rid, gid));
  }

  lemma TtlStep(cfg: Config, s0: State, t0: seq<Action>, s: State, rid: nat, now: int)
    returns (t: seq<Action>, s': State)
    requires Leads(cfg, s0, t0, s)
    requires At(s, rid) && PcOf(s, rid).Verified? && s.now <= now && PcOf(s, rid).ev.idToken in s.op.signed
    ensures Leads(cfg, s0, t, s') && Same(s, s', rid)
    ensures var ev := PcOf(s, rid).ev;
            var expiresAt := Seconds(s.op.signed[ev.idToken].exp);
            var next := if expiresAt - now <= 0 then Done(FailCallback(401))
              else Timed(ev, expiresAt, expiresAt - now, now);
            Now(s', rid, now, next, s.vault, s.op)
  {
    t, s' := WaitThen(cfg, s0, t0, s, now, CallbackTtl(rid));
  }

  lemma SessionDrawStep(cfg: Config, s0: State, t0: seq<Action>, s: State, rid: nat, now: int, csrf: string, id: string)
    returns (t: seq<Action>, s': State)
    requires Leads(cfg, s0, t0, s)
    requires At(s, rid) && PcOf(s, rid).Timed? && s.now <= now && PcOf(s, rid).ev.idToken in s.op.signed
    requires Fresh(s, csrf) && Fresh(s, id) && csrf != id
    ensures Leads(cfg, s0, t, s')
    ensures var pc := PcOf(s, rid);
            var rec := Record(s.op.signed[pc.ev.idToken].sub, pc.ev.idToken, pc.expiresAt, now, csrf);
            Now(s', rid, now, SessionStoring(id, rec, pc.ttl), s.vault, s.op)
  {
    t, s' := WaitThen(cfg, s0, t0, s, now, CallbackDraw(rid, csrf, id));
  }

  lemma SessionSetStep(cfg: Config, s0: State, t0: seq<Action>, s: State, rid: nat, now: int, acknowledged: bool)
    returns (t: seq<Action>, s': State)
    requires Leads(cfg, s0, t0, s)
    requires At(s, rid) && PcOf(s, rid).SessionStoring? && s.now <= now
    ensures Leads(cfg, s0, t, s')
    ensures var pc := PcOf(s, rid);
            var next := if acknowledged then Done(Response(302, Clear, SetTo(pc.id), ToHome)) else pc;
            Now(s', rid, now, next, V.PutSession(s.vault, pc.id, pc.rec, pc.ttl, now), s.op)
  {
    t, s' := WaitThen(cfg, s0, t0, s, now, SessionSet(rid, acknowledged));
  }

  lemma SessionCheckStep(cfg: Config, s0: State, t0: seq<Action>, s: State, rid: nat)
    returns (t: seq<Action>, s': State)
    requires Leads(cfg, s0, t0, s)
    requires At(s, rid) && PcOf(s, rid).Begin?
    requires s.handlers[rid].req.LogoutRequest? || s.handlers[rid].req.StatusRequest?
    ensures Leads(cfg, s0, t, s') && Same(s, s', rid)
    ensures var req := s.handlers[rid].req;
            var next :=
              if req.LogoutRequest? && req.origin != cfg.externalOrigin then Done(Fail(403))
              else if req.LogoutRequest? && req.sessionCookie.None? then Done(Fail(401))
              else if req.LogoutRequest? then LogoutReading(req.sessionCookie.value)
              else if req.origin != "" && req.origin != cfg.externalOrigin then Done(Fail(403))
              else if req.sessionCookie.None? then Done(Response(200, Keep, Keep, Anonymous))
              else StatusReading(req.sessionCookie.value);
            Now(s', rid, s.now, next, s.vault, s.op)
  {
    t, s' := Then(cfg, s0, t0, s, SessionCheck(rid));
  }

  lemma LogoutGetStep(cfg: Config, s0: State, t0: seq<Action>, s: State, rid: nat, now: int)
    returns (t: seq<Action>, s': State)
    requires Leads(cfg, s0, t0, s)
    requires At(s, rid) && PcOf(s, rid).LogoutReading? && s.handlers[rid].req.LogoutRequest? && s.now <= now
    ensures Leads(cfg, s0, t, s') && Same(s, s', rid)
    ensures var id := PcOf(s, rid).id;
            var next := match V.Look(s.vault.sessions, id, now)
                        case None => Done(Response(401, Keep, Clear, Plain))
                        case Some(rec) => if s.handlers[rid].req.csrfHeader != rec.csrfToken then Done(Fail(403))
                          else LogoutDeleting(id);
            Now(s', rid, now, next, s.vault, s.op)
  {
    t, s' := WaitThen(cfg, s0, t0, s, now, SessionGet(rid));
  }

  lemma StatusGetStep(cfg: Config, s0: State, t0: seq<Action>, s: State, rid: nat, now: int)
    returns (t: seq<Action>, s': State)
    requires Leads(cfg, s0, t0, s)
    requires At(s, rid) && PcOf(s, rid).StatusReading? && s.now <= now
    ensures Leads(cfg, s0, t, s')
    ensures var body := match V.Look(s.vault.sessions, PcOf(s, rid).id, now)
                        case None => Anonymous
                        case Some(rec) => Identity(rec.subject, rec.csrfToken);
            Now(s', rid, now, Done(Response(200, Keep, Keep, body)), s.vault, s.op)
  {
    t, s' := WaitThen(cfg, s0, t0, s, now, SessionGet(rid));
  }

  lemma DelStep(cfg: Config, s0: State, t0: seq<Action>, s: State, rid: nat, now: int, acknowledged: bool)
    returns (t: seq<Action>, s': State)
    requires Leads(cfg, s0, t0, s)
    requires At(s, rid) && PcOf(s, rid).LogoutDeleting? && s.now <= now
    ensures Leads(cfg, s0, t, s')
    ensures var next := if acknowledged then Done(Response(204, Keep, Clear, Plain)) else PcOf(s, rid);
            Now(s', rid, now, next, V.DropSession(s.vault, PcOf(s, rid).id), s.op)
  {
    t, s' := WaitThen(cfg, s0, t0, s, now, LogoutDel(rid, acknowledged));
  }

  // ----- API requests -----

  lemma ApiCheckStep(cfg: Config, s0: State, t0: seq<Action>, s: State, rid: nat) returns (t: seq<Action>, s': State)
    requires Leads(cfg, s0, t0, s)
    requires At(s, rid) && PcOf(s, rid).Begin? && s.handlers[rid].req.ApiRequest?
    ensures Leads(cfg, s0, t, s') && Same(s, s', rid) && s'.log == s.log
    ensures var cookie := s.handlers[rid].req.sessionCookie;
            Now(s', rid, s.now, if cookie.None? then Done(Fail(401)) else ApiReading(cookie.value), s.vault, s.op)
  {
    t, s' := Then(cfg, s0, t0, s, SessionCheck(rid));
  }

  lemma ApiGetStep(cfg: Config, s0: State, t0: seq<Action>, s: State, rid: nat, now: int)
    returns (t: seq<Action>, s': State)
    requires Leads(cfg, s0, t0, s)
    requires At(s, rid) && PcOf(s, rid).ApiReading? && s.now <= now
    ensures Leads(cfg, s0, t, s') && Same(s, s', rid) && s'.log == s.log
    ensures var id := PcOf(s, rid).id;
            var next := match V.Look(s.vault.sessions, id, now) case None => Done(Fail(401))
              case Some(rec) => ApiServing(id, rec);
            Now(s', rid, now, next, s.vault, s.op)
  {
    t, s' := WaitThen(cfg, s0, t0, s, now, SessionGet(rid));
  }

  function CallsOf(rid: nat, id: string, token: string, n: nat): seq<UpstreamCall>
  {
    seq(n, _ => UpstreamCall(rid, id, token))
  }

  lemma {:induction false} ApiCallSteps(cfg: Config, s0: State, t0: seq<Action>, s: State, rid: nat, n: nat)
    returns (t: seq<Action>, s': State)
    requires Leads(cfg, s0, t0, s)
    requires At(s, rid) && PcOf(s, rid).ApiServing?
    ensures Leads(cfg, s0, t, s') && Same(s, s', rid)
    ensures Now(s', rid, s.now, PcOf(s, rid), s.vault, s.op)
    ensures s'.log == s.log.(calls := s.log.calls + CallsOf(rid, PcOf(s, rid).id, PcOf(s, rid).rec.idToken, n))
  {
    t, s' := t0, s;
    if n > 0 {
      t, s' := ApiCallSteps(cfg, s0, t0, s, rid, n - 1);
      t, s' := OneApiCall(cfg, s0, t, s', rid);
      var pc := PcOf(s, rid);
      assert CallsOf(rid, pc.id, pc.rec.idToken, n) == CallsOf(rid, pc.id, pc.rec.idToken, n - 1)
             + [UpstreamCall(rid, pc.id, pc.rec.idToken)];
    }
  }

  lemma OneApiCall(cfg: Config, s0: State, t0: seq<Action>, s: State, rid: nat) returns (t: seq<Action>, s': State)
    requires Leads(cfg, s0, t0, s)
    requires At(s, rid) && PcOf(s, rid).ApiServing?
    ensures Leads(cfg, s0, t, s') && Same(s, s', rid)
    ensures Now(s', rid, s.now, PcOf(s, rid), s.vault, s.op)
    ensures s'.log == s.log.(calls := s.log.calls + [UpstreamCall(rid, PcOf(s, rid).id, PcOf(s, rid).rec.idToken)])
  {
    t, s' := Then(cfg, s0, t0, s, ApiCall(rid));
  }

  // ----- What the rest of the system does to a handler: nothing -----

  /** The request whose handler takes the step, if one does. */
  function Mover(a: Action): Option<nat>
  {
    match a
    case LoginDraw(rid, _, _, _) => Some(rid)
    case LoginSet(rid, _) => Some(rid)
    case CallbackCheck(rid) => Some(rid)
    case CallbackTake(rid, _) => Some(rid)
    case CallbackVerify(rid, _) => Some(rid)
    case CallbackTtl(rid) => Some(rid)
    case CallbackDraw(rid, _, _) => Some(rid)
    case SessionSet(rid, _) => Some(rid)
    case SessionCheck(rid) => Some(rid)
    case SessionGet(rid) => Some(rid)
    case LogoutDel(rid, _) => Some(rid)
    case ApiFinish(rid) => Some(rid)
    case GiveUp(rid) => Some(rid)
    case _ => None
  }

  lemma ClientsLeaveHandler(cfg: Config, s: State, a: Action, rid: nat)
    requires Enabled(cfg, s, a) && At(s, rid) && (a.BrowserSend? || a.ClientSend? || a.Deliver? || a.StopWaiting?)
    ensures At(Step(cfg, s, a), rid) && PcOf(Step(cfg, s, a), rid) == PcOf(s, rid)
    ensures Step(cfg, s, a).handlers[rid].req == s.handlers[rid].req
  {
  }

  lemma CallbacksLeaveHandler(cfg: Config, s: State, a: Action, rid: nat)
    requires Enabled(cfg, s, a) && At(s, rid) && Mover(a) != Some(rid)
    requires a.CallbackCheck? || a.CallbackTake? || a.CallbackVerify? || a.CallbackTtl? || a.CallbackDraw?
    ensures At(Step(cfg, s, a), rid) && Step(cfg, s, a).handlers[rid] == s.handlers[rid]
  {
  }

  lemma StoresLeaveHandler(cfg: Config, s: State, a: Action, rid: nat)
    requires Enabled(cfg, s, a) && At(s, rid) && Mover(a) != Some(rid)
    requires a.LoginDraw? || a.LoginSet? || a.SessionSet? || a.LogoutDel? || a.SessionGet?
    ensures At(Step(cfg, s, a), rid) && Step(cfg, s, a).handlers[rid] == s.handlers[rid]
  {
  }

  lemma ChecksLeaveHandler(cfg: Config, s: State, a: Action, rid: nat)
    requires Enabled(cfg, s, a) && At(s, rid) && Mover(a) != Some(rid)
    requires a.SessionCheck? || a.ApiFinish? || a.GiveUp?
    ensures At(Step(cfg, s, a), rid) && Step(cfg, s, a).handlers[rid] == s.handlers[rid]
  {
  }

  lemma StandingStepsLeaveHandler(cfg: Config, s: State, a: Action, rid: nat)
    requires Enabled(cfg, s, a) && At(s, rid) && Mover(a) == None
             && !(a.BrowserSend? || a.ClientSend? || a.Deliver? || a.StopWaiting?)
    ensures At(Step(cfg, s, a), rid) && Step(cfg, s, a).handlers[rid] == s.handlers[rid]
  {
  }

  /**
   Whatever happens between two steps of a handler, it finds itself where it was,
   with its request: so what is proved of its next segment from any state with
   that program counter is proved for every interleaving.
   */
  lemma OthersLeaveHandler(cfg: Config, s: State, a: Action, rid: nat)
    requires Enabled(cfg, s, a) && At(s, rid) && Mover(a) != Some(rid)
    ensures At(Step(cfg, s, a), rid) && PcOf(Step(cfg, s, a), rid) == PcOf(s, rid)
    ensures Step(cfg, s, a).handlers[rid].req == s.handlers[rid].req
  {
    if a.BrowserSend? || a.ClientSend? || a.Deliver? || a.StopWaiting? {
      ClientsLeaveHandler(cfg, s, a, rid);
    } else if Mover(a).None? {
      StandingStepsLeaveHandler(cfg, s, a, rid);
    } else if a.CallbackCheck? || a.CallbackTake? || a.CallbackVerify? || a.CallbackTtl? || a.CallbackDraw? {
      CallbacksLeaveHandler(cfg, s, a, rid);
    } else if a.SessionCheck? || a.ApiFinish? || a.GiveUp? {
      ChecksLeaveHandler(cfg, s, a, rid);
    } else {
      StoresLeaveHandler(cfg, s, a, rid);
    }
  }

  /** The same over any stretch in which rid does not move. */
  lemma {:induction false} StretchLeavesHandler(cfg: Config, s: State, trace: seq<Action>, s': State, rid: nat)
    requires Path(cfg, s, trace, s') && At(s, rid) && forall a <- trace :: Mover(a) != Some(rid)
    ensures At(s', rid) && PcOf(s', rid) == PcOf(s, rid) && s'.handlers[rid].req == s.handlers[rid].req
    decreases |trace|
  {
    if trace != [] {
      OthersLeaveHandler(cfg, s, trace[0], rid);
      StretchLeavesHandler(cfg, Step(cfg, s, trace[0]), trace[1..], s', rid);
    }
  }
}
