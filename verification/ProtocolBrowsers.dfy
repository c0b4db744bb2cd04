/** Binding of a callback to the browser and to the login that started it, over whole runs. */
module ProtocolBrowsers {
  import opened Wrappers
  import opened Protocol
  import opened ProtocolInvariants
  import V = Vault

  /** What is in a jar is what the last login-cookie event put there. */
  ghost predicate JarInv(s: State, b: nat)
  {
    var ck := CookiesOf(s, b);
    JarOf(s, b).login.Some? ==> |ck| > 0 && ck[|ck| - 1].op == SetTo(JarOf(s, b).login.value)
  }

  /** Every event is a response of the browser's own, already received. */
  ghost predicate EventInv(s: State, b: nat, e: CookieEvent)
  {
    && At(s, e.rid) && s.handlers[e.rid].sender == Some(b) && !s.handlers[e.rid].awaited
    && s.handlers[e.rid].pc.Done? && s.handlers[e.rid].pc.resp.loginCookie == e.op
  }

  /** A callback carries the login cookie its browser had last received when it was sent. */
  ghost predicate SentInv(s: State, h: Handler)
  {
    h.sender.Some? ==>
      var ck := CookiesOf(s, h.sender.value);
      && h.seen <= |ck|
      && (h.req.CallbackRequest? && h.req.stateCookie.Some? ==>
            h.seen > 0 && ck[h.seen - 1].op == SetTo(h.req.stateCookie.value))
  }

  ghost predicate BrowserInv(s: State)
  {
    && (forall b {:trigger JarInv(s, b)} :: JarInv(s, b))
    && (forall b, i {:trigger EventInv(s, b, CookiesOf(s, b)[i])} ::
          0 <= i < |CookiesOf(s, b)| ==> EventInv(s, b, CookiesOf(s, b)[i]))
    && (forall rid {:trigger SentInv(s, s.handlers[rid])} ::
          0 <= rid < |s.handlers| ==> SentInv(s, s.handlers[rid]))
  }

  /** Jars and cookie history alone; handlers may only move on, and never leave Done. */
  ghost predicate HandlersMoveOn(s: State, s': State)
  {
    && SameRequests(s.handlers, s'.handlers)
    && forall i :: 0 <= i < |s.handlers| ==>
         && (s'.handlers[i].awaited ==> s.handlers[i].awaited)
         && (s.handlers[i].pc.Done? ==> s'.handlers[i].pc == s.handlers[i].pc)
  }

  /** A server step leaves the browsers' side alone. */
  ghost predicate ServerOnly(s: State, s': State)
  {
    s'.jars == s.jars && s'.log.cookies == s.log.cookies && |s'.handlers| == |s.handlers| && HandlersMoveOn(s, s')
  }

  lemma OneHandlerMoves(s: State, s': State, rid: nat)
    requires At(s, rid) && !s.handlers[rid].pc.Done? && s'.jars == s.jars && s'.log.cookies == s.log.cookies
    requires At(s', rid) && s'.handlers == s.handlers[rid := s.handlers[rid].(pc := s'.handlers[rid].pc)]
    ensures ServerOnly(s, s')
  {
  }

  lemma NoHandlerMoves(s: State, s': State)
    requires s'.jars == s.jars && s'.log.cookies == s.log.cookies && s'.handlers == s.handlers
    ensures ServerOnly(s, s')
  {
  }

  lemma LoginStepIsServerOnly(cfg: Config, s: State, a: Action)
    requires Enabled(cfg, s, a) && (a.LoginDraw? || a.LoginSet?)
    ensures ServerOnly(s, Step(cfg, s, a))
  {
    OneHandlerMoves(s, Step(cfg, s, a), a.rid);
  }

  lemma SessionStepIsServerOnly(s: State, rid: nat, acknowledged: bool)
    requires At(s, rid) && s.handlers[rid].pc.SessionStoring?
    ensures ServerOnly(s, SessionStored(s, rid, acknowledged))
  {
    if acknowledged {
      OneHandlerMoves(s, SessionStored(s, rid, acknowledged), rid);
    } else {
      NoHandlerMoves(s, SessionStored(s, rid, acknowledged));
    }
  }

  lemma StoreStepIsServerOnly(cfg: Config, s: State, a: Action)
    requires Enabled(cfg, s, a) && StoreStep(a)
    ensures ServerOnly(s, Step(cfg, s, a))
  {
    if a.LoginDraw? || a.LoginSet? {
      LoginStepIsServerOnly(cfg, s, a);
    } else if a.SessionSet? {
      SessionStepIsServerOnly(s, a.rid, a.acknowledged);
    } else {
      OneHandlerMoves(s, Step(cfg, s, a), a.rid);
    }
  }

  lemma ExchangeStepIsServerOnly(cfg: Config, s: State, a: Action)
    requires Enabled(cfg, s, a) && (a.CallbackVerify? || a.CallbackTtl? || a.CallbackDraw?)
    ensures ServerOnly(s, Step(cfg, s, a))
  {
    OneHandlerMoves(s, Step(cfg, s, a), a.rid);
  }

  lemma TakeIsServerOnly(s: State, rid: nat, answered: bool)
    requires At(s, rid) && s.handlers[rid].pc.Taking?
    ensures ServerOnly(s, CallbackTook(s, rid, answered))
  {
    if answered {
      OneHandlerMoves(s, CallbackTook(s, rid, answered), rid);
    } else {
      NoHandlerMoves(s, CallbackTook(s, rid, answered));
    }
  }

  lemma CallbackStepIsServerOnly(cfg: Config, s: State, a: Action)
    requires Enabled(cfg, s, a) && CallbackStep(a)
    ensures ServerOnly(s, Step(cfg, s, a))
  {
    if a.CallbackVerify? || a.CallbackTtl? || a.CallbackDraw? {
      ExchangeStepIsServerOnly(cfg, s, a);
    } else if a.TokenSend? {
      NoHandlerMoves(s, Step(cfg, s, a));
    } else if a.CallbackTake? {
      TakeIsServerOnly(s, a.rid, a.answered);
    } else {
      OneHandlerMoves(s, CallbackChecked(s, a.rid), a.rid);
    }
  }

  lemma StandingStepIsServerOnly(cfg: Config, s: State, a: Action)
    requires Enabled(cfg, s, a) && (a.Tick? || a.ApiCall? || a.ProviderStep? || a.Late?)
    ensures ServerOnly(s, Step(cfg, s, a))
  {
    NoHandlerMoves(s, Step(cfg, s, a));
  }

  lemma CheckIsServerOnly(cfg: Config, s: State, rid: nat)
    requires At(s, rid) && s.handlers[rid].pc.Begin?
    ensures ServerOnly(s, SessionChecked(cfg, s, rid))
  {
    if SessionChecked(cfg, s, rid) == s {
      NoHandlerMoves(s, s);
    } else {
      OneHandlerMoves(s, SessionChecked(cfg, s, rid), rid);
    }
  }

  lemma OtherStepIsServerOnly(cfg: Config, s: State, a: Action)
    requires Enabled(cfg, s, a) && OtherStep(a)
    ensures ServerOnly(s, Step(cfg, s, a))
  {
    if a.Tick? || a.ApiCall? || a.ProviderStep? || a.Late? {
      StandingStepIsServerOnly(cfg, s, a);
    } else if a.SessionCheck? {
      CheckIsServerOnly(cfg, s, a.rid);
    } else {
      OneHandlerMoves(s, Step(cfg, s, a), a.rid);
    }
  }

  lemma ServerSteps(cfg: Config, s: State, a: Action)
    requires Enabled(cfg, s, a) && !ClientStep(a)
    ensures ServerOnly(s, Step(cfg, s, a))
  {
    if StoreStep(a) {
      StoreStepIsServerOnly(cfg, s, a);
    } else if OtherStep(a) {
      OtherStepIsServerOnly(cfg, s, a);
    } else {
      CallbackStepIsServerOnly(cfg, s, a);
    }
  }

  lemma ServerKeeps(s: State, s': State)
    requires BrowserInv(s) && ServerOnly(s, s')
    ensures BrowserInv(s')
  {
    forall b ensures JarInv(s', b) {
      assert JarInv(s, b);
    }
    forall b, i | 0 <= i < |CookiesOf(s', b)| ensures EventInv(s', b, CookiesOf(s', b)[i]) {
      assert EventInv(s, b, CookiesOf(s, b)[i]);
    }
    forall rid | 0 <= rid < |s'.handlers| ensures SentInv(s', s'.handlers[rid]) {
      assert SentInv(s, s.handlers[rid]);
    }
  }

  lemma ArrivalKeeps(s: State, h: Handler)
    requires BrowserInv(s) && SentInv(s, h)
    ensures BrowserInv(Arrive(s, h))
  {
    var s' := Arrive(s, h);
    forall b ensures JarInv(s', b) {
      assert JarInv(s, b);
    }
    forall b, i | 0 <= i < |CookiesOf(s', b)| ensures EventInv(s', b, CookiesOf(s', b)[i]) {
      assert EventInv(s, b, CookiesOf(s, b)[i]);
    }
    forall rid | 0 <= rid < |s'.handlers| ensures SentInv(s', s'.handlers[rid]) {
      assert rid < |s.handlers| ==> SentInv(s, s.handlers[rid]);
    }
  }

  lemma ReceivedByOther(s: State, rid: nat, b: nat)
    requires At(s, rid) && s.handlers[rid].pc.Done? && s.handlers[rid].sender != Some(b)
    ensures JarOf(Received(s, rid), b) == JarOf(s, b) && CookiesOf(Received(s, rid), b) == CookiesOf(s, b)
  {
  }

  lemma ReceivedBySender(s: State, rid: nat, b: nat)
    requires At(s, rid) && s.handlers[rid].pc.Done? && s.handlers[rid].sender == Some(b)
    ensures var op := s.handlers[rid].pc.resp.loginCookie;
            && JarOf(Received(s, rid), b).login == Apply(JarOf(s, b).login, op)
            && CookiesOf(Received(s, rid), b) == if op.Keep? then CookiesOf(s, b)
              else CookiesOf(s, b) + [CookieEvent(rid, op)]
  {
  }

  lemma ReceivedKeepsJars(s: State, rid: nat, b: nat)
    requires JarInv(s, b) && At(s, rid) && s.handlers[rid].pc.Done?
    ensures JarInv(Received(s, rid), b)
  {
    if s.handlers[rid].sender == Some(b) {
      ReceivedBySender(s, rid, b);
    } else {
      ReceivedByOther(s, rid, b);
    }
  }

  lemma ReceivedKeepsEvents(s: State, rid: nat, b: nat, i: nat)
    requires At(s, rid) && s.handlers[rid].pc.Done? && i < |CookiesOf(Received(s, rid), b)|
    requires i < |CookiesOf(s, b)| ==> EventInv(s, b, CookiesOf(s, b)[i])
    ensures EventInv(Received(s, rid), b, CookiesOf(Received(s, rid), b)[i])
  {
    if s.handlers[rid].sender == Some(b) {
      ReceivedBySender(s, rid, b);
    } else {
      ReceivedByOther(s, rid, b);
    }
  }

  lemma ReceivedKeeps(s: State, rid: nat)
    requires BrowserInv(s) && At(s, rid) && s.handlers[rid].pc.Done?
    ensures BrowserInv(Received(s, rid))
  {
    var s' := Received(s, rid);
    forall b ensures JarInv(s', b) {
      assert JarInv(s, b);
      ReceivedKeepsJars(s, rid, b);
    }
    forall b, i | 0 <= i < |CookiesOf(s', b)| ensures EventInv(s', b, CookiesOf(s', b)[i]) {
      assert i < |CookiesOf(s, b)| ==> EventInv(s, b, CookiesOf(s, b)[i]);
      ReceivedKeepsEvents(s, rid, b, i);
    }
    forall r | 0 <= r < |s'.handlers| ensures SentInv(s', s'.handlers[r]) {
      assert SentInv(s, s.handlers[r]);
    }
  }

  lemma ForgettingKeeps(s: State, s': State)
    requires BrowserInv(s) && HandlersMoveOn(s, s') && |s'.handlers| == |s.handlers| && s'.log.cookies == s.log.cookies
    requires forall b :: JarOf(s', b).login.Some? ==> JarOf(s', b).login == JarOf(s, b).login
    ensures BrowserInv(s')
  {
    forall b ensures JarInv(s', b) {
      assert JarInv(s, b);
    }
    forall b, i | 0 <= i < |CookiesOf(s', b)| ensures EventInv(s', b, CookiesOf(s', b)[i]) {
      assert EventInv(s, b, CookiesOf(s, b)[i]);
    }
    forall rid | 0 <= rid < |s'.handlers| ensures SentInv(s', s'.handlers[rid]) {
      assert SentInv(s, s.handlers[rid]);
    }
  }

  lemma BrowserStepKeeps(cfg: Config, s: State, a: Action)
    requires BrowserInv(s) && Enabled(cfg, s, a)
    ensures BrowserInv(Step(cfg, s, a))
  {
    var s' := Step(cfg, s, a);
    if !ClientStep(a) {
      ServerSteps(cfg, s, a);
      ServerKeeps(s, s');
    } else {
      ClientStepKeepsBrowsers(cfg, s, a);
    }
  }

  lemma ClientStepKeepsBrowsers(cfg: Config, s: State, a: Action)
    requires BrowserInv(s) && Enabled(cfg, s, a) && ClientStep(a)
    ensures BrowserInv(Step(cfg, s, a))
  {
    if a.BrowserSend? {
      assert JarInv(s, a.browser);
      ArrivalKeeps(s, Handler(a.req, Some(a.browser), |CookiesOf(s, a.browser)|, true, Begin));
    } else if a.ClientSend? {
      ArrivalKeeps(s, Handler(a.req, None, 0, false, Begin));
    } else if a.Deliver? {
      ReceivedKeeps(s, a.rid);
    } else {
      ForgettingKeeps(s, Step(cfg, s, a));
    }
  }

  lemma {:induction false} RunBrowserInv(cfg: Config, states: seq<State>, actions: seq<Action>, i: nat)
    requires Run(cfg, states, actions) && i < |states|
    ensures BrowserInv(states[i])
  {
    if i > 0 {
      RunBrowserInv(cfg, states, actions, i - 1);
      assert StepAt(cfg, states, actions, i - 1);
      BrowserStepKeeps(cfg, states[i - 1], actions[i - 1]);
    }
  }

  /** Login request r of browser b set state st in the last login-cookie event b had received before event `seen`. */
  ghost predicate StartedBy(s: State, b: nat, seen: nat, st: string, r: nat)
  {
    && 0 < seen <= |CookiesOf(s, b)|
    && CookiesOf(s, b)[seen - 1] == CookieEvent(r, SetTo(st))
    && At(s, r) && s.handlers[r].sender == Some(b) && s.handlers[r].req.LoginRequest?
    && st in s.log.logins && s.log.logins[st].rid == r
  }

  lemma CookieWasStarted(cfg: Config, s: State, rid: nat, b: nat, st: string)
    requires Inv(cfg, s) && BrowserInv(s) && At(s, rid)
    requires s.handlers[rid].sender == Some(b) && s.handlers[rid].req.CallbackRequest?
    requires s.handlers[rid].req.stateCookie == Some(st)
    ensures s.handlers[rid].seen > 0 && s.handlers[rid].seen <= |CookiesOf(s, b)|
    ensures StartedBy(s, b, s.handlers[rid].seen, st, CookiesOf(s, b)[s.handlers[rid].seen - 1].rid)
  {
    var h := s.handlers[rid];
    assert SentInv(s, h);
    var e := CookiesOf(s, b)[h.seen - 1];
    assert EventInv(s, b, CookiesOf(s, b)[h.seen - 1]);
    HandlerAt(cfg, s, e.rid);
  }

  /** The step is a GETDEL sent by callback rid, reaching the store in time or late. */
  predicate Takes(a: Action, rid: nat)
  {
    a == Late(TakeLogin(rid)) || (a.CallbackTake? && a.rid == rid)
  }

  /**
   A browser's callback touches the store, in time or late, only under the state
   its browser had last been given, by a login that same browser had asked for.
   */
  lemma CallbackReachesOnlyItsOwnLogin(
      cfg: Config, states: seq<State>, actions: seq<Action>, i: nat, rid: nat, b: nat)
    requires Run(cfg, states, actions) && i < |actions| && Takes(actions[i], rid)
    requires At(states[i], rid) && states[i].handlers[rid].sender == Some(b)
    ensures var s, h := states[i], states[i].handlers[rid];
            && h.req.CallbackRequest? && 0 < h.seen <= |CookiesOf(s, b)|
            && states[i + 1].vault == V.DropLogin(s.vault, h.req.state)
            && StartedBy(s, b, h.seen, h.req.state, CookiesOf(s, b)[h.seen - 1].rid)
  {
    RunInv(cfg, states, actions, i);
    RunBrowserInv(cfg, states, actions, i);
    assert StepAt(cfg, states, actions, i);
    HandlerAt(cfg, states[i], rid);
    CookieWasStarted(cfg, states[i], rid, b, states[i].handlers[rid].req.state);
  }

  /** A session made by a browser's callback comes from a login that browser started. */
  lemma SessionBelongsToStartingBrowser(cfg: Config, states: seq<State>, actions: seq<Action>, i: nat, id: string,
                                        b: nat)
    requires Run(cfg, states, actions) && i < |states| && id in states[i].vault.sessions
    requires id in states[i].log.sessions && At(states[i], states[i].log.sessions[id].rid)
    requires states[i].handlers[states[i].log.sessions[id].rid].sender == Some(b)
    ensures var s, birth := states[i], states[i].log.sessions[id];
            var seen := s.handlers[birth.rid].seen;
            && 0 < seen <= |CookiesOf(s, b)|
            && StartedBy(s, b, seen, birth.ev.state, CookiesOf(s, b)[seen - 1].rid)
  {
    RunInv(cfg, states, actions, i);
    RunBrowserInv(cfg, states, actions, i);
    BirthAt(cfg, states[i], id);
    CookieWasStarted(cfg, states[i], states[i].log.sessions[id].rid, b, states[i].log.sessions[id].ev.state);
  }

  // ----- A browser that awaits each response -----

  /** Browser b never sends while it still waits for a response. */
  ghost predicate AwaitsEach(states: seq<State>, actions: seq<Action>, b: nat)
    requires |states| == |actions| + 1
  {
    forall i :: 0 <= i < |actions| && actions[i].BrowserSend? && actions[i].browser == b ==> Idle(states[i], b)
  }

  ghost predicate Idle(s: State, b: nat)
  {
    forall rid :: 0 <= rid < |s.handlers| && s.handlers[rid].sender == Some(b) ==> !s.handlers[rid].awaited
  }

  /** At most the newest request of b is awaited, and its cookies came in the order of its requests. */
  ghost predicate InOrder(s: State, b: nat)
  {
    && (forall r, q ::
          0 <= r < q < |s.handlers| && s.handlers[r].sender == Some(b) && s.handlers[q].sender == Some(b) ==>
            !s.handlers[r].awaited)
    && (forall i, j :: 0 <= i < j < |CookiesOf(s, b)| ==> CookiesOf(s, b)[i].rid < CookiesOf(s, b)[j].rid)
  }

  lemma EventsPrecede(s: State, rid: nat, b: nat)
    requires BrowserInv(s) && InOrder(s, b) && At(s, rid) && s.handlers[rid].awaited
             && s.handlers[rid].sender == Some(b)
    ensures forall i :: 0 <= i < |CookiesOf(s, b)| ==> CookiesOf(s, b)[i].rid < rid
  {
    forall i | 0 <= i < |CookiesOf(s, b)| ensures CookiesOf(s, b)[i].rid < rid {
      assert EventInv(s, b, CookiesOf(s, b)[i]);
    }
  }

  lemma ReceivedInOrder(s: State, rid: nat, b: nat)
    requires BrowserInv(s) && InOrder(s, b) && At(s, rid) && s.handlers[rid].pc.Done? && s.handlers[rid].awaited
    ensures InOrder(Received(s, rid), b)
  {
    var ck' := CookiesOf(Received(s, rid), b);
    if s.handlers[rid].sender == Some(b) {
      EventsPrecede(s, rid, b);
      assert ck' == CookiesOf(s, b) || (|ck'| == |CookiesOf(s, b)| + 1 && ck'[..|ck'| - 1] == CookiesOf(s, b)
             && ck'[|ck'| - 1].rid == rid);
    } else {
      assert ck' == CookiesOf(s, b);
    }
  }

  lemma OrderKept(cfg: Config, s: State, a: Action, b: nat)
    requires BrowserInv(s) && InOrder(s, b) && Enabled(cfg, s, a)
    requires a.BrowserSend? && a.browser == b ==> Idle(s, b)
    ensures InOrder(Step(cfg, s, a), b)
  {
    if !ClientStep(a) {
      ServerSteps(cfg, s, a);
      assert CookiesOf(Step(cfg, s, a), b) == CookiesOf(s, b);
    } else if a.Deliver? {
      ReceivedInOrder(s, a.rid, b);
    } else {
      assert CookiesOf(Step(cfg, s, a), b) == CookiesOf(s, b);
    }
  }

  lemma {:induction false} RunInOrder(cfg: Config, states: seq<State>, actions: seq<Action>, i: nat, b: nat)
    requires Run(cfg, states, actions) && AwaitsEach(states, actions, b) && i < |states|
    ensures InOrder(states[i], b)
  {
    if i > 0 {
      RunInOrder(cfg, states, actions, i - 1, b);
      RunBrowserInv(cfg, states, actions, i - 1);
      assert StepAt(cfg, states, actions, i - 1);
      OrderKept(cfg, states[i - 1], actions[i - 1], b);
    }
  }

  /**
   In a browser that awaits each response only its most recent login can
   complete: of the logins it sent after the one a session came from, none had
   given it a login cookie when it sent the callback.
   */
  lemma OnlyMostRecentLoginCompletes(cfg: Config, states: seq<State>, actions: seq<Action>, i: nat, id: string,
                                     b: nat, later: nat)
    requires Run(cfg, states, actions) && AwaitsEach(states, actions, b) && i < |states|
             && id in states[i].vault.sessions
    requires id in states[i].log.sessions && At(states[i], states[i].log.sessions[id].rid)
    requires states[i].handlers[states[i].log.sessions[id].rid].sender == Some(b)
    requires states[i].log.sessions[id].ev.state in states[i].log.logins
    requires states[i].log.logins[states[i].log.sessions[id].ev.state].rid < later
    ensures var s := states[i];
            var seen := s.handlers[s.log.sessions[id].rid].seen;
            && seen <= |CookiesOf(s, b)|
            && forall k :: 0 <= k < seen ==> CookiesOf(s, b)[k].rid != later
  {
    SessionBelongsToStartingBrowser(cfg, states, actions, i, id, b);
    RunInOrder(cfg, states, actions, i, b);
  }
}
