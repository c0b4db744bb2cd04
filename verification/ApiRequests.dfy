/**
 An API request as a stretch of Protocol. What ServeHTTP sends upstream is what
 the request's handler sends there, so what is proved of upstream calls over runs
 of the whole system is proved of the requests the client records.
 */
module ApiRequests {
  import opened Wrappers
  import opened SessionTypes
  import opened Protocol
  import opened Traces
  import opened ProtocolTheorems
  import B = ByteStore
  import BS = ByteStreams
  import C = CapsuleClient
  import H = HttpApi
  import I = ProtocolInvariants
  import LS = LogStreams
  import U = UpstreamPaths
  import V = Vault

  /** The session the request's cookie names, as the vault has it. */
  function Found(s: State, cookie: Option<string>, now: int, fault: B.Fault): Option<Record>
  {
    if cookie.None? || !fault.Fine? then None else V.Look(s.vault.sessions, cookie.value, now)
  }

  /**
   The record belongs to session id of the system: its token is the provider's, for
   its subject, and no other session's, but for one of the same login, set late.
   */
  ghost predicate Owned(s: State, id: string, rec: Record)
  {
    && id in s.log.sessions && s.log.sessions[id].rec == rec
    && rec.idToken in s.op.signed && s.op.signed[rec.idToken].sub == rec.subject
    && OnlyHolder(s, id)
  }

  lemma LiveIsOwned(cfg: Config, s: State, id: string, now: int)
    requires Reachable(cfg, s) && V.Look(s.vault.sessions, id, now).Some?
    ensures Owned(s, id, V.Look(s.vault.sessions, id, now).value)
  {
    var states, actions :| Run(cfg, states, actions) && states[|actions|] == s;
    I.RunInv(cfg, states, actions, |actions|);
    I.SessionEntryAt(cfg, s, id);
    BirthAgrees(cfg, s, id);
    HolderIsOnly(cfg, s, id);
  }

  /** The steps of a request that makes n upstream calls. */
  lemma ApiSteps(cfg: Config, s: State, rid: nat, cookie: Option<string>, now: int, fault: B.Fault, n: nat)
    returns (t: seq<Action>, s': State)
    requires At(s, rid) && PcOf(s, rid) == Begin && s.handlers[rid].req == ApiRequest(cookie) && s.now <= now
    ensures Leads(cfg, s, t, s') && At(s', rid) && s'.vault == s.vault && s'.op == s.op
    ensures match Found(s, cookie, now, fault)
            case None => PcOf(s', rid) == Done(Fail(401)) && s'.log == s.log
            case Some(rec) =>
              && PcOf(s', rid) == ApiServing(cookie.value, rec)
              && s'.log == s.log.(calls := s.log.calls + CallsOf(rid, cookie.value, rec.idToken, n))
  {
    Nothing(cfg, s);
    t, s' := ApiCheckStep(cfg, s, [], s, rid);
    if cookie.Some? {
      if fault.Fine? {
        t, s' := ApiGetStep(cfg, s, t, s', rid, now);
        if PcOf(s', rid).ApiServing? {
          t, s' := ApiCallSteps(cfg, s, t, s', rid, n);
        }
      } else {
        t, s' := GiveUpStep(cfg, s, t, s', rid);
      }
    }
  }

  // ----- Segments, from any state with the request at that point -----

  /** The system is in state s, which steps of Protocol have led to from s0, and its store is this one. */
  ghost predicate Here(api: H.Api, cfg: Config, s0: State, t: seq<Action>, s: State)
    reads api, api.store, api.store.backend, api.mux
  {
    api.Valid() && s.vault == api.store.backend.vault && Leads(cfg, s0, t, s)
  }

  /** ApiReading: the GET of the session. */
  method ReadSession(api: H.Api, id: string, now: int, fault: B.Fault,
                     ghost cfg: Config, ghost s0: State, ghost t0: seq<Action>, ghost s: State, ghost rid: nat)
    returns (rec: Option<Record>, ghost t: seq<Action>, ghost s': State)
    requires Here(api, cfg, s0, t0, s) && At(s, rid) && PcOf(s, rid) == ApiReading(id) && s.now <= now
    ensures Here(api, cfg, s0, t, s') && Same(s, s', rid) && s'.log == s.log
    ensures rec == Found(s, Some(id), now, fault)
    ensures PcOf(s', rid) == match rec case None => Done(Fail(401)) case Some(found) => ApiServing(id, found)
  {
    var found := api.store.GetSession(id, now, fault);
    if fault.Fine? {
      t, s' := ApiGetStep(cfg, s0, t0, s, rid, now);
    } else {
      t, s' := GiveUpStep(cfg, s0, t0, s, rid);
    }
    rec := if found.Failure? then None else Some(found.value);
  }

  datatype Reply =
    | Names(names: Result<seq<string>, C.UpstreamError>)
    | Items(items: Result<seq<C.Raw>, C.UpstreamError>)
    | Object(raw: Result<C.Raw, C.UpstreamError>)
    | Stream(stream: Result<BS.Script, C.UpstreamError>)

  /** ApiServing: one request, whichever it is, with the token of the record that was read. */
  method SendUpstream(client: C.Client, c: U.Call, token: string,
                      ghost cfg: Config, ghost s0: State, ghost t0: seq<Action>, ghost s: State, ghost rid: nat)
    returns (reply: Reply, ghost t: seq<Action>, ghost s': State)
    requires U.Valid(c) && Leads(cfg, s0, t0, s)
    requires At(s, rid) && PcOf(s, rid).ApiServing? && token == PcOf(s, rid).rec.idToken
    modifies client
    ensures client.sent == old(client.sent) + [C.Request(c, token)] && client.answers == C.Later(old(client.answers))
    ensures c.Namespaces? ==> reply == Names(C.NameList(client.decoder, C.Next(old(client.answers))))
    ensures c.List? ==> reply == Items(C.Items(client.decoder, C.Next(old(client.answers))))
    ensures c.Get? ==> reply == Object(C.Outcome(C.Next(old(client.answers))))
    ensures c.Log? ==> reply == Stream(C.StreamOutcome(C.Next(old(client.answers))))
    ensures Leads(cfg, s0, t, s') && Same(s, s', rid) && Now(s', rid, s.now, PcOf(s, rid), s.vault, s.op)
    ensures s'.log == s.log.(calls := s.log.calls + [UpstreamCall(rid, PcOf(s, rid).id, token)])
  {
    t, s' := OneApiCall(cfg, s0, t0, s, rid);
    match c
    case Namespaces =>
      var names := client.ListNamespaces(token);
      reply := Names(names);
    case List(ns, gvr, limit) =>
      var items := client.ListNamespacedResource(token, ns, gvr, limit);
      reply := Items(items);
    case Get(ns, name, gvr) =>
      var raw := client.GetNamespacedResource(token, ns, name, gvr);
      reply := Object(raw);
    case Log(ns, pod, opts) =>
      var stream := client.StreamPodLogs(token, ns, pod, opts);
      reply := Stream(stream);
  }

  /** Whoever interleaved before: in a reachable system a request being served has its own session's token. */
  lemma ServingIsOwned(cfg: Config, s: State, rid: nat)
    requires Reachable(cfg, s) && At(s, rid) && PcOf(s, rid).ApiServing?
    ensures Owned(s, PcOf(s, rid).id, PcOf(s, rid).rec)
    ensures s.handlers[rid].req == ApiRequest(Some(PcOf(s, rid).id))
  {
    var states, actions :| Run(cfg, states, actions) && states[|actions|] == s;
    I.RunInv(cfg, states, actions, |actions|);
    I.HandlerAt(cfg, s, rid);
    BirthAgrees(cfg, s, PcOf(s, rid).id);
    HolderIsOnly(cfg, s, PcOf(s, rid).id);
  }

  // ----- The whole request, uninterrupted -----

  /** Each request as sent, and each call as recorded, is this session's. */
  ghost predicate AllOwn(calls: seq<U.Call>, sent: seq<C.Sent>, token: string)
  {
    |sent| == |calls| && forall i :: 0 <= i < |sent| ==>
      sent[i].verb == "GET"
      && sent[i].authorization == C.Bearer(token)
  }

  lemma SentAreOwn(r: H.Request, calls: seq<U.Call>, token: string)
    requires calls <= H.Permitted(r) && calls != []
    ensures H.AllValid(calls) && AllOwn(calls, H.Requests(calls, token), token)
  {
    H.Confined(r, calls, token, 0);
    forall i | 0 <= i < |calls| ensures H.Requests(calls, token)[i].verb == "GET"
      && H.Requests(calls, token)[i].authorization == C.Bearer(token) {
      H.Confined(r, calls, token, i);
    }
  }

  /** What a served request has sent, in a system in state s that it has led to s'. */
  ghost predicate SentFor(s: State, s': State, rid: nat, cookie: Option<string>, now: int, calls: seq<U.Call>,
                          sent: seq<C.Sent>)
  {
    && cookie.Some? && V.Look(s.vault.sessions, cookie.value, now).Some?
    && var rec := V.Look(s.vault.sessions, cookie.value, now).value;
    && AllOwn(calls, sent, rec.idToken)
    && s'.log.calls == s.log.calls + CallsOf(rid, cookie.value, rec.idToken, |calls|)
    && Owned(s', cookie.value, rec)
  }

  /**
   ServeHTTP, for a request that has arrived in a reachable system whose store is
   this one: it leads that system on, by the request's own steps, to where the
   calls on record have grown by what the client sent; every one carries a token
   the provider signed for the session's subject, and that no other session holds
   unless it was made from the same transaction, set late.
   */
  method Serve(api: H.Api, r: H.Request, now: int, fault: B.Fault, w: LS.BodyWriter, flusher: bool,
               ghost cfg: Config, ghost s: State, ghost rid: nat)
    returns (resp: H.Response, ghost calls: seq<U.Call>, ghost t: seq<Action>, ghost s': State)
    requires api.Valid() && w.written == [] && w.flushed == 0
    requires Reachable(cfg, s) && s.vault == api.store.backend.vault && s.now <= now
    requires At(s, rid) && PcOf(s, rid) == Begin && s.handlers[rid].req == ApiRequest(H.CookieOf(r, api.insecure))
    modifies api.client, w
    ensures Leads(cfg, s, t, s') && s'.vault == api.store.backend.vault && s'.op == s.op
    ensures calls <= H.Permitted(r)
    ensures exists sent :: api.client.sent == old(api.client.sent) + sent
                           && (if calls == [] then sent == []
                             else SentFor(s, s', rid, H.CookieOf(r, api.insecure), now, calls, sent))
    ensures calls == [] ==> s'.log.calls == s.log.calls
  {
    ghost var before := api.client.sent;
    ghost var session := api.Session(r, now, fault);
    ghost var pending;
    resp, calls, pending := api.ServeHTTP(r, now, fault, w, flusher);
    t, s' := ApiSteps(cfg, s, rid, H.CookieOf(r, api.insecure), now, fault, |calls|);
    if calls == [] {
      assert api.client.sent == before + [];
    } else {
      SentAreOwn(r, calls, session.value.idToken);
      ReachableLeads(cfg, s, t, s');
      LiveIsOwned(cfg, s', H.CookieOf(r, api.insecure).value, now);
      assert SentFor(s, s', rid, H.CookieOf(r, api.insecure), now, calls, H.Requests(calls, session.value.idToken));
    }
  }
}
