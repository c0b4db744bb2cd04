/**
 The API handlers behind the multiplexer, and the boundary they keep: whatever
 the method, the path, the cookies and the state of the store, the upstream
 sees a prefix of the calls the documented route makes for the request's own
 names, each a GET with the live session's own token, and nothing else.
 */
module HttpApi {
  import opened Wrappers
  import opened SessionTypes
  import opened Base64Url
  import B = ByteStore
  import SS = SessionStore
  import opened LabelRegex
  import opened LogOptions
  import opened UpstreamPaths
  import opened CapsuleClient
  import opened Routes
  import LogStreams
  import ByteStreams
  import Cookies
  import Q = QueryString
  import V = Vault

  const MAX_EVENTS_LISTED := 200

  datatype Request = Request(verb: string, path: string, query: string, cookies: seq<(string, string)>)

  datatype Body =
    | Text
    | Names(names: seq<string>)
    | Items(items: seq<string>)
    | Quotas(quotas: seq<string>, limits: seq<string>)
    | Object(object: string)
    | Stream
    | Elsewhere

  function CookieOf(r: Request, insecure: bool): Option<string>
  {
    Cookies.Find(r.cookies, Cookies.SessionCookieName(insecure))
  }

  datatype Response = Response(status: int, body: Body)

  function Status(e: UpstreamError): int
  {
    match e case Unauthorized => 401 case Forbidden => 403 case Unavailable => 502
  }

  // ----- What the document permits -----

  /** The upstream calls of a route, for the names in the request; none for an invalid name. */
  function CallsOf(h: Handler, segs: seq<string>, query: string): seq<Call>
  {
    if h.NamespaceList? then [Namespaces]
    else if |segs| < 4 || !Label(segs[2]) then []
    else if h.Overview? then [List(segs[2], RESOURCE_QUOTAS, 0), List(segs[2], LIMIT_RANGES, 0)]
    else if h.EventList? then [List(segs[2], EVENTS, MAX_EVENTS_LISTED)]
    else if h.ResourceList? then [List(segs[2], h.gvr, 0)]
    else if |segs| < 5 || !Label(segs[4]) then []
    else if h.ResourceGet? then [Get(segs[2], segs[4], h.gvr)]
    else if h.PodLogs? then
      match ParseOptions(Q.Parse(query))
      case Failure(_) => []
      case Success(o) => [Log(segs[2], segs[4], o)]
    else []
  }

  /** HEAD is answered as GET is. */
  function AsGet(verb: string): string { if verb == "HEAD" then "GET" else verb }

  function Permitted(r: Request): seq<Call>
  {
    if !Clean(r.path) then []
    else
      match Documented(AsGet(r.verb), Segments(r.path))
      case None => []
      case Some(h) => CallsOf(h, Segments(r.path), r.query)
  }

  /** What the router claims beyond the document makes no calls. */
  lemma ClaimedCallsArePermitted(r: Request)
    requires Clean(r.path) && Claimed(r.verb, Segments(r.path)).Some?
    ensures CallsOf(Claimed(r.verb, Segments(r.path)).value, Segments(r.path), r.query) == Permitted(r)
  {
    ClaimedBeyondDocument(r.verb, Segments(r.path));
    ClaimedBeyondDocument(AsGet(r.verb), Segments(r.path));
  }

  predicate AllValid(calls: seq<Call>)
  {
    forall c <- calls :: Valid(c)
  }

  function Requests(calls: seq<Call>, token: string): seq<Sent>
    requires AllValid(calls)
  {
    if calls == [] then [] else [CapsuleClient.Request(calls[0], token)] + Requests(calls[1..], token)
  }

  lemma KindsAreKnown(kind: string)
    ensures KindOf(kind).Some? ==> Known(KindOf(kind).value)
  {
  }

  predicate KnownHandler(h: Handler)
  {
    (h.ResourceList? || h.ResourceGet?) ==> Known(h.gvr)
  }

  lemma ClaimedIsKnown(verb: string, segs: seq<string>)
    requires Claimed(verb, segs).Some?
    ensures KnownHandler(Claimed(verb, segs).value)
  {
    if |segs| >= 4 {
      KindsAreKnown(segs[3]);
    }
  }

  lemma CallsAreValid(h: Handler, segs: seq<string>, query: string)
    requires KnownHandler(h)
    ensures AllValid(CallsOf(h, segs, query))
  {
    if h.PodLogs? && ParseOptions(Q.Parse(query)).Success? {
      ParsedIsClamped(Q.Parse(query));
    }
  }

  lemma PermittedIsValid(r: Request)
    ensures AllValid(Permitted(r))
  {
    if Clean(r.path) && Documented(AsGet(r.verb), Segments(r.path)).Some? {
      ClaimedBeyondDocument(AsGet(r.verb), Segments(r.path));
      ClaimedIsKnown(AsGet(r.verb), Segments(r.path));
      CallsAreValid(Documented(AsGet(r.verb), Segments(r.path)).value, Segments(r.path), r.query);
    }
  }

  lemma {:induction false} EachIsOurs(calls: seq<Call>, token: string, i: nat)
    requires AllValid(calls) && i < |calls|
    ensures |Requests(calls, token)| == |calls| && Requests(calls, token)[i] == CapsuleClient.Request(calls[i], token)
  {
    if i > 0 {
      EachIsOurs(calls[1..], token, i - 1);
    } else if |calls| > 1 {
      EachIsOurs(calls[1..], token, 0);
    }
  }

  /**
   What reaches the upstream, seen from its side: each request is a GET with this
   session's token and nobody else's, and its path can only be read as one of the
   permitted calls.
   */
  lemma Confined(r: Request, calls: seq<Call>, token: string, i: nat)
    requires calls <= Permitted(r) && i < |calls|
    ensures AllValid(calls) && |Requests(calls, token)| == |calls|
    ensures var s := Requests(calls, token)[i];
            && s.verb == "GET" && s.authorization == Bearer(token)
            && Read(s.path).Some? && Read(s.path).value in Permitted(r)
    ensures (r.verb == "GET" || r.verb == "HEAD") && Documented("GET", Segments(r.path)).Some?
  {
    PermittedIsValid(r);
    EachIsOurs(calls, token, i);
    ReadUndoesPrint(calls[i]);
    assert calls[i] == Permitted(r)[i];
  }

  // ----- Handlers -----

  /** A list, entire, or the error. */
  function ListReply(d: Decoder, f: Raw -> Option<string>, a: Answer): Response
  {
    match CapsuleClient.Items(d, a)
    case Failure(e) => Response(Status(e), Text)
    case Success(items) =>
      match DecodeAll(f, items)
      case None => Response(502, Text)
      case Some(summaries) => Response(200, Items(summaries))
  }

  function NamespacesReply(d: Decoder, a: Answer): Response
  {
    match NameList(d, a)
    case Failure(e) => Response(Status(e), Text)
    case Success(names) => Response(200, Names(names))
  }

  function GetReply(f: Raw -> Option<string>, a: Answer): Response
  {
    match Outcome(a)
    case Failure(e) => Response(Status(e), Text)
    case Success(raw) => match f(raw) case None => Response(502, Text) case Some(x) => Response(200, Object(x))
  }

  /** All or nothing over two lists. */
  function OverviewReply(d: Decoder, f: Raw -> Option<string>, g: Raw -> Option<string>, a: Answer, b: Answer): Response
  {
    match (CapsuleClient.Items(d, a), CapsuleClient.Items(d, b))
    case (Failure(e), _) => Response(Status(e), Text)
    case (Success(_), Failure(e)) => Response(Status(e), Text)
    case (Success(quotas), Success(limits)) =>
      match (DecodeAll(f, quotas), DecodeAll(g, limits))
      case (Some(x), Some(y)) => Response(200, Quotas(x, y))
      case _ => Response(502, Text)
  }

  /** The calls actually made: all of the route's, unless the overview's first one fails. */
  function Made(d: Decoder, h: Handler, segs: seq<string>, query: string, answers: seq<Answer>): seq<Call>
  {
    var calls := CallsOf(h, segs, query);
    if h.Overview? && |calls| > 1 && CapsuleClient.Items(d, Next(answers)).Failure? then calls[..1] else calls
  }

  /** The answer of an API route, whatever the upstream says: a bad name or option is 400 before any call. */
  function ApiReply(d: Decoder, f: GVR -> Raw -> Option<string>, h: Handler, segs: seq<string>, query: string,
                    answers: seq<Answer>): Response
  {
    if CallsOf(h, segs, query) == [] then Response(400, Text)
    else if h.NamespaceList? then NamespacesReply(d, Next(answers))
    else if h.Overview? then OverviewReply(d, f(RESOURCE_QUOTAS), f(LIMIT_RANGES), Next(answers), Next(Later(answers)))
    else if h.EventList? then ListReply(d, f(EVENTS), Next(answers))
    else if h.ResourceList? then ListReply(d, f(h.gvr), Next(answers))
    else if h.ResourceGet? then GetReply(f(h.gvr), Next(answers))
    else LogReply(Next(answers))
  }

  function LogReply(a: Answer): Response
  {
    match StreamOutcome(a)
    case Failure(e) => Response(Status(e), Text)
    case Success(_) => Response(200, Stream)
  }

  class Api {
    const client: Client
    const store: SS.Store
    const mux: Mux
    const insecure: bool
    const frontend: bool
    const summarize: GVR -> Raw -> Option<string>

    constructor (client: Client, store: SS.Store, mux: Mux, insecure: bool, frontend: bool,
                 summarize: GVR -> Raw -> Option<string>)
      ensures this.client == client && this.store == store && this.mux == mux
      ensures this.insecure == insecure && this.frontend == frontend && this.summarize == summarize
    {
      this.client, this.store, this.mux := client, store, mux;
      this.insecure, this.frontend, this.summarize := insecure, frontend, summarize;
    }

    ghost predicate Valid()
      reads this, store, store.backend, mux
    {
      store.Valid() && mux.table == Table()
    }

    /** The record of the live session the request's cookie names, if the store answers. */
    ghost function Session(r: Request, now: int, fault: B.Fault): Option<Record>
      reads this, store, store.backend
    {
      var cookie := CookieOf(r, insecure);
      if cookie.None? || !fault.Fine? then None else V.Look(store.backend.vault.sessions, cookie.value, now)
    }

    method NamespacesHandler(token: string) returns (resp: Response)
      modifies client
      ensures client.sent == old(client.sent) + Requests([Namespaces], token)
      ensures resp == NamespacesReply(client.decoder, Next(old(client.answers)))
    {
      OneRequest(Namespaces, token);
      var names := client.ListNamespaces(token);
      if names.Failure? {
        return Response(Status(names.error), Text);
      }
      var out := new string[|names.value|](_ => "");
      for i := 0 to |names.value|
        invariant out[..i] == names.value[..i]
        modifies out
      {
        out[i] := names.value[i];
      }
      assert out[..] == out[..|names.value|] && names.value[..|names.value|] == names.value;
      resp := Response(200, Names(out[..]));
    }

    method ListResourceHandler(token: string, namespace: string, gvr: GVR)
      returns (resp: Response, ghost calls: seq<Call>)
      requires Known(gvr)
      modifies client
      ensures calls == if Label(namespace) then [List(namespace, gvr, 0)] else []
      ensures client.sent == old(client.sent) + Requests(calls, token)
      ensures resp == if Label(namespace) then ListReply(client.decoder, summarize(gvr), Next(old(client.answers)))
                      else Response(400, Text)
    {
      ValidNamesAreLabels(namespace);
      if !ValidK8sName(namespace) {
        return Response(400, Text), [];
      }
      calls := [List(namespace, gvr, 0)];
      OneRequest(calls[0], token);
      var items := client.ListNamespacedResource(token, namespace, gvr, 0);
      resp := Summarized(items, summarize(gvr));
    }

    method EventsHandler(token: string, namespace: string) returns (resp: Response, ghost calls: seq<Call>)
      modifies client
      ensures calls == if Label(namespace) then [List(namespace, EVENTS, MAX_EVENTS_LISTED)] else []
      ensures client.sent == old(client.sent) + Requests(calls, token)
      ensures resp == if Label(namespace) then ListReply(client.decoder, summarize(EVENTS), Next(old(client.answers)))
                      else Response(400, Text)
    {
      ValidNamesAreLabels(namespace);
      if !ValidK8sName(namespace) {
        return Response(400, Text), [];
      }
      calls := [List(namespace, EVENTS, MAX_EVENTS_LISTED)];
      OneRequest(calls[0], token);
      var items := client.ListNamespacedResource(token, namespace, EVENTS, MAX_EVENTS_LISTED);
      resp := Summarized(items, summarize(EVENTS));
    }

    /** The loop of both list handlers: it stops at the first item it cannot read. */
    method Summarized(items: Result<seq<Raw>, UpstreamError>, f: Raw -> Option<string>) returns (resp: Response)
      ensures resp == match items
                      case Failure(e) => Response(Status(e), Text)
                      case Success(raw) =>
                        match DecodeAll(f, raw) case None => Response(502, Text)
                          case Some(xs) => Response(200, Items(xs))
    {
      if items.Failure? {
        return Response(Status(items.error), Text);
      }
      var summaries := DecodeEach(f, items.value);
      resp := if summaries.None? then Response(502, Text) else Response(200, Items(summaries.value));
    }

    method GetResourceHandler(token: string, namespace: string, name: string, gvr: GVR)
      returns (resp: Response, ghost calls: seq<Call>)
      requires Known(gvr)
      modifies client
      ensures calls == if Label(namespace) && Label(name) then [Get(namespace, name, gvr)] else []
      ensures client.sent == old(client.sent) + Requests(calls, token)
      ensures resp == if Label(namespace) && Label(name) then GetReply(summarize(gvr), Next(old(client.answers)))
                      else Response(400, Text)
    {
      ValidNamesAreLabels(namespace);
      ValidNamesAreLabels(name);
      if !ValidK8sName(namespace) || !ValidK8sName(name) {
        return Response(400, Text), [];
      }
      calls := [Get(namespace, name, gvr)];
      OneRequest(calls[0], token);
      var raw := client.GetNamespacedResource(token, namespace, name, gvr);
      if raw.Failure? {
        return Response(Status(raw.error), Text), calls;
      }
      var summary := summarize(gvr)(raw.value);
      resp := if summary.None? then Response(502, Text) else Response(200, Object(summary.value));
    }

    /** Two calls in order; the second only if the first succeeded. */
    method OverviewHandler(token: string, namespace: string) returns (resp: Response, ghost calls: seq<Call>)
      modifies client
      ensures calls == if !Label(namespace) then []
                       else if CapsuleClient.Items(client.decoder, Next(old(client.answers))).Failure?
                         then [List(namespace, RESOURCE_QUOTAS, 0)]
                       else [List(namespace, RESOURCE_QUOTAS, 0), List(namespace, LIMIT_RANGES, 0)]
      ensures client.sent == old(client.sent) + Requests(calls, token)
      ensures resp == if Label(namespace) then
                        OverviewReply(client.decoder, summarize(RESOURCE_QUOTAS), summarize(LIMIT_RANGES),
                                      Next(old(client.answers)), Next(Later(old(client.answers))))
                      else Response(400, Text)
    {
      ValidNamesAreLabels(namespace);
      if !ValidK8sName(namespace) {
        return Response(400, Text), [];
      }
      calls := [List(namespace, RESOURCE_QUOTAS, 0)];
      OneRequest(List(namespace, RESOURCE_QUOTAS, 0), token);
      OneRequest(List(namespace, LIMIT_RANGES, 0), token);
      var quotas := client.ListNamespacedResource(token, namespace, RESOURCE_QUOTAS, 0);
      if quotas.Failure? {
        return Response(Status(quotas.error), Text), calls;
      }
      calls := calls + [List(namespace, LIMIT_RANGES, 0)];
      assert calls[1..] == [List(namespace, LIMIT_RANGES, 0)];
      var limits := client.ListNamespacedResource(token, namespace, LIMIT_RANGES, 0);
      if limits.Failure? {
        return Response(Status(limits.error), Text), calls;
      }
      var quotaSummaries := DecodeEach(summarize(RESOURCE_QUOTAS), quotas.value);
      if quotaSummaries.None? {
        return Response(502, Text), calls;
      }
      var limitSummaries := DecodeEach(summarize(LIMIT_RANGES), limits.value);
      if limitSummaries.None? {
        return Response(502, Text), calls;
      }
      resp := Response(200, Quotas(quotaSummaries.value, limitSummaries.value));
    }

    method PodLogsHandler(token: string, namespace: string, pod: string, query: string, w: LogStreams.BodyWriter,
                          flusher: bool)
      returns (resp: Response, ghost calls: seq<Call>, ghost pending: nat)
      requires w.written == [] && w.flushed == 0
      modifies client, w
      ensures calls == LogCalls(namespace, pod, query)
      ensures client.sent == old(client.sent) + Requests(calls, token)
      ensures calls == [] ==> resp == Response(400, Text) && w.written == []
      ensures calls != [] ==> Relayed(resp, StreamOutcome(Next(old(client.answers))), old(w.faults), w.written)
      ensures flusher ==> pending == 0
    {
      pending := 0;
      ValidNamesAreLabels(namespace);
      ValidNamesAreLabels(pod);
      calls := LogCalls(namespace, pod, query);
      if !ValidK8sName(namespace) || !ValidK8sName(pod) {
        return Response(400, Text), calls, 0;
      }
      var opts := ParseLogOptions(Q.Parse(query));
      if opts.Failure? {
        return Response(400, Text), calls, 0;
      }
      resp, pending := Relay(token, namespace, pod, opts.value, w, flusher);
    }

    method Relay(token: string, namespace: string, pod: string, opts: Options, w: LogStreams.BodyWriter, flusher: bool)
      returns (resp: Response, ghost pending: nat)
      requires UpstreamPaths.Valid(Log(namespace, pod, opts)) && w.written == [] && w.flushed == 0
      modifies client, w
      ensures client.sent == old(client.sent) + Requests([Log(namespace, pod, opts)], token)
      ensures Relayed(resp, StreamOutcome(Next(old(client.answers))), old(w.faults), w.written)
      ensures flusher ==> pending == 0
    {
      pending := 0;
      OneRequest(Log(namespace, pod, opts), token);
      var stream := client.StreamPodLogs(token, namespace, pod, opts);
      if stream.Failure? {
        return Response(Status(stream.error), Text), 0;
      }
      var body := new ByteStreams.Reader(stream.value);
      pending := LogStreams.RelayPodLog(w, flusher, body);
      resp := Response(200, Stream);
    }

    /** requireSession: without a live session, or without an answer from the store, 401 and no handler. */
    method RequireSession(r: Request, now: int, fault: B.Fault) returns (rec: Option<Record>)
      requires Valid()
      ensures rec == Session(r, now, fault)
    {
      var cookie := CookieOf(r, insecure);
      if cookie.None? {
        return None;
      }
      var found := store.GetSession(cookie.value, now, fault);
      rec := if found.Failure? then None else Some(found.value);
    }

    /** The handlers behind requireSession. The names come from the route's own pattern. */
    method ServeApi(r: Request, route: Route, segs: seq<string>, token: string, w: LogStreams.BodyWriter, flusher: bool)
      returns (resp: Response, ghost calls: seq<Call>, ghost pending: nat)
      requires |route.pattern| == |segs| && NamesAgree(route, segs)
      requires Claimed(r.verb, segs) == Some(route.handler) && BehindSession(route.handler)
      requires w.written == [] && w.flushed == 0
      modifies client, w
      ensures calls == Made(client.decoder, route.handler, segs, r.query, old(client.answers)) && AllValid(calls)
      ensures client.sent == old(client.sent) + Requests(calls, token)
      ensures resp == ApiReply(client.decoder, summarize, route.handler, segs, r.query, old(client.answers))
      ensures Written(route.handler, calls, resp, Next(old(client.answers)), old(w.faults), w.written)
      ensures flusher ==> pending == 0
    {
      pending := 0;
      ShapeOf(r.verb, segs);
      ClaimedIsKnown(r.verb, segs);
      var ns, name := PathValue(route.pattern, segs, "ns"), PathValue(route.pattern, segs, "name");
      if route.handler.NamespaceList? {
        resp := NamespacesHandler(token);
        calls := [Namespaces];
      } else if route.handler.ResourceGet? || route.handler.PodLogs? {
        resp, calls, pending := ServeObject(route.handler, segs, r.query, token, ns, name, w, flusher);
      } else {
        resp, calls := ServeList(route.handler, segs, r.query, token, ns);
      }
    }

    method ServeList(h: Handler, segs: seq<string>, query: string, token: string, ns: string)
      returns (resp: Response, ghost calls: seq<Call>)
      requires |segs| == 4 && ns == segs[2] && KnownHandler(h) && (h.Overview? || h.ResourceList? || h.EventList?)
      modifies client
      ensures calls == Made(client.decoder, h, segs, query, old(client.answers)) && AllValid(calls)
      ensures client.sent == old(client.sent) + Requests(calls, token)
      ensures resp == ApiReply(client.decoder, summarize, h, segs, query, old(client.answers))
    {
      if h.Overview? {
        resp, calls := OverviewHandler(token, ns);
      } else if h.ResourceList? {
        resp, calls := ListResourceHandler(token, ns, h.gvr);
      } else {
        resp, calls := EventsHandler(token, ns);
      }
    }

    method ServeObject(h: Handler, segs: seq<string>, query: string, token: string, ns: string, name: string,
                       w: LogStreams.BodyWriter, flusher: bool)
      returns (resp: Response, ghost calls: seq<Call>, ghost pending: nat)
      requires |segs| >= 5 && ns == segs[2] && name == segs[4] && KnownHandler(h) && (h.ResourceGet? || h.PodLogs?)
      requires w.written == [] && w.flushed == 0
      modifies client, w
      ensures calls == CallsOf(h, segs, query) && AllValid(calls)
      ensures client.sent == old(client.sent) + Requests(calls, token)
      ensures resp == ApiReply(client.decoder, summarize, h, segs, query, old(client.answers))
      ensures Written(h, calls, resp, Next(old(client.answers)), old(w.faults), w.written)
      ensures flusher ==> pending == 0
    {
      pending := 0;
      if h.ResourceGet? {
        resp, calls := GetResourceHandler(token, ns, name, h.gvr);
      } else {
        resp, calls, pending := PodLogsHandler(token, ns, name, query, w, flusher);
      }
    }

    /**
     Everything a request can cause upstream. `calls` is a prefix of what the
     document permits it, all sent with the token of the session that was live at
     the lookup. A documented API request with a live session is served; without
     one it is 401. `pending` is the most log bytes written but unflushed at a read.
     */
    method ServeHTTP(r: Request, now: int, fault: B.Fault, w: LogStreams.BodyWriter, flusher: bool)
      returns (resp: Response, ghost calls: seq<Call>, ghost pending: nat)
      requires Valid() && w.written == [] && w.flushed == 0
      modifies client, w
      ensures calls <= Permitted(r) && AllValid(calls)
      ensures calls != [] ==> Session(r, now, fault).Some?
      ensures client.sent == old(client.sent) + (if calls == [] then []
              else Requests(calls, Session(r, now, fault).value.idToken))
      ensures Clean(r.path) && Claimed(r.verb, Segments(r.path)).Some?
              && BehindSession(Claimed(r.verb, Segments(r.path)).value) ==>
                var h, segs := Claimed(r.verb, Segments(r.path)).value, Segments(r.path);
                if Session(r, now, fault).None? then resp == Response(401, Text) && calls == []
                else
                  && calls == Made(client.decoder, h, segs, r.query, old(client.answers))
                  && resp == ApiReply(client.decoder, summarize, h, segs, r.query, old(client.answers))
                  && Written(h, calls, resp, Next(old(client.answers)), old(w.faults), w.written)
      ensures calls == [] ==> w.written == []
      ensures flusher ==> pending == 0
    {
      pending := 0;
      DispatchIsClaimed(frontend, r.verb, r.path);
      var t := Dispatch(mux.table, frontend, r.verb, r.path);
      match t
      case Redirect => return Response(301, Text), [], 0;
      case NotFound => return Response(404, Text), [], 0;
      case WrongVerb => return Response(405, Text), [], 0;
      case Frontend => return Response(200, Elsewhere), [], 0;
      case Serve(route, segs) =>
        DispatchedHandler(frontend, r.verb, r.path);
        if !BehindSession(route.handler) {
          return Response(200, Elsewhere), [], 0;
        }
        var rec := RequireSession(r, now, fault);
        if rec.None? {
          return Response(401, Text), [], 0;
        }
        ClaimedCallsArePermitted(r);
        resp, calls, pending := ServeApi(r, route, segs, rec.value.idToken, w, flusher);
    }
  }

  /**
   What the handler writes to its stream: the relayed log of a log request that was
   made, and otherwise nothing. For HEAD the HTTP server discards it.
   */
  predicate Written(h: Handler, calls: seq<Call>, resp: Response, a: Answer, faults: seq<Option<nat>>,
                    written: seq<byte>)
  {
    if h.PodLogs? && calls != [] then Relayed(resp, StreamOutcome(a), faults, written) else written == []
  }

  /** The routes wrapped in requireSession. */
  predicate BehindSession(h: Handler)
  {
    h.NamespaceList? || h.Overview? || h.ResourceList? || h.ResourceGet? || h.PodLogs? || h.EventList?
  }

  function LogCalls(namespace: string, pod: string, query: string): (calls: seq<Call>)
    ensures AllValid(calls)
  {
    var opts := ParseOptions(Q.Parse(query));
    if !Label(namespace) || !Label(pod) || opts.Failure? then []
    else
      ParsedIsClamped(Q.Parse(query));
      [Log(namespace, pod, opts.value)]
  }

  /**
   The stream to the browser: always a start of what the backstop allows, and all
   of it if no write fails; or the error, and nothing written.
   */
  predicate Relayed(resp: Response, outcome: Result<ByteStreams.Script, UpstreamError>, faults: seq<Option<nat>>,
                    written: seq<byte>)
  {
    match outcome
    case Failure(e) => resp == Response(Status(e), Text) && written == []
    case Success(body) =>
      && resp == Response(200, Stream)
      && written <= LogStreams.Allowed(body, LogStreams.MAX_STREAM_BYTES)
      && (LogStreams.Faultless(faults) ==> written == LogStreams.Allowed(body, LogStreams.MAX_STREAM_BYTES))
  }

  lemma OneRequest(c: Call, token: string)
    requires Valid(c)
    ensures AllValid([c]) && Requests([c], token) == [CapsuleClient.Request(c, token)]
  {
    assert [c][1..] == [];
  }

  /** Where the names of a claimed request are. */
  lemma ShapeOf(verb: string, segs: seq<string>)
    requires Claimed(verb, segs).Some?
    ensures var h := Claimed(verb, segs).value;
            && (h.Overview? || h.ResourceList? || h.EventList? ==> |segs| == 4)
            && (h.ResourceGet? ==> |segs| == 5) && (h.PodLogs? ==> |segs| == 6)
  {
  }
}
