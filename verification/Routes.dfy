/**
 The route table, and what the server's multiplexer makes of a request. The
 reference is docs/route-allowlist.md, written here as `Documented`: which
 handler, if any, each request may reach. The table the router builds dispatches
 that, HEAD wherever it dispatches GET, and two health probes; nothing else.
 */
module Routes {
  import opened Wrappers
  import opened Text
  import opened UpstreamPaths
  import Q = QueryString

  datatype Handler =
    | Livez
    | Readyz
    | Login
    | Callback
    | SessionStatus
    | Logout
    | NamespaceList
    | Overview
    | ResourceList(gvr: GVR)
    | ResourceGet(gvr: GVR)
    | PodLogs
    | EventList

  /** A segment of a pattern: itself, or any one segment under a name. */
  datatype Seg = Lit(text: string) | Var(name: string)

  datatype Route = Route(verb: string, pattern: seq<Seg>, handler: Handler)

  // ----- Matching -----

  /** A literal segment is never "/", which stands for a trailing slash. */
  predicate SegMatches(p: Seg, s: string)
  {
    match p
    case Lit(text) => s == text
    case Var(_) => s != "/" && s != ""
  }

  predicate PatternMatches(pattern: seq<Seg>, segs: seq<string>)
  {
    |pattern| == |segs| && forall i :: 0 <= i < |pattern| ==> SegMatches(pattern[i], segs[i])
  }

  /** A GET pattern serves HEAD too. */
  predicate VerbMatches(pattern: string, verb: string)
  {
    pattern == verb || (pattern == "GET" && verb == "HEAD")
  }

  predicate Matches(r: Route, verb: string, segs: seq<string>)
  {
    VerbMatches(r.verb, verb) && PatternMatches(r.pattern, segs)
  }

  /** The segment under a name. */
  function PathValue(pattern: seq<Seg>, segs: seq<string>, name: string): string
    requires |pattern| == |segs|
  {
    PathValueFrom(pattern, segs, name, 0)
  }

  function PathValueFrom(pattern: seq<Seg>, segs: seq<string>, name: string, i: nat): string
    requires |pattern| == |segs| && i <= |pattern|
    decreases |pattern| - i
  {
    if i == |pattern| then ""
    else if pattern[i] == Var(name) then segs[i]
    else PathValueFrom(pattern, segs, name, i + 1)
  }

  // ----- Requests -----

  /** Each raw segment decoded; one that does not decode stands for itself, an empty last one for the trailing slash. */
  function DecodeSegment(raw: string): string
  {
    if raw == "" then "/"
    else match Q.Unescape(raw, false) case None => raw case Some(s) => s
  }

  function DecodeSegments(raws: seq<string>): seq<string>
  {
    if raws == [] then [] else [DecodeSegment(raws[0])] + DecodeSegments(raws[1..])
  }

  function RawSegments(path: string): seq<string>
  {
    Split(path, '/')[1..]
  }

  function Segments(path: string): seq<string>
  {
    DecodeSegments(RawSegments(path))
  }

  /** A path the multiplexer does not rewrite: rooted, no empty segment but the last, no "." and no "..". */
  predicate Clean(path: string)
  {
    && path != "" && path[0] == '/'
    && var raws := RawSegments(path);
    forall i :: 0 <= i < |raws| ==> raws[i] != "." && raws[i] != ".." && (raws[i] == "" ==> i == |raws| - 1)
  }

  datatype Target =
    | Redirect
    | NotFound
    | WrongVerb
    | Frontend
    | Serve(route: Route, segs: seq<string>)

  /** The first route that matches. */
  function Find(table: seq<Route>, verb: string, segs: seq<string>): Option<Route>
  {
    if table == [] then None
    else if Matches(table[0], verb, segs) then Some(table[0])
    else Find(table[1..], verb, segs)
  }

  // ----- The document -----

  /** Resources that are listed and read, under the name of their route. */
  function KindOf(name: string): Option<GVR>
  {
    if name == "deployments" then Some(GVR("apis/apps/v1", "deployments"))
    else if name == "statefulsets" then Some(GVR("apis/apps/v1", "statefulsets"))
    else if name == "daemonsets" then Some(GVR("apis/apps/v1", "daemonsets"))
    else if name == "pods" then Some(GVR("api/v1", "pods"))
    else if name == "jobs" then Some(GVR("apis/batch/v1", "jobs"))
    else if name == "cronjobs" then Some(GVR("apis/batch/v1", "cronjobs"))
    else if name == "services" then Some(GVR("api/v1", "services"))
    else if name == "ingresses" then Some(GVR("apis/networking.k8s.io/v1", "ingresses"))
    else if name == "persistentvolumeclaims" then Some(GVR("api/v1", "persistentvolumeclaims"))
    else None
  }

  /** A variable segment of the allowlist. */
  predicate Named(s: string)
  {
    s != "/" && s != ""
  }

  predicate UnderApi(segs: seq<string>)
  {
    |segs| >= 2 && segs[0] == "api" && segs[1] == "namespaces"
  }

  function InNamespace(kind: string): Option<Handler>
  {
    if kind == "overview" then Some(Overview)
    else if kind == "events" then Some(EventList)
    else match KindOf(kind) case None => None case Some(gvr) => Some(ResourceList(gvr))
  }

  function OneObject(kind: string): Option<Handler>
  {
    match KindOf(kind) case None => None case Some(gvr) => Some(ResourceGet(gvr))
  }

  /** The read routes of the document. */
  function DocumentedRead(segs: seq<string>): Option<Handler>
  {
    if segs == ["auth", "login"] then Some(Login)
    else if segs == ["auth", "callback"] then Some(Callback)
    else if segs == ["auth", "session"] then Some(SessionStatus)
    else if !UnderApi(segs) then None
    else if |segs| == 2 then Some(NamespaceList)
    else if !Named(segs[2]) then None
    else if |segs| == 4 then InNamespace(segs[3])
    else if |segs| == 5 && Named(segs[4]) then OneObject(segs[3])
    else if |segs| == 6 && Named(segs[4]) && segs[3] == "pods" && segs[5] == "logs" then Some(PodLogs)
    else None
  }

  /** docs/route-allowlist.md: every read route under GET, and the logout under POST. */
  function Documented(verb: string, segs: seq<string>): Option<Handler>
  {
    if verb == "GET" then DocumentedRead(segs)
    else if verb == "POST" && segs == ["auth", "logout"] then Some(Logout)
    else None
  }

  // ----- What the router claims -----

  /** The document's read routes, and two probes it does not list. */
  function ReadRoute(segs: seq<string>): Option<Handler>
  {
    if segs == ["healthz"] then Some(Livez)
    else if segs == ["readyz"] then Some(Readyz)
    else DocumentedRead(segs)
  }

  /** Which handler a request reaches. */
  function Claimed(verb: string, segs: seq<string>): Option<Handler>
  {
    if verb == "GET" || verb == "HEAD" then ReadRoute(segs)
    else if verb == "POST" && segs == ["auth", "logout"] then Some(Logout)
    else None
  }

  /** Exactly what the router claims beyond the document: HEAD wherever GET is documented, and the two probes. */
  lemma ClaimedBeyondDocument(verb: string, segs: seq<string>)
    ensures Documented(verb, segs).Some? ==> Claimed(verb, segs) == Documented(verb, segs)
    ensures Claimed(verb, segs).Some? <==>
            || Documented(verb, segs).Some?
            || (verb == "HEAD" && Documented("GET", segs).Some?)
            || ((verb == "GET" || verb == "HEAD") && (segs == ["healthz"] || segs == ["readyz"]))
    ensures verb == "HEAD" && Documented("GET", segs).Some? ==> Claimed(verb, segs) == Documented("GET", segs)
  {
  }

  // ----- Each kind of pattern -----

  const API: seq<Seg> := [Lit("api"), Lit("namespaces"), Var("ns")]

  function ListPattern(kind: string): seq<Seg>
  {
    API + [Lit(kind)]
  }

  function GetPattern(kind: string): seq<Seg>
  {
    API + [Lit(kind), Var("name")]
  }

  function LogPattern(): seq<Seg>
  {
    API + [Lit("pods"), Var("name"), Lit("logs")]
  }

  /** What a route matches is claimed for its handler, and the names its handler reads are the request's. */
  ghost predicate Sound(r: Route)
  {
    && (r.verb == "GET" || r.verb == "POST")
    && forall verb, segs {:trigger Matches(r, verb, segs)} :: Matches(r, verb, segs) ==>
      Claimed(verb, segs) == Some(r.handler) && NamesAgree(r, segs)
  }

  predicate NamesAgree(r: Route, segs: seq<string>)
    requires |r.pattern| == |segs|
  {
    && (|segs| >= 3 ==> PathValue(r.pattern, segs, "ns") == segs[2])
    && (|segs| >= 5 ==> PathValue(r.pattern, segs, "name") == segs[4])
  }

  lemma StartMatches(pattern: seq<Seg>, segs: seq<string>)
    requires |pattern| >= 3 && pattern[..3] == API && PatternMatches(pattern, segs)
    ensures UnderApi(segs) && Named(segs[2]) && PathValue(pattern, segs, "ns") == segs[2]
    ensures PathValue(pattern, segs, "name") == PathValueFrom(pattern, segs, "name", 3)
  {
    assert pattern[0] == API[0] && pattern[1] == API[1] && pattern[2] == API[2];
    assert SegMatches(pattern[0], segs[0]) && SegMatches(pattern[1], segs[1]) && SegMatches(pattern[2], segs[2]);
    VariablesDiffer();
    Skip(pattern, segs, "ns", 0);
    Skip(pattern, segs, "ns", 1);
    Skip(pattern, segs, "name", 0);
    Skip(pattern, segs, "name", 1);
    Skip(pattern, segs, "name", 2);
  }

  lemma VariablesDiffer()
    ensures Var("ns") != Var("name")
  {
    assert |"ns"| != |"name"|;
  }

  lemma Skip(pattern: seq<Seg>, segs: seq<string>, name: string, i: nat)
    requires i < |pattern| == |segs| && pattern[i] != Var(name)
    ensures PathValueFrom(pattern, segs, name, i) == PathValueFrom(pattern, segs, name, i + 1)
  {
  }

  lemma ListRouteSound(kind: string, h: Handler)
    requires InNamespace(kind) == Some(h)
    ensures Sound(Route("GET", ListPattern(kind), h))
  {
    var r := Route("GET", ListPattern(kind), h);
    forall verb, segs | Matches(r, verb, segs) ensures Claimed(verb, segs) == Some(h) && NamesAgree(r, segs) {
      StartMatches(r.pattern, segs);
      assert SegMatches(r.pattern[3], segs[3]);
    }
  }

  lemma GetRouteSound(kind: string, gvr: GVR)
    requires KindOf(kind) == Some(gvr)
    ensures Sound(Route("GET", GetPattern(kind), ResourceGet(gvr)))
  {
    var r := Route("GET", GetPattern(kind), ResourceGet(gvr));
    forall verb, segs | Matches(r, verb, segs) ensures Claimed(verb, segs) == Some(r.handler) && NamesAgree(r, segs) {
      StartMatches(r.pattern, segs);
      assert SegMatches(r.pattern[3], segs[3]) && SegMatches(r.pattern[4], segs[4]);
      Skip(r.pattern, segs, "name", 3);
    }
  }

  lemma LogRouteSound()
    ensures Sound(Route("GET", LogPattern(), PodLogs))
  {
    var r := Route("GET", LogPattern(), PodLogs);
    forall verb, segs | Matches(r, verb, segs) ensures Claimed(verb, segs) == Some(r.handler) && NamesAgree(r, segs) {
      StartMatches(r.pattern, segs);
      assert SegMatches(r.pattern[3], segs[3]) && SegMatches(r.pattern[4], segs[4])
             && SegMatches(r.pattern[5], segs[5]);
      Skip(r.pattern, segs, "name", 3);
    }
  }

  lemma OneSegment(a: string, segs: seq<string>)
    requires PatternMatches([Lit(a)], segs)
    ensures segs == [a]
  {
    assert SegMatches([Lit(a)][0], segs[0]);
  }

  lemma TwoSegments(a: string, b: string, segs: seq<string>)
    requires PatternMatches([Lit(a), Lit(b)], segs)
    ensures segs == [a, b]
  {
    assert SegMatches([Lit(a), Lit(b)][0], segs[0]) && SegMatches([Lit(a), Lit(b)][1], segs[1]);
  }

  lemma HealthRouteSound(name: string, h: Handler)
    requires ReadRoute([name]) == Some(h)
    ensures Sound(Route("GET", [Lit(name)], h))
  {
    var r := Route("GET", [Lit(name)], h);
    forall verb, segs | Matches(r, verb, segs) ensures Claimed(verb, segs) == Some(h) && NamesAgree(r, segs) {
      OneSegment(name, segs);
    }
  }

  lemma FixedRouteSound(verb: string, a: string, b: string, h: Handler)
    requires (verb == "GET" && ReadRoute([a, b]) == Some(h))
             || (verb == "POST" && a == "auth" && b == "logout" && h == Logout)
    ensures Sound(Route(verb, [Lit(a), Lit(b)], h))
  {
    var r := Route(verb, [Lit(a), Lit(b)], h);
    forall v, segs | Matches(r, v, segs) ensures Claimed(v, segs) == Some(h) && NamesAgree(r, segs) {
      TwoSegments(a, b, segs);
    }
  }

  // ----- The table -----

  function HealthRoutes(): seq<Route>
  {
    [Route("GET", [Lit("healthz")], Livez), Route("GET", [Lit("readyz")], Readyz)]
  }

  function AuthRoutes(): seq<Route>
  {
    [Route("GET", [Lit("auth"), Lit("login")], Login),
     Route("GET", [Lit("auth"), Lit("callback")], Callback),
     Route("GET", [Lit("auth"), Lit("session")], SessionStatus),
     Route("POST", [Lit("auth"), Lit("logout")], Logout)]
  }

  function NamespaceRoutes(): seq<Route>
  {
    [Route("GET", [Lit("api"), Lit("namespaces")], NamespaceList),
     Route("GET", ListPattern("overview"), Overview)]
  }

  /** The list and the detail route of one kind. */
  function KindRoutes(kind: string, gvr: GVR): seq<Route>
  {
    [Route("GET", ListPattern(kind), ResourceList(gvr)), Route("GET", GetPattern(kind), ResourceGet(gvr))]
  }

  function WorkloadRoutes(): seq<Route>
  {
    KindRoutes("deployments", DEPLOYMENTS) + KindRoutes("statefulsets", STATEFUL_SETS)
      + KindRoutes("daemonsets", DAEMON_SETS)
    + KindRoutes("pods", PODS) + [Route("GET", LogPattern(), PodLogs)]
    + KindRoutes("jobs", JOBS) + KindRoutes("cronjobs", CRON_JOBS)
  }

  function NetworkRoutes(): seq<Route>
  {
    KindRoutes("services", SERVICES) + KindRoutes("ingresses", INGRESSES) + KindRoutes("persistentvolumeclaims", PVCS)
    + [Route("GET", ListPattern("events"), EventList)]
  }

  function Table(): seq<Route>
  {
    HealthRoutes() + AuthRoutes() + NamespaceRoutes() + WorkloadRoutes() + NetworkRoutes()
  }

  class Mux {
    var table: seq<Route>

    constructor ()
      ensures table == []
    {
      table := [];
    }

    method Handle(verb: string, pattern: seq<Seg>, handler: Handler)
      modifies this
      ensures table == old(table) + [Route(verb, pattern, handler)]
    {
      table := table + [Route(verb, pattern, handler)];
    }
  }

  /** Routes are registered one at a time; what comes out is the table. */
  method NewRouter() returns (mux: Mux)
    ensures fresh(mux) && mux.table == Table()
  {
    mux := new Mux();
    mux.Handle("GET", [Lit("healthz")], Livez);
    mux.Handle("GET", [Lit("readyz")], Readyz);

    mux.Handle("GET", [Lit("auth"), Lit("login")], Login);
    mux.Handle("GET", [Lit("auth"), Lit("callback")], Callback);
    mux.Handle("GET", [Lit("auth"), Lit("session")], SessionStatus);
    mux.Handle("POST", [Lit("auth"), Lit("logout")], Logout);

    mux.Handle("GET", [Lit("api"), Lit("namespaces")], NamespaceList);
    mux.Handle("GET", ListPattern("overview"), Overview);
    assert mux.table == HealthRoutes() + AuthRoutes() + NamespaceRoutes();

    HandleWorkloads(mux);
    HandleNetwork(mux);
  }

  method HandleWorkloads(mux: Mux)
    modifies mux
    ensures mux.table == old(mux.table) + WorkloadRoutes()
  {
    mux.Handle("GET", ListPattern("deployments"), ResourceList(DEPLOYMENTS));
    mux.Handle("GET", GetPattern("deployments"), ResourceGet(DEPLOYMENTS));
    mux.Handle("GET", ListPattern("statefulsets"), ResourceList(STATEFUL_SETS));
    mux.Handle("GET", GetPattern("statefulsets"), ResourceGet(STATEFUL_SETS));
    mux.Handle("GET", ListPattern("daemonsets"), ResourceList(DAEMON_SETS));
    mux.Handle("GET", GetPattern("daemonsets"), ResourceGet(DAEMON_SETS));
    mux.Handle("GET", ListPattern("pods"), ResourceList(PODS));
    mux.Handle("GET", GetPattern("pods"), ResourceGet(PODS));
    mux.Handle("GET", LogPattern(), PodLogs);
    mux.Handle("GET", ListPattern("jobs"), ResourceList(JOBS));
    mux.Handle("GET", GetPattern("jobs"), ResourceGet(JOBS));
    mux.Handle("GET", ListPattern("cronjobs"), ResourceList(CRON_JOBS));
    mux.Handle("GET", GetPattern("cronjobs"), ResourceGet(CRON_JOBS));
  }

  method HandleNetwork(mux: Mux)
    modifies mux
    ensures mux.table == old(mux.table) + NetworkRoutes()
  {
    mux.Handle("GET", ListPattern("services"), ResourceList(SERVICES));
    mux.Handle("GET", GetPattern("services"), ResourceGet(SERVICES));
    mux.Handle("GET", ListPattern("ingresses"), ResourceList(INGRESSES));
    mux.Handle("GET", GetPattern("ingresses"), ResourceGet(INGRESSES));
    mux.Handle("GET", ListPattern("persistentvolumeclaims"), ResourceList(PVCS));
    mux.Handle("GET", GetPattern("persistentvolumeclaims"), ResourceGet(PVCS));
    mux.Handle("GET", ListPattern("events"), EventList);
  }

  // ----- The table is what is claimed -----

  ghost predicate AllSound(table: seq<Route>)
  {
    forall i :: 0 <= i < |table| ==> Sound(table[i])
  }

  lemma KindRoutesSound(kind: string, gvr: GVR)
    requires KindOf(kind) == Some(gvr) && InNamespace(kind) == Some(ResourceList(gvr))
    ensures AllSound(KindRoutes(kind, gvr))
  {
    ListRouteSound(kind, ResourceList(gvr));
    GetRouteSound(kind, gvr);
  }

  lemma FixedRoutesSound()
    ensures AllSound(HealthRoutes()) && AllSound(AuthRoutes()) && AllSound(NamespaceRoutes())
  {
    HealthRouteSound("healthz", Livez);
    HealthRouteSound("readyz", Readyz);
    FixedRouteSound("GET", "auth", "login", Login);
    FixedRouteSound("GET", "auth", "callback", Callback);
    FixedRouteSound("GET", "auth", "session", SessionStatus);
    FixedRouteSound("POST", "auth", "logout", Logout);
    FixedRouteSound("GET", "api", "namespaces", NamespaceList);
    ListRouteSound("overview", Overview);
  }

  lemma WorkloadRoutesSound()
    ensures AllSound(WorkloadRoutes())
  {
    KindRoutesSound("deployments", DEPLOYMENTS);
    KindRoutesSound("statefulsets", STATEFUL_SETS);
    KindRoutesSound("daemonsets", DAEMON_SETS);
    KindRoutesSound("pods", PODS);
    LogRouteSound();
    KindRoutesSound("jobs", JOBS);
    KindRoutesSound("cronjobs", CRON_JOBS);
  }

  lemma NetworkRoutesSound()
    ensures AllSound(NetworkRoutes())
  {
    KindRoutesSound("services", SERVICES);
    KindRoutesSound("ingresses", INGRESSES);
    KindRoutesSound("persistentvolumeclaims", PVCS);
    ListRouteSound("events", EventList);
  }

  lemma TableSound()
    ensures AllSound(Table())
  {
    FixedRoutesSound();
    WorkloadRoutesSound();
    NetworkRoutesSound();
  }

  ghost predicate Registered(table: seq<Route>, kind: string, gvr: GVR)
  {
    Route("GET", ListPattern(kind), ResourceList(gvr)) in table
      && Route("GET", GetPattern(kind), ResourceGet(gvr)) in table
  }

  lemma Within(r: Route, group: seq<Route>)
    requires r in group
    requires group == HealthRoutes() || group == AuthRoutes() || group == NamespaceRoutes()
             || group == WorkloadRoutes() || group == NetworkRoutes()
    ensures r in Table()
  {
  }

  lemma KindWithin(kind: string, gvr: GVR, group: seq<Route>)
    requires Registered(group, kind, gvr) && (group == WorkloadRoutes() || group == NetworkRoutes())
    ensures Registered(Table(), kind, gvr)
  {
    Within(Route("GET", ListPattern(kind), ResourceList(gvr)), group);
    Within(Route("GET", GetPattern(kind), ResourceGet(gvr)), group);
  }

  lemma WorkloadsRegistered()
    ensures Registered(Table(), "deployments", DEPLOYMENTS) && Registered(Table(), "statefulsets", STATEFUL_SETS)
    ensures Registered(Table(), "daemonsets", DAEMON_SETS) && Registered(Table(), "pods", PODS)
    ensures Registered(Table(), "jobs", JOBS) && Registered(Table(), "cronjobs", CRON_JOBS)
    ensures Route("GET", LogPattern(), PodLogs) in Table()
  {
    var t := WorkloadRoutes();
    assert t[0] in t && t[1] in t && t[2] in t && t[3] in t && t[4] in t && t[5] in t;
    assert t[6] in t && t[7] in t && t[8] in t && t[9] in t && t[10] in t && t[11] in t && t[12] in t;
    KindWithin("deployments", DEPLOYMENTS, t);
    KindWithin("statefulsets", STATEFUL_SETS, t);
    KindWithin("daemonsets", DAEMON_SETS, t);
    KindWithin("pods", PODS, t);
    KindWithin("jobs", JOBS, t);
    KindWithin("cronjobs", CRON_JOBS, t);
    Within(Route("GET", LogPattern(), PodLogs), t);
  }

  lemma NetworkRegistered()
    ensures Registered(Table(), "services", SERVICES) && Registered(Table(), "ingresses", INGRESSES)
    ensures Registered(Table(), "persistentvolumeclaims", PVCS)
    ensures Route("GET", ListPattern("events"), EventList) in Table()
  {
    var t := NetworkRoutes();
    assert t[0] in t && t[1] in t && t[2] in t && t[3] in t && t[4] in t && t[5] in t && t[6] in t;
    KindWithin("services", SERVICES, t);
    KindWithin("ingresses", INGRESSES, t);
    KindWithin("persistentvolumeclaims", PVCS, t);
    Within(Route("GET", ListPattern("events"), EventList), t);
  }

  lemma FixedRegistered()
    ensures forall t :: t in HealthRoutes() || t in AuthRoutes() || t in NamespaceRoutes() ==> t in Table()
  {
  }

  /** Some registered route serves this request with this handler. */
  ghost predicate Served(verb: string, segs: seq<string>, h: Handler)
  {
    exists r <- Table() :: Matches(r, verb, segs) && r.handler == h
  }

  lemma ServedBy(r: Route, verb: string, segs: seq<string>)
    requires r in Table() && Matches(r, verb, segs)
    ensures Served(verb, segs, r.handler)
  {
  }

  lemma KindRegistered(kind: string, gvr: GVR)
    requires KindOf(kind) == Some(gvr)
    ensures Registered(Table(), kind, gvr)
  {
    if kind == "services" || kind == "ingresses" || kind == "persistentvolumeclaims" {
      NetworkKindRegistered(kind, gvr);
    } else {
      WorkloadKindRegistered(kind, gvr);
    }
  }

  lemma NetworkKindRegistered(kind: string, gvr: GVR)
    requires KindOf(kind) == Some(gvr) && (kind == "services" || kind == "ingresses"
             || kind == "persistentvolumeclaims")
    ensures Registered(Table(), kind, gvr)
  {
    NetworkRegistered();
  }

  lemma WorkloadKindRegistered(kind: string, gvr: GVR)
    requires KindOf(kind) == Some(gvr) && kind != "services" && kind != "ingresses" && kind != "persistentvolumeclaims"
    ensures Registered(Table(), kind, gvr)
  {
    WorkloadsRegistered();
    if kind == "deployments" {
      assert gvr == DEPLOYMENTS;
    } else if kind == "statefulsets" {
      assert gvr == STATEFUL_SETS;
    } else if kind == "daemonsets" {
      assert gvr == DAEMON_SETS;
    } else if kind == "pods" {
      assert gvr == PODS;
    } else if kind == "jobs" {
      assert gvr == JOBS;
    } else {
      assert kind == "cronjobs" && gvr == CRON_JOBS;
    }
  }

  lemma ListMatches(verb: string, segs: seq<string>, h: Handler)
    requires (verb == "GET" || verb == "HEAD") && |segs| == 4 && UnderApi(segs) && Named(segs[2])
    ensures Matches(Route("GET", ListPattern(segs[3]), h), verb, segs)
  {
    assert ListPattern(segs[3]) == [Lit("api"), Lit("namespaces"), Var("ns"), Lit(segs[3])];
  }

  lemma GetMatches(verb: string, segs: seq<string>, h: Handler)
    requires (verb == "GET" || verb == "HEAD") && |segs| == 5 && UnderApi(segs) && Named(segs[2]) && Named(segs[4])
    ensures Matches(Route("GET", GetPattern(segs[3]), h), verb, segs)
  {
    assert GetPattern(segs[3]) == [Lit("api"), Lit("namespaces"), Var("ns"), Lit(segs[3]), Var("name")];
  }

  lemma LogMatches(verb: string, segs: seq<string>)
    requires (verb == "GET" || verb == "HEAD") && |segs| == 6 && UnderApi(segs) && Named(segs[2]) && Named(segs[4])
    requires segs[3] == "pods" && segs[5] == "logs"
    ensures Matches(Route("GET", LogPattern(), PodLogs), verb, segs)
  {
    assert LogPattern() == [Lit("api"), Lit("namespaces"), Var("ns"), Lit("pods"), Var("name"), Lit("logs")];
  }

  /** Every claimed request has its route. */
  lemma ReadRoutesServed(verb: string, segs: seq<string>, h: Handler)
    requires (verb == "GET" || verb == "HEAD") && ReadRoute(segs) == Some(h)
    ensures Served(verb, segs, h)
  {
    if UnderApi(segs) && |segs| > 2 {
      NamespacedServed(verb, segs, h);
    } else {
      FixedRegistered();
      assert segs == ["api", "namespaces"] || !UnderApi(segs);
      var name := if |segs| == 1 then [Lit(segs[0])] else [Lit(segs[0]), Lit(segs[1])];
      FixedServed(verb, segs, h, Route("GET", name, h));
    }
  }

  lemma FixedServed(verb: string, segs: seq<string>, h: Handler, r: Route)
    requires (verb == "GET" || verb == "HEAD") && ReadRoute(segs) == Some(h) && (|segs| == 2 || !UnderApi(segs))
    requires r == Route("GET", if |segs| == 1 then [Lit(segs[0])] else [Lit(segs[0]), Lit(segs[1])], h)
    ensures Served(verb, segs, h)
  {
    FixedRegistered();
    var a, b, c := HealthRoutes(), AuthRoutes(), NamespaceRoutes();
    assert a[0] in a && a[1] in a && b[0] in b && b[1] in b && b[2] in b && c[0] in c;
    ServedBy(r, verb, segs);
  }

  lemma NamespacedServed(verb: string, segs: seq<string>, h: Handler)
    requires (verb == "GET" || verb == "HEAD") && ReadRoute(segs) == Some(h) && UnderApi(segs) && |segs| > 2
    ensures Served(verb, segs, h)
  {
    if |segs| == 4 {
      InNamespaceRegistered(segs[3], h);
      ListMatches(verb, segs, h);
      ServedBy(Route("GET", ListPattern(segs[3]), h), verb, segs);
    } else if |segs| == 5 {
      KindRegistered(segs[3], KindOf(segs[3]).value);
      GetMatches(verb, segs, h);
      ServedBy(Route("GET", GetPattern(segs[3]), h), verb, segs);
    } else {
      WorkloadsRegistered();
      LogMatches(verb, segs);
      ServedBy(Route("GET", LogPattern(), PodLogs), verb, segs);
    }
  }

  lemma InNamespaceRegistered(kind: string, h: Handler)
    requires InNamespace(kind) == Some(h)
    ensures Route("GET", ListPattern(kind), h) in Table()
  {
    if kind == "overview" {
      assert NamespaceRoutes()[1] in NamespaceRoutes();
      Within(NamespaceRoutes()[1], NamespaceRoutes());
    } else if kind == "events" {
      NetworkRegistered();
    } else {
      KindRegistered(kind, KindOf(kind).value);
    }
  }

  lemma ClaimsServed(verb: string, segs: seq<string>)
    requires Claimed(verb, segs).Some?
    ensures Served(verb, segs, Claimed(verb, segs).value)
  {
    if verb == "POST" {
      FixedRegistered();
      assert AuthRoutes()[3] in AuthRoutes();
      ServedBy(Route("POST", [Lit("auth"), Lit("logout")], Logout), verb, segs);
    } else {
      ReadRoutesServed(verb, segs, Claimed(verb, segs).value);
    }
  }

  lemma {:induction false} FindFinds(table: seq<Route>, verb: string, segs: seq<string>)
    ensures var found := Find(table, verb, segs);
            if found.Some? then found.value in table && Matches(found.value, verb, segs)
            else forall r <- table :: !Matches(r, verb, segs)
  {
    if table != [] && !Matches(table[0], verb, segs) {
      FindFinds(table[1..], verb, segs);
    }
  }

  /**
   A request finds a route exactly when it is claimed, and then for that handler,
   with the request's own names. In particular which of several matching routes is
   taken first cannot matter.
   */
  lemma FindIsClaimed(verb: string, segs: seq<string>)
    ensures Find(Table(), verb, segs).Some? <==> Claimed(verb, segs).Some?
    ensures forall r <- Table() ::
            Matches(r, verb, segs) ==>
              Claimed(verb, segs) == Some(r.handler) && NamesAgree(r, segs)
  {
    TableSound();
    FindFinds(Table(), verb, segs);
    forall r <- Table() | Matches(r, verb, segs) ensures Claimed(verb, segs) == Some(r.handler) && NamesAgree(r, segs) {
      assert Sound(r);
    }
    if Claimed(verb, segs).Some? {
      ClaimsServed(verb, segs);
    }
  }

  /**
   The table against the document: a request finds a route exactly when the
   document lists it, or lists it under GET and this is HEAD, or it reads one of
   the two probes; and a documented request finds its documented handler.
   */
  lemma TableAgainstDocument(verb: string, segs: seq<string>)
    ensures Find(Table(), verb, segs).Some? <==>
            || Documented(verb, segs).Some?
            || (verb == "HEAD" && Documented("GET", segs).Some?)
            || ((verb == "GET" || verb == "HEAD") && (segs == ["healthz"] || segs == ["readyz"]))
    ensures Documented(verb, segs).Some? ==>
            Find(Table(), verb, segs).Some?
            && Find(Table(), verb, segs).value.handler == Documented(verb, segs).value
  {
    FindIsClaimed(verb, segs);
    ClaimedBeyondDocument(verb, segs);
    FindFinds(Table(), verb, segs);
  }

  /** An input on which table and document differ: a documented GET sent as HEAD. */
  lemma HeadIsNotDocumented()
    ensures Documented("HEAD", ["api", "namespaces"]) == None && Find(Table(), "HEAD", ["api", "namespaces"]).Some?
  {
    TableAgainstDocument("HEAD", ["api", "namespaces"]);
  }

  // ----- The multiplexer -----

  predicate AnyVerb(table: seq<Route>, segs: seq<string>)
  {
    exists r <- table :: PatternMatches(r.pattern, segs)
  }

  /** Paths are cleaned by redirect, except for CONNECT; what no route claims goes to the frontend, if there is one. */
  function Dispatch(table: seq<Route>, frontend: bool, verb: string, path: string): Target
  {
    if verb != "CONNECT" && !Clean(path) then Redirect
    else if path == "" then NotFound
    else
      match Find(table, verb, Segments(path))
      case Some(r) => Serve(r, Segments(path))
      case None => if frontend then Frontend else if AnyVerb(table, Segments(path)) then WrongVerb else NotFound
  }

  lemma DispatchFinds(table: seq<Route>, frontend: bool, verb: string, path: string)
    ensures var t := Dispatch(table, frontend, verb, path);
            && (t.Serve? <==>
              (Clean(path) || (verb == "CONNECT" && path != ""))
              && Find(table, verb, Segments(path)).Some?)
            && (t.Serve? ==> t.segs == Segments(path) && Some(t.route) == Find(table, verb, t.segs))
  {
  }

  /** For every method and path: a handler is reached exactly when the path is clean and claimed. */
  lemma DispatchIsClaimed(frontend: bool, verb: string, path: string)
    ensures Dispatch(Table(), frontend, verb, path).Serve? <==> Clean(path) && Claimed(verb, Segments(path)).Some?
  {
    var table := Table();
    DispatchFinds(table, frontend, verb, path);
    FindIsClaimed(verb, Segments(path));
    ConnectIsNotClaimed(Segments(path));
    assert Find(table, verb, Segments(path)).Some? <==> Claimed(verb, Segments(path)).Some?;
  }

  lemma ConnectIsNotClaimed(segs: seq<string>)
    ensures Claimed("CONNECT", segs) == None
  {
  }

  /** And it is the claimed handler, with the names of this very request. */
  lemma DispatchedHandler(frontend: bool, verb: string, path: string)
    requires Dispatch(Table(), frontend, verb, path).Serve?
    ensures var t := Dispatch(Table(), frontend, verb, path);
            && t.segs == Segments(path) && |t.route.pattern| == |t.segs|
            && Claimed(verb, t.segs) == Some(t.route.handler) && NamesAgree(t.route, t.segs)
  {
    DispatchFinds(Table(), frontend, verb, path);
    FindIsClaimed(verb, Segments(path));
    FindFinds(Table(), verb, Segments(path));
  }

  /** HEAD goes where GET goes. */
  lemma HeadIsGet(frontend: bool, path: string)
    ensures Dispatch(Table(), frontend, "HEAD", path) == Dispatch(Table(), frontend, "GET", path)
  {
    TableSound();
    HeadFindsGet(Table(), Segments(path));
  }

  lemma {:induction false} HeadFindsGet(table: seq<Route>, segs: seq<string>)
    requires AllSound(table)
    ensures Find(table, "HEAD", segs) == Find(table, "GET", segs)
  {
    if table != [] {
      assert Sound(table[0]);
      HeadFindsGet(table[1..], segs);
    }
  }
}
