/**
 The paths of the upstream requests, printed by concatenation and read back by
 splitting. Reading undoes printing, so distinct requests never share a path,
 whatever the number of segments of the API prefix.
 */
module UpstreamPaths {
  import opened Wrappers
  import opened Text
  import opened Decimal
  import opened LabelRegex
  import opened LogOptions
  import QueryString

  datatype GVR = GVR(apiPrefix: string, resource: string)

  const DEPLOYMENTS := GVR("apis/apps/v1", "deployments")
  const STATEFUL_SETS := GVR("apis/apps/v1", "statefulsets")
  const DAEMON_SETS := GVR("apis/apps/v1", "daemonsets")
  const PODS := GVR("api/v1", "pods")
  const JOBS := GVR("apis/batch/v1", "jobs")
  const CRON_JOBS := GVR("apis/batch/v1", "cronjobs")
  const SERVICES := GVR("api/v1", "services")
  const INGRESSES := GVR("apis/networking.k8s.io/v1", "ingresses")
  const PVCS := GVR("api/v1", "persistentvolumeclaims")
  const EVENTS := GVR("api/v1", "events")
  const RESOURCE_QUOTAS := GVR("api/v1", "resourcequotas")
  const LIMIT_RANGES := GVR("api/v1", "limitranges")

  /** One upstream request. A limit of zero or less is not sent. */
  datatype Call =
    | Namespaces
    | List(namespace: string, gvr: GVR, limit: int)
    | Get(namespace: string, name: string, gvr: GVR)
    | Log(namespace: string, pod: string, opts: Options)

  // ----- Printing -----

  /** "/%s/%s/..." */
  function Slashed(parts: seq<string>): string
  {
    "/" + Join(parts)
  }

  function Join(parts: seq<string>): string
  {
    if parts == [] then "" else if |parts| == 1 then parts[0] else parts[0] + "/" + Join(parts[1..])
  }

  /** "/%s/namespaces/%s/..." */
  function Under(prefix: string, rest: seq<string>): string
  {
    Slashed([prefix, "namespaces"] + rest)
  }

  function NamespacesPath(): string { Under("api/v1", []) }

  function ListPath(namespace: string, gvr: GVR, limit: int): string
  {
    Under(gvr.apiPrefix, [namespace, gvr.resource]) + (if limit > 0 then "?" + ("limit=" + FormatInt(limit)) else "")
  }

  function GetPath(namespace: string, name: string, gvr: GVR): string
  {
    Under(gvr.apiPrefix, [namespace, gvr.resource, name])
  }

  function LogPath(namespace: string, pod: string): string
  {
    Under("api/v1", [namespace, "pods", pod, "log"])
  }

  /** A call the handlers may make: allowlisted type, validated names, clamped options. */
  predicate Valid(c: Call)
  {
    match c
    case Namespaces => true
    case List(ns, gvr, limit) => Label(ns) && Known(gvr) && (limit == 0 || 0 < limit < LIMIT)
    case Get(ns, name, gvr) => Label(ns) && Label(name) && Known(gvr)
    case Log(ns, pod, opts) => Label(ns) && Label(pod) && Clamped(opts)
  }

  function Print(c: Call): string
    requires Valid(c)
  {
    match c
    case Namespaces => NamespacesPath()
    case List(ns, gvr, limit) => ListPath(ns, gvr, limit)
    case Get(ns, name, gvr) => GetPath(ns, name, gvr)
    case Log(ns, pod, opts) =>
      LogPath(ns, pod) + ("?" + LogQueryText(opts))
  }

  // ----- Reading -----

  predicate Known(gvr: GVR)
  {
    || gvr == DEPLOYMENTS || gvr == STATEFUL_SETS || gvr == DAEMON_SETS || gvr == PODS
    || gvr == JOBS || gvr == CRON_JOBS || gvr == SERVICES || gvr == INGRESSES
    || gvr == PVCS || gvr == EVENTS || gvr == RESOURCE_QUOTAS || gvr == LIMIT_RANGES
  }

  /** Segments of an API prefix: two for the core group, three for a named one. */
  function PrefixLength(segments: seq<string>): nat
  {
    if segments != [] && segments[0] == "apis" then 3 else 2
  }

  function Read(path: string): Option<Call>
  {
    var (before, query) := Cut(path, '?');
    var segments := Split(before, '/');
    if |segments| < 4 || segments[0] != "" then None
    else
      var n := 1 + PrefixLength(segments[1..]);
      if |segments| <= n || segments[n] != "namespaces" then None
      else ReadRest(Join(segments[1..n]), segments[n + 1..], query)
  }

  /** What follows "namespaces", by how many segments there are. */
  function ReadRest(prefix: string, rest: seq<string>, query: Option<string>): Option<Call>
  {
    if |rest| == 0 then Some(Namespaces)
    else if |rest| == 2 then
      match ReadLimit(query)
      case None => None
      case Some(limit) => Some(List(rest[0], GVR(prefix, rest[1]), limit))
    else if |rest| == 3 then Some(Get(rest[0], rest[2], GVR(prefix, rest[1])))
    else if |rest| == 4 && rest[1] == "pods" && rest[3] == "log" && query.Some? then
      match ParseOptions(QueryString.Parse(query.value))
      case Failure(_) => None
      case Success(o) => Some(Log(rest[0], rest[2], o))
    else None
  }

  function ReadLimit(query: Option<string>): Option<int>
  {
    if query.None? then Some(0)
    else if "limit=" <= query.value then ParseInt(query.value[6..])
    else None
  }

  // ----- Reading undoes printing -----

  predicate Plain(s: string)
  {
    '/' !in s && '?' !in s
  }

  /** The segments of each part, one after the other. */
  function SplitAll(parts: seq<string>): seq<string>
  {
    if parts == [] then [] else Split(parts[0], '/') + SplitAll(parts[1..])
  }

  lemma {:induction false} SplitJoin(parts: seq<string>)
    requires parts != []
    ensures Split(Join(parts), '/') == SplitAll(parts)
  {
    if |parts| == 1 {
      assert SplitAll(parts) == Split(parts[0], '/') + SplitAll([]);
    } else {
      SplitJoin(parts[1..]);
      SplitAt(parts[0], Join(parts[1..]), '/');
    }
  }

  lemma SplitSlashed(parts: seq<string>)
    requires parts != []
    ensures Split(Slashed(parts), '/') == [""] + SplitAll(parts)
  {
    SplitJoin(parts);
    SplitAt("", Join(parts), '/');
    assert Slashed(parts) == "" + ['/'] + Join(parts);
  }

  lemma {:induction false} SplitAllPlain(parts: seq<string>)
    requires forall p <- parts :: Plain(p)
    ensures SplitAll(parts) == parts
  {
    if parts != [] {
      assert Plain(parts[0]);
      SplitWhole(parts[0], '/');
      SplitAllPlain(parts[1..]);
    }
  }

  lemma {:induction false} JoinHasNoQuery(parts: seq<string>)
    requires forall p <- parts :: '?' !in p
    ensures '?' !in Join(parts)
  {
    if |parts| > 1 {
      JoinHasNoQuery(parts[1..]);
    }
  }

  /** A prefix as its own segments. */
  ghost predicate PrefixReads(prefix: string)
  {
    var parts := Split(prefix, '/');
    '?' !in prefix && |parts| >= 2 && PrefixLength(parts) == |parts| && Join(parts) == prefix
  }

  lemma PlainPrefixReads(parts: seq<string>)
    requires |parts| >= 2 && PrefixLength(parts) == |parts| && forall p <- parts :: Plain(p)
    ensures PrefixReads(Join(parts))
  {
    SplitJoin(parts);
    SplitAllPlain(parts);
    JoinHasNoQuery(parts);
  }

  lemma CorePrefixReads()
    ensures PrefixReads("api/v1")
  {
    PlainPrefixReads(["api", "v1"]);
    assert Join(["api", "v1"]) == "api/v1";
  }

  lemma GroupPrefixReads(group: string, prefix: string)
    requires Plain(group) && prefix == "apis" + "/" + (group + "/" + "v1")
    ensures PrefixReads(prefix)
  {
    var parts := ["apis", group, "v1"];
    PlainPrefixReads(parts);
    assert parts[1..] == [group, "v1"] && [group, "v1"][1..] == ["v1"];
    assert Join(["v1"]) == "v1";
    assert Join([group, "v1"]) == group + "/" + "v1";
  }

  lemma AppsPrefixReads()
    ensures PrefixReads("apis/apps/v1")
  {
    GroupPrefixReads("apps", "apis/apps/v1");
  }

  lemma BatchPrefixReads()
    ensures PrefixReads("apis/batch/v1")
  {
    GroupPrefixReads("batch", "apis/batch/v1");
  }

  lemma NetworkingPrefixReads()
    ensures PrefixReads("apis/networking.k8s.io/v1")
  {
    GroupPrefixReads("networking.k8s.io", "apis/networking.k8s.io/v1");
  }

  lemma KnownPrefixReads(gvr: GVR)
    requires Known(gvr)
    ensures PrefixReads(gvr.apiPrefix)
  {
    CorePrefixReads();
    AppsPrefixReads();
    BatchPrefixReads();
    NetworkingPrefixReads();
  }

  lemma KnownResourceIsPlain(gvr: GVR)
    requires Known(gvr)
    ensures Plain(gvr.resource)
  {
    if gvr == DEPLOYMENTS || gvr == STATEFUL_SETS || gvr == DAEMON_SETS || gvr == PODS {
      WorkloadsArePlain(gvr);
    } else if gvr == JOBS || gvr == CRON_JOBS || gvr == SERVICES || gvr == INGRESSES {
      ServicesArePlain(gvr);
    } else if gvr == PVCS {
      ClaimsArePlain();
    } else {
      PoliciesArePlain(gvr);
    }
  }

  lemma WorkloadsArePlain(gvr: GVR)
    requires gvr == DEPLOYMENTS || gvr == STATEFUL_SETS || gvr == DAEMON_SETS || gvr == PODS
    ensures Plain(gvr.resource)
  {
  }

  lemma ServicesArePlain(gvr: GVR)
    requires gvr == JOBS || gvr == CRON_JOBS || gvr == SERVICES || gvr == INGRESSES
    ensures Plain(gvr.resource)
  {
  }

  lemma PoliciesArePlain(gvr: GVR)
    requires gvr == EVENTS || gvr == RESOURCE_QUOTAS || gvr == LIMIT_RANGES
    ensures Plain(gvr.resource)
  {
  }

  lemma ClaimsArePlain()
    ensures Plain(PVCS.resource)
  {
  }

  lemma LabelIsPlain(s: string)
    requires Label(s)
    ensures Plain(s)
  {
  }

  ghost predicate AllPlain(parts: seq<string>)
  {
    forall p <- parts :: Plain(p)
  }

  /** The segments under a prefix. */
  lemma SplitUnder(prefix: string, rest: seq<string>)
    requires AllPlain(rest)
    ensures Split(Under(prefix, rest), '/') == [""] + (Split(prefix, '/') + (["namespaces"] + rest))
  {
    var parts := [prefix, "namespaces"] + rest;
    SplitSlashed(parts);
    assert parts[0] == prefix && parts[1..] == ["namespaces"] + rest;
    SplitAllPlain(["namespaces"] + rest);
  }

  /** Reading a path printed under a prefix comes down to reading what follows "namespaces". */
  lemma ReadUnder(prefix: string, rest: seq<string>, path: string, query: Option<string>)
    requires PrefixReads(prefix) && AllPlain(rest)
    requires Cut(path, '?') == (Under(prefix, rest), query)
    ensures Read(path) == ReadRest(prefix, rest, query)
  {
    SplitUnder(prefix, rest);
    PrefixSegments(Split(prefix, '/'), rest, Split(Under(prefix, rest), '/'));
  }

  /** The same for a path without a query, and for one with. */
  lemma ReadPrinted(prefix: string, rest: seq<string>, query: string)
    requires PrefixReads(prefix) && AllPlain(rest)
    ensures Read(Under(prefix, rest)) == ReadRest(prefix, rest, None)
    ensures Read(Under(prefix, rest) + ("?" + query)) == ReadRest(prefix, rest, Some(query))
  {
    var path := Under(prefix, rest);
    JoinHasNoQuery([prefix, "namespaces"] + rest);
    CutNowhere(path, '?');
    ReadUnder(prefix, rest, path, None);
    CutAt(path, query, '?');
    assert path + ("?" + query) == path + ['?'] + query;
    ReadUnder(prefix, rest, path + ("?" + query), Some(query));
  }

  lemma PrefixSegments(own: seq<string>, rest: seq<string>, segments: seq<string>)
    requires own != [] && segments == [""] + (own + (["namespaces"] + rest))
    ensures segments[1] == own[0] && segments[1..1 + |own|] == own
    ensures segments[1 + |own|] == "namespaces" && segments[2 + |own|..] == rest
  {
    var under := own + (["namespaces"] + rest);
    assert segments[1..] == under;
    assert under[|own|..] == ["namespaces"] + rest;
  }

  lemma ReadLimitOf(limit: int)
    requires 0 < limit < LIMIT
    ensures ReadLimit(Some("limit=" + FormatInt(limit))) == Some(limit)
  {
    var query := "limit=" + FormatInt(limit);
    ParseOfFormat(limit);
    assert query[..6] == "limit=" && query[6..] == FormatInt(limit);
  }

  lemma ReadListRest(prefix: string, rest: seq<string>, query: Option<string>, limit: int)
    requires |rest| == 2 && ReadLimit(query) == Some(limit)
    ensures ReadRest(prefix, rest, query) == Some(List(rest[0], GVR(prefix, rest[1]), limit))
  {
  }

  lemma ReadList(ns: string, gvr: GVR, limit: int)
    requires Valid(List(ns, gvr, limit))
    ensures Read(ListPath(ns, gvr, limit)) == Some(List(ns, gvr, limit))
  {
    KnownPrefixReads(gvr);
    KnownResourceIsPlain(gvr);
    LabelIsPlain(ns);
    var rest, query := [ns, gvr.resource], "limit=" + FormatInt(limit);
    ReadPrinted(gvr.apiPrefix, rest, query);
    if limit > 0 {
      ReadLimitOf(limit);
      ReadListRest(gvr.apiPrefix, rest, Some(query), limit);
    } else {
      ReadListRest(gvr.apiPrefix, rest, None, 0);
      assert ListPath(ns, gvr, limit) == Under(gvr.apiPrefix, rest);
    }
  }

  lemma ReadGet(ns: string, name: string, gvr: GVR)
    requires Valid(Get(ns, name, gvr))
    ensures Read(GetPath(ns, name, gvr)) == Some(Get(ns, name, gvr))
  {
    KnownPrefixReads(gvr);
    KnownResourceIsPlain(gvr);
    LabelIsPlain(ns);
    LabelIsPlain(name);
    ReadPrinted(gvr.apiPrefix, [ns, gvr.resource, name], "");
  }

  lemma ReadLog(ns: string, pod: string, opts: Options)
    requires Valid(Log(ns, pod, opts))
    ensures Read(Print(Log(ns, pod, opts))) == Some(Log(ns, pod, opts))
  {
    CorePrefixReads();
    LogRestIsPlain(ns, pod);
    ReadPrinted("api/v1", [ns, "pods", pod, "log"], LogQueryText(opts));
    ReadLogRest([ns, "pods", pod, "log"], opts);
  }

  lemma LogRestIsPlain(ns: string, pod: string)
    requires Label(ns) && Label(pod)
    ensures AllPlain([ns, "pods", pod, "log"])
  {
    LabelIsPlain(ns);
    LabelIsPlain(pod);
  }

  lemma ReadLogRest(rest: seq<string>, opts: Options)
    requires |rest| == 4 && rest[1] == "pods" && rest[3] == "log" && Clamped(opts)
    ensures ReadRest("api/v1", rest, Some(LogQueryText(opts))) == Some(Log(rest[0], rest[2], opts))
  {
    PrintThenParse(opts);
  }

  lemma ReadNamespaces()
    ensures Read(NamespacesPath()) == Some(Namespaces)
  {
    CorePrefixReads();
    ReadPrinted("api/v1", [], "");
  }

  /** Prefix, namespace, resource, name, kind of call and options all come back from the path. */
  lemma ReadUndoesPrint(c: Call)
    requires Valid(c)
    ensures Read(Print(c)) == Some(c)
  {
    match c
    case Namespaces => ReadNamespaces();
    case List(ns, gvr, limit) => ReadList(ns, gvr, limit);
    case Get(ns, name, gvr) => ReadGet(ns, name, gvr);
    case Log(ns, pod, opts) => ReadLog(ns, pod, opts);
  }

  lemma DistinctCallsDistinctPaths(c: Call, d: Call)
    requires Valid(c) && Valid(d) && Print(c) == Print(d)
    ensures c == d
  {
    ReadUndoesPrint(c);
    ReadUndoesPrint(d);
  }
}
