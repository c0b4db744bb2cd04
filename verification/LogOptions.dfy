/**
 Options of a pod-log request: read from the browser's query with defaults and
 clamping, then printed into the upstream query.
 */
module LogOptions {
  import opened Wrappers
  import opened Decimal
  import opened QueryString
  import opened LabelRegex

  const DEFAULT_TAIL_LINES := 200
  const MAX_TAIL_LINES := 2000
  const DEFAULT_LIMIT_BYTES := 262_144
  const MAX_LIMIT_BYTES := 1_048_576

  /** A zero number or an empty container means the parameter is not sent. */
  datatype Options = Options(container: string, tailLines: int, limitBytes: int, sinceSeconds: int, follow: bool)

  function Min(a: int, b: int): int { if a < b then a else b }

  /** A numeric parameter: its default if absent, an error unless a positive 64-bit decimal. */
  function Number(text: string, default: int): Option<int>
  {
    if text == "" then Some(default)
    else
      match ParseInt(text)
      case None => None
      case Some(n) => if n <= 0 then None else Some(n)
  }

  /** What a query means; the first bad parameter is the error. */
  function ParseOptions(q: Query): Result<Options, string>
  {
    match Number(Get(q, "tailLines"), DEFAULT_TAIL_LINES)
    case None => Failure("invalid tailLines")
    case Some(tailLines) =>
      match Number(Get(q, "limitBytes"), DEFAULT_LIMIT_BYTES)
      case None => Failure("invalid limitBytes")
      case Some(limitBytes) =>
        match Number(Get(q, "sinceSeconds"), 0)
        case None => Failure("invalid sinceSeconds")
        case Some(sinceSeconds) =>
          if Get(q, "container") != "" && !ValidK8sName(Get(q, "container")) then Failure("invalid container")
          else
            Success(Options(Get(q, "container"), Min(tailLines, MAX_TAIL_LINES), Min(limitBytes, MAX_LIMIT_BYTES),
                            sinceSeconds, Get(q, "follow") == "true"))
  }

  method ParseLogOptions(q: Query) returns (r: Result<Options, string>)
    ensures r == ParseOptions(q)
  {
    var opts := Options("", DEFAULT_TAIL_LINES, DEFAULT_LIMIT_BYTES, 0, Get(q, "follow") == "true");
    var v := Get(q, "tailLines");
    if v != "" {
      var n := ParseInt(v);
      if n.None? || n.value <= 0 {
        return Failure("invalid tailLines");
      }
      opts := opts.(tailLines := Min(n.value, MAX_TAIL_LINES));
    }
    v := Get(q, "limitBytes");
    if v != "" {
      var n := ParseInt(v);
      if n.None? || n.value <= 0 {
        return Failure("invalid limitBytes");
      }
      opts := opts.(limitBytes := Min(n.value, MAX_LIMIT_BYTES));
    }
    v := Get(q, "sinceSeconds");
    if v != "" {
      var n := ParseInt(v);
      if n.None? || n.value <= 0 {
        return Failure("invalid sinceSeconds");
      }
      opts := opts.(sinceSeconds := n.value);
    }
    v := Get(q, "container");
    if v != "" {
      if !ValidK8sName(v) {
        return Failure("invalid container");
      }
      opts := opts.(container := v);
    }
    r := Success(opts);
  }

  // ----- Printing -----

  function SetIf(q: Query, sent: bool, key: string, value: string): Query
  {
    if sent then Set(q, key, value) else q
  }

  function LogQuery(o: Options): Query
  {
    var q := SetIf([], o.container != "", "container", o.container);
    var q := SetIf(q, o.tailLines > 0, "tailLines", FormatInt(o.tailLines));
    var q := SetIf(q, o.limitBytes > 0, "limitBytes", FormatInt(o.limitBytes));
    var q := SetIf(q, o.sinceSeconds > 0, "sinceSeconds", FormatInt(o.sinceSeconds));
    SetIf(q, o.follow, "follow", "true")
  }

  method BuildLogQuery(o: Options) returns (q: Query)
    ensures q == LogQuery(o)
  {
    q := [];
    if o.container != "" {
      q := Set(q, "container", o.container);
    }
    if o.tailLines > 0 {
      q := Set(q, "tailLines", FormatInt(o.tailLines));
    }
    if o.limitBytes > 0 {
      q := Set(q, "limitBytes", FormatInt(o.limitBytes));
    }
    if o.sinceSeconds > 0 {
      q := Set(q, "sinceSeconds", FormatInt(o.sinceSeconds));
    }
    if o.follow {
      q := Set(q, "follow", "true");
    }
  }

  /** What ParseOptions can return. */
  predicate Clamped(o: Options)
  {
    && (o.container == "" || ValidK8sName(o.container))
    && 1 <= o.tailLines <= MAX_TAIL_LINES
    && 1 <= o.limitBytes <= MAX_LIMIT_BYTES
    && 0 <= o.sinceSeconds < LIMIT
  }

  lemma ParsedIsClamped(q: Query)
    requires ParseOptions(q).Success?
    ensures Clamped(ParseOptions(q).value)
  {
    if Get(q, "sinceSeconds") != "" {
      ParsedFits(Get(q, "sinceSeconds"));
    }
  }

  lemma GetSetIf(q: Query, sent: bool, key: string, value: string, k: string)
    ensures Get(SetIf(q, sent, key, value), k) == if sent && k == key then value else Get(q, k)
  {
    GetSet(q, key, value, k);
  }

  function PrintedAt(o: Options, k: string): string
  {
    if k == "container" then o.container
    else if k == "tailLines" && o.tailLines > 0 then FormatInt(o.tailLines)
    else if k == "limitBytes" && o.limitBytes > 0 then FormatInt(o.limitBytes)
    else if k == "sinceSeconds" && o.sinceSeconds > 0 then FormatInt(o.sinceSeconds)
    else if k == "follow" && o.follow then "true"
    else ""
  }

  /** Each parameter is printed exactly when it says something. */
  lemma Printed(o: Options, k: string)
    ensures Get(LogQuery(o), k) == PrintedAt(o, k)
  {
    var q1 := SetIf([], o.container != "", "container", o.container);
    var q2 := SetIf(q1, o.tailLines > 0, "tailLines", FormatInt(o.tailLines));
    var q3 := SetIf(q2, o.limitBytes > 0, "limitBytes", FormatInt(o.limitBytes));
    var q4 := SetIf(q3, o.sinceSeconds > 0, "sinceSeconds", FormatInt(o.sinceSeconds));
    GetSetIf([], o.container != "", "container", o.container, k);
    GetSetIf(q1, o.tailLines > 0, "tailLines", FormatInt(o.tailLines), k);
    GetSetIf(q2, o.limitBytes > 0, "limitBytes", FormatInt(o.limitBytes), k);
    GetSetIf(q3, o.sinceSeconds > 0, "sinceSeconds", FormatInt(o.sinceSeconds), k);
    GetSetIf(q4, o.follow, "follow", "true", k);
  }

  /** The query StreamPodLogs sends, as text. */
  function LogQueryText(o: Options): string
  {
    Encode(LogQuery(o))
  }

  lemma ReadsAsPrinted(o: Options, k: string)
    ensures Get(QueryString.Parse(LogQueryText(o)), k) == PrintedAt(o, k)
  {
    ParseEncode(LogQuery(o), k);
    Printed(o, k);
  }

  lemma NumberReads(n: int, default: int)
    requires 0 < n < LIMIT
    ensures FormatInt(n) != "" && Number(FormatInt(n), default) == Some(n)
  {
    DigitsAreDigits(n);
    ParseOfFormat(n);
  }

  /** A query with these five values means o. */
  lemma ValuesMean(q: Query, o: Options)
    requires Clamped(o)
    requires Get(q, "container") == o.container && Get(q, "follow") == (if o.follow then "true" else "")
    requires Get(q, "tailLines") == FormatInt(o.tailLines) && Get(q, "limitBytes") == FormatInt(o.limitBytes)
    requires Get(q, "sinceSeconds") == if o.sinceSeconds > 0 then FormatInt(o.sinceSeconds) else ""
    ensures ParseOptions(q) == Success(o)
  {
    NumberReads(o.tailLines, DEFAULT_TAIL_LINES);
    NumberReads(o.limitBytes, DEFAULT_LIMIT_BYTES);
    if o.sinceSeconds > 0 {
      NumberReads(o.sinceSeconds, 0);
    }
  }

  /** Clamped options read back from what is sent upstream unchanged. */
  lemma PrintThenParse(o: Options)
    requires Clamped(o)
    ensures ParseOptions(QueryString.Parse(LogQueryText(o))) == Success(o)
  {
    ReadsAsPrinted(o, "container");
    ReadsAsPrinted(o, "tailLines");
    ReadsAsPrinted(o, "limitBytes");
    ReadsAsPrinted(o, "sinceSeconds");
    ReadsAsPrinted(o, "follow");
    ValuesMean(QueryString.Parse(LogQueryText(o)), o);
  }

  /**
   Whatever query a browser sends: if it is accepted, the upstream query always
   bounds lines and bytes, and reading it with the same rules gives the same
   options. Parsing after printing after parsing is parsing.
   */
  lemma LogOptionsFixedPoint(raw: string)
    requires ParseOptions(QueryString.Parse(raw)).Success?
    ensures var o := ParseOptions(QueryString.Parse(raw)).value;
            && Clamped(o)
            && ParseOptions(QueryString.Parse(LogQueryText(o))) == Success(o)
            && SentBounds(LogQueryText(o))
  {
    var o := ParseOptions(QueryString.Parse(raw)).value;
    ParsedIsClamped(QueryString.Parse(raw));
    PrintThenParse(o);
    ReadsAsPrinted(o, "tailLines");
    ReadsAsPrinted(o, "limitBytes");
    ParseOfFormat(o.tailLines);
    ParseOfFormat(o.limitBytes);
  }

  /** Lines and bytes are asked for, within their bounds. */
  predicate SentBounds(text: string)
  {
    var q := QueryString.Parse(text);
    var lines, bytes := ParseInt(Get(q, "tailLines")), ParseInt(Get(q, "limitBytes"));
    lines.Some? && 1 <= lines.value <= MAX_TAIL_LINES && bytes.Some? && 1 <= bytes.value <= MAX_LIMIT_BYTES
  }
}
