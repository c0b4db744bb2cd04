/**
 The client of the upstream API: every request it can send, the bound on what
 it reads back, and what each status becomes. `sent` records the requests;
 `answers` is whatever the upstream will say, one answer a request.
 */
module CapsuleClient {
  import opened Wrappers
  import opened Base64Url
  import opened ByteStreams
  import opened UpstreamPaths
  import opened LogOptions
  import Q = QueryString

  /** 10 MiB for an ordinary response. */
  const MAX_RESPONSE_BYTES := 10_485_760

  datatype UpstreamError = Unauthorized | Forbidden | Unavailable

  datatype Answer = NoAnswer | Answer(status: int, body: Script)

  type Raw = seq<byte>

  /** The whole outbound request: nothing is copied from a browser's. */
  datatype Sent = Sent(verb: string, path: string, authorization: string, accept: string)

  // ----- Bounded reading -----

  const READ_CHUNK := 512

  /** io.ReadAll over a limited reader: all of it, unless the source fails first. */
  method ReadAll(src: LimitReader) returns (data: seq<byte>, ok: bool)
    requires src.n >= 0
    modifies src, src.r
    ensures Source(old(src.r.script)) == data + Source(src.r.script)
    ensures |data| + src.n == old(src.n) && 0 <= src.n
    ensures End(src.r.script) == End(old(src.r.script))
    ensures ok ==> src.n == 0 || (Source(src.r.script) == [] && End(src.r.script) == EOF)
    ensures !ok ==> End(src.r.script) == Broken && Source(src.r.script) == []
  {
    ghost var source, end := Source(src.r.script), End(src.r.script);
    data := [];
    var buf := new byte[READ_CHUNK];
    while true
      invariant source == data + Source(src.r.script) && End(src.r.script) == end
      invariant |data| + src.n == old(src.n) && 0 <= src.n
      modifies src, src.r, buf
      decreases Remaining(src.r.script)
    {
      ReadOnceDelivers(src.r.script, if READ_CHUNK > src.n then src.n else READ_CHUNK);
      ghost var before, at := data, src.r.script;
      var n, err := src.Read(buf);
      data := data + buf[..n];
      assert source == (before + buf[..n]) + Source(src.r.script);
      if err.Some? {
        return data, err.value == EOF;
      }
    }
  }

  /** The whole body, or an error: never a truncated one, and never more than limit + 1 bytes taken. */
  method ReadBounded(r: Reader, limit: nat) returns (res: Option<seq<byte>>)
    modifies r
    ensures res == Bounded(old(r.script), limit)
    ensures exists taken: seq<byte> :: |taken| <= limit + 1 && Source(old(r.script)) == taken + Source(r.script)
  {
    var src := new LimitReader(r, limit + 1);
    var data, ok := ReadAll(src);
    assert Source(old(r.script)) == data + Source(r.script);
    if !ok {
      assert data + [] == data;
      return None;
    }
    if |data| > limit {
      return None;
    }
    assert data + [] == data;
    res := Some(data);
  }

  /** A source that ends cleanly within the limit, entire; nothing else. */
  function Bounded(s: Script, limit: nat): Option<seq<byte>>
  {
    if End(s) == EOF && |Source(s)| <= limit then Some(Source(s)) else None
  }

  // ----- Requests -----

  /** The next thing the upstream says. */
  function Next(answers: seq<Answer>): Answer
  {
    if answers == [] then NoAnswer else answers[0]
  }

  function Later(answers: seq<Answer>): seq<Answer>
  {
    if answers == [] then [] else answers[1..]
  }

  /** What an ordinary call makes of an answer. */
  function Outcome(a: Answer): Result<seq<byte>, UpstreamError>
  {
    if a.NoAnswer? then Failure(Unavailable)
    else if a.status == 401 then Failure(Unauthorized)
    else if a.status == 403 then Failure(Forbidden)
    else if a.status != 200 || Bounded(a.body, MAX_RESPONSE_BYTES).None? then Failure(Unavailable)
    else Success(Bounded(a.body, MAX_RESPONSE_BYTES).value)
  }

  function Bearer(token: string): string { "Bearer " + token }

  function Ordinary(path: string, token: string): Sent { Sent("GET", path, Bearer(token), "application/json") }

  function Streaming(path: string, token: string): Sent { Sent("GET", path, Bearer(token), "text/plain, */*") }

  /** The request a call is sent as. */
  function Request(c: Call, token: string): Sent
    requires Valid(c)
  {
    if c.Log? then Streaming(Print(c), token) else Ordinary(Print(c), token)
  }

  /** JSON decoding: the items of a list, and the name of a namespace. */
  datatype Decoder = Decoder(items: seq<byte> -> Option<seq<Raw>>, name: Raw -> Option<string>)

  function Items(d: Decoder, a: Answer): Result<seq<Raw>, UpstreamError>
  {
    match Outcome(a)
    case Failure(e) => Failure(e)
    case Success(data) =>
      match d.items(data)
      case None => Failure(Unavailable)
      case Some(items) => Success(items)
  }

  /** Every item decoded, or nothing. */
  function DecodeAll<T>(f: Raw -> Option<T>, items: seq<Raw>): Option<seq<T>>
  {
    if items == [] then Some([])
    else
      match (f(items[0]), DecodeAll(f, items[1..]))
      case (Some(x), Some(rest)) => Some([x] + rest)
      case _ => None
  }

  /** The same, an item more at the end: how the loops build it. */
  lemma {:induction false} DecodeAllSnoc<T>(f: Raw -> Option<T>, items: seq<Raw>, last: Raw)
    ensures DecodeAll(f, items + [last]) ==
            match (DecodeAll(f, items), f(last)) case (Some(xs), Some(x)) => Some(xs + [x]) case _ => None
  {
    if items == [] {
      assert items + [last] == [last];
      assert [last][1..] == [] && DecodeAll(f, []) == Some([]);
      if f(last).Some? {
        assert [f(last).value] + [] == [f(last).value] == [] + [f(last).value];
      }
    } else {
      assert (items + [last])[1..] == items[1..] + [last];
      DecodeAllSnoc(f, items[1..], last);
      if f(items[0]).Some? && DecodeAll(f, items[1..]).Some? && f(last).Some? {
        assert [f(items[0]).value] + (DecodeAll(f, items[1..]).value + [f(last).value]) ==
               ([f(items[0]).value] + DecodeAll(f, items[1..]).value) + [f(last).value];
      }
    }
  }

  lemma {:induction false} OneBadItem<T>(f: Raw -> Option<T>, items: seq<Raw>, i: nat)
    requires i < |items| && f(items[i]).None?
    ensures DecodeAll(f, items).None?
  {
    if i > 0 {
      OneBadItem(f, items[1..], i - 1);
    }
  }

  /** All or nothing: a list decodes exactly when each of its items does, in order. */
  lemma {:induction false} DecodeAllIsPointwise<T>(f: Raw -> Option<T>, items: seq<Raw>)
    ensures DecodeAll(f, items).Some? <==> forall i :: 0 <= i < |items| ==> f(items[i]).Some?
    ensures DecodeAll(f, items).Some? ==>
              |DecodeAll(f, items).value| == |items|
              && forall i :: 0 <= i < |items| ==> f(items[i]) == Some(DecodeAll(f, items).value[i])
  {
    if items != [] {
      DecodeAllIsPointwise(f, items[1..]);
      if forall i :: 0 <= i < |items| ==> f(items[i]).Some? {
        assert forall i :: 0 <= i < |items[1..]| ==> items[1..][i] == items[i + 1];
      }
      if f(items[0]).Some? && DecodeAll(f, items[1..]).Some? {
        forall i | 0 <= i < |items| ensures f(items[i]).Some? {
          assert i > 0 ==> items[i] == items[1..][i - 1];
        }
      }
    }
  }

  /** Decoding in a loop that stops at the first bad item. */
  method DecodeEach<T>(f: Raw -> Option<T>, items: seq<Raw>) returns (r: Option<seq<T>>)
    ensures r == DecodeAll(f, items)
  {
    var out: seq<T> := [];
    for i := 0 to |items|
      invariant DecodeAll(f, items[..i]) == Some(out)
    {
      DecodeAllSnoc(f, items[..i], items[i]);
      assert items[..i] + [items[i]] == items[..i + 1];
      var x := f(items[i]);
      if x.None? {
        OneBadItem(f, items, i);
        return None;
      }
      out := out + [x.value];
    }
    assert items[..|items|] == items;
    r := Some(out);
  }

  /** Every namespace's name, or the error. */
  function NameList(d: Decoder, a: Answer): Result<seq<string>, UpstreamError>
  {
    match Items(d, a)
    case Failure(e) => Failure(e)
    case Success(items) =>
      match DecodeAll(d.name, items)
      case None => Failure(Unavailable)
      case Some(names) => Success(names)
  }

  class Client {
    const decoder: Decoder
    var answers: seq<Answer>
    var sent: seq<Sent>

    constructor (decoder: Decoder, answers: seq<Answer>)
      ensures this.decoder == decoder && this.answers == answers && sent == []
    {
      this.decoder, this.answers, sent := decoder, answers, [];
    }

    method Send(s: Sent) returns (a: Answer)
      modifies this
      ensures sent == old(sent) + [s] && a == Next(old(answers)) && answers == Later(old(answers))
    {
      sent := sent + [s];
      a := Next(answers);
      answers := Later(answers);
    }

    method Do(token: string, path: string) returns (r: Result<seq<byte>, UpstreamError>)
      modifies this
      ensures sent == old(sent) + [Ordinary(path, token)]
      ensures r == Outcome(Next(old(answers))) && answers == Later(old(answers))
    {
      var a := Send(Sent("GET", path, Bearer(token), "application/json"));
      if a.NoAnswer? {
        return Failure(Unavailable);
      }
      if a.status == 401 {
        return Failure(Unauthorized);
      }
      if a.status == 403 {
        return Failure(Forbidden);
      }
      if a.status != 200 {
        return Failure(Unavailable);
      }
      var body := new Reader(a.body);
      var data := ReadBounded(body, MAX_RESPONSE_BYTES);
      r := if data.None? then Failure(Unavailable) else Success(data.value);
    }

    method ListNamespaces(token: string) returns (r: Result<seq<string>, UpstreamError>)
      modifies this
      ensures sent == old(sent) + [Ordinary(NamespacesPath(), token)] && answers == Later(old(answers))
      ensures r == NameList(decoder, Next(old(answers)))
    {
      var data := Do(token, NamespacesPath());
      if data.Failure? {
        return Failure(data.error);
      }
      var items := decoder.items(data.value);
      if items.None? {
        return Failure(Unavailable);
      }
      var names := DecodeEach(decoder.name, items.value);
      r := if names.None? then Failure(Unavailable) else Success(names.value);
    }

    /** A limit of zero or less leaves the page size open. */
    method ListNamespacedResource(token: string, namespace: string, gvr: GVR, limit: int)
      returns (r: Result<seq<Raw>, UpstreamError>)
      modifies this
      ensures sent == old(sent) + [Ordinary(ListPath(namespace, gvr, limit), token)] && answers == Later(old(answers))
      ensures r == Items(decoder, Next(old(answers)))
    {
      var path := ListPath(namespace, gvr, limit);
      var data := Do(token, path);
      if data.Failure? {
        return Failure(data.error);
      }
      var items := decoder.items(data.value);
      r := if items.None? then Failure(Unavailable) else Success(items.value);
    }

    method GetNamespacedResource(token: string, namespace: string, name: string, gvr: GVR)
      returns (r: Result<Raw, UpstreamError>)
      modifies this
      ensures sent == old(sent) + [Ordinary(GetPath(namespace, name, gvr), token)] && answers == Later(old(answers))
      ensures r == Outcome(Next(old(answers)))
    {
      r := Do(token, GetPath(namespace, name, gvr));
    }

    /** The body is handed on unread. */
    method StreamPodLogs(token: string, namespace: string, pod: string, opts: Options)
      returns (r: Result<Script, UpstreamError>)
      modifies this
      ensures sent == old(sent) + [Streaming(LogPath(namespace, pod) + ("?" + LogQueryText(opts)), token)]
              && answers == Later(old(answers))
      ensures r == StreamOutcome(Next(old(answers)))
    {
      var q := BuildLogQuery(opts);
      var a := Send(Sent("GET", LogPath(namespace, pod) + ("?" + Q.Encode(q)), Bearer(token), "text/plain, */*"));
      if a.NoAnswer? {
        return Failure(Unavailable);
      }
      if a.status == 200 {
        return Success(a.body);
      }
      if a.status == 401 {
        return Failure(Unauthorized);
      }
      if a.status == 403 {
        return Failure(Forbidden);
      }
      r := Failure(Unavailable);
    }
  }

  function StreamOutcome(a: Answer): Result<Script, UpstreamError>
  {
    if a.NoAnswer? then Failure(Unavailable)
    else if a.status == 401 then Failure(Unauthorized)
    else if a.status == 403 then Failure(Forbidden)
    else if a.status != 200 then Failure(Unavailable)
    else Success(a.body)
  }
}
