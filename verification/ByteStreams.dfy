/**
 Byte streams as Go's io package defines them. A reader is a script of chunks:
 what the other side happens to deliver at each read, in any sizes, possibly
 empty, possibly together with an error. A read takes a whole chunk, or as much
 of it as the buffer has room for.
 */
module ByteStreams {
  import opened Wrappers
  import opened Base64Url

  datatype Error = EOF | Broken

  datatype Chunk = Chunk(data: seq<byte>, err: Option<Error>)

  type Script = seq<Chunk>

  /** Every byte the reader will ever deliver: up to and with its first error. */
  function Source(s: Script): seq<byte>
  {
    if s == [] then []
    else if s[0].err.Some? then s[0].data
    else s[0].data + Source(s[1..])
  }

  /** The error that ends the stream. */
  function End(s: Script): Error
  {
    if s == [] then EOF
    else if s[0].err.Some? then s[0].err.value
    else End(s[1..])
  }

  /** How much reading is left: a termination measure as long as there is room to read into. */
  function Remaining(s: Script): nat
  {
    if s == [] then 0 else |s[0].data| + 1 + Remaining(s[1..])
  }

  datatype Reading = Reading(data: seq<byte>, err: Option<Error>, rest: Script)

  /** One read with room for `room` bytes. An error, once returned, stays. */
  function ReadOnce(s: Script, room: nat): (r: Reading)
    ensures |r.data| <= room
  {
    if s == [] then Reading([], Some(EOF), s)
    else if |s[0].data| > room then Reading(s[0].data[..room], None, [Chunk(s[0].data[room..], s[0].err)] + s[1..])
    else if s[0].err.Some? then Reading(s[0].data, s[0].err, [Chunk([], s[0].err)])
    else Reading(s[0].data, None, s[1..])
  }

  /** A read delivers the next bytes of the source, in order, and loses none. */
  lemma ReadOnceDelivers(s: Script, room: nat)
    ensures var r := ReadOnce(s, room);
            && Source(s) == r.data + Source(r.rest)
            && End(s) == End(r.rest)
            && (r.err.Some? ==> Source(r.rest) == [] && r.err.value == End(s))
            && (r.err.None? && room > 0 ==> Remaining(r.rest) < Remaining(s))
  {
    var r := ReadOnce(s, room);
    if s != [] && |s[0].data| > room {
      assert r.rest[1..] == s[1..];
      assert s[0].data == s[0].data[..room] + s[0].data[room..];
    }
  }

  class Reader {
    var script: Script

    constructor (script: Script)
      ensures this.script == script
    {
      this.script := script;
    }

    /** Reads into p[from..upto]. */
    method Read(p: array<byte>, from: nat, upto: nat) returns (n: nat, err: Option<Error>)
      requires from <= upto <= p.Length
      modifies this, p
      ensures var r := ReadOnce(old(script), upto - from);
              && n == |r.data| && err == r.err && script == r.rest
              && p[..] == old(p[..from]) + r.data + old(p[from + n..])
    {
      var r := ReadOnce(script, upto - from);
      n, err := |r.data|, r.err;
      for k := 0 to n
        invariant n == |r.data| && from + n <= upto
        invariant script == old(script)
        invariant p[..] == old(p[..from]) + r.data[..k] + old(p[from + k..])
      {
        p[from + k] := r.data[k];
      }
      script := r.rest;
    }
  }

  /** Fills the whole buffer or fails: it succeeds exactly when the source has that many bytes. */
  method ReadFull(r: Reader, buf: array<byte>) returns (ok: bool)
    modifies r, buf
    ensures ok <==> buf.Length <= |Source(old(r.script))|
    ensures ok ==> buf[..] == Source(old(r.script))[..buf.Length]
    ensures ok ==> Source(r.script) == Source(old(r.script))[buf.Length..]
  {
    ghost var source := Source(r.script);
    var n: nat, err: Option<Error> := 0, None;
    while n < buf.Length && err.None?
      invariant n <= buf.Length
      invariant source == buf[..n] + Source(r.script)
      invariant err.Some? ==> Source(r.script) == []
      decreases if err.None? then 1 + Remaining(r.script) else 0
    {
      ReadOnceDelivers(r.script, buf.Length - n);
      ghost var before, read := buf[..n], ReadOnce(r.script, buf.Length - n);
      assert source == (before + read.data) + Source(read.rest);
      var nn;
      nn, err := r.Read(buf, n, buf.Length);
      assert buf[..n + nn] == before + read.data;
      n := n + nn;
    }
    ok := n == buf.Length;
    assert ok ==> buf[..n] == buf[..];
  }

  /** Go's io.LimitedReader. */
  class LimitReader {
    const r: Reader
    var n: int

    constructor (r: Reader, n: int)
      ensures this.r == r && this.n == n
    {
      this.r, this.n := r, n;
    }

    method Read(p: array<byte>) returns (n': nat, err: Option<Error>)
      modifies this, r, p
      ensures old(n) <= 0 ==>
              n' == 0 && err == Some(EOF) && n == old(n) && r.script == old(r.script)
              && p[..] == old(p[..])
      ensures old(n) > 0 ==>
                var room := if p.Length > old(n) then old(n) else p.Length;
                var got := ReadOnce(old(r.script), room);
                && n' == |got.data| && err == got.err && r.script == got.rest
                && n == old(n) - n' && p[..n'] == got.data
    {
      if n <= 0 {
        return 0, Some(EOF);
      }
      var room := if p.Length > n then n else p.Length;
      n', err := r.Read(p, 0, room);
      n := n - n';
    }
  }
}
