/** Copying a pod's log to the browser, chunk by chunk, within a byte budget. */
module LogStreams {
  import opened Wrappers
  import opened Base64Url
  import opened ByteStreams

  /** 50 MiB, whatever the upstream does with limitBytes. */
  const MAX_STREAM_BYTES := 52_428_800

  const BUFFER := 4096

  /**
   The browser's end of the response. `faults` says how the coming writes fare:
   None is accepted whole, Some(m) fails after m bytes; an exhausted script accepts.
   */
  class BodyWriter {
    var written: seq<byte>
    var flushed: nat
    var faults: seq<Option<nat>>

    constructor (faults: seq<Option<nat>>)
      ensures written == [] && flushed == 0 && this.faults == faults
    {
      written, flushed, this.faults := [], 0, faults;
    }

    method Write(p: array<byte>, n: nat) returns (ok: bool)
      requires n <= p.Length
      modifies this
      ensures ok == Accepts(old(faults)) && faults == After(old(faults)) && flushed == old(flushed)
      ensures written == old(written) + Delivered(old(faults), p[..n])
    {
      ok := Accepts(faults);
      written := written + Delivered(faults, p[..n]);
      faults := After(faults);
    }

    method Flush()
      modifies this
      ensures written == old(written) && faults == old(faults) && flushed == |written|
    {
      flushed := |written|;
    }
  }

  predicate Accepts(faults: seq<Option<nat>>) { faults == [] || faults[0].None? }

  function After(faults: seq<Option<nat>>): seq<Option<nat>> { if faults == [] then [] else faults[1..] }

  function Delivered(faults: seq<Option<nat>>, p: seq<byte>): (d: seq<byte>)
    ensures d <= p
  {
    if Accepts(faults) || faults[0].value >= |p| then p else p[..faults[0].value]
  }

  function Room(left: int): nat
    requires left > 0
  {
    if left < BUFFER then left else BUFFER
  }

  /** What the loop writes, for this read schedule, this budget and these write faults. */
  function Copied(s: Script, left: int, faults: seq<Option<nat>>): (w: seq<byte>)
    decreases Remaining(s)
  {
    if left <= 0 then []
    else
      var r := ReadOnce(s, Room(left));
      ReadOnceDelivers(s, Room(left));
      if r.data == [] then
        if r.err.Some? then [] else Copied(r.rest, left, faults)
      else if !Accepts(faults) then Delivered(faults, r.data)
      else if r.err.Some? then r.data
      else r.data + Copied(r.rest, left - |r.data|, After(faults))
  }

  /** One turn of the loop. */
  lemma CopiedUnfolds(s: Script, left: int, faults: seq<Option<nat>>)
    ensures left <= 0 ==> Copied(s, left, faults) == []
    ensures left > 0 ==>
              var r := ReadOnce(s, Room(left));
              && (r.err.None? ==> Remaining(r.rest) < Remaining(s))
              && Copied(s, left, faults) ==
                 (if r.data == [] then (if r.err.Some? then [] else Copied(r.rest, left, faults))
                  else if !Accepts(faults) then Delivered(faults, r.data)
                  else r.data + (if r.err.Some? then [] else Copied(r.rest, left - |r.data|, After(faults))))
  {
    if left > 0 {
      ReadOnceDelivers(s, Room(left));
    }
  }

  /** What one turn of the loop leads to. */
  datatype Turn = Turn(out: seq<byte>, more: bool, rest: Script, left: int, faults: seq<Option<nat>>)

  function TurnOf(s: Script, left: int, faults: seq<Option<nat>>): Turn
  {
    if left <= 0 then Turn([], false, s, left, faults)
    else
      var r := ReadOnce(s, Room(left));
      if r.data == [] then Turn([], r.err.None?, r.rest, left, faults)
      else Turn(Delivered(faults, r.data), r.err.None? && Accepts(faults), r.rest, left - |r.data|, After(faults))
  }

  /** A turn writes the start of what the loop writes; the next turns write the rest. */
  lemma TurnsAddUp(s: Script, left: int, faults: seq<Option<nat>>)
    ensures var t := TurnOf(s, left, faults);
            && Copied(s, left, faults) == t.out + (if t.more then Copied(t.rest, t.left, t.faults) else [])
            && (t.more ==> Remaining(t.rest) < Remaining(s))
  {
    CopiedUnfolds(s, left, faults);
  }

  /** The part of the source the budget allows. */
  function Allowed(s: Script, left: int): (a: seq<byte>)
    ensures |a| <= left || a == []
  {
    if left <= 0 then [] else if |Source(s)| <= left then Source(s) else Source(s)[..left]
  }

  lemma AllowedSplits(s: Script, left: int)
    requires left > 0
    ensures var r := ReadOnce(s, Room(left));
            && r.data <= Allowed(s, left)
            && (r.err.None? ==> Allowed(s, left) == r.data + Allowed(r.rest, left - |r.data|))
            && (r.err.Some? ==> Allowed(s, left) == r.data)
  {
    var r := ReadOnce(s, Room(left));
    ReadOnceDelivers(s, Room(left));
    assert Source(s) == r.data + Source(r.rest);
  }

  lemma Associates(a: seq<byte>, b: seq<byte>, c: seq<byte>)
    ensures a + (b + c) == (a + b) + c
  {
  }

  lemma PrefixUnder(d: seq<byte>, a: seq<byte>, b: seq<byte>)
    requires a <= b
    ensures d + a <= d + b
  {
  }

  /** Whatever the schedule and the faults, what is written is a prefix of the allowed source. */
  lemma {:induction false} CopiedIsPrefix(s: Script, left: int, faults: seq<Option<nat>>)
    ensures Copied(s, left, faults) <= Allowed(s, left)
    decreases Remaining(s)
  {
    TurnsAddUp(s, left, faults);
    TurnIsAllowed(s, left, faults);
    var t := TurnOf(s, left, faults);
    if t.more {
      CopiedIsPrefix(t.rest, t.left, t.faults);
      PrefixUnder(t.out, Copied(t.rest, t.left, t.faults), Allowed(t.rest, t.left));
    }
  }

  /** A turn writes the start of what is allowed; with another to come, all of its part. */
  lemma TurnIsAllowed(s: Script, left: int, faults: seq<Option<nat>>)
    ensures var t := TurnOf(s, left, faults);
            && t.out <= Allowed(s, left)
            && (t.more ==> Allowed(s, left) == t.out + Allowed(t.rest, t.left))
  {
    if left > 0 {
      AllowedSplits(s, left);
    }
  }

  predicate Faultless(faults: seq<Option<nat>>)
  {
    forall i :: 0 <= i < |faults| ==> faults[i].None?
  }

  /** With a writer that never fails, everything allowed is written, also what came with or before a read error. */
  lemma {:induction false} CopiedIsEverything(s: Script, left: int, faults: seq<Option<nat>>)
    requires Faultless(faults)
    ensures Copied(s, left, faults) == Allowed(s, left)
    decreases Remaining(s)
  {
    if left > 0 {
      var r := ReadOnce(s, Room(left));
      CopiedUnfolds(s, left, faults);
      AllowedSplits(s, left);
      if r.err.None? {
        CopiedIsEverything(r.rest, left - |r.data|, if r.data == [] then faults else After(faults));
      }
    }
  }

  /** A read, its write, its flush. */
  method CopyChunk(w: BodyWriter, flusher: bool, src: LimitReader, buf: array<byte>) returns (more: bool)
    requires buf.Length == BUFFER && w.flushed <= |w.written|
    modifies w, src, src.r, buf
    ensures var t := TurnOf(old(src.r.script), old(src.n), old(w.faults));
            && w.written == old(w.written) + t.out
            && more == t.more
            && (more ==> src.r.script == t.rest && src.n == t.left && w.faults == t.faults)
    ensures w.flushed <= |w.written| && (more && flusher && old(w.flushed) == |old(w.written)|
            ==> w.flushed == |w.written|)
  {
    var n, readErr := src.Read(buf);
    if n > 0 {
      var ok := w.Write(buf, n);
      if !ok {
        return false;
      }
      if flusher {
        w.Flush();
      }
    }
    more := readErr.None?;
  }

  /**
   The copy loop. `pending` is the most bytes that were written but not yet
   flushed when a read began.
   */
  method CopyLogStream(w: BodyWriter, flusher: bool, src: LimitReader) returns (ghost pending: nat)
    requires w.flushed == |w.written|
    modifies w, src, src.r
    ensures w.written == old(w.written) + Copied(old(src.r.script), old(src.n), old(w.faults))
    ensures flusher ==> pending == 0
  {
    var buf := new byte[BUFFER];
    pending := 0;
    ghost var total := w.written + Copied(src.r.script, src.n, w.faults);
    var more := true;
    while more
      invariant total == w.written + if more then Copied(src.r.script, src.n, w.faults) else []
      invariant w.flushed <= |w.written| && (more && flusher ==> w.flushed == |w.written|) && (flusher ==> pending == 0)
      modifies w, src, src.r, buf
      decreases more, Remaining(src.r.script)
    {
      pending := if pending < |w.written| - w.flushed then |w.written| - w.flushed else pending;
      ghost var t := TurnOf(src.r.script, src.n, w.faults);
      TurnsAddUp(src.r.script, src.n, w.faults);
      Associates(w.written, t.out, if t.more then Copied(t.rest, t.left, t.faults) else []);
      more := CopyChunk(w, flusher, src, buf);
    }
  }

  /** The tail of podLogsHandler: the stream, cut at the backstop, to the browser. */
  method RelayPodLog(w: BodyWriter, flusher: bool, stream: Reader) returns (ghost pending: nat)
    requires w.written == [] && w.flushed == 0
    modifies w, stream
    ensures w.written <= Allowed(old(stream.script), MAX_STREAM_BYTES)
    ensures Faultless(old(w.faults)) ==> w.written == Allowed(old(stream.script), MAX_STREAM_BYTES)
    ensures flusher ==> pending == 0
  {
    CopiedIsPrefix(stream.script, MAX_STREAM_BYTES, w.faults);
    if Faultless(w.faults) {
      CopiedIsEverything(stream.script, MAX_STREAM_BYTES, w.faults);
    }
    var src := new LimitReader(stream, MAX_STREAM_BYTES);
    pending := CopyLogStream(w, flusher, src);
  }
}
