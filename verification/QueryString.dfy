/**
 URL queries as net/url prints and reads them: pairs in any order, printed in the
 order of their keys. A string is bytes, one char each; a wider char would stand for
 itself. Every key of a printed query reads back as it was.
 */
module QueryString {
  import opened Wrappers
  import opened Text
  import opened Base64Url

  type Query = seq<(string, string)>

  function HexDigit(v: nat): char
    requires v < 16
  {
    if v < 10 then '0' + v as char else 'A' + (v - 10) as char
  }

  function HexValue(c: char): Option<nat>
  {
    if '0' <= c <= '9' then Some(c as int - '0' as int)
    else if 'A' <= c <= 'F' then Some(c as int - 'A' as int + 10)
    else if 'a' <= c <= 'f' then Some(c as int - 'a' as int + 10)
    else None
  }

  function EscapeChar(c: char): string
  {
    if Unreserved(c) || c as int > 255 then [c]
    else if c == ' ' then "+"
    else ['%', HexDigit(c as int / 16), HexDigit(c as int % 16)]
  }

  function Escape(s: string): string
  {
    if s == "" then "" else EscapeChar(s[0]) + Escape(s[1..])
  }

  /** A bad escape is an error; '+' is a space in queries only. */
  function Unescape(s: string, inQuery: bool): Option<string>
  {
    if s == "" then Some("")
    else if s[0] == '%' then
      if |s| < 3 || HexValue(s[1]).None? || HexValue(s[2]).None? then None
      else
        match Unescape(s[3..], inQuery)
        case None => None
        case Some(rest) => Some([(16 * HexValue(s[1]).value + HexValue(s[2]).value) as char] + rest)
    else
      match Unescape(s[1..], inQuery)
      case None => None
      case Some(rest) => Some([if s[0] == '+' && inQuery then ' ' else s[0]] + rest)
  }

  lemma EscapedChar(c: char, rest: string)
    ensures Unescape(EscapeChar(c) + rest, true) ==
            match Unescape(rest, true) case None => None case Some(t) => Some([c] + t)
  {
    var e := EscapeChar(c);
    if |e| == 1 {
      assert (e + rest)[1..] == rest;
    } else {
      assert (e + rest)[3..] == rest;
      assert HexValue(e[1]) == Some(c as int / 16) && HexValue(e[2]) == Some(c as int % 16);
    }
  }

  lemma {:induction false} UnescapeEscape(s: string)
    ensures Unescape(Escape(s), true) == Some(s)
  {
    if s != "" {
      UnescapeEscape(s[1..]);
      EscapedChar(s[0], Escape(s[1..]));
      assert s == [s[0]] + s[1..];
    }
  }

  /** Nothing that means something in a URL survives escaping. */
  lemma {:induction false} EscapeIsInert(s: string)
    ensures forall c <- Escape(s) :: c !in "&=;?#/ "
  {
    if s != "" {
      EscapeIsInert(s[1..]);
    }
  }

  /** Tokens, numbers and labels are printed as they are. */
  lemma {:induction false} UnreservedUnchanged(s: string)
    requires AllUnreserved(s)
    ensures Escape(s) == s
  {
    if s != "" {
      UnreservedUnchanged(s[1..]);
      assert Unreserved(s[0]);
      assert s == [s[0]] + s[1..];
    }
  }

  /** A random token travels in a URL as it is. */
  lemma TokensUnchanged(s: string)
    requires IsToken(s)
    ensures Escape(s) == s
  {
    TokenShape(s);
    UnreservedUnchanged(s);
  }

  // ----- Whole queries -----

  function Pair(p: (string, string)): string
  {
    Escape(p.0) + ['='] + Escape(p.1)
  }

  function EncodePairs(q: Query): string
  {
    if q == [] then "" else if |q| == 1 then Pair(q[0]) else Pair(q[0]) + ['&'] + EncodePairs(q[1..])
  }

  predicate Before(a: string, b: string)
  {
    b != "" && (a == "" || a[0] < b[0] || (a[0] == b[0] && Before(a[1..], b[1..])))
  }

  function Insert(p: (string, string), q: Query): Query
  {
    if q == [] || !Before(q[0].0, p.0) then [p] + q else [q[0]] + Insert(p, q[1..])
  }

  /** In the order of keys; the values of one key keep theirs. */
  function SortByKey(q: Query): Query
  {
    if q == [] then [] else Insert(q[0], SortByKey(q[1..]))
  }

  /** url.Values.Encode. */
  function Encode(q: Query): string
  {
    EncodePairs(SortByKey(q))
  }

  /** One piece between ampersands; a malformed one is dropped. */
  function ReadPair(piece: string): Query
  {
    if piece == "" || ';' in piece then []
    else
      var (key, value) := Cut(piece, '=');
      match (Unescape(key, true), Unescape(if value.None? then "" else value.value, true))
      case (Some(k), Some(v)) => [(k, v)]
      case _ => []
  }

  function ReadPairs(pieces: seq<string>): Query
  {
    if pieces == [] then [] else ReadPair(pieces[0]) + ReadPairs(pieces[1..])
  }

  function Parse(s: string): Query
  {
    ReadPairs(Split(s, '&'))
  }

  lemma PairReads(p: (string, string))
    ensures ReadPair(Pair(p)) == [p] && '&' !in Pair(p)
  {
    EscapeIsInert(p.0);
    EscapeIsInert(p.1);
    assert '=' !in Escape(p.0) && ';' !in Pair(p) && '&' !in Pair(p);
    CutAt(Escape(p.0), Escape(p.1), '=');
    UnescapeEscape(p.0);
    UnescapeEscape(p.1);
  }

  lemma ParsePiece(piece: string, rest: string)
    requires '&' !in piece
    ensures Parse(piece) == ReadPair(piece)
    ensures Parse(piece + ['&'] + rest) == ReadPair(piece) + Parse(rest)
  {
    SplitWhole(piece, '&');
    assert ReadPairs([piece]) == ReadPair(piece) + ReadPairs([]);
    SplitAt(piece, rest, '&');
    var pieces := [piece] + Split(rest, '&');
    assert pieces[0] == piece && pieces[1..] == Split(rest, '&');
  }

  /** Printed pairs read back as themselves. */
  lemma {:induction false} ParsePairs(q: Query)
    ensures Parse(EncodePairs(q)) == q
  {
    if |q| == 1 {
      PairReads(q[0]);
      ParsePiece(Pair(q[0]), "");
      assert q == [q[0]];
    } else if |q| > 1 {
      PairReads(q[0]);
      ParsePiece(Pair(q[0]), EncodePairs(q[1..]));
      ParsePairs(q[1..]);
      assert q == [q[0]] + q[1..];
    }
  }

  /** The first value of a key, or nothing. */
  function Get(q: Query, key: string): string
  {
    if q == [] then "" else if q[0].0 == key then q[0].1 else Get(q[1..], key)
  }

  lemma {:induction false} BeforeDiffers(a: string)
    ensures !Before(a, a)
  {
    if a != "" {
      BeforeDiffers(a[1..]);
    }
  }

  lemma {:induction false} GetInsert(p: (string, string), q: Query, key: string)
    ensures Get(Insert(p, q), key) == if p.0 == key then p.1 else Get(q, key)
  {
    if q == [] || !Before(q[0].0, p.0) {
      assert ([p] + q)[1..] == q;
    } else {
      BeforeDiffers(p.0);
      GetInsert(p, q[1..], key);
    }
  }

  lemma {:induction false} GetSorted(q: Query, key: string)
    ensures Get(SortByKey(q), key) == Get(q, key)
  {
    if q != [] {
      GetInsert(q[0], SortByKey(q[1..]), key);
      GetSorted(q[1..], key);
    }
  }

  /** A printed query reads back, at every key, as what was printed. */
  lemma ParseEncode(q: Query, key: string)
    ensures Parse(Encode(q)) == SortByKey(q) && Get(Parse(Encode(q)), key) == Get(q, key)
  {
    ParsePairs(SortByKey(q));
    GetSorted(q, key);
  }

  function Without(q: Query, key: string): Query
  {
    if q == [] then [] else if q[0].0 == key then Without(q[1..], key) else [q[0]] + Without(q[1..], key)
  }

  /** url.Values.Set: one value, in place of any. */
  function Set(q: Query, key: string, value: string): Query
  {
    [(key, value)] + Without(q, key)
  }

  lemma {:induction false} GetWithout(q: Query, key: string, k: string)
    requires k != key
    ensures Get(Without(q, key), k) == Get(q, k)
  {
    if q != [] {
      GetWithout(q[1..], key, k);
    }
  }

  lemma GetSet(q: Query, key: string, value: string, k: string)
    ensures Get(Set(q, key, value), k) == if k == key then value else Get(q, k)
  {
    assert Set(q, key, value)[1..] == Without(q, key);
    if k != key {
      GetWithout(q, key, k);
    }
  }
}
