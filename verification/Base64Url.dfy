/**
 Unpadded base64url (section 5 of RFC 4648), the encoding of every random
 token the system draws: session ids, login states, nonces, PKCE verifiers,
 CSRF tokens, authorization codes.
 */
module Base64Url {
  import opened Wrappers

  type byte = x: int | 0 <= x < 256

  /** A six-bit group. */
  type six = v: int | 0 <= v < 64

  /** Entropy, in bytes, of every token. */
  const TOKEN_BYTES := 32

  /** Table 2 of RFC 4648: A-Z, a-z, 0-9, '-', '_'. */
  function Digit(v: six): char
  {
    if v < 26 then 'A' + v as char
    else if v < 52 then 'a' + (v - 26) as char
    else if v < 62 then '0' + (v - 52) as char
    else if v == 62 then '-'
    else '_'
  }

  function Value(c: char): Option<six>
  {
    if 'A' <= c <= 'Z' then Some(c as int - 'A' as int)
    else if 'a' <= c <= 'z' then Some(26 + (c as int - 'a' as int))
    else if '0' <= c <= '9' then Some(52 + (c as int - '0' as int))
    else if c == '-' then Some(62)
    else if c == '_' then Some(63)
    else None
  }

  /** Three bytes are four groups; a last lone byte is two groups, a last pair three. */
  function Groups(b: seq<byte>): (g: seq<six>)
  {
    if |b| == 0 then []
    else if |b| == 1 then [b[0] / 4, b[0] % 4 * 16]
    else if |b| == 2 then [b[0] / 4, b[0] % 4 * 16 + b[1] / 16, b[1] % 16 * 4]
    else [b[0] / 4, b[0] % 4 * 16 + b[1] / 16, b[1] % 16 * 4 + b[2] / 64, b[2] % 64] + Groups(b[3..])
  }

  function First(v0: six, v1: six): byte { v0 * 4 + v1 / 16 }
  function Second(v1: six, v2: six): byte { v1 % 16 * 16 + v2 / 4 }
  function Third(v2: six, v3: six): byte { v2 % 4 * 64 + v3 }

  /** The bytes a group sequence carries; one group alone carries none. */
  function Bytes(g: seq<six>): (r: Option<seq<byte>>)
  {
    if |g| == 0 then Some([])
    else if |g| == 1 then None
    else if |g| == 2 then Some([First(g[0], g[1])])
    else if |g| == 3 then Some([First(g[0], g[1]), Second(g[1], g[2])])
    else
      match Bytes(g[4..])
      case None => None
      case Some(rest) => Some([First(g[0], g[1]), Second(g[1], g[2]), Third(g[2], g[3])] + rest)
  }

  function Digits(g: seq<six>): (s: string)
    ensures |s| == |g|
  {
    if g == [] then "" else [Digit(g[0])] + Digits(g[1..])
  }

  function Values(s: string): (r: Option<seq<six>>)
  {
    if s == "" then Some([])
    else
      match (Value(s[0]), Values(s[1..]))
      case (Some(v), Some(rest)) => Some([v] + rest)
      case _ => None
  }

  function Encode(b: seq<byte>): string
  {
    Digits(Groups(b))
  }

  function Decode(s: string): Option<seq<byte>>
  {
    match Values(s)
    case None => None
    case Some(g) => Bytes(g)
  }

  lemma {:induction false} ValuesOfDigits(g: seq<six>)
    ensures Values(Digits(g)) == Some(g)
  {
    if g != [] {
      ValuesOfDigits(g[1..]);
      assert Value(Digit(g[0])) == Some(g[0]);
      assert g == [g[0]] + g[1..];
    }
  }

  lemma {:induction false} BytesOfGroups(b: seq<byte>)
    ensures Bytes(Groups(b)) == Some(b)
  {
    if |b| == 1 {
      assert b == [b[0]];
    } else if |b| == 2 {
      assert b == [b[0], b[1]];
    } else if |b| >= 3 {
      BytesOfGroups(b[3..]);
      assert Groups(b)[4..] == Groups(b[3..]);
      assert b == [b[0], b[1], b[2]] + b[3..];
    }
  }

  lemma DecodeEncode(b: seq<byte>)
    ensures Decode(Encode(b)) == Some(b)
  {
    ValuesOfDigits(Groups(b));
    BytesOfGroups(b);
  }

  lemma EncodeInjective(a: seq<byte>, b: seq<byte>)
    requires Encode(a) == Encode(b)
    ensures a == b
  {
    DecodeEncode(a);
    DecodeEncode(b);
  }

  /** The length is ceil(4n/3). */
  lemma {:induction false} EncodeLength(b: seq<byte>)
    ensures |Encode(b)| == (4 * |b| + 2) / 3
  {
    if |b| >= 3 {
      EncodeLength(b[3..]);
    }
  }

  /** The unreserved characters of section 4.1 of RFC 7636, which query encoding leaves alone. */
  predicate Unreserved(c: char)
  {
    'A' <= c <= 'Z' || 'a' <= c <= 'z' || '0' <= c <= '9' || c in "-._~"
  }

  predicate AllUnreserved(s: string)
  {
    forall i :: 0 <= i < |s| ==> Unreserved(s[i])
  }

  lemma {:induction false} DigitsUnreserved(g: seq<six>)
    ensures AllUnreserved(Digits(g))
  {
    if g != [] {
      DigitsUnreserved(g[1..]);
      assert Unreserved(Digit(g[0]));
    }
  }

  /** A code verifier as section 4.1 of RFC 7636 defines it. */
  predicate LegalVerifier(s: string)
  {
    43 <= |s| <= 128 && AllUnreserved(s)
  }

  /** What one successful draw returns. */
  ghost predicate IsToken(s: string)
  {
    exists b: seq<byte> :: |b| == TOKEN_BYTES && s == Encode(b)
  }

  lemma TokenShape(s: string)
    requires IsToken(s)
    ensures |s| == 43 && LegalVerifier(s)
    ensures exists b :: Decode(s) == Some(b) && |b| == TOKEN_BYTES && Encode(b) == s
  {
    var b: seq<byte> :| |b| == TOKEN_BYTES && s == Encode(b);
    EncodeLength(b);
    DigitsUnreserved(Groups(b));
    DecodeEncode(b);
  }
}
