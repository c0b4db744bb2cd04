/**
 The assumptions made of sealing, of the JSON codecs and of signing can be met:
 primitives are exhibited that satisfy all of them, so no theorem that assumes
 them is empty.
 */
module IdealPrimitives {
  import opened Wrappers
  import opened SessionTypes
  import opened Base64Url
  import opened ByteStore
  import P = Provider
  import S = ProviderServer

  // ----- Writing that can be told from what follows it -----

  function Unary(n: nat): seq<byte>
  {
    seq(n, _ => 1) + [0]
  }

  lemma UnaryReads(n: nat, x: seq<byte>, m: nat, y: seq<byte>)
    requires Unary(n) + x == Unary(m) + y
    ensures n == m && x == y
  {
    var s, t := Unary(n) + x, Unary(m) + y;
    assert s[n] == 0 && t[m] == 0;
    assert forall i :: 0 <= i < n ==> s[i] == 1;
    assert forall i :: 0 <= i < m ==> t[i] == 1;
    assert s[n + 1..] == x && t[m + 1..] == y;
  }

  function Tag(b: seq<byte>): seq<byte>
  {
    Unary(|b|) + b
  }

  lemma TagReads(a: seq<byte>, x: seq<byte>, b: seq<byte>, y: seq<byte>)
    requires Tag(a) + x == Tag(b) + y
    ensures a == b && x == y
  {
    assert Tag(a) + x == Unary(|a|) + (a + x) && Tag(b) + y == Unary(|b|) + (b + y);
    UnaryReads(|a|, a + x, |b|, b + y);
    assert (a + x)[..|a|] == a && (b + y)[..|b|] == b;
    assert (a + x)[|a|..] == x && (b + y)[|b|..] == y;
  }

  function Chars(s: string): seq<byte>
  {
    if s == "" then [] else Unary(s[0] as int) + Chars(s[1..])
  }

  lemma {:induction false} CharsRead(s: string, x: seq<byte>, t: string, y: seq<byte>)
    requires |s| == |t| && Chars(s) + x == Chars(t) + y
    ensures s == t && x == y
  {
    if s == "" {
      assert Chars(s) + x == x && Chars(t) + y == y;
    } else {
      assert Chars(s) + x == Unary(s[0] as int) + (Chars(s[1..]) + x);
      assert Chars(t) + y == Unary(t[0] as int) + (Chars(t[1..]) + y);
      UnaryReads(s[0] as int, Chars(s[1..]) + x, t[0] as int, Chars(t[1..]) + y);
      CharsRead(s[1..], x, t[1..], y);
      assert s == [s[0]] + s[1..] && t == [t[0]] + t[1..];
    }
  }

  function Text(s: string): seq<byte>
  {
    Unary(|s|) + Chars(s)
  }

  lemma TextReads(s: string, x: seq<byte>, t: string, y: seq<byte>)
    requires Text(s) + x == Text(t) + y
    ensures s == t && x == y
  {
    assert Text(s) + x == Unary(|s|) + (Chars(s) + x) && Text(t) + y == Unary(|t|) + (Chars(t) + y);
    UnaryReads(|s|, Chars(s) + x, |t|, Chars(t) + y);
    CharsRead(s, x, t, y);
  }

  function Number(n: int): seq<byte>
  {
    if n < 0 then Unary(2 * -n - 1) else Unary(2 * n)
  }

  lemma NumberReads(n: int, x: seq<byte>, m: int, y: seq<byte>)
    requires Number(n) + x == Number(m) + y
    ensures n == m && x == y
  {
    UnaryReads(if n < 0 then 2 * -n - 1 else 2 * n, x, if m < 0 then 2 * -m - 1 else 2 * m, y);
  }

  // ----- The two records -----

  function WriteRecord(r: Record): seq<byte>
  {
    Text(r.subject) + (Text(r.idToken) + (Number(r.expiresAt) + (Number(r.createdAt) + (Text(r.csrfToken) + []))))
  }

  lemma RecordReads(r: Record, s: Record)
    requires WriteRecord(r) == WriteRecord(s)
    ensures r == s
  {
    var r4, s4 := Text(r.csrfToken) + [], Text(s.csrfToken) + [];
    var r3, s3 := Number(r.createdAt) + r4, Number(s.createdAt) + s4;
    var r2, s2 := Number(r.expiresAt) + r3, Number(s.expiresAt) + s3;
    TextReads(r.subject, Text(r.idToken) + r2, s.subject, Text(s.idToken) + s2);
    TextReads(r.idToken, r2, s.idToken, s2);
    NumberReads(r.expiresAt, r3, s.expiresAt, s3);
    NumberReads(r.createdAt, r4, s.createdAt, s4);
    TextReads(r.csrfToken, [], s.csrfToken, []);
  }

  function WriteTransaction(t: LoginTransaction): seq<byte>
  {
    Text(t.nonce) + (Text(t.pkceVerifier) + (Number(t.createdAt) + []))
  }

  lemma TransactionReads(t: LoginTransaction, u: LoginTransaction)
    requires WriteTransaction(t) == WriteTransaction(u)
    ensures t == u
  {
    var t2, u2 := Number(t.createdAt) + [], Number(u.createdAt) + [];
    TextReads(t.nonce, Text(t.pkceVerifier) + t2, u.nonce, Text(u.pkceVerifier) + u2);
    TextReads(t.pkceVerifier, t2, u.pkceVerifier, u2);
    NumberReads(t.createdAt, [], u.createdAt, []);
  }

  /** Reading back whatever was written, and nothing else. */
  ghost function ReadBack<T(!new)>(write: T -> seq<byte>, b: seq<byte>): Option<T>
  {
    if exists v :: write(v) == b then
      var v :| write(v) == b;
      Some(v)
    else None
  }

  ghost function RecordCodec(): Codec<Record>
  {
    Codec(r => WriteRecord(r), b => ReadBack(r => WriteRecord(r), b))
  }

  ghost function TransactionCodec(): Codec<LoginTransaction>
  {
    Codec(t => WriteTransaction(t), b => ReadBack(t => WriteTransaction(t), b))
  }

  lemma CodecsRoundTrip()
    ensures RoundTrips(RecordCodec()) && RoundTrips(TransactionCodec())
  {
    forall r: Record ensures RecordCodec().unmarshal(RecordCodec().marshal(r)) == Some(r) {
      var read := ReadBack((x: Record) => WriteRecord(x), WriteRecord(r));
      assert ((x: Record) => WriteRecord(x))(r) == WriteRecord(r);
      RecordReads(read.value, r);
    }
    forall t: LoginTransaction ensures TransactionCodec().unmarshal(TransactionCodec().marshal(t)) == Some(t) {
      var read := ReadBack((x: LoginTransaction) => WriteTransaction(x), WriteTransaction(t));
      assert ((x: LoginTransaction) => WriteTransaction(x))(t) == WriteTransaction(t);
      TransactionReads(read.value, t);
    }
  }

  // ----- Sealing -----

  function PlainSeal(key: seq<byte>, nonce: seq<byte>, plain: seq<byte>): seq<byte>
  {
    Tag(key) + (Tag(nonce) + plain)
  }

  function PlainOpen(key: seq<byte>, nonce: seq<byte>, data: seq<byte>): Option<seq<byte>>
  {
    var tag := Tag(key) + Tag(nonce);
    if tag <= data then Some(data[|tag|..]) else None
  }

  ghost function Plain(): Primitives
  {
    Primitives((k, n, x) => PlainSeal(k, n, x), (k, n, d) => PlainOpen(k, n, d), RecordCodec(), TransactionCodec())
  }

  lemma PlainSealIsIdeal()
    ensures IdealSeal(Plain())
  {
    var p := Plain();
    forall key, nonce, plain ensures p.open(key, nonce, p.seal(key, nonce, plain)) == Some(plain) {
      assert PlainSeal(key, nonce, plain) == (Tag(key) + Tag(nonce)) + plain;
    }
    forall key, nonce, data | p.open(key, nonce, data).Some? ensures data
      == p.seal(key, nonce, p.open(key, nonce, data).value) {
      var tag := Tag(key) + Tag(nonce);
      assert data == tag + data[|tag|..];
      assert PlainSeal(key, nonce, data[|tag|..]) == tag + data[|tag|..];
    }
    forall key, nonce, plain, key', plain' | p.seal(key, nonce, plain) == p.seal(key', nonce, plain') ensures key
      == key' {
      TagReads(key, Tag(nonce) + plain, key', Tag(nonce) + plain');
    }
  }

  /** Everything assumed of the primitives holds of some primitives. */
  lemma IdealExists()
    ensures exists p :: Ideal(p)
  {
    PlainSealIsIdeal();
    CodecsRoundTrip();
    assert Ideal(Plain());
  }

  // ----- Signing -----

  function WriteClaims(c: P.Claims): seq<byte>
  {
    Text(c.iss) + (Text(c.sub) + (Text(c.aud) + (Number(c.iat) + (Number(c.exp) + (Text(c.nonce) + [])))))
  }

  lemma ClaimsRead(c: P.Claims, d: P.Claims)
    requires WriteClaims(c) == WriteClaims(d)
    ensures c == d
  {
    var c5, d5 := Text(c.nonce) + [], Text(d.nonce) + [];
    var c4, d4 := Number(c.exp) + c5, Number(d.exp) + d5;
    var c3, d3 := Number(c.iat) + c4, Number(d.iat) + d4;
    var c2, d2 := Text(c.aud) + c3, Text(d.aud) + d3;
    TextReads(c.iss, Text(c.sub) + c2, d.iss, Text(d.sub) + d2);
    TextReads(c.sub, c2, d.sub, d2);
    TextReads(c.aud, c3, d.aud, d3);
    NumberReads(c.iat, c4, d.iat, d4);
    NumberReads(c.exp, c5, d.exp, d5);
    TextReads(c.nonce, [], d.nonce, []);
  }

  function Sign(c: P.Claims): string
  {
    var b := WriteClaims(c);
    seq(|b|, i requires 0 <= i < |b| => b[i] as char)
  }

  lemma SignDetermines(c: P.Claims, d: P.Claims)
    requires Sign(c) == Sign(d)
    ensures c == d
  {
    var b, e := WriteClaims(c), WriteClaims(d);
    assert |b| == |Sign(c)| == |Sign(d)| == |e|;
    forall i | 0 <= i < |b| ensures b[i] == e[i] {
      assert Sign(c)[i] == b[i] as char && Sign(d)[i] == e[i] as char;
    }
    ClaimsRead(c, d);
  }

  ghost function ClaimsOf(token: string): P.Claims
  {
    if exists c :: Sign(c) == token then
      var c :| Sign(c) == token;
      c
    else P.Claims("", "", "", 0, 0, "")
  }

  /** A way to sign by which a token determines its claims, and to read them back. */
  lemma SigningExists()
    ensures exists sign, read :: S.Signs(sign) && S.ReadsBack(sign, read)
  {
    var sign := (c: P.Claims) => Sign(c);
    var read := (t: string) => ClaimsOf(t);
    forall c, d | sign(c) == sign(d) ensures c == d {
      SignDetermines(c, d);
    }
    forall c ensures read(sign(c)) == c {
      SignDetermines(ClaimsOf(Sign(c)), c);
    }
    assert S.Signs(sign) && S.ReadsBack(sign, read);
  }
}
