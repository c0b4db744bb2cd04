/**
 The session store as bytes: one key space shared by sessions and login
 transactions, told apart by prefix, every value marshalled, sealed and framed
 behind its nonce. The theorem is that all of this behaves as the two typed
 maps of Vault, for any sequence of calls with any client-supplied ids.
 */
module ByteStore {
  import opened Wrappers
  import opened SessionTypes
  import opened Base64Url
  import V = Vault

  datatype StoreError = NotFound | Unavailable | NoRandomness | TooShort | DecryptFailed | Malformed

  // ----- Primitives the store is built on -----

  datatype Codec<!T> = Codec(marshal: T -> seq<byte>, unmarshal: seq<byte> -> Option<T>)

  /** An AEAD (key, nonce, text) and the JSON codecs of the two records. */
  datatype Primitives = Primitives(
    seal: (seq<byte>, seq<byte>, seq<byte>) -> seq<byte>,
    open: (seq<byte>, seq<byte>, seq<byte>) -> Option<seq<byte>>,
    records: Codec<Record>,
    transactions: Codec<LoginTransaction>)

  ghost predicate RoundTrips<T(!new)>(c: Codec<T>)
  {
    forall v: T :: c.unmarshal(c.marshal(v)) == Some(v)
  }

  /** What is sealed opens again, and a key opens nothing but what was sealed with it. */
  ghost predicate IdealSeal(p: Primitives)
  {
    && (forall key, nonce, plain :: p.open(key, nonce, p.seal(key, nonce, plain)) == Some(plain))
    && (forall key, nonce, data :: p.open(key, nonce, data).Some? ==>
          data == p.seal(key, nonce, p.open(key, nonce, data).value))
    && (forall key, nonce, plain, key', plain' ::
          p.seal(key, nonce, plain) == p.seal(key', nonce, plain') ==> key == key')
  }

  ghost predicate Ideal(p: Primitives)
  {
    IdealSeal(p) && RoundTrips(p.records) && RoundTrips(p.transactions)
  }

  const NONCE_SIZE := 12

  const KEY_SIZE := 32

  function Frame(p: Primitives, key: seq<byte>, nonce: seq<byte>, plain: seq<byte>): seq<byte>
  {
    nonce + p.seal(key, nonce, plain)
  }

  function Open(p: Primitives, key: seq<byte>, sealed: seq<byte>): Result<seq<byte>, StoreError>
  {
    if |sealed| < NONCE_SIZE then Failure(TooShort)
    else
      match p.open(key, sealed[..NONCE_SIZE], sealed[NONCE_SIZE..])
      case None => Failure(DecryptFailed)
      case Some(plain) => Success(plain)
  }

  function Decode<T>(p: Primitives, c: Codec<T>, key: seq<byte>, sealed: seq<byte>): Result<T, StoreError>
  {
    match Open(p, key, sealed)
    case Failure(e) => Failure(e)
    case Success(plain) =>
      match c.unmarshal(plain)
      case None => Failure(Malformed)
      case Some(v) => Success(v)
  }

  lemma OpenFrame(p: Primitives, key: seq<byte>, nonce: seq<byte>, plain: seq<byte>)
    requires IdealSeal(p) && |nonce| == NONCE_SIZE
    ensures Open(p, key, Frame(p, key, nonce, plain)) == Success(plain)
  {
    var sealed := Frame(p, key, nonce, plain);
    assert sealed[..NONCE_SIZE] == nonce && sealed[NONCE_SIZE..] == p.seal(key, nonce, plain);
  }

  /**
   Bytes decode to a record exactly when they are a nonce followed by the
   sealing, under this very key, of bytes that unmarshal to it. Short, corrupt and
   foreign-key bytes are errors.
   */
  lemma DecodesExactlySealedRecords<T>(p: Primitives, c: Codec<T>, key: seq<byte>, sealed: seq<byte>, v: T)
    requires IdealSeal(p)
    ensures Decode(p, c, key, sealed) == Success(v) <==> Seals(p, c, key, sealed, v)
  {
    if Decode(p, c, key, sealed) == Success(v) {
      var nonce, data := sealed[..NONCE_SIZE], sealed[NONCE_SIZE..];
      var plain := p.open(key, nonce, data).value;
      assert sealed == nonce + data;
      assert sealed == Frame(p, key, nonce, plain);
    }
    if nonce, plain :| |nonce| == NONCE_SIZE && sealed == Frame(p, key, nonce, plain) && c.unmarshal(plain) == Some(v) {
      OpenFrame(p, key, nonce, plain);
    }
  }

  /** What was sealed under another key never decodes. */
  lemma ForeignKeyIsRefused<T>(p: Primitives, c: Codec<T>, key: seq<byte>, foreign: seq<byte>, nonce: seq<byte>,
                               plain: seq<byte>)
    requires IdealSeal(p) && |nonce| == NONCE_SIZE && key != foreign
    ensures Decode(p, c, key, Frame(p, foreign, nonce, plain)) == Failure(DecryptFailed)
  {
    var sealed := Frame(p, foreign, nonce, plain);
    assert sealed[..NONCE_SIZE] == nonce && sealed[NONCE_SIZE..] == p.seal(foreign, nonce, plain);
  }

  // ----- The backend: keys, bytes, deadlines -----

  type Data = map<string, V.Timed<seq<byte>>>

  /** One command: it goes through, is refused, or is applied with its reply lost. */
  datatype Fault = Fine | Refused | Lost

  function SetKey(data: Data, key: string, value: seq<byte>, ttl: int, now: int, fault: Fault): Data
  {
    if fault.Refused? then data else data[key := V.Timed(value, V.Expiry(data, key, ttl, now))]
  }

  function DelKey(data: Data, key: string, fault: Fault): Data
  {
    if fault.Refused? then data else data - {key}
  }

  function GetKey(data: Data, key: string, now: int, fault: Fault): Result<seq<byte>, StoreError>
  {
    if !fault.Fine? then Failure(Unavailable)
    else
      match V.Look(data, key, now)
      case None => Failure(NotFound)
      case Some(v) => Success(v)
  }

  // ----- Calls -----

  const SESSION_PREFIX := "session:"

  const LOGIN_PREFIX := "login:"

  /** The draws of a call are the bytes the random source gave it. */
  datatype Call =
    | CreateSession(rec: Record, ttl: int, id: string, nonce: seq<byte>)
    | GetSession(id: string)
    | DeleteSession(id: string)
    | CreateLogin(txn: LoginTransaction, ttl: int, state: string, nonce: seq<byte>)
    | TakeLogin(state: string)

  datatype Reply =
    | Name(name: string)
    | Session(rec: Record)
    | Login(txn: LoginTransaction)
    | Gone
    | Error(error: StoreError)

  function Acked(fault: Fault, reply: Reply): Reply
  {
    if fault.Fine? then reply else Error(Unavailable)
  }

  function NameReply(r: Result<string, StoreError>): Reply
  {
    match r case Success(name) => Name(name) case Failure(e) => Error(e)
  }

  function SessionReply(r: Result<Record, StoreError>): Reply
  {
    match r case Success(rec) => Session(rec) case Failure(e) => Error(e)
  }

  function LoginReply(r: Result<LoginTransaction, StoreError>): Reply
  {
    match r case Success(txn) => Login(txn) case Failure(e) => Error(e)
  }

  function ReadSession(p: Primitives, key: seq<byte>, data: Data, id: string, now: int, fault: Fault): Result<Record,
                       StoreError>
  {
    match GetKey(data, SESSION_PREFIX + id, now, fault)
    case Failure(e) => Failure(e)
    case Success(sealed) => Decode(p, p.records, key, sealed)
  }

  function ReadLogin(p: Primitives, key: seq<byte>, data: Data, state: string, now: int,
                     fault: Fault): Result<LoginTransaction, StoreError>
  {
    match GetKey(data, LOGIN_PREFIX + state, now, fault)
    case Failure(e) => Failure(e)
    case Success(sealed) => Decode(p, p.transactions, key, sealed)
  }

  /** What a call does to the bytes, and what it answers. */
  function ByteStep(p: Primitives, key: seq<byte>, data: Data, call: Call, now: int, fault: Fault): (Data, Reply)
  {
    match call
    case CreateSession(rec, ttl, id, nonce) =>
      (SetKey(data, SESSION_PREFIX + id, Frame(p, key, nonce, p.records.marshal(rec)), ttl, now, fault),
       Acked(fault, Name(id)))
    case GetSession(id) => (data, SessionReply(ReadSession(p, key, data, id, now, fault)))
    case DeleteSession(id) => (DelKey(data, SESSION_PREFIX + id, fault), Acked(fault, Gone))
    case CreateLogin(txn, ttl, state, nonce) =>
      (SetKey(data, LOGIN_PREFIX + state, Frame(p, key, nonce, p.transactions.marshal(txn)), ttl, now, fault),
       Acked(fault, Name(state)))
    case TakeLogin(state) =>
      (DelKey(data, LOGIN_PREFIX + state, fault), LoginReply(ReadLogin(p, key, data, state, now, fault)))
  }

  /** What the same call does to two typed maps, and what it answers. */
  function VaultStep(v: V.Vault, call: Call, now: int, fault: Fault): (V.Vault, Reply)
  {
    match call
    case CreateSession(rec, ttl, id, _) =>
      (if fault.Refused? then v else V.PutSession(v, id, rec, ttl, now), Acked(fault, Name(id)))
    case GetSession(id) =>
      (v, if !fault.Fine? then Error(Unavailable) else
            match V.Look(v.sessions, id, now) case None => Error(NotFound) case Some(rec) => Session(rec))
    case DeleteSession(id) => (if fault.Refused? then v else V.DropSession(v, id), Acked(fault, Gone))
    case CreateLogin(txn, ttl, state, _) =>
      (if fault.Refused? then v else V.PutLogin(v, state, txn, ttl, now), Acked(fault, Name(state)))
    case TakeLogin(state) =>
      (if fault.Refused? then v else V.DropLogin(v, state),
       if !fault.Fine? then Error(Unavailable) else
         match V.Look(v.logins, state, now) case None => Error(NotFound) case Some(txn) => Login(txn))
  }

  // ----- Reading whatever bytes are there -----

  /** The value under a key is a nonce followed by the sealing, under this store's key, of bytes that unmarshal to v. */
  ghost predicate Seals<T>(p: Primitives, c: Codec<T>, key: seq<byte>, value: seq<byte>, v: T)
  {
    exists nonce, plain :: |nonce| == NONCE_SIZE && value == Frame(p, key, nonce, plain)
      && c.unmarshal(plain) == Some(v)
  }

  /**
   Over any bytes at all, however they came there: a session reads as rec exactly
   when its key holds, unexpired, a sealing of rec. Expired, missing, corrupt,
   short or foreign bytes are an error.
   */
  lemma SessionReadsExactly(p: Primitives, key: seq<byte>, data: Data, id: string, now: int, rec: Record)
    requires IdealSeal(p)
    ensures ReadSession(p, key, data, id, now, Fine) == Success(rec) <==>
            && SESSION_PREFIX + id in data && V.Alive(data[SESSION_PREFIX + id].deadline, now)
            && Seals(p, p.records, key, data[SESSION_PREFIX + id].value, rec)
  {
    if SESSION_PREFIX + id in data {
      DecodesExactlySealedRecords(p, p.records, key, data[SESSION_PREFIX + id].value, rec);
    }
  }

  lemma LoginReadsExactly(p: Primitives, key: seq<byte>, data: Data, state: string, now: int, txn: LoginTransaction)
    requires IdealSeal(p)
    ensures ReadLogin(p, key, data, state, now, Fine) == Success(txn) <==>
            && LOGIN_PREFIX + state in data && V.Alive(data[LOGIN_PREFIX + state].deadline, now)
            && Seals(p, p.transactions, key, data[LOGIN_PREFIX + state].value, txn)
  {
    if LOGIN_PREFIX + state in data {
      DecodesExactlySealedRecords(p, p.transactions, key, data[LOGIN_PREFIX + state].value, txn);
    }
  }

  /**
   A remark on what sealing does not promise: it binds no key name, so bytes moved
   from one session key to another read there as the same record.
   */
  lemma MovedBytesReadTheSame(p: Primitives, key: seq<byte>, data: Data, a: string, b: string, now: int)
    requires SESSION_PREFIX + a in data
    ensures var moved := data[SESSION_PREFIX + b := data[SESSION_PREFIX + a]];
            ReadSession(p, key, moved, b, now, Fine) == ReadSession(p, key, data, a, now, Fine)
  {
  }

  // ----- Refinement -----

  /** The bytes under one prefix are exactly one typed map. */
  ghost predicate Holds<T(!new)>(p: Primitives, c: Codec<T>, key: seq<byte>, data: Data, prefix: string,
                          m: map<string, V.Timed<T>>)
  {
    && (forall id :: prefix + id in data <==> id in m)
    && (forall id <- m :: prefix + id in data
          && data[prefix + id].deadline == m[id].deadline
          && Decode(p, c, key, data[prefix + id].value) == Success(m[id].value))
  }

  ghost predicate Refines(p: Primitives, key: seq<byte>, data: Data, v: V.Vault)
  {
    && Holds(p, p.records, key, data, SESSION_PREFIX, v.sessions)
    && Holds(p, p.transactions, key, data, LOGIN_PREFIX, v.logins)
  }

  /** No id, however chosen, makes a session key a login key, and a key determines its id. */
  lemma KeysAreDisjoint(a: string, b: string)
    ensures SESSION_PREFIX + a != LOGIN_PREFIX + b
    ensures SESSION_PREFIX + a == SESSION_PREFIX + b ==> a == b
    ensures LOGIN_PREFIX + a == LOGIN_PREFIX + b ==> a == b
  {
    assert (SESSION_PREFIX + a)[0] == 's' && (LOGIN_PREFIX + b)[0] == 'l';
    assert (SESSION_PREFIX + a)[|SESSION_PREFIX|..] == a && (SESSION_PREFIX + b)[|SESSION_PREFIX|..] == b;
    assert (LOGIN_PREFIX + a)[|LOGIN_PREFIX|..] == a && (LOGIN_PREFIX + b)[|LOGIN_PREFIX|..] == b;
  }

  lemma SetHolds<T(!new)>(p: Primitives, c: Codec<T>, key: seq<byte>, data: Data, prefix: string, m: map<string,
                   V.Timed<T>>,
                    id: string, nonce: seq<byte>, v: T, deadline: Option<int>)
    requires Holds(p, c, key, data, prefix, m) && IdealSeal(p) && RoundTrips(c) && |nonce| == NONCE_SIZE
    requires forall i :: prefix + i == prefix + id ==> i == id
    ensures Holds(p, c, key, data[prefix + id := V.Timed(Frame(p, key, nonce, c.marshal(v)), deadline)], prefix,
            m[id := V.Timed(v, deadline)])
  {
    OpenFrame(p, key, nonce, c.marshal(v));
    assert Decode(p, c, key, Frame(p, key, nonce, c.marshal(v))) == Success(v);
  }

  /** A lifetime means the same to the bytes and to the map. */
  lemma SameExpiry<T(!new)>(p: Primitives, c: Codec<T>, key: seq<byte>, data: Data, prefix: string, m: map<string,
                     V.Timed<T>>,
                            id: string, ttl: int, now: int)
    requires Holds(p, c, key, data, prefix, m)
    ensures V.Expiry(data, prefix + id, ttl, now) == V.Expiry(m, id, ttl, now)
  {
    assert prefix + id in data <==> id in m;
  }

  lemma DelHolds<T(!new)>(p: Primitives, c: Codec<T>, key: seq<byte>, data: Data, prefix: string, m: map<string,
                   V.Timed<T>>, id: string)
    requires Holds(p, c, key, data, prefix, m)
    requires forall i :: prefix + i == prefix + id ==> i == id
    ensures Holds(p, c, key, data - {prefix + id}, prefix, m - {id})
  {
  }

  /** Writing or removing a key of the other prefix changes nothing. */
  lemma OtherHolds<T(!new)>(p: Primitives, c: Codec<T>, key: seq<byte>, data: Data, prefix: string, m: map<string,
                     V.Timed<T>>,
                      other: string, e: V.Timed<seq<byte>>)
    requires Holds(p, c, key, data, prefix, m)
    requires forall i :: prefix + i != other
    ensures Holds(p, c, key, data[other := e], prefix, m) && Holds(p, c, key, data - {other}, prefix, m)
  {
  }

  lemma AllKeysDisjoint()
    ensures forall a, b :: SESSION_PREFIX + a != LOGIN_PREFIX + b
    ensures forall a, b :: SESSION_PREFIX + a == SESSION_PREFIX + b ==> a == b
    ensures forall a, b :: LOGIN_PREFIX + a == LOGIN_PREFIX + b ==> a == b
  {
    forall a, b
      ensures SESSION_PREFIX + a != LOGIN_PREFIX + b
      ensures SESSION_PREFIX + a == SESSION_PREFIX + b ==> a == b
      ensures LOGIN_PREFIX + a == LOGIN_PREFIX + b ==> a == b
    {
      KeysAreDisjoint(a, b);
    }
  }

  predicate WellDrawn(call: Call)
  {
    match call
    case CreateSession(_, _, _, nonce) => |nonce| == NONCE_SIZE
    case CreateLogin(_, _, _, nonce) => |nonce| == NONCE_SIZE
    case _ => true
  }

  lemma CreateSessionRefines(p: Primitives, key: seq<byte>, data: Data, v: V.Vault, call: Call, now: int)
    requires Ideal(p) && Refines(p, key, data, v) && WellDrawn(call) && call.CreateSession?
    ensures Refines(p, key, ByteStep(p, key, data, call, now, Fine).0, VaultStep(v, call, now, Fine).0)
  {
    AllKeysDisjoint();
    var deadline := V.Expiry(v.sessions, call.id, call.ttl, now);
    SameExpiry(p, p.records, key, data, SESSION_PREFIX, v.sessions, call.id, call.ttl, now);
    SetHolds(p, p.records, key, data, SESSION_PREFIX, v.sessions, call.id, call.nonce, call.rec, deadline);
    OtherHolds(p, p.transactions, key, data, LOGIN_PREFIX, v.logins, SESSION_PREFIX + call.id,
               V.Timed(Frame(p, key, call.nonce, p.records.marshal(call.rec)), deadline));
  }

  lemma CreateLoginRefines(p: Primitives, key: seq<byte>, data: Data, v: V.Vault, call: Call, now: int)
    requires Ideal(p) && Refines(p, key, data, v) && WellDrawn(call) && call.CreateLogin?
    ensures Refines(p, key, ByteStep(p, key, data, call, now, Fine).0, VaultStep(v, call, now, Fine).0)
  {
    AllKeysDisjoint();
    var deadline := V.Expiry(v.logins, call.state, call.ttl, now);
    SameExpiry(p, p.transactions, key, data, LOGIN_PREFIX, v.logins, call.state, call.ttl, now);
    SetHolds(p, p.transactions, key, data, LOGIN_PREFIX, v.logins, call.state, call.nonce, call.txn, deadline);
    OtherHolds(p, p.records, key, data, SESSION_PREFIX, v.sessions, LOGIN_PREFIX + call.state,
               V.Timed(Frame(p, key, call.nonce, p.transactions.marshal(call.txn)), deadline));
  }

  lemma DelRefines(p: Primitives, key: seq<byte>, data: Data, v: V.Vault, call: Call, now: int)
    requires Ideal(p) && Refines(p, key, data, v) && (call.DeleteSession? || call.TakeLogin?)
    ensures Refines(p, key, ByteStep(p, key, data, call, now, Fine).0, VaultStep(v, call, now, Fine).0)
  {
    AllKeysDisjoint();
    if call.DeleteSession? {
      DelHolds(p, p.records, key, data, SESSION_PREFIX, v.sessions, call.id);
      OtherHolds(p, p.transactions, key, data, LOGIN_PREFIX, v.logins, SESSION_PREFIX + call.id, V.Timed([], None));
    } else {
      DelHolds(p, p.transactions, key, data, LOGIN_PREFIX, v.logins, call.state);
      OtherHolds(p, p.records, key, data, SESSION_PREFIX, v.sessions, LOGIN_PREFIX + call.state, V.Timed([], None));
    }
  }

  /** One call: same answer, and still the same two maps. */
  lemma StepRefines(p: Primitives, key: seq<byte>, data: Data, v: V.Vault, call: Call, now: int, fault: Fault)
    requires Ideal(p) && Refines(p, key, data, v) && WellDrawn(call)
    ensures ByteStep(p, key, data, call, now, fault).1 == VaultStep(v, call, now, fault).1
    ensures Refines(p, key, ByteStep(p, key, data, call, now, fault).0, VaultStep(v, call, now, fault).0)
  {
    if call.CreateSession? {
      CreateSessionRefines(p, key, data, v, call, now);
    } else if call.CreateLogin? {
      CreateLoginRefines(p, key, data, v, call, now);
    } else if call.DeleteSession? || call.TakeLogin? {
      DelRefines(p, key, data, v, call, now);
    }
  }

  // ----- Sequences of calls -----

  datatype Event = Event(call: Call, now: int, fault: Fault)

  function ByteReplies(p: Primitives, key: seq<byte>, data: Data, events: seq<Event>): seq<Reply>
    decreases |events|
  {
    if events == [] then []
    else
      var (data', reply) := ByteStep(p, key, data, events[0].call, events[0].now, events[0].fault);
      [reply] + ByteReplies(p, key, data', events[1..])
  }

  function VaultReplies(v: V.Vault, events: seq<Event>): seq<Reply>
    decreases |events|
  {
    if events == [] then []
    else
      var (v', reply) := VaultStep(v, events[0].call, events[0].now, events[0].fault);
      [reply] + VaultReplies(v', events[1..])
  }

  ghost predicate AllWellDrawn(events: seq<Event>)
  {
    forall i :: 0 <= i < |events| ==> WellDrawn(events[i].call)
  }

  lemma {:induction false} RepliesAgree(p: Primitives, key: seq<byte>, data: Data, v: V.Vault, events: seq<Event>)
    requires Ideal(p) && Refines(p, key, data, v)
    requires AllWellDrawn(events)
    ensures ByteReplies(p, key, data, events) == VaultReplies(v, events)
    decreases |events|
  {
    if events != [] {
      var e := events[0];
      StepRefines(p, key, data, v, e.call, e.now, e.fault);
      RepliesAgree(p, key, ByteStep(p, key, data, e.call, e.now, e.fault).0, VaultStep(v, e.call, e.now, e.fault).0,
                   events[1..]);
    }
  }

  /** From an empty store, every sequence of calls is answered as two separate typed maps would answer it. */
  lemma StoreIsTwoMaps(p: Primitives, key: seq<byte>, events: seq<Event>)
    requires Ideal(p)
    requires AllWellDrawn(events)
    ensures ByteReplies(p, key, map[], events) == VaultReplies(V.Empty, events)
  {
    RepliesAgree(p, key, map[], V.Empty, events);
  }
}
