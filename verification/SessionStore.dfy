/**
 The session store as the objects that run: a shared key/value backend, an
 encryptor that fills a nonce and seals behind it, and the typed store over both.
 Every method is tied to ByteStore: what it does to the bytes, and that the
 typed maps of the vault change with them.
 */
module SessionStore {
  import opened Wrappers
  import opened SessionTypes
  import opened Base64Url
  import opened ByteStreams
  import opened ByteStore
  import opened Folding
  import V = Vault

  /**
   One key/value store shared by all replicas. `vault` is what its bytes mean to
   the session stores over it. A command runs at the store's time `now`; its
   fault says whether it was applied and whether the caller hears of it.
   */
  class RedisBackend {
    var data: Data
    ghost var vault: V.Vault

    constructor ()
      ensures data == map[] && vault == V.Empty
    {
      data, vault := map[], V.Empty;
    }

    method Set(key: string, value: seq<byte>, ttl: int, now: int, fault: Fault) returns (r: Result<(), StoreError>)
      modifies this`data
      ensures data == SetKey(old(data), key, value, ttl, now, fault)
      ensures r == if fault.Fine? then Success(()) else Failure(Unavailable)
    {
      if !fault.Refused? {
        data := data[key := V.Timed(value, V.Expiry(data, key, ttl, now))];
      }
      r := if fault.Fine? then Success(()) else Failure(Unavailable);
    }

    method Get(key: string, now: int, fault: Fault) returns (r: Result<seq<byte>, StoreError>)
      ensures r == GetKey(data, key, now, fault)
    {
      if !fault.Fine? {
        return Failure(Unavailable);
      }
      var v := V.Look(data, key, now);
      r := if v.None? then Failure(NotFound) else Success(v.value);
    }

    method GetDel(key: string, now: int, fault: Fault) returns (r: Result<seq<byte>, StoreError>)
      modifies this`data
      ensures data == DelKey(old(data), key, fault)
      ensures r == GetKey(old(data), key, now, fault)
    {
      var v := V.Look(data, key, now);
      if !fault.Refused? {
        data := data - {key};
      }
      if !fault.Fine? {
        return Failure(Unavailable);
      }
      r := if v.None? then Failure(NotFound) else Success(v.value);
    }

    method Del(key: string, fault: Fault) returns (r: Result<(), StoreError>)
      modifies this`data
      ensures data == DelKey(old(data), key, fault)
      ensures r == if fault.Fine? then Success(()) else Failure(Unavailable)
    {
      if !fault.Refused? {
        data := data - {key};
      }
      r := if fault.Fine? then Success(()) else Failure(Unavailable);
    }
  }

  class Encryptor {
    const p: Primitives
    const key: seq<byte>

    constructor (p: Primitives, key: seq<byte>)
      ensures this.p == p && this.key == key
    {
      this.p, this.key := p, key;
    }

    /** The nonce drawn is the start of the result; without one nothing is sealed. */
    method Seal(plain: seq<byte>, rand: Reader) returns (r: Result<seq<byte>, StoreError>)
      modifies rand
      ensures var drawn := Source(old(rand.script));
              if |drawn| < NONCE_SIZE then r == Failure(NoRandomness)
              else
                && r == Success(Frame(p, key, drawn[..NONCE_SIZE], plain))
                && Source(rand.script) == drawn[NONCE_SIZE..]
    {
      var nonce := new byte[NONCE_SIZE];
      var ok := ReadFull(rand, nonce);
      if !ok {
        return Failure(NoRandomness);
      }
      var sealed := nonce[..];
      sealed := sealed + p.seal(key, nonce[..], plain);
      r := Success(sealed);
    }

    method Open(sealed: seq<byte>) returns (r: Result<seq<byte>, StoreError>)
      ensures r == ByteStore.Open(p, key, sealed)
    {
      if |sealed| < NONCE_SIZE {
        return Failure(TooShort);
      }
      var nonce, data := sealed[..NONCE_SIZE], sealed[NONCE_SIZE..];
      var plain := p.open(key, nonce, data);
      r := if plain.None? then Failure(DecryptFailed) else Success(plain.value);
    }
  }

  /** Only a 32-byte key makes an encryptor. */
  method NewEncryptor(p: Primitives, key: seq<byte>) returns (r: Option<Encryptor>)
    ensures r.Some? <==> |key| == KEY_SIZE
    ensures r.Some? ==> fresh(r.value) && r.value.p == p && r.value.key == key
  {
    if |key| != KEY_SIZE {
      return None;
    }
    var enc := new Encryptor(p, key);
    r := Some(enc);
  }

  /** Bytes of randomness one stored record costs: its name, then its nonce. */
  const NAME_AND_NONCE := TOKEN_BYTES + NONCE_SIZE

  /** A draw that came up short writes nothing. */
  method GenerateID(rand: Reader) returns (r: Option<string>)
    modifies rand
    ensures var drawn := Source(old(rand.script));
            if |drawn| < TOKEN_BYTES then r == None
            else
              && r == Some(Encode(drawn[..TOKEN_BYTES])) && IsToken(r.value)
              && Source(rand.script) == drawn[TOKEN_BYTES..]
  {
    var raw := new byte[TOKEN_BYTES];
    var ok := ReadFull(rand, raw);
    if !ok {
      return None;
    }
    assert raw[..] == Source(old(rand.script))[..TOKEN_BYTES];
    r := Some(Encode(raw[..]));
  }

  /** What a create call returns once its name is drawn. */
  function Named(r: Result<(), StoreError>, name: string): Result<string, StoreError>
  {
    match r case Success(_) => Success(name) case Failure(e) => Failure(e)
  }

  class Store {
    const backend: RedisBackend
    const enc: Encryptor

    constructor (backend: RedisBackend, enc: Encryptor)
      ensures this.backend == backend && this.enc == enc
    {
      this.backend, this.enc := backend, enc;
    }

    /** The bytes mean the vault, under this store's key. Replicas with one key share it. */
    ghost predicate Valid()
      reads this, backend
    {
      forall o {:trigger Unfold(o)} :: Unfold(o) ==>
        Ideal(enc.p)
        && Refines(enc.p, enc.key, backend.data, backend.vault)
    }

    /** The call did to the bytes what ByteStep says and to the vault what VaultStep says, with one answer. */
    twostate predicate Did(call: Call, now: int, fault: Fault, reply: Reply)
      reads this, backend
    {
      && (forall o {:trigger Unfold(o)} :: Unfold(o) ==>
            ByteStep(enc.p, enc.key, old(backend.data), call, now, fault) == (backend.data, reply))
      && VaultStep(old(backend.vault), call, now, fault) == (backend.vault, reply)
    }

    twostate predicate Untouched()
      reads this, backend
    {
      backend.data == old(backend.data) && backend.vault == old(backend.vault)
    }

    method Put(key: string, plain: seq<byte>, ttl: int, now: int, fault: Fault, rand: Reader)
      returns (r: Result<(), StoreError>)
      modifies backend`data, rand
      ensures var drawn := Source(old(rand.script));
              if |drawn| < NONCE_SIZE then r == Failure(NoRandomness) && backend.data == old(backend.data)
              else
                && r == (if fault.Fine? then Success(()) else Failure(Unavailable))
                && backend.data == SetKey(old(backend.data), key, Frame(enc.p, enc.key, drawn[..NONCE_SIZE], plain),
                                          ttl, now, fault)
    {
      var sealed := enc.Seal(plain, rand);
      if sealed.Failure? {
        return Failure(sealed.error);
      }
      r := backend.Set(key, sealed.value, ttl, now, fault);
    }

    /** The half of CreateSession that touches the backend. */
    method PutSession(id: string, rec: Record, ttl: int, now: int, fault: Fault, rand: Reader)
      returns (r: Result<(), StoreError>)
      requires Valid()
      modifies backend, rand
      ensures Valid()
      ensures var drawn := Source(old(rand.script));
              if |drawn| < NONCE_SIZE then r == Failure(NoRandomness) && Untouched()
              else Did(Call.CreateSession(rec, ttl, id, drawn[..NONCE_SIZE]), now, fault, NameReply(Named(r, id)))
    {
      ghost var drawn := Source(rand.script);
      var plain := enc.p.records.marshal(rec);
      r := Put(SESSION_PREFIX + id, plain, ttl, now, fault, rand);
      if |drawn| >= NONCE_SIZE {
        assert Unfold(0);
        StepRefines(enc.p, enc.key, old(backend.data), backend.vault,
                    Call.CreateSession(rec, ttl, id, drawn[..NONCE_SIZE]), now, fault);
        backend.vault := VaultStep(backend.vault, Call.CreateSession(rec, ttl, id, drawn[..NONCE_SIZE]), now, fault).0;
      }
    }

    method CreateSession(rec: Record, ttl: int, now: int, fault: Fault, rand: Reader)
      returns (r: Result<string, StoreError>)
      requires Valid()
      modifies backend, rand
      ensures Valid()
      ensures var drawn := Source(old(rand.script));
              if |drawn| < NAME_AND_NONCE then r == Failure(NoRandomness) && Untouched()
              else
                Did(Call.CreateSession(rec, ttl, Encode(drawn[..TOKEN_BYTES]), drawn[TOKEN_BYTES..NAME_AND_NONCE]),
                    now, fault, NameReply(r))
    {
      ghost var drawn := Source(rand.script);
      var id := GenerateID(rand);
      if id.None? {
        return Failure(NoRandomness);
      }
      assert |drawn| >= NAME_AND_NONCE ==> drawn[TOKEN_BYTES..][..NONCE_SIZE] == drawn[TOKEN_BYTES..NAME_AND_NONCE];
      var put := PutSession(id.value, rec, ttl, now, fault, rand);
      r := Named(put, id.value);
    }

    /** What the bytes read as is what the vault holds. */
    lemma ReadsVault(id: string, now: int)
      requires Valid()
      ensures SessionReply(ReadSession(enc.p, enc.key, backend.data, id, now, Fine)) ==
              match V.Look(backend.vault.sessions, id, now) case None => Error(NotFound) case Some(rec) => Session(rec)
    {
      assert Unfold(0);
      StepRefines(enc.p, enc.key, backend.data, backend.vault, Call.GetSession(id), now, Fine);
    }

    method GetSession(id: string, now: int, fault: Fault) returns (r: Result<Record, StoreError>)
      requires Valid()
      ensures Did(Call.GetSession(id), now, fault, SessionReply(r))
    {
      assert Unfold(0);
      StepRefines(enc.p, enc.key, backend.data, backend.vault, Call.GetSession(id), now, fault);
      var sealed := backend.Get(SESSION_PREFIX + id, now, fault);
      if sealed.Failure? {
        return Failure(sealed.error);
      }
      var plain := enc.Open(sealed.value);
      if plain.Failure? {
        return Failure(plain.error);
      }
      var rec := enc.p.records.unmarshal(plain.value);
      r := if rec.None? then Failure(Malformed) else Success(rec.value);
    }

    method DeleteSession(id: string, ghost now: int, fault: Fault) returns (r: Result<(), StoreError>)
      requires Valid()
      modifies backend
      ensures Valid() && Did(Call.DeleteSession(id), now, fault, if r.Success? then Gone else Error(r.error))
    {
      r := backend.Del(SESSION_PREFIX + id, fault);
      assert Unfold(0);
      StepRefines(enc.p, enc.key, old(backend.data), backend.vault, Call.DeleteSession(id), now, fault);
      backend.vault := VaultStep(backend.vault, Call.DeleteSession(id), now, fault).0;
    }

    /** The half of CreateLoginTransaction that touches the backend. */
    method PutLogin(state: string, txn: LoginTransaction, ttl: int, now: int, fault: Fault, rand: Reader)
      returns (r: Result<(), StoreError>)
      requires Valid()
      modifies backend, rand
      ensures Valid()
      ensures var drawn := Source(old(rand.script));
              if |drawn| < NONCE_SIZE then r == Failure(NoRandomness) && Untouched()
              else Did(CreateLogin(txn, ttl, state, drawn[..NONCE_SIZE]), now, fault, NameReply(Named(r, state)))
    {
      ghost var drawn := Source(rand.script);
      var plain := enc.p.transactions.marshal(txn);
      r := Put(LOGIN_PREFIX + state, plain, ttl, now, fault, rand);
      if |drawn| >= NONCE_SIZE {
        assert Unfold(0);
        StepRefines(enc.p, enc.key, old(backend.data), backend.vault,
                    CreateLogin(txn, ttl, state, drawn[..NONCE_SIZE]), now, fault);
        backend.vault := VaultStep(backend.vault, CreateLogin(txn, ttl, state, drawn[..NONCE_SIZE]), now, fault).0;
      }
    }

    method CreateLoginTransaction(txn: LoginTransaction, ttl: int, now: int, fault: Fault, rand: Reader)
      returns (r: Result<string, StoreError>)
      requires Valid()
      modifies backend, rand
      ensures Valid()
      ensures var drawn := Source(old(rand.script));
              if |drawn| < NAME_AND_NONCE then r == Failure(NoRandomness) && Untouched()
              else
                Did(CreateLogin(txn, ttl, Encode(drawn[..TOKEN_BYTES]), drawn[TOKEN_BYTES..NAME_AND_NONCE]), now,
                    fault, NameReply(r))
    {
      ghost var drawn := Source(rand.script);
      var state := GenerateID(rand);
      if state.None? {
        return Failure(NoRandomness);
      }
      assert |drawn| >= NAME_AND_NONCE ==> drawn[TOKEN_BYTES..][..NONCE_SIZE] == drawn[TOKEN_BYTES..NAME_AND_NONCE];
      var put := PutLogin(state.value, txn, ttl, now, fault, rand);
      r := Named(put, state.value);
    }

    method TakeLoginTransaction(state: string, now: int, fault: Fault) returns (r: Result<LoginTransaction, StoreError>)
      requires Valid()
      modifies backend
      ensures Valid() && Did(TakeLogin(state), now, fault, LoginReply(r))
    {
      var sealed := backend.GetDel(LOGIN_PREFIX + state, now, fault);
      assert Unfold(0);
      StepRefines(enc.p, enc.key, old(backend.data), backend.vault, TakeLogin(state), now, fault);
      backend.vault := VaultStep(backend.vault, TakeLogin(state), now, fault).0;
      if sealed.Failure? {
        return Failure(sealed.error);
      }
      var plain := enc.Open(sealed.value);
      if plain.Failure? {
        return Failure(plain.error);
      }
      var txn := enc.p.transactions.unmarshal(plain.value);
      r := if txn.None? then Failure(Malformed) else Success(txn.value);
    }
  }

  /** A store is made only with a key of the right size. */
  method NewStore(backend: RedisBackend, p: Primitives, key: seq<byte>) returns (r: Option<Store>)
    ensures r.Some? <==> |key| == KEY_SIZE
    ensures r.Some? ==> fresh(r.value) && r.value.backend == backend && r.value.enc.p == p && r.value.enc.key == key
  {
    var enc := NewEncryptor(p, key);
    if enc.None? {
      return None;
    }
    var store := new Store(backend, enc.value);
    r := Some(store);
  }
}
