/**
 What the session store means: two separate maps with expiry, one of sessions
 and one of login transactions. SessionStore proves that the encrypted byte
 store implements these functions; Protocol runs the whole system over them.
 */
module Vault {
  import opened Wrappers
  import opened SessionTypes

  /** A stored value and when it ends, if it ends. */
  datatype Timed<+V> = Timed(value: V, deadline: Option<int>)

  datatype Vault = Vault(
    sessions: map<string, Timed<Record>>,
    logins: map<string, Timed<LoginTransaction>>)

  const Empty := Vault(map[], map[])

  predicate Alive(deadline: Option<int>, now: int)
  {
    deadline.None? || now < deadline.value
  }

  /** A key is readable strictly before its deadline and never after. */
  function Look<V>(m: map<string, Timed<V>>, key: string, now: int): Option<V>
  {
    if key in m && Alive(m[key].deadline, now) then Some(m[key].value) else None
  }

  /** The lifetime argument that leaves a key's deadline as it is. */
  const KEEP_TTL := -1

  /**
   The deadline a SET leaves: a positive lifetime ends, any other does not, except that
   KEEP_TTL keeps what was there.
   */
  function Expiry<V>(m: map<string, Timed<V>>, key: string, ttl: int, now: int): Option<int>
  {
    if ttl > 0 then Some(now + ttl)
    else if ttl == KEEP_TTL && key in m && Alive(m[key].deadline, now) then m[key].deadline
    else None
  }

  function PutSession(v: Vault, id: string, rec: Record, ttl: int, now: int): Vault
  {
    v.(sessions := v.sessions[id := Timed(rec, Expiry(v.sessions, id, ttl, now))])
  }

  function DropSession(v: Vault, id: string): Vault
  {
    v.(sessions := v.sessions - {id})
  }

  function PutLogin(v: Vault, state: string, txn: LoginTransaction, ttl: int, now: int): Vault
  {
    v.(logins := v.logins[state := Timed(txn, Expiry(v.logins, state, ttl, now))])
  }

  function DropLogin(v: Vault, state: string): Vault
  {
    v.(logins := v.logins - {state})
  }
}
