/** The two records the session store keeps. Times are integer nanoseconds. */
module SessionTypes {

  datatype Record = Record(
    subject: string,
    idToken: string,
    expiresAt: int,
    createdAt: int,
    csrfToken: string)

  datatype LoginTransaction = LoginTransaction(
    nonce: string,
    pkceVerifier: string,
    createdAt: int)

  function Seconds(n: int): int { 1_000_000_000 * n }

  function Unix(t: int): int { t / 1_000_000_000 }

  const MINUTE := Seconds(60)
  const HOUR := Seconds(3600)

  /** Five minutes, the lifetime of a started login. */
  const LOGIN_TRANSACTION_TTL := Seconds(300)
}
