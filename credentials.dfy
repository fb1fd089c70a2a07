/** The credential record kept in the per-user credentials file, and the
    validity check applied to it before it is used. */
module Credentials {
  import opened Wrappers

  /** Safety margin: a token is renewed 5 minutes before its stated expiry. */
  const SkewMillis: int := 300000

  /** The persisted record. A `refresh_token` that is absent, null or empty
      (all falsy in the source) is the empty string here. */
  datatype Creds = Creds(
    accessToken: string,
    refreshToken: string,
    expiryDate: int,          // absolute instant, epoch milliseconds
    resourceUrl: Option<string>)

  /** True when `creds` must not be handed out at clock reading `now`. */
  predicate IsExpired(creds: Creds, now: int)
  {
    now > creds.expiryDate - SkewMillis
  }

  /** The comparison is strict: exactly `SkewMillis` before expiry the token
      is still good, one millisecond later it is not. */
  lemma SkewBoundary(creds: Creds)
    ensures !IsExpired(creds, creds.expiryDate - SkewMillis)
    ensures IsExpired(creds, creds.expiryDate - SkewMillis + 1)
  {
  }

  /** A token that is expired stays expired as the clock advances. */
  lemma ExpiryIsMonotone(creds: Creds, earlier: int, later: int)
    requires earlier <= later
    ensures IsExpired(creds, earlier) ==> IsExpired(creds, later)
  {
  }
}
