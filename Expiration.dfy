/**
 * `getAccessTokenExpirationDate`: the absolute time (milliseconds) at which a
 * token should be treated as expired: 90% of its advertised lifetime, and at
 * most one day, after `now`.
 */
module Expiration {
  import opened Wrappers

  const DefaultLifetimeSeconds: int := 3600
  /** One day in milliseconds, the longest a token is trusted. */
  const DayMs: int := 24 * 3600 * 1000
  /** 0.9 × 1000: milliseconds of trust per advertised second. */
  const MsPerSecond: int := 900
  /** The lifetime above which the one-day cap applies. */
  const CapThresholdSeconds: int := 96000

  /** `expires_in || 3600`: an absent lifetime and a lifetime of 0 both mean 3600. */
  function Lifetime(expiresIn: Option<int>): int
  {
    if expiresIn.None? || expiresIn.value == 0 then DefaultLifetimeSeconds else expiresIn.value
  }

  /** The lesser of `now + E·900` and `now + 24h`, where `E` is the effective lifetime. */
  function AccessTokenExpirationDate(expiresIn: Option<int>, now: int): (r: int)
    ensures r <= now + DayMs
    ensures r <= now + Lifetime(expiresIn) * MsPerSecond
    ensures r == now + DayMs || r == now + Lifetime(expiresIn) * MsPerSecond
  {
    var margin := now + Lifetime(expiresIn) * MsPerSecond;
    var cap := now + DayMs;
    if margin < cap then margin else cap
  }

  /** A token with a positive lifetime expires strictly after `now`. */
  lemma ExpiresAfterNow(expiresIn: Option<int>, now: int)
    requires Lifetime(expiresIn) > 0
    ensures now < AccessTokenExpirationDate(expiresIn, now)
  {
  }

  /** No lifetime and a lifetime of 0 are both treated as one hour. */
  lemma DefaultLifetime(now: int)
    ensures AccessTokenExpirationDate(None, now) == now + 3240000
    ensures AccessTokenExpirationDate(Some(0), now) == now + 3240000
    ensures AccessTokenExpirationDate(Some(3600), now) == now + 3240000
  {
  }

  /** A longer advertised lifetime never gives an earlier expiration. */
  lemma Monotone(e1: int, e2: int, now: int)
    requires 0 < e1 <= e2
    ensures AccessTokenExpirationDate(Some(e1), now) <= AccessTokenExpirationDate(Some(e2), now)
  {
  }

  /** The one-day cap cuts the margin exactly when the lifetime exceeds 96 000 seconds. */
  lemma CapAppliesExactly(expiresIn: Option<int>, now: int)
    ensures AccessTokenExpirationDate(expiresIn, now) < now + Lifetime(expiresIn) * MsPerSecond
            <==> Lifetime(expiresIn) > CapThresholdSeconds
  {
  }
}
