/**
 * Expiry-date classification of products. Dates are milliseconds since the
 * epoch; `now` is the reading of the clock at the moment of the check.
 */
module Expiry {
  import opened Wrappers

  /** Milliseconds in a day: 1000 × 60 × 60 × 24. */
  const MsPerDay: int := 86_400_000

  /** `Math.ceil(a / b)` for a positive divisor: the least integer `r` with `a <= r × b`. */
  function CeilDiv(a: int, b: int): (r: int)
    requires b > 0
    ensures (r - 1) * b < a <= r * b
  {
    -((-a) / b)
  }

  /** Whole days, rounded up, from `now` until `expiry` (zero or negative once it has passed). */
  function DaysUntil(expiry: int, now: int): int {
    CeilDiv(expiry - now, MsPerDay)
  }

  /** The product expires within the next 30 days (and has not expired yet). */
  predicate IsNearExpiry(date: Option<int>, now: int) {
    match date
    case None => false
    case Some(expiry) =>
      var days := DaysUntil(expiry, now);
      days <= 30 && days > 0
  }

  /** The expiry date lies strictly in the past. */
  predicate IsExpired(date: Option<int>, now: int) {
    match date
    case None => false
    case Some(expiry) => expiry < now
  }

  /** A product without an expiry date is neither near expiry nor expired. */
  lemma NoDateIsNeither(now: int)
    ensures !IsNearExpiry(None, now) && !IsExpired(None, now)
  {
  }

  /** Near expiry means: later than now, and at most 30 × 24 hours later. */
  lemma NearExpiryWindow(expiry: int, now: int)
    ensures IsNearExpiry(Some(expiry), now) <==> now < expiry <= now + 30 * MsPerDay
  {
    var days := DaysUntil(expiry, now);
    var diff := expiry - now;
    assert (days - 1) * MsPerDay < diff <= days * MsPerDay;
    if days > 0 && days <= 30 {
      assert days * MsPerDay <= 30 * MsPerDay;
      assert 0 < diff;
    }
  }

  /** No date is both near expiry and expired. */
  lemma NeverNearAndExpired(date: Option<int>, now: int)
    ensures !(IsNearExpiry(date, now) && IsExpired(date, now))
  {
    if date.Some? {
      NearExpiryWindow(date.value, now);
    }
  }

  /** A product expiring at this very instant is neither near expiry nor expired. */
  lemma ExpiringNowIsNeither(now: int)
    ensures !IsNearExpiry(Some(now), now) && !IsExpired(Some(now), now)
  {
    NearExpiryWindow(now, now);
  }

  /** A product expiring more than 30 days from now is neither near expiry nor expired. */
  lemma FarFutureIsNeither(expiry: int, now: int)
    requires expiry > now + 30 * MsPerDay
    ensures !IsNearExpiry(Some(expiry), now) && !IsExpired(Some(expiry), now)
  {
    NearExpiryWindow(expiry, now);
  }
}
