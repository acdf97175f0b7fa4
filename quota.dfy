/** The two time-based limits of the bot, as pure functions of a complete
    user record and the current time: the 30-day rolling quota of review
    requests and the one-day cooldown of the daily picture. */
module Quota {
  import opened Wrappers
  import opened Records

  /** `timedelta(days=30)` and `timedelta(days=1)`, in seconds. */
  const MONTH: int := 30 * 24 * 60 * 60
  const DAY: int := 24 * 60 * 60

  /** Review requests a non-premium user may make per window. */
  const MONTHLY_LIMIT: int := 5

  /** The window seeded at `r.isshonkReset` is over: strictly more than
      30 days have passed (src/main.py:84). */
  predicate WindowExpired(r: UserRecord, now: Time) {
    r.isshonkReset.Some? && now > r.isshonkReset.value + MONTH
  }

  /** `reset_isshonk_uses` (src/main.py:80-90). */
  function MonthlyReset(r: UserRecord, now: Time): (r': UserRecord)
    // only the counter and its stamp can change
    ensures r' == r.(isshonkUses := r'.isshonkUses, isshonkReset := r'.isshonkReset)
    // an expired window restarts now with no uses
    ensures WindowExpired(r, now) ==> r'.isshonkUses == 0 && r'.isshonkReset == Some(now)
    // a running window is left alone
    ensures r.isshonkReset.Some? && !WindowExpired(r, now) ==> r' == r
    // the first use seeds the stamp and keeps the counter
    ensures r.isshonkReset.None? ==> r'.isshonkUses == r.isshonkUses && r'.isshonkReset == Some(now)
    // afterwards a window is always running at `now`
    ensures r'.isshonkReset.Some? && !WindowExpired(r', now)
    ensures r'.isshonkUses <= r.isshonkUses || r'.isshonkUses == 0
  {
    match r.isshonkReset
    case Some(stamp) =>
      if now > stamp + MONTH then r.(isshonkUses := 0, isshonkReset := Some(now)) else r
    case None =>
      r.(isshonkReset := Some(now))
  }

  /** The refusal test of src/main.py:178: a non-premium user who has used
      the whole monthly allowance. */
  predicate OverLimit(r: UserRecord) {
    !r.premium && r.isshonkUses >= MONTHLY_LIMIT
  }

  /** The usage update after a review (src/main.py:212-214). */
  function Consume(r: UserRecord): (r': UserRecord)
    ensures r' == r.(isshonkUses := r'.isshonkUses)
    ensures !r.premium ==> r'.isshonkUses == r.isshonkUses + 1
    ensures r.premium ==> r' == r
  {
    if !r.premium then r.(isshonkUses := r.isshonkUses + 1) else r
  }

  /** The daily refusal of src/main.py:336-338: the last claim is less than
      one day old. */
  predicate CooldownActive(r: UserRecord, now: Time) {
    r.dailyReset.Some? && now < r.dailyReset.value + DAY
  }

  /** The record update of a successful daily claim (src/main.py:362-363). */
  function Claim(r: UserRecord, now: Time, filename: string): (r': UserRecord)
    ensures r' == r.(dailyReset := Some(now), shonks := r'.shonks)
    ensures r'.shonks == r.shonks + [filename]
    ensures |r'.shonks| == |r.shonks| + 1
  {
    r.(dailyReset := Some(now), shonks := r.shonks + [filename])
  }

  /** After a claim at `t0` the next one is refused exactly until
      `t0 + DAY`: refused at 23h59m, allowed at 24h. */
  lemma CooldownLastsOneDay(r: UserRecord, t0: Time, f: string, t: Time)
    ensures CooldownActive(Claim(r, t0, f), t) <==> t < t0 + DAY
  {
  }

  /** Applying the monthly reset twice at the same time changes nothing more. */
  lemma MonthlyResetIdempotent(r: UserRecord, now: Time)
    ensures MonthlyReset(MonthlyReset(r, now), now) == MonthlyReset(r, now)
  {
  }

  /** A user at the limit whose window has expired, at whatever time after
      the 30 days, is admitted again, and after one more review has used
      exactly one request of the new window. */
  lemma ExpiredWindowReadmits(r: UserRecord, now: Time)
    requires !r.premium && r.isshonkUses == MONTHLY_LIMIT
    requires r.isshonkReset.Some? && now > r.isshonkReset.value + MONTH
    ensures OverLimit(r)
    ensures !OverLimit(MonthlyReset(r, now))
    ensures Consume(MonthlyReset(r, now)).isshonkUses == 1
  {
  }
}
