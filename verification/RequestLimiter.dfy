/** The one-time-password request limiter: a per-phone cool-down and hourly
    caps per phone and per address, in aligned windows. */
module RequestLimiter {
  import opened RateTable

  datatype RateLimitConfig = RateLimitConfig(phoneCooldownSeconds: int, phoneHourlyMax: int, ipHourlyMax: int)

  datatype BlockReason = CooldownPhone | HourlyPhone | HourlyIp

  datatype RateLimitResult =
    | Accepted(count: int, windowStart: int)
    | Blocked(reason: BlockReason, retryAfterSeconds: int)

  const PRUNE_AFTER := 2 * SECONDS_PER_HOUR

  /** The decision, from the three counts it is based on. */
  function Decision(cfg: RateLimitConfig, cooldown: int, phoneHourly: int, ipHourly: int, now: int): RateLimitResult
    requires cfg.phoneCooldownSeconds > 0
  {
    var hour := BucketStart(now, SECONDS_PER_HOUR);
    if cooldown >= 1 then
      Blocked(CooldownPhone, BucketStart(now, cfg.phoneCooldownSeconds) + cfg.phoneCooldownSeconds - now)
    else if phoneHourly >= cfg.phoneHourlyMax then Blocked(HourlyPhone, hour + SECONDS_PER_HOUR - now)
    else if ipHourly >= cfg.ipHourlyMax then Blocked(HourlyIp, hour + SECONDS_PER_HOUR - now)
    else Accepted(phoneHourly + 1, hour)
  }

  function TableDecision(cfg: RateLimitConfig, t: Table, phone: string, ip: string, now: int): RateLimitResult
    requires cfg.phoneCooldownSeconds > 0
  {
    var hour := BucketStart(now, SECONDS_PER_HOUR);
    Decision(cfg,
      Get(t, PhoneCooldown(phone), BucketStart(now, cfg.phoneCooldownSeconds)),
      Get(t, PhoneHourly(phone), hour),
      Get(t, IpHourly(ip), hour),
      now)
  }

  /** The three bumps of an accepted request. */
  function Counted(cfg: RateLimitConfig, t: Table, phone: string, ip: string, now: int): Table
    requires cfg.phoneCooldownSeconds > 0
  {
    var hour := BucketStart(now, SECONDS_PER_HOUR);
    var cooldown := Bumped(t, PhoneCooldown(phone), BucketStart(now, cfg.phoneCooldownSeconds));
    Bumped(Bumped(cooldown, PhoneHourly(phone), hour), IpHourly(ip), hour)
  }

  method CheckOtpRequestLimit(storage: RateStore, cfg: RateLimitConfig, phone: string, ip: string, now: int)
    returns (result: RateLimitResult)
    requires cfg.phoneCooldownSeconds > 0
    modifies storage
    ensures result == TableDecision(cfg, old(storage.rows), phone, ip, now)
    ensures result.Accepted?
       <==> && Get(old(storage.rows), PhoneCooldown(phone), BucketStart(now, cfg.phoneCooldownSeconds)) < 1
            && Get(old(storage.rows), PhoneHourly(phone), BucketStart(now, 3600)) < cfg.phoneHourlyMax
            && Get(old(storage.rows), IpHourly(ip), BucketStart(now, 3600)) < cfg.ipHourlyMax
    ensures result.Blocked? ==> storage.rows == old(storage.rows)
    ensures result.Accepted? ==>
      storage.rows == Pruned(Counted(cfg, old(storage.rows), phone, ip, now), now - PRUNE_AFTER)
  {
    var cooldownBucket := BucketStart(now, cfg.phoneCooldownSeconds);
    if Get(storage.rows, PhoneCooldown(phone), cooldownBucket) >= 1 {
      return Blocked(CooldownPhone, cooldownBucket + cfg.phoneCooldownSeconds - now);
    }
    var hourlyBucket := BucketStart(now, SECONDS_PER_HOUR);
    if Get(storage.rows, PhoneHourly(phone), hourlyBucket) >= cfg.phoneHourlyMax {
      return Blocked(HourlyPhone, hourlyBucket + SECONDS_PER_HOUR - now);
    }
    if Get(storage.rows, IpHourly(ip), hourlyBucket) >= cfg.ipHourlyMax {
      return Blocked(HourlyIp, hourlyBucket + SECONDS_PER_HOUR - now);
    }
    var _ := storage.BumpRateBucket(PhoneCooldown(phone), cooldownBucket);
    var newPhoneHourly := storage.BumpRateBucket(PhoneHourly(phone), hourlyBucket);
    var _ := storage.BumpRateBucket(IpHourly(ip), hourlyBucket);
    var _ := storage.PruneRateBuckets(now - PRUNE_AFTER);
    result := Accepted(newPhoneHourly, hourlyBucket);
  }

  /** A blocked caller is told to wait out exactly the rest of the window it
      fills: one second less and the same buckets are asked, then the next. */
  lemma RetryAfterIsWindowEnd(cfg: RateLimitConfig, t: Table, phone: string, ip: string, now: int)
    requires cfg.phoneCooldownSeconds > 0 && TableDecision(cfg, t, phone, ip, now).Blocked?
    ensures
      var r := TableDecision(cfg, t, phone, ip, now);
      var w := if r.reason == CooldownPhone then cfg.phoneCooldownSeconds else SECONDS_PER_HOUR;
      && 0 < r.retryAfterSeconds <= w
      && BucketStart(now + r.retryAfterSeconds - 1, w) == BucketStart(now, w)
      && BucketStart(now + r.retryAfterSeconds, w) == BucketStart(now, w) + w
  {
    var r := TableDecision(cfg, t, phone, ip, now);
    var w := if r.reason == CooldownPhone then cfg.phoneCooldownSeconds else SECONDS_PER_HOUR;
    var b := BucketStart(now, w);
    SameBucket(b, b + w - 1, w);
    NextBucket(b, w);
    SameBucket(b + w, b + w, w);
  }

  lemma NextBucket(b: int, w: int)
    requires w > 0 && b % w == 0
    ensures (b + w) % w == 0
  {
    var q := b / w;
    assert b == q * w;
    MultipleDivides(q + 1, w);
    assert b + w == (q + 1) * w;
  }
}
