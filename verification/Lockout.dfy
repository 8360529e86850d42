/** The verify lockout: repeated failures lock a phone, and each address has a
    cap on attempts. Both live in the shared table. */
module Lockout {
  import opened RateTable

  datatype LockoutConfig = LockoutConfig(
    phoneFailureWindowSeconds: int, phoneFailureThreshold: int, phoneLockoutSeconds: int,
    ipWindowSeconds: int, ipMaxPerWindow: int)
  {
    predicate Positive() {
      phoneFailureWindowSeconds > 0 && ipWindowSeconds > 0
    }
  }

  datatype LockoutCheckResult =
    | Allowed
    | PhoneLocked(retryAfterSeconds: int)
    | IpThrottled(retryAfterSeconds: int)

  function Verdict(cfg: LockoutConfig, lockedUntil: int, ipCount: int, now: int): LockoutCheckResult
    requires cfg.Positive()
  {
    if lockedUntil > now then PhoneLocked(lockedUntil - now)
    else if ipCount >= cfg.ipMaxPerWindow then
      IpThrottled(BucketStart(now, cfg.ipWindowSeconds) + cfg.ipWindowSeconds - now)
    else Allowed
  }

  method CheckVerifyAllowed(storage: RateStore, cfg: LockoutConfig, phone: string, ip: string, now: int)
    returns (result: LockoutCheckResult)
    requires cfg.Positive()
    ensures exists until ::
              && IsScalar(storage.rows, LockedUntil(phone), until)
              && result == Verdict(cfg, until,
                                   Get(storage.rows, VerifyIp(ip), BucketStart(now, cfg.ipWindowSeconds)), now)
              && (result.PhoneLocked? <==> now < until)
              && (result.PhoneLocked? ==> result.retryAfterSeconds == until - now)
    ensures
      var start := BucketStart(now, cfg.ipWindowSeconds);
      && (result.IpThrottled? ==> result.retryAfterSeconds == start + cfg.ipWindowSeconds - now)
      && (result.IpThrottled?
          <==> !result.PhoneLocked? && cfg.ipMaxPerWindow <= Get(storage.rows, VerifyIp(ip), start))
  {
    var lockedUntil := storage.ReadScalar(LockedUntil(phone));
    if lockedUntil > now {
      return PhoneLocked(lockedUntil - now);
    }
    var ipBucket := BucketStart(now, cfg.ipWindowSeconds);
    var ipCount := Get(storage.rows, VerifyIp(ip), ipBucket);
    if ipCount >= cfg.ipMaxPerWindow {
      return IpThrottled(ipBucket + cfg.ipWindowSeconds - now);
    }
    result := Allowed;
  }

  method RecordIpAttempt(storage: RateStore, cfg: LockoutConfig, ip: string, now: int) returns (count: int)
    requires cfg.Positive()
    modifies storage
    ensures storage.rows == Bumped(old(storage.rows), VerifyIp(ip), BucketStart(now, cfg.ipWindowSeconds))
    ensures count == Get(old(storage.rows), VerifyIp(ip), BucketStart(now, cfg.ipWindowSeconds)) + 1
  {
    count := storage.BumpRateBucket(VerifyIp(ip), BucketStart(now, cfg.ipWindowSeconds));
  }

  datatype FailureResult = FailureResult(locked: bool, failures: int, until: int)

  /** The table after one more failure. */
  function Failed(cfg: LockoutConfig, t: Table, phone: string, now: int): Table
    requires cfg.Positive()
  {
    var start := BucketStart(now, cfg.phoneFailureWindowSeconds);
    var bumped := Bumped(t, VerifyFailures(phone), start);
    if Get(bumped, VerifyFailures(phone), start) >= cfg.phoneFailureThreshold
    then WithScalar(bumped, LockedUntil(phone), now + cfg.phoneLockoutSeconds)
    else bumped
  }

  method RecordPhoneFailure(storage: RateStore, cfg: LockoutConfig, phone: string, now: int) returns (r: FailureResult)
    requires cfg.Positive()
    modifies storage
    ensures storage.rows == Failed(cfg, old(storage.rows), phone, now)
    ensures r.failures
         == Get(old(storage.rows), VerifyFailures(phone), BucketStart(now, cfg.phoneFailureWindowSeconds)) + 1
    ensures r.locked <==> r.failures >= cfg.phoneFailureThreshold
    ensures r.until == if r.locked then now + cfg.phoneLockoutSeconds else 0
  {
    var failureBucket := BucketStart(now, cfg.phoneFailureWindowSeconds);
    var failures := storage.BumpRateBucket(VerifyFailures(phone), failureBucket);
    if failures >= cfg.phoneFailureThreshold {
      var until := now + cfg.phoneLockoutSeconds;
      storage.WriteScalar(LockedUntil(phone), until);
      return FailureResult(true, failures, until);
    }
    r := FailureResult(false, failures, 0);
  }

  method ClearPhoneFailures(storage: RateStore, phone: string)
    modifies storage
    ensures storage.rows == Without(Without(old(storage.rows), VerifyFailures(phone)), LockedUntil(phone))
  {
    storage.DeleteKey(VerifyFailures(phone));
    storage.DeleteKey(LockedUntil(phone));
  }
}
