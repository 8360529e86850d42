/** The limiters together: any interleaving of calls at non-decreasing times
    over one table that the request limiter prunes, against a call log. */
module Limits {
  import opened Options
  import opened RateTable
  import opened RequestLimiter
  import opened Lockout

  datatype Config = Config(otp: RateLimitConfig, lockout: LockoutConfig)
  {
    predicate Positive() {
      otp.phoneCooldownSeconds > 0 && lockout.Positive()
    }
  }

  /** What the log remembers: one bump of one counter, or a phone's failures
      being cleared. */
  datatype Entry = Bump(key: Key, start: int, at: int) | Wipe(phone: string)

  datatype World = World(rows: Table, log: seq<Entry>, clock: int)

  datatype Step =
    | Request(phone: string, ip: string, now: int)
    | IpAttempt(ip: string, now: int)
    | PhoneFailure(phone: string, now: int)
    | PhoneSuccess(phone: string)
    | ChannelSent(channel: string, now: int)

  function Start(): World {
    World(map[], [], 0)
  }

  predicate Timely(w: World, step: Step) {
    step.PhoneSuccess? || w.clock <= step.now
  }

  /** The window each counter is kept over. */
  function Window(cfg: Config, key: Key): (w: int)
    requires cfg.Positive()
    ensures w > 0
  {
    match key
    case PhoneCooldown(_) => cfg.otp.phoneCooldownSeconds
    case VerifyFailures(_) => cfg.lockout.phoneFailureWindowSeconds
    case VerifyIp(_) => cfg.lockout.ipWindowSeconds
    case _ => SECONDS_PER_HOUR
  }

  function Bucket(cfg: Config, key: Key, now: int): int
    requires cfg.Positive()
  {
    BucketStart(now, Window(cfg, key))
  }

  function BumpAt(cfg: Config, key: Key, now: int): Entry
    requires cfg.Positive()
  {
    Bump(key, Bucket(cfg, key, now), now)
  }

  function Next(cfg: Config, w: World, step: Step): World
    requires cfg.Positive()
  {
    match step
    case Request(phone, ip, now) =>
      if TableDecision(cfg.otp, w.rows, phone, ip, now).Accepted? then
        World(Pruned(Counted(cfg.otp, w.rows, phone, ip, now), now - PRUNE_AFTER),
              w.log + [BumpAt(cfg, PhoneCooldown(phone), now)] + [BumpAt(cfg, PhoneHourly(phone), now)]
                    + [BumpAt(cfg, IpHourly(ip), now)],
              now)
      else w.(clock := now)
    case IpAttempt(ip, now) =>
      World(Bumped(w.rows, VerifyIp(ip), Bucket(cfg, VerifyIp(ip), now)), w.log + [BumpAt(cfg, VerifyIp(ip), now)], now)
    case PhoneFailure(phone, now) =>
      World(Failed(cfg.lockout, w.rows, phone, now), w.log + [BumpAt(cfg, VerifyFailures(phone), now)], now)
    case PhoneSuccess(phone) =>
      World(Without(Without(w.rows, VerifyFailures(phone)), LockedUntil(phone)), w.log + [Wipe(phone)], w.clock)
    case ChannelSent(channel, now) =>
      World(Bumped(w.rows, ChannelSend(channel), Bucket(cfg, ChannelSend(channel), now)),
            w.log + [BumpAt(cfg, ChannelSend(channel), now)], now)
  }

  function After(cfg: Config, steps: seq<Step>): World
    requires cfg.Positive()
  {
    if steps == [] then Start() else Next(cfg, After(cfg, steps[..|steps| - 1]), steps[|steps| - 1])
  }

  ghost predicate Chronological(cfg: Config, steps: seq<Step>)
    requires cfg.Positive()
  {
    steps == []
    || (Chronological(cfg, steps[..|steps| - 1]) && Timely(After(cfg, steps[..|steps| - 1]), steps[|steps| - 1]))
  }

  // ---------- what the log says ----------

  /** Bumps of a counter since its last wipe. */
  function Tally(log: seq<Entry>, key: Key, start: int): nat {
    if log == [] then 0
    else
      var before := Tally(log[..|log| - 1], key, start);
      match log[|log| - 1]
      case Bump(k, s, _) => if k == key && s == start then before + 1 else before
      case Wipe(phone) => if key == VerifyFailures(phone) then 0 else before
  }

  /** When a failure last reached the threshold, unless cleared since. */
  function LastTrip(cfg: Config, log: seq<Entry>, phone: string): Option<int> {
    if log == [] then None
    else
      var before := LastTrip(cfg, log[..|log| - 1], phone);
      match log[|log| - 1]
      case Bump(k, s, at) =>
        if k == VerifyFailures(phone) && Tally(log, k, s) >= cfg.lockout.phoneFailureThreshold then Some(at) else before
      case Wipe(p) => if p == phone then None else before
  }

  function LogDecision(cfg: Config, log: seq<Entry>, phone: string, ip: string, now: int): RateLimitResult
    requires cfg.Positive()
  {
    Decision(cfg.otp,
      Tally(log, PhoneCooldown(phone), Bucket(cfg, PhoneCooldown(phone), now)),
      Tally(log, PhoneHourly(phone), Bucket(cfg, PhoneHourly(phone), now)),
      Tally(log, IpHourly(ip), Bucket(cfg, IpHourly(ip), now)),
      now)
  }

  function LogVerdict(cfg: Config, log: seq<Entry>, phone: string, ip: string, now: int): LockoutCheckResult
    requires cfg.Positive()
  {
    var trip := LastTrip(cfg, log, phone);
    var lockedUntil := if trip.Some? then trip.value + cfg.lockout.phoneLockoutSeconds else 0;
    Verdict(cfg.lockout, lockedUntil, Tally(log, VerifyIp(ip), Bucket(cfg, VerifyIp(ip), now)), now)
  }

  // ---------- reading a changed table ----------

  lemma GetAfter(t: Table, key: Key, start: int, k: Key, s: int)
    ensures Get(Bumped(t, key, start), k, s) == Get(t, k, s) + (if k == key && s == start then 1 else 0)
    ensures k != key ==> Starts(Bumped(t, key, start), k) == Starts(t, k)
  {
    if k != key {
      SameStarts(t, Bumped(t, key, start), k);
    }
  }

  lemma SameStarts(t: Table, u: Table, k: Key)
    requires forall r: Row :: r in t && r.key == k <==> r in u && r.key == k
    ensures Starts(t, k) == Starts(u, k)
  {
    forall s
      ensures s in Starts(t, k) <==> s in Starts(u, k)
    {
      StartsAre(t, k, s);
      StartsAre(u, k, s);
    }
  }

  lemma StartsAre(t: Table, k: Key, s: int)
    ensures s in Starts(t, k) <==> Row(k, s) in t
  {
    if Row(k, s) in t {
      assert Row(k, s).start in Starts(t, k);
    }
  }

  lemma GetPruned(t: Table, olderThan: int, k: Key, s: int)
    ensures Get(Pruned(t, olderThan), k, s) == if olderThan <= s then Get(t, k, s) else 0
    ensures Starts(Pruned(t, olderThan), k) == (set v | v in Starts(t, k) && olderThan <= v)
  {
    forall v
      ensures v in Starts(Pruned(t, olderThan), k) <==> v in Starts(t, k) && olderThan <= v
    {
      StartsAre(t, k, v);
      StartsAre(Pruned(t, olderThan), k, v);
    }
  }

  lemma GetWithout(t: Table, key: Key, k: Key, s: int)
    ensures Get(Without(t, key), k, s) == if k == key then 0 else Get(t, k, s)
    ensures Starts(Without(t, key), k) == if k == key then {} else Starts(t, k)
  {
    if k != key {
      SameStarts(t, Without(t, key), k);
    }
  }

  lemma GetScalar(t: Table, key: Key, value: int, k: Key, s: int)
    ensures k != key ==> Get(WithScalar(t, key, value), k, s) == Get(t, k, s)
    ensures Starts(WithScalar(t, key, value), k) == if k == key then {value} else Starts(t, k)
  {
    var u := WithScalar(t, key, value);
    if k == key {
      forall v
        ensures v in Starts(u, k) <==> v == value
      {
        StartsAre(u, k, v);
      }
    } else {
      SameStarts(t, u, k);
    }
  }

  // ---------- the invariant ----------

  /** Counters young enough not to have been pruned agree with the log. */
  ghost predicate Current(w: World) {
    forall key: Key, start: int :: !key.LockedUntil? && start >= w.clock - PRUNE_AFTER
      ==> Get(w.rows, key, start) == Tally(w.log, key, start)
  }

  /** One sentinel at most: where the last trip put it, until it is so old that
      pruning may have taken it. */
  ghost predicate SentinelAt(cfg: Config, w: World, phone: string) {
    var starts := Starts(w.rows, LockedUntil(phone));
    match LastTrip(cfg, w.log, phone)
    case None => starts == {}
    case Some(at) =>
      var until := at + cfg.lockout.phoneLockoutSeconds;
      at <= w.clock && (starts == {until} || (starts == {} && until < w.clock - PRUNE_AFTER))
  }

  ghost predicate Sentinels(cfg: Config, w: World) {
    forall phone :: SentinelAt(cfg, w, phone)
  }

  /** Log entries are in order of time and in the bucket of their time. */
  ghost predicate Dated(cfg: Config, w: World)
    requires cfg.Positive()
  {
    && (forall i :: 0 <= i < |w.log| && w.log[i].Bump? ==>
          !w.log[i].key.LockedUntil? && w.log[i] == BumpAt(cfg, w.log[i].key, w.log[i].at) && w.log[i].at <= w.clock)
    && (forall i, j :: 0 <= i < j < |w.log| && w.log[i].Bump? && w.log[j].Bump? ==> w.log[i].at <= w.log[j].at)
  }

  ghost predicate Valid(cfg: Config, w: World)
    requires cfg.Positive()
  {
    Current(w) && Sentinels(cfg, w) && Dated(cfg, w) && 0 <= w.clock
  }

  lemma OneMore(log: seq<Entry>, e: Entry, key: Key, start: int)
    ensures e.Bump? ==>
              Tally(log + [e], key, start)
              == Tally(log, key, start) + (if e.key == key && e.start == start then 1 else 0)
    ensures e.Wipe? ==>
              Tally(log + [e], key, start) == if key == VerifyFailures(e.phone) then 0 else Tally(log, key, start)
  {
    assert (log + [e])[..|log|] == log;
  }

  lemma TripAfter(cfg: Config, log: seq<Entry>, e: Entry, phone: string)
    ensures e.Bump? ==>
              LastTrip(cfg, log + [e], phone)
              == if e.key == VerifyFailures(phone)
                    && Tally(log, e.key, e.start) + 1 >= cfg.lockout.phoneFailureThreshold
                 then Some(e.at)
                 else LastTrip(cfg, log, phone)
    ensures e.Wipe? ==> LastTrip(cfg, log + [e], phone) == if e.phone == phone then None else LastTrip(cfg, log, phone)
  {
    assert (log + [e])[..|log|] == log;
    if e.Bump? {
      OneMore(log, e, e.key, e.start);
    }
  }

  lemma Later(cfg: Config, w: World, now: int)
    requires cfg.Positive() && Valid(cfg, w) && w.clock <= now
    ensures Valid(cfg, w.(clock := now))
  {
    hide Tally, LastTrip, Starts;
    forall phone
      ensures SentinelAt(cfg, w.(clock := now), phone)
    {
      assert SentinelAt(cfg, w, phone);
    }
  }

  /** Counting one more call of a kind other than a phone failure. */
  lemma BumpKeeps(cfg: Config, w: World, key: Key)
    requires cfg.Positive() && Valid(cfg, w)
    requires !key.LockedUntil? && !key.VerifyFailures?
    ensures Valid(cfg, World(Bumped(w.rows, key, Bucket(cfg, key, w.clock)),
                             w.log + [BumpAt(cfg, key, w.clock)], w.clock))
  {
    hide Tally, LastTrip, Starts, Bumped, Get, BucketStart, Window;
    var e := BumpAt(cfg, key, w.clock);
    var v := World(Bumped(w.rows, key, Bucket(cfg, key, w.clock)), w.log + [e], w.clock);
    forall k: Key, s: int | !k.LockedUntil? && s >= v.clock - PRUNE_AFTER
      ensures Get(v.rows, k, s) == Tally(v.log, k, s)
    {
      GetAfter(w.rows, key, e.start, k, s);
      OneMore(w.log, e, k, s);
    }
    forall phone
      ensures SentinelAt(cfg, v, phone)
    {
      assert SentinelAt(cfg, w, phone);
      GetAfter(w.rows, key, e.start, LockedUntil(phone), 0);
      TripAfter(cfg, w.log, e, phone);
    }
  }

  lemma PruneKeeps(cfg: Config, w: World)
    requires cfg.Positive() && Valid(cfg, w)
    ensures Valid(cfg, w.(rows := Pruned(w.rows, w.clock - PRUNE_AFTER)))
  {
    hide Tally, LastTrip, Starts, Pruned, Get;
    var v := w.(rows := Pruned(w.rows, w.clock - PRUNE_AFTER));
    forall k: Key, s: int | !k.LockedUntil? && s >= v.clock - PRUNE_AFTER
      ensures Get(v.rows, k, s) == Tally(v.log, k, s)
    {
      GetPruned(w.rows, w.clock - PRUNE_AFTER, k, s);
    }
    forall phone
      ensures SentinelAt(cfg, v, phone)
    {
      assert SentinelAt(cfg, w, phone);
      GetPruned(w.rows, w.clock - PRUNE_AFTER, LockedUntil(phone), 0);
    }
  }

  /** A failure is counted from its true tally, because its window is still
      in the table. */
  lemma FailureKeeps(cfg: Config, w: World, phone: string)
    requires cfg.Positive() && Valid(cfg, w)
    requires Bucket(cfg, VerifyFailures(phone), w.clock) >= w.clock - PRUNE_AFTER
    ensures Valid(cfg, World(Failed(cfg.lockout, w.rows, phone, w.clock),
                             w.log + [BumpAt(cfg, VerifyFailures(phone), w.clock)], w.clock))
  {
    hide Tally, LastTrip, Starts, Bumped, Get, WithScalar, BucketStart;
    var key := VerifyFailures(phone);
    var e := BumpAt(cfg, key, w.clock);
    var v := World(Failed(cfg.lockout, w.rows, phone, w.clock), w.log + [e], w.clock);
    var until := w.clock + cfg.lockout.phoneLockoutSeconds;
    var bumped := Bumped(w.rows, key, e.start);
    forall k: Key, s: int | !k.LockedUntil? && s >= v.clock - PRUNE_AFTER
      ensures Get(v.rows, k, s) == Tally(v.log, k, s)
    {
      GetAfter(w.rows, key, e.start, k, s);
      OneMore(w.log, e, k, s);
      GetScalar(bumped, LockedUntil(phone), until, k, s);
    }
    GetAfter(w.rows, key, e.start, key, e.start);
    assert Get(w.rows, key, e.start) == Tally(w.log, key, e.start);
    forall p
      ensures SentinelAt(cfg, v, p)
    {
      assert SentinelAt(cfg, w, p);
      GetAfter(w.rows, key, e.start, LockedUntil(p), 0);
      GetScalar(bumped, LockedUntil(phone), until, LockedUntil(p), 0);
      TripAfter(cfg, w.log, e, p);
    }
  }

  lemma WipeKeeps(cfg: Config, w: World, phone: string)
    requires cfg.Positive() && Valid(cfg, w)
    ensures Valid(cfg, Next(cfg, w, PhoneSuccess(phone)))
  {
    hide Tally, LastTrip, Starts, Without, Get;
    var v := Next(cfg, w, PhoneSuccess(phone));
    var once := Without(w.rows, VerifyFailures(phone));
    forall k: Key, s: int | !k.LockedUntil? && s >= v.clock - PRUNE_AFTER
      ensures Get(v.rows, k, s) == Tally(v.log, k, s)
    {
      GetWithout(w.rows, VerifyFailures(phone), k, s);
      GetWithout(once, LockedUntil(phone), k, s);
      OneMore(w.log, Wipe(phone), k, s);
    }
    forall p
      ensures SentinelAt(cfg, v, p)
    {
      assert SentinelAt(cfg, w, p);
      GetWithout(w.rows, VerifyFailures(phone), LockedUntil(p), 0);
      GetWithout(once, LockedUntil(phone), LockedUntil(p), 0);
      TripAfter(cfg, w.log, Wipe(phone), p);
    }
  }

  /** Every window fits between a pruning and its cut-off. */
  predicate WindowsFit(cfg: Config) {
    && cfg.otp.phoneCooldownSeconds <= PRUNE_AFTER + 1
    && cfg.lockout.phoneFailureWindowSeconds <= PRUNE_AFTER + 1
    && cfg.lockout.ipWindowSeconds <= PRUNE_AFTER + 1
  }

  lemma BucketKept(cfg: Config, key: Key, now: int)
    requires cfg.Positive() && WindowsFit(cfg)
    ensures Bucket(cfg, key, now) >= now - PRUNE_AFTER
  {
  }

  lemma RequestKeeps(cfg: Config, w: World, phone: string, ip: string)
    requires cfg.Positive() && Valid(cfg, w)
    ensures Valid(cfg, Next(cfg, w, Request(phone, ip, w.clock)))
  {
    hide Valid, Bumped, Pruned, BucketStart;
    var a := World(Bumped(w.rows, PhoneCooldown(phone), Bucket(cfg, PhoneCooldown(phone), w.clock)),
                   w.log + [BumpAt(cfg, PhoneCooldown(phone), w.clock)], w.clock);
    BumpKeeps(cfg, w, PhoneCooldown(phone));
    var b := World(Bumped(a.rows, PhoneHourly(phone), Bucket(cfg, PhoneHourly(phone), w.clock)),
                   a.log + [BumpAt(cfg, PhoneHourly(phone), w.clock)], w.clock);
    BumpKeeps(cfg, a, PhoneHourly(phone));
    var c := World(Bumped(b.rows, IpHourly(ip), Bucket(cfg, IpHourly(ip), w.clock)),
                   b.log + [BumpAt(cfg, IpHourly(ip), w.clock)], w.clock);
    BumpKeeps(cfg, b, IpHourly(ip));
    PruneKeeps(cfg, c);
  }

  lemma NextKeeps(cfg: Config, w: World, step: Step)
    requires cfg.Positive() && WindowsFit(cfg) && Valid(cfg, w) && Timely(w, step)
    ensures Valid(cfg, Next(cfg, w, step))
  {
    hide Valid, Bumped, Failed, BucketStart;
    match step
    case Request(phone, ip, now) =>
      Later(cfg, w, now);
      RequestKeeps(cfg, w.(clock := now), phone, ip);
    case IpAttempt(ip, now) =>
      Later(cfg, w, now);
      BumpKeeps(cfg, w.(clock := now), VerifyIp(ip));
    case PhoneFailure(phone, now) =>
      Later(cfg, w, now);
      BucketKept(cfg, VerifyFailures(phone), now);
      FailureKeeps(cfg, w.(clock := now), phone);
    case PhoneSuccess(phone) =>
      WipeKeeps(cfg, w, phone);
    case ChannelSent(channel, now) =>
      Later(cfg, w, now);
      BumpKeeps(cfg, w.(clock := now), ChannelSend(channel));
  }

  lemma {:induction false} AfterValid(cfg: Config, steps: seq<Step>)
    requires cfg.Positive() && WindowsFit(cfg) && Chronological(cfg, steps)
    ensures Valid(cfg, After(cfg, steps))
  {
    if steps != [] {
      AfterValid(cfg, steps[..|steps| - 1]);
      NextKeeps(cfg, After(cfg, steps[..|steps| - 1]), steps[|steps| - 1]);
    }
  }

  // ---------- the table answers like the log ----------

  /** After any run, whatever was pruned, the request limiter, the lockout and
      the throttle's counter answer as if the whole log had been kept. */
  lemma TableAnswersLikeLog(cfg: Config, steps: seq<Step>, phone: string, ip: string, channel: string, now: int,
      until: int)
    requires cfg.Positive() && WindowsFit(cfg) && Chronological(cfg, steps)
    requires After(cfg, steps).clock <= now
    requires IsScalar(After(cfg, steps).rows, LockedUntil(phone), until)
    ensures
      var w := After(cfg, steps);
      && TableDecision(cfg.otp, w.rows, phone, ip, now) == LogDecision(cfg, w.log, phone, ip, now)
      && Verdict(cfg.lockout, until, Get(w.rows, VerifyIp(ip), Bucket(cfg, VerifyIp(ip), now)), now)
         == LogVerdict(cfg, w.log, phone, ip, now)
      && Get(w.rows, ChannelSend(channel), Bucket(cfg, ChannelSend(channel), now))
         == Tally(w.log, ChannelSend(channel), Bucket(cfg, ChannelSend(channel), now))
  {
    hide Tally, LastTrip, Get, BucketStart;
    AfterValid(cfg, steps);
    var w := After(cfg, steps);
    BucketKept(cfg, PhoneCooldown(phone), now);
    BucketKept(cfg, PhoneHourly(phone), now);
    BucketKept(cfg, IpHourly(ip), now);
    BucketKept(cfg, VerifyIp(ip), now);
    BucketKept(cfg, ChannelSend(channel), now);
    assert SentinelAt(cfg, w, phone);
  }

  // ---------- the lockout, declared ----------

  /** Entry i is a failure that was at least the threshold-th of its window
      since the last clear, and none came after it. */
  ghost predicate Trips(cfg: Config, log: seq<Entry>, phone: string, i: int) {
    && 0 <= i < |log|
    && log[i].Bump? && log[i].key == VerifyFailures(phone)
    && (forall j :: i < j < |log| ==> log[j] != Wipe(phone))
    && Tally(log[..i + 1], VerifyFailures(phone), log[i].start) >= cfg.lockout.phoneFailureThreshold
  }

  ghost predicate InTime(log: seq<Entry>) {
    forall i, j :: 0 <= i < j < |log| && log[i].Bump? && log[j].Bump? ==> log[i].at <= log[j].at
  }

  lemma TripsBefore(cfg: Config, log: seq<Entry>, phone: string, i: int)
    requires log != [] && i < |log| - 1
    ensures Trips(cfg, log, phone, i) <==> Trips(cfg, log[..|log| - 1], phone, i) && log[|log| - 1] != Wipe(phone)
  {
    hide Tally;
    var n := |log| - 1;
    if 0 <= i {
      assert log[..n][..i + 1] == log[..i + 1];
    }
  }

  lemma {:induction false} LastTripIsLatest(cfg: Config, log: seq<Entry>, phone: string)
    requires InTime(log)
    ensures forall i :: Trips(cfg, log, phone, i) ==>
              LastTrip(cfg, log, phone).Some? && log[i].at <= LastTrip(cfg, log, phone).value
    ensures LastTrip(cfg, log, phone).Some? ==>
              exists i :: Trips(cfg, log, phone, i) && log[i].at == LastTrip(cfg, log, phone).value
  {
    hide Tally;
    if log != [] {
      var n := |log| - 1;
      LastTripIsLatest(cfg, log[..n], phone);
      forall i | i < n
        ensures Trips(cfg, log, phone, i) <==> Trips(cfg, log[..n], phone, i) && log[n] != Wipe(phone)
      {
        TripsBefore(cfg, log, phone, i);
      }
      assert log[..n + 1] == log;
      if LastTrip(cfg, log, phone).Some? {
        if log[n].Bump? && log[n].key == VerifyFailures(phone)
           && Tally(log, log[n].key, log[n].start) >= cfg.lockout.phoneFailureThreshold {
          assert Trips(cfg, log, phone, n);
        } else {
          var i :| Trips(cfg, log[..n], phone, i) && log[..n][i].at == LastTrip(cfg, log[..n], phone).value;
          assert Trips(cfg, log, phone, i);
        }
      }
    }
  }

  /** A phone is answered locked exactly when, since its last clear, some
      failure later than now minus the lockout time was at least the
      threshold-th in its aligned window. */
  lemma LockedExactly(cfg: Config, steps: seq<Step>, phone: string, ip: string, now: int, until: int)
    requires cfg.Positive() && WindowsFit(cfg) && Chronological(cfg, steps)
    requires After(cfg, steps).clock <= now
    requires IsScalar(After(cfg, steps).rows, LockedUntil(phone), until)
    ensures
      var w := After(cfg, steps);
      Verdict(cfg.lockout, until, Get(w.rows, VerifyIp(ip), Bucket(cfg, VerifyIp(ip), now)), now).PhoneLocked?
      <==> exists i :: Trips(cfg, w.log, phone, i) && w.log[i].at > now - cfg.lockout.phoneLockoutSeconds
  {
    hide Tally, LastTrip, Get, BucketStart, Trips;
    AfterValid(cfg, steps);
    TableAnswersLikeLog(cfg, steps, phone, ip, "", now, until);
    LastTripIsLatest(cfg, After(cfg, steps).log, phone);
  }

  lemma OneSentinel(cfg: Config, steps: seq<Step>, phone: string)
    requires cfg.Positive() && WindowsFit(cfg) && Chronological(cfg, steps)
    ensures |Starts(After(cfg, steps).rows, LockedUntil(phone))| <= 1
  {
    AfterValid(cfg, steps);
    assert SentinelAt(cfg, After(cfg, steps), phone);
  }

  /** Along every run on which the phone is not cleared its sentinel never moves
      back, even across a time at which pruning had taken it; and it is gone
      only once it has expired by more than the two hours pruning keeps. */
  lemma ExpiryNeverMovesBack(cfg: Config, steps: seq<Step>, more: seq<Step>, phone: string)
    requires cfg.Positive() && WindowsFit(cfg) && Chronological(cfg, steps + more)
    requires PhoneSuccess(phone) !in more
    ensures
      var before, after := After(cfg, steps), After(cfg, steps + more);
      forall a :: a in Starts(before.rows, LockedUntil(phone)) ==>
        && (forall b :: b in Starts(after.rows, LockedUntil(phone)) ==> a <= b)
        && (Starts(after.rows, LockedUntil(phone)) == {} ==> a < after.clock - PRUNE_AFTER)
  {
    hide Next, LastTrip, Starts;
    var before, after := After(cfg, steps), After(cfg, steps + more);
    TripsMoveOn(cfg, steps, more, phone);
    AfterValid(cfg, steps);
    AfterValid(cfg, steps + more);
    assert SentinelAt(cfg, before, phone) && SentinelAt(cfg, after, phone);
  }

  /** Trips only move on along a run that does not clear the phone. */
  lemma {:induction false} TripsMoveOn(cfg: Config, steps: seq<Step>, more: seq<Step>, phone: string)
    requires cfg.Positive() && WindowsFit(cfg) && Chronological(cfg, steps + more)
    requires PhoneSuccess(phone) !in more
    ensures Chronological(cfg, steps)
    ensures
      var before, after := LastTrip(cfg, After(cfg, steps).log, phone),
        LastTrip(cfg, After(cfg, steps + more).log, phone);
      before.Some? ==> after.Some? && before.value <= after.value
  {
    hide Next, LastTrip, Timely, Valid;
    if more == [] {
      assert steps + more == steps;
    } else {
      var n := |more| - 1;
      var front := steps + more[..n];
      assert (steps + more)[..|steps| + n] == front && (steps + more)[|steps| + n] == more[n];
      TripsMoveOn(cfg, steps, more[..n], phone);
      AfterValid(cfg, front);
      TripMovesOn(cfg, After(cfg, front), more[n], phone);
    }
  }

  lemma TripMovesOn(cfg: Config, w: World, step: Step, phone: string)
    requires cfg.Positive() && Valid(cfg, w) && Timely(w, step)
    requires step != PhoneSuccess(phone)
    ensures
      var before, after := LastTrip(cfg, w.log, phone), LastTrip(cfg, Next(cfg, w, step).log, phone);
      before.Some? ==> after.Some? && before.value <= after.value
  {
    hide Tally, LastTrip, Starts, Get, BucketStart;
    assert SentinelAt(cfg, w, phone);
    match step
    case Request(p, ip, now) =>
      var a, b, c := BumpAt(cfg, PhoneCooldown(p), now), BumpAt(cfg, PhoneHourly(p), now),
        BumpAt(cfg, IpHourly(ip), now);
      TripAfter(cfg, w.log, a, phone);
      TripAfter(cfg, w.log + [a], b, phone);
      TripAfter(cfg, w.log + [a] + [b], c, phone);
    case IpAttempt(ip, now) => TripAfter(cfg, w.log, BumpAt(cfg, VerifyIp(ip), now), phone);
    case PhoneFailure(p, now) => TripAfter(cfg, w.log, BumpAt(cfg, VerifyFailures(p), now), phone);
    case PhoneSuccess(p) => TripAfter(cfg, w.log, Wipe(p), phone);
    case ChannelSent(channel, now) => TripAfter(cfg, w.log, BumpAt(cfg, ChannelSend(channel), now), phone);
  }

  // ---------- the answers, told from the calls ----------

  /** The call is a request that is accepted after these calls. */
  predicate Granted(cfg: Config, steps: seq<Step>, step: Step)
    requires cfg.Positive()
  {
    step.Request? && TableDecision(cfg.otp, After(cfg, steps).rows, step.phone, step.ip, step.now).Accepted?
  }

  /** The call after `steps` is one that the counter counts. */
  predicate Counts(cfg: Config, steps: seq<Step>, step: Step, key: Key)
    requires cfg.Positive()
  {
    match key
    case PhoneCooldown(phone) => Granted(cfg, steps, step) && step.phone == phone
    case PhoneHourly(phone) => Granted(cfg, steps, step) && step.phone == phone
    case IpHourly(ip) => Granted(cfg, steps, step) && step.ip == ip
    case VerifyFailures(phone) => step.PhoneFailure? && step.phone == phone
    case VerifyIp(ip) => step.IpAttempt? && step.ip == ip
    case ChannelSend(channel) => step.ChannelSent? && step.channel == channel
    case LockedUntil(_) => false
  }

  /** How many such calls were made from `from` on and less than `w` later; a
      phone's failures only since it was last cleared. */
  function Calls(cfg: Config, steps: seq<Step>, key: Key, from: int, w: int): nat
    requires cfg.Positive()
  {
    if steps == [] then 0
    else
      var front, step := steps[..|steps| - 1], steps[|steps| - 1];
      if step.PhoneSuccess? && key == VerifyFailures(step.phone) then 0
      else
        Calls(cfg, front, key, from, w)
        + if Counts(cfg, front, step, key) && from <= step.now < from + w then 1 else 0
  }

  lemma InBucket(now: int, start: int, w: int)
    requires w > 0 && start % w == 0
    ensures BucketStart(now, w) == start <==> start <= now < start + w
  {
    if start <= now < start + w {
      SameBucket(start, now, w);
    }
  }

  /** What one call adds to the tally of a counter. */
  lemma TallyAfterCall(cfg: Config, steps: seq<Step>, step: Step, key: Key, start: int)
    requires cfg.Positive() && !key.LockedUntil? && start % Window(cfg, key) == 0
    ensures
      var w := After(cfg, steps);
      Tally(Next(cfg, w, step).log, key, start)
      == if step.PhoneSuccess? && key == VerifyFailures(step.phone) then 0
         else Tally(w.log, key, start)
              + if Counts(cfg, steps, step, key) && start <= step.now < start + Window(cfg, key) then 1 else 0
  {
    hide Tally, BucketStart, Bumped, Pruned, Failed, Without, After, Window;
    var log := After(cfg, steps).log;
    if !step.PhoneSuccess? {
      InBucket(step.now, start, Window(cfg, key));
    }
    match step
    case Request(p, ip, now) =>
      var a, b, c := BumpAt(cfg, PhoneCooldown(p), now), BumpAt(cfg, PhoneHourly(p), now),
        BumpAt(cfg, IpHourly(ip), now);
      OneMore(log, a, key, start);
      OneMore(log + [a], b, key, start);
      OneMore(log + [a] + [b], c, key, start);
    case IpAttempt(ip, now) => OneMore(log, BumpAt(cfg, VerifyIp(ip), now), key, start);
    case PhoneFailure(p, now) => OneMore(log, BumpAt(cfg, VerifyFailures(p), now), key, start);
    case PhoneSuccess(p) => OneMore(log, Wipe(p), key, start);
    case ChannelSent(channel, now) => OneMore(log, BumpAt(cfg, ChannelSend(channel), now), key, start);
  }

  /** The tallies of the log are numbers of calls. */
  lemma {:induction false} TallyIsCalls(cfg: Config, steps: seq<Step>, key: Key, start: int)
    requires cfg.Positive() && !key.LockedUntil? && start % Window(cfg, key) == 0
    ensures Tally(After(cfg, steps).log, key, start) == Calls(cfg, steps, key, start, Window(cfg, key))
  {
    hide Next, Counts, Window;
    if steps != [] {
      var n := |steps| - 1;
      TallyIsCalls(cfg, steps[..n], key, start);
      TallyAfterCall(cfg, steps[..n], steps[n], key, start);
    }
  }

  /** Call `i` failed for the phone as at least the threshold-th of its aligned
      window since the phone was last cleared, and the phone was not cleared later. */
  ghost predicate Locks(cfg: Config, steps: seq<Step>, phone: string, i: nat)
    requires cfg.Positive()
  {
    && i < |steps| && steps[i].PhoneFailure? && steps[i].phone == phone
    && PhoneSuccess(phone) !in steps[i + 1..]
    && var w := cfg.lockout.phoneFailureWindowSeconds;
       Calls(cfg, steps[..i + 1], VerifyFailures(phone), BucketStart(steps[i].now, w), w)
         >= cfg.lockout.phoneFailureThreshold
  }

  /** The last trip of the log after one more call. */
  lemma TripAfterCall(cfg: Config, steps: seq<Step>, step: Step, phone: string)
    requires cfg.Positive()
    ensures
      var log, longer := After(cfg, steps).log, Next(cfg, After(cfg, steps), step).log;
      LastTrip(cfg, longer, phone)
      == if step == PhoneSuccess(phone) then None
         else if step.PhoneFailure? && step.phone == phone
                 && Tally(longer, VerifyFailures(phone), Bucket(cfg, VerifyFailures(phone), step.now))
                    >= cfg.lockout.phoneFailureThreshold
         then Some(step.now)
         else LastTrip(cfg, log, phone)
  {
    hide Tally, LastTrip, BucketStart, Bumped, Pruned, Failed, Without, After, Window;
    var log := After(cfg, steps).log;
    match step
    case Request(p, ip, now) =>
      var a, b, c := BumpAt(cfg, PhoneCooldown(p), now), BumpAt(cfg, PhoneHourly(p), now),
        BumpAt(cfg, IpHourly(ip), now);
      TripAfter(cfg, log, a, phone);
      TripAfter(cfg, log + [a], b, phone);
      TripAfter(cfg, log + [a] + [b], c, phone);
    case IpAttempt(ip, now) => TripAfter(cfg, log, BumpAt(cfg, VerifyIp(ip), now), phone);
    case PhoneFailure(p, now) =>
      var e := BumpAt(cfg, VerifyFailures(p), now);
      TripAfter(cfg, log, e, phone);
      OneMore(log, e, e.key, e.start);
    case PhoneSuccess(p) => TripAfter(cfg, log, Wipe(p), phone);
    case ChannelSent(channel, now) => TripAfter(cfg, log, BumpAt(cfg, ChannelSend(channel), now), phone);
  }

  lemma LocksBefore(cfg: Config, steps: seq<Step>, phone: string, i: nat)
    requires cfg.Positive() && i < |steps| - 1
    ensures Locks(cfg, steps, phone, i)
       <==> Locks(cfg, steps[..|steps| - 1], phone, i) && steps[|steps| - 1] != PhoneSuccess(phone)
  {
    hide Calls, BucketStart;
    var n := |steps| - 1;
    assert steps[..n][..i + 1] == steps[..i + 1];
    assert steps[i + 1..] == steps[..n][i + 1..] + [steps[n]];
  }

  lemma LocksLast(cfg: Config, steps: seq<Step>, phone: string)
    requires cfg.Positive() && steps != []
    ensures
      var n := |steps| - 1;
      Locks(cfg, steps, phone, n)
      <==> steps[n].PhoneFailure? && steps[n].phone == phone
           && Tally(After(cfg, steps).log, VerifyFailures(phone), Bucket(cfg, VerifyFailures(phone), steps[n].now))
              >= cfg.lockout.phoneFailureThreshold
  {
    hide Calls, Tally, After;
    var n := |steps| - 1;
    assert steps[..n + 1] == steps && steps[n + 1..] == [];
    if steps[n].PhoneFailure? {
      var start := BucketStart(steps[n].now, cfg.lockout.phoneFailureWindowSeconds);
      TallyIsCalls(cfg, steps, VerifyFailures(phone), start);
    }
  }

  /** The last trip is the latest call that locks. */
  lemma {:induction false} LastLock(cfg: Config, steps: seq<Step>, phone: string)
    requires cfg.Positive() && WindowsFit(cfg) && Chronological(cfg, steps)
    ensures
      var trip := LastTrip(cfg, After(cfg, steps).log, phone);
      && (forall i: nat :: Locks(cfg, steps, phone, i) ==> trip.Some? && steps[i].now <= trip.value)
      && (trip.Some? ==> exists i: nat :: Locks(cfg, steps, phone, i) && steps[i].now == trip.value)
  {
    hide Next, Locks, LastTrip, Tally, Valid, Bucket;
    if steps == [] {
      NothingLocks(cfg, phone);
    } else {
      var n := |steps| - 1;
      var before := LastTrip(cfg, After(cfg, steps[..n]).log, phone);
      LastLock(cfg, steps[..n], phone);
      TripAfterCall(cfg, steps[..n], steps[n], phone);
      LocksLast(cfg, steps, phone);
      forall i: nat | i < n
        ensures Locks(cfg, steps, phone, i) <==> Locks(cfg, steps[..n], phone, i) && steps[n] != PhoneSuccess(phone)
      {
        LocksBefore(cfg, steps, phone, i);
      }
      LocksInside(cfg, steps, phone);
      LocksInside(cfg, steps[..n], phone);
      AfterValid(cfg, steps[..n]);
      TripInTime(cfg, After(cfg, steps[..n]), phone);
      if steps[n] != PhoneSuccess(phone) && before.Some? {
        var i: nat :| Locks(cfg, steps[..n], phone, i) && steps[..n][i].now == before.value;
        assert Locks(cfg, steps, phone, i);
      }
    }
  }

  lemma NothingLocks(cfg: Config, phone: string)
    requires cfg.Positive()
    ensures LastTrip(cfg, After(cfg, []).log, phone).None? && forall i: nat :: !Locks(cfg, [], phone, i)
  {
  }

  lemma LocksInside(cfg: Config, steps: seq<Step>, phone: string)
    requires cfg.Positive()
    ensures forall i: nat :: Locks(cfg, steps, phone, i) ==> i < |steps| && steps[i].PhoneFailure?
  {
  }

  lemma TripInTime(cfg: Config, w: World, phone: string)
    requires cfg.Positive() && Valid(cfg, w)
    ensures LastTrip(cfg, w.log, phone).Some? ==> LastTrip(cfg, w.log, phone).value <= w.clock
  {
    hide Current, Dated, LastTrip;
    assert SentinelAt(cfg, w, phone);
  }

  /** What `checkVerifyAllowed` answers after any run, told from the calls alone.
      A phone is locked exactly when some call locks it that came less than the
      lockout time ago, and it is told to wait until the lockout after the
      latest of them is over. An address is throttled exactly when the phone is
      not locked and the attempts of the address in the aligned window of `now`
      have reached the cap, and it is told to wait out that window. */
  lemma VerifyAnsweredExactly(cfg: Config, steps: seq<Step>, phone: string, ip: string, now: int, until: int)
    requires cfg.Positive() && WindowsFit(cfg) && Chronological(cfg, steps)
    requires After(cfg, steps).clock <= now
    requires IsScalar(After(cfg, steps).rows, LockedUntil(phone), until)
    ensures
      var w := cfg.lockout.ipWindowSeconds;
      var start := BucketStart(now, w);
      var answer := Verdict(cfg.lockout, until, Get(After(cfg, steps).rows, VerifyIp(ip), start), now);
      var lockout := cfg.lockout.phoneLockoutSeconds;
      var throttled := Calls(cfg, steps, VerifyIp(ip), start, w) >= cfg.lockout.ipMaxPerWindow;
      && (answer.PhoneLocked? <==> exists i: nat :: Locks(cfg, steps, phone, i) && now < steps[i].now + lockout)
      && (answer.PhoneLocked? ==>
            exists i: nat :: Locks(cfg, steps, phone, i)
              && (forall j: nat :: Locks(cfg, steps, phone, j) ==> steps[j].now <= steps[i].now)
              && answer.retryAfterSeconds == steps[i].now + lockout - now)
      && (answer.IpThrottled? <==> !answer.PhoneLocked? && throttled)
      && (answer.IpThrottled? ==> answer.retryAfterSeconds == start + w - now)
  {
    hide Calls, Tally, LastTrip, Get, BucketStart, Locks, Valid;
    var w := After(cfg, steps);
    LastLock(cfg, steps, phone);
    LocksInside(cfg, steps, phone);
    AfterValid(cfg, steps);
    SentinelRead(cfg, w, phone, now, until);
    AttemptsRead(cfg, steps, ip, now);
    if LastTrip(cfg, w.log, phone).Some? {
      var i: nat :| Locks(cfg, steps, phone, i) && steps[i].now == LastTrip(cfg, w.log, phone).value;
    }
  }

  /** A sentinel that pruning may have taken has long expired. */
  lemma SentinelRead(cfg: Config, w: World, phone: string, now: int, until: int)
    requires cfg.Positive() && Valid(cfg, w) && w.clock <= now && IsScalar(w.rows, LockedUntil(phone), until)
    ensures
      var trip := LastTrip(cfg, w.log, phone);
      && (until > now <==> trip.Some? && trip.value + cfg.lockout.phoneLockoutSeconds > now)
      && (until > now ==> until == trip.value + cfg.lockout.phoneLockoutSeconds)
  {
    hide Current, Dated, LastTrip, Starts;
    assert SentinelAt(cfg, w, phone);
  }

  lemma AttemptsRead(cfg: Config, steps: seq<Step>, ip: string, now: int)
    requires cfg.Positive() && WindowsFit(cfg) && Chronological(cfg, steps) && After(cfg, steps).clock <= now
    ensures
      var w := cfg.lockout.ipWindowSeconds;
      var start := BucketStart(now, w);
      Get(After(cfg, steps).rows, VerifyIp(ip), start) == Calls(cfg, steps, VerifyIp(ip), start, w)
  {
    hide Calls, Tally, Get, After, Sentinels, Dated, Chronological;
    AfterValid(cfg, steps);
    BucketKept(cfg, VerifyIp(ip), now);
    TallyIsCalls(cfg, steps, VerifyIp(ip), BucketStart(now, cfg.lockout.ipWindowSeconds));
  }

  lemma RequestsRead(cfg: Config, steps: seq<Step>, key: Key, now: int)
    requires cfg.Positive() && WindowsFit(cfg) && Chronological(cfg, steps) && After(cfg, steps).clock <= now
    requires RequestKey(key)
    ensures
      var start := BucketStart(now, Window(cfg, key));
      Get(After(cfg, steps).rows, key, start) == Calls(cfg, steps, key, start, Window(cfg, key))
  {
    hide Calls, Tally, Get, After, Sentinels, Dated, Chronological;
    AfterValid(cfg, steps);
    BucketKept(cfg, key, now);
    TallyIsCalls(cfg, steps, key, BucketStart(now, Window(cfg, key)));
  }

  /** What `checkOtpRequestLimit` answers after any run, told from the calls
      alone. A request is accepted exactly when none was accepted for the phone
      in the aligned cool-down window, and fewer than the caps for the phone and
      for the address in the aligned hour; else the first of the three that
      fails is the reason, and its window is waited out. */
  lemma RequestAnsweredExactly(cfg: Config, steps: seq<Step>, phone: string, ip: string, now: int)
    requires cfg.Positive() && WindowsFit(cfg) && Chronological(cfg, steps) && After(cfg, steps).clock <= now
    ensures
      var c, h := cfg.otp.phoneCooldownSeconds, 3600;
      var cooling, hour := BucketStart(now, c), BucketStart(now, h);
      var recent := Calls(cfg, steps, PhoneCooldown(phone), cooling, c);
      var byPhone := Calls(cfg, steps, PhoneHourly(phone), hour, h);
      var byIp := Calls(cfg, steps, IpHourly(ip), hour, h);
      var answer := TableDecision(cfg.otp, After(cfg, steps).rows, phone, ip, now);
      && (answer.Accepted? <==> recent == 0 && byPhone < cfg.otp.phoneHourlyMax && byIp < cfg.otp.ipHourlyMax)
      && (answer.Accepted? ==> answer.count == byPhone + 1 && answer.windowStart == hour)
      && (answer.Blocked? ==>
            if recent > 0 then answer.reason == CooldownPhone && answer.retryAfterSeconds == cooling + c - now
            else && answer.reason == (if byPhone >= cfg.otp.phoneHourlyMax then HourlyPhone else HourlyIp)
                 && answer.retryAfterSeconds == hour + h - now)
  {
    hide Calls, Get, BucketStart, After, Chronological;
    RequestsRead(cfg, steps, PhoneCooldown(phone), now);
    RequestsRead(cfg, steps, PhoneHourly(phone), now);
    RequestsRead(cfg, steps, IpHourly(ip), now);
  }

  // ---------- caps ----------

  function AtLeastZero(n: int): nat {
    if n < 0 then 0 else n
  }

  /** What no key of the request limiter is ever counted beyond. */
  function Cap(cfg: Config, key: Key): nat
    requires key.PhoneCooldown? || key.PhoneHourly? || key.IpHourly?
  {
    match key
    case PhoneCooldown(_) => 1
    case PhoneHourly(_) => AtLeastZero(cfg.otp.phoneHourlyMax)
    case IpHourly(_) => AtLeastZero(cfg.otp.ipHourlyMax)
  }

  predicate RequestKey(key: Key) {
    key.PhoneCooldown? || key.PhoneHourly? || key.IpHourly?
  }

  ghost predicate Capped(cfg: Config, w: World) {
    forall key, start :: RequestKey(key) ==> Tally(w.log, key, start) <= Cap(cfg, key)
  }

  lemma CapsKept(cfg: Config, w: World, step: Step)
    requires cfg.Positive() && WindowsFit(cfg) && Valid(cfg, w) && Timely(w, step) && Capped(cfg, w)
    ensures Capped(cfg, Next(cfg, w, step))
  {
    hide Tally, Get, BucketStart, Bumped, Pruned, Failed, Without, Sentinels, Dated;
    forall key: Key, start: int | RequestKey(key)
      ensures Tally(Next(cfg, w, step).log, key, start) <= Cap(cfg, key)
    {
      match step
      case Request(p, ip, now) =>
        var a, b, c := BumpAt(cfg, PhoneCooldown(p), now), BumpAt(cfg, PhoneHourly(p), now),
          BumpAt(cfg, IpHourly(ip), now);
        OneMore(w.log, a, key, start);
        OneMore(w.log + [a], b, key, start);
        OneMore(w.log + [a] + [b], c, key, start);
        BucketKept(cfg, PhoneCooldown(p), now);
        BucketKept(cfg, PhoneHourly(p), now);
        BucketKept(cfg, IpHourly(ip), now);
      case IpAttempt(ip, now) => OneMore(w.log, BumpAt(cfg, VerifyIp(ip), now), key, start);
      case PhoneFailure(p, now) => OneMore(w.log, BumpAt(cfg, VerifyFailures(p), now), key, start);
      case PhoneSuccess(p) => OneMore(w.log, Wipe(p), key, start);
      case ChannelSent(channel, now) => OneMore(w.log, BumpAt(cfg, ChannelSend(channel), now), key, start);
    }
  }

  lemma {:induction false} AfterCapped(cfg: Config, steps: seq<Step>)
    requires cfg.Positive() && WindowsFit(cfg) && Chronological(cfg, steps)
    ensures Capped(cfg, After(cfg, steps))
  {
    if steps != [] {
      AfterCapped(cfg, steps[..|steps| - 1]);
      AfterValid(cfg, steps[..|steps| - 1]);
      CapsKept(cfg, After(cfg, steps[..|steps| - 1]), steps[|steps| - 1]);
    }
  }

  /** Calls counted under a key in a span of an hour starting anywhere. */
  function InSpan(log: seq<Entry>, key: Key, from: int): nat {
    if log == [] then 0
    else
      InSpan(log[..|log| - 1], key, from)
      + match log[|log| - 1] {
          case Bump(k, _, at) => if k == key && from <= at < from + SECONDS_PER_HOUR then 1 else 0
          case Wipe(_) => 0
        }
  }

  lemma {:induction false} SpanMeetsTwoHours(cfg: Config, log: seq<Entry>, key: Key, from: int)
    requires cfg.Positive() && (key.PhoneHourly? || key.IpHourly?)
    requires forall i :: 0 <= i < |log| && log[i].Bump? ==> log[i] == BumpAt(cfg, log[i].key, log[i].at)
    ensures
      var hour := BucketStart(from, SECONDS_PER_HOUR);
      InSpan(log, key, from) <= Tally(log, key, hour) + Tally(log, key, hour + SECONDS_PER_HOUR)
  {
    if log != [] {
      var n := |log| - 1;
      SpanMeetsTwoHours(cfg, log[..n], key, from);
      var hour := BucketStart(from, SECONDS_PER_HOUR);
      assert log[n].Bump? ==> log[n] == BumpAt(cfg, log[n].key, log[n].at);
    }
  }

  /** Accepted requests of a phone or an address: at most its cap in any
      aligned hour and at most twice the cap in any hour-long span; at most one
      per phone in an aligned cool-down window. */
  lemma RequestsCapped(cfg: Config, steps: seq<Step>, key: Key, start: int, from: int)
    requires cfg.Positive() && WindowsFit(cfg) && Chronological(cfg, steps) && RequestKey(key)
    ensures Tally(After(cfg, steps).log, key, start) <= Cap(cfg, key)
    ensures !key.PhoneCooldown? ==> InSpan(After(cfg, steps).log, key, from) <= 2 * Cap(cfg, key)
  {
    hide Tally, BucketStart;
    AfterCapped(cfg, steps);
    if !key.PhoneCooldown? {
      AfterValid(cfg, steps);
      SpanMeetsTwoHours(cfg, After(cfg, steps).log, key, from);
      var hour := BucketStart(from, SECONDS_PER_HOUR);
      assert Tally(After(cfg, steps).log, key, hour) <= Cap(cfg, key);
      assert Tally(After(cfg, steps).log, key, hour + SECONDS_PER_HOUR) <= Cap(cfg, key);
    }
  }

  // ---------- exactly when pruning is harmless ----------

  /** In every run every counter asked for still holds its tally. */
  ghost predicate CountersAlwaysCurrent(cfg: Config)
    requires cfg.Positive()
  {
    forall steps, now: int, key: Key ::
      Chronological(cfg, steps) && After(cfg, steps).clock <= now && !key.LockedUntil?
      ==> Get(After(cfg, steps).rows, key, Bucket(cfg, key, now))
          == Tally(After(cfg, steps).log, key, Bucket(cfg, key, now))
  }

  /** A counter last touched at time zero is pruned by a request of others at
      7201, while its window, being longer, is still the current one. */
  lemma PrunedTooEarly(cfg: Config, first: Step, key: Key)
    requires cfg.Positive() && cfg.otp.phoneHourlyMax >= 1 && cfg.otp.ipHourlyMax >= 1
    requires !first.PhoneSuccess? && first.now == 0
    requires !key.LockedUntil? && key != PhoneCooldown("b") && key != PhoneHourly("b") && key != IpHourly("y")
    requires Window(cfg, key) > PRUNE_AFTER + 1
    requires
      var w := Next(cfg, Start(), first);
      && Tally(w.log, key, 0) == 1
      && forall r :: r in w.rows ==> r.key != PhoneCooldown("b") && r.key != PhoneHourly("b") && r.key != IpHourly("y")
    ensures !CountersAlwaysCurrent(cfg)
  {
    hide Tally, BucketStart, Counted;
    var now := PRUNE_AFTER + 1;
    var second := Request("b", "y", now);
    var steps := [first, second];
    var w := Next(cfg, Start(), first);
    TwoSteps(cfg, first, second);
    assert TableDecision(cfg.otp, w.rows, "b", "y", now).Accepted?;
    var v := Next(cfg, w, second);
    var counted := Counted(cfg.otp, w.rows, "b", "y", now);
    GetPruned(counted, now - PRUNE_AFTER, key, 0);
    var a, b, c := BumpAt(cfg, PhoneCooldown("b"), now), BumpAt(cfg, PhoneHourly("b"), now),
      BumpAt(cfg, IpHourly("y"), now);
    OneMore(w.log, a, key, 0);
    OneMore(w.log + [a], b, key, 0);
    OneMore(w.log + [a] + [b], c, key, 0);
    SameBucket(0, now, Window(cfg, key));
    assert Get(v.rows, key, Bucket(cfg, key, now)) != Tally(v.log, key, Bucket(cfg, key, now));
  }

  lemma TwoSteps(cfg: Config, first: Step, second: Step)
    requires cfg.Positive() && Timely(Start(), first) && Timely(Next(cfg, Start(), first), second)
    ensures Chronological(cfg, [first, second])
    ensures After(cfg, [first, second]) == Next(cfg, Next(cfg, Start(), first), second)
  {
    hide Next, Timely;
    assert [first, second][..1] == [first] && [first][..0] == [];
    assert After(cfg, [first]) == Next(cfg, Start(), first);
    assert Chronological(cfg, []) && After(cfg, []) == Start();
    assert Chronological(cfg, [first]);
  }

  /** Pruning changes no counter anyone asks for exactly when every window is at
      most 7201 seconds (given that some request can be accepted at all). */
  lemma PruningHarmlessExactly(cfg: Config)
    requires cfg.Positive() && cfg.otp.phoneHourlyMax >= 1 && cfg.otp.ipHourlyMax >= 1
    ensures CountersAlwaysCurrent(cfg) <==>
              && cfg.otp.phoneCooldownSeconds <= 7201
              && cfg.lockout.phoneFailureWindowSeconds <= 7201 && cfg.lockout.ipWindowSeconds <= 7201
  {
    hide BucketStart, CountersAlwaysCurrent;
    if WindowsFit(cfg) {
      FittingWindowsCurrent(cfg);
    } else if cfg.otp.phoneCooldownSeconds > PRUNE_AFTER + 1 {
      FirstRequest(cfg);
      PrunedTooEarly(cfg, Request("a", "x", 0), PhoneCooldown("a"));
    } else if cfg.lockout.phoneFailureWindowSeconds > PRUNE_AFTER + 1 {
      FirstFailure(cfg);
      PrunedTooEarly(cfg, PhoneFailure("a", 0), VerifyFailures("a"));
    } else {
      FirstAttempt(cfg);
      PrunedTooEarly(cfg, IpAttempt("x", 0), VerifyIp("x"));
    }
  }

  lemma FittingWindowsCurrent(cfg: Config)
    requires cfg.Positive() && WindowsFit(cfg)
    ensures CountersAlwaysCurrent(cfg)
  {
    hide Tally, Get, BucketStart, Chronological;
    forall steps, now: int, key: Key | Chronological(cfg, steps) && After(cfg, steps).clock <= now && !key.LockedUntil?
      ensures Get(After(cfg, steps).rows, key, Bucket(cfg, key, now)) ==
        Tally(After(cfg, steps).log, key, Bucket(cfg, key, now))
    {
      AfterValid(cfg, steps);
      BucketKept(cfg, key, now);
    }
  }

  lemma FirstRequest(cfg: Config)
    requires cfg.Positive() && cfg.otp.phoneHourlyMax >= 1 && cfg.otp.ipHourlyMax >= 1
    ensures
      var w := Next(cfg, Start(), Request("a", "x", 0));
      && Tally(w.log, PhoneCooldown("a"), 0) == 1
      && forall r :: r in w.rows ==> r.key != PhoneCooldown("b") && r.key != PhoneHourly("b") && r.key != IpHourly("y")
  {
    var a, b, c := BumpAt(cfg, PhoneCooldown("a"), 0), BumpAt(cfg, PhoneHourly("a"), 0), BumpAt(cfg, IpHourly("x"), 0);
    SameBucket(0, 0, cfg.otp.phoneCooldownSeconds);
    OneMore([], a, PhoneCooldown("a"), 0);
    OneMore([] + [a], b, PhoneCooldown("a"), 0);
    OneMore([] + [a] + [b], c, PhoneCooldown("a"), 0);
  }

  lemma FirstFailure(cfg: Config)
    requires cfg.Positive()
    ensures
      var w := Next(cfg, Start(), PhoneFailure("a", 0));
      && Tally(w.log, VerifyFailures("a"), 0) == 1
      && forall r :: r in w.rows ==> r.key != PhoneCooldown("b") && r.key != PhoneHourly("b") && r.key != IpHourly("y")
  {
    SameBucket(0, 0, cfg.lockout.phoneFailureWindowSeconds);
    OneMore([], BumpAt(cfg, VerifyFailures("a"), 0), VerifyFailures("a"), 0);
  }

  lemma FirstAttempt(cfg: Config)
    requires cfg.Positive()
    ensures
      var w := Next(cfg, Start(), IpAttempt("x", 0));
      && Tally(w.log, VerifyIp("x"), 0) == 1
      && forall r :: r in w.rows ==> r.key != PhoneCooldown("b") && r.key != PhoneHourly("b") && r.key != IpHourly("y")
  {
    hide BucketStart, Tally;
    SameBucket(0, 0, cfg.lockout.ipWindowSeconds);
    var key := VerifyIp("x");
    OneMore([], BumpAt(cfg, key, 0), key, 0);
    NothingTallied(key, 0);
    assert Next(cfg, Start(), IpAttempt("x", 0)).log == [] + [BumpAt(cfg, key, 0)];
  }

  lemma NothingTallied(key: Key, start: int)
    ensures Tally([], key, start) == 0
  {
  }
}
