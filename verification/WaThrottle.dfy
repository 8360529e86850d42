/** The WhatsApp send throttle, and workers that check the channel before a
    send and record the send afterwards. */
module WaThrottle {
  import opened Options
  import opened RateTable

  datatype Source = Boot | Admin | AutoThrottle

  datatype Reason = NoReason | Expired(was: Reason) | TooMany(count: int, threshold: int) | AdminSaid(text: string)

  datatype ChannelState = ChannelState(
    enabled: bool, reason: Reason, source: Source, changedAt: int, autoReEnableAt: Option<int>)

  datatype ThrottleConfig = ThrottleConfig(disableAtPerHour: int, reEnableAfterSeconds: int)

  const WHATSAPP := ChannelSend("whatsapp")

  function Hour(now: int): int {
    BucketStart(now, SECONDS_PER_HOUR)
  }

  predicate CoolDownOver(state: ChannelState, now: int) {
    !state.enabled && state.source == AutoThrottle && state.autoReEnableAt.Some? && state.autoReEnableAt.value <= now
  }

  /** The state a check finds and leaves behind. */
  function Availability(row: Option<ChannelState>, now: int): ChannelState {
    match row
    case None => ChannelState(true, NoReason, Boot, now, None)
    case Some(existing) =>
      if CoolDownOver(existing, now) then ChannelState(true, Expired(existing.reason), AutoThrottle, now, None)
      else existing
  }

  /** The row after a send that brought the hour's count to `count`. */
  function AfterSend(cfg: ThrottleConfig, row: Option<ChannelState>, count: int, now: int): Option<ChannelState> {
    if count >= cfg.disableAtPerHour && (row.None? || row.value.enabled) then
      Some(ChannelState(false, TooMany(count, cfg.disableAtPerHour), AutoThrottle, now,
        Some(now + cfg.reEnableAfterSeconds)))
    else row
  }

  function ByAdmin(enabled: bool, text: string, now: int): ChannelState {
    ChannelState(enabled, AdminSaid(text), Admin, now, None)
  }

  datatype SendResult = SendResult(countThisHour: int, stillEnabled: bool, thresholdHit: bool)

  class Throttle {
    const storage: RateStore
    const config: ThrottleConfig
    var channel: Option<ChannelState>

    constructor (storage: RateStore, config: ThrottleConfig)
      ensures this.storage == storage && this.config == config && channel == None
    {
      this.storage, this.config, channel := storage, config, None;
    }

    method GetWhatsAppAvailability(now: int) returns (state: ChannelState)
      modifies this
      ensures state == Availability(old(channel), now) && channel == Some(state)
    {
      if channel.Some? {
        var existing := channel.value;
        if !existing.enabled && existing.source == AutoThrottle
           && existing.autoReEnableAt.Some? && existing.autoReEnableAt.value <= now {
          state := ChannelState(true, Expired(existing.reason), AutoThrottle, now, None);
          channel := Some(state);
          return;
        }
        return existing;
      }
      state := ChannelState(true, NoReason, Boot, now, None);
      channel := Some(state);
    }

    method RecordWhatsAppSend(now: int) returns (r: SendResult)
      modifies this, storage
      ensures storage.rows == Bumped(old(storage.rows), WHATSAPP, Hour(now))
      ensures r.countThisHour == Get(old(storage.rows), WHATSAPP, Hour(now)) + 1
      ensures channel == AfterSend(config, old(channel), r.countThisHour, now)
      ensures r.stillEnabled <==> channel.None? || channel.value.enabled
      ensures r.thresholdHit <==> channel != old(channel)
    {
      var count := storage.BumpRateBucket(WHATSAPP, Hour(now));
      if count >= config.disableAtPerHour {
        if channel.None? || channel.value.enabled {
          channel := Some(ChannelState(false, TooMany(count, config.disableAtPerHour), AutoThrottle, now,
                                       Some(now + config.reEnableAfterSeconds)));
          return SendResult(count, false, true);
        }
      }
      r := SendResult(count, channel.None? || channel.value.enabled, false);
    }

    method SetWhatsAppEnabledByAdmin(enabled: bool, text: string, now: int) returns (state: ChannelState)
      modifies this
      ensures state == ByAdmin(enabled, text, now) && channel == Some(state)
    {
      state := ChannelState(enabled, AdminSaid(text), Admin, now, None);
      channel := Some(state);
    }
  }

  // ---------- workers ----------

  /** `held` counts the workers that saw the channel enabled and have not yet
      recorded their send; `sends` holds the times of recorded sends. */
  datatype World = World(rows: Table, channel: Option<ChannelState>, held: nat, sends: seq<int>, clock: int)

  /** A worker checks before a send, records the send, or gives up; anybody may
      look at the channel; the admin switches it; the limiter prunes. */
  datatype Step =
    | Check(now: int)
    | Look(now: int)
    | Record(now: int)
    | GiveUp(now: int)
    | AdminSet(enabled: bool, text: string, now: int)
    | Prune(now: int)

  function Start(): World {
    World(map[], None, 0, [], 0)
  }

  /** Time does not go back; each of the workers holds at most one check. */
  predicate Enabled(workers: nat, w: World, step: Step) {
    && w.clock <= step.now
    && (step.Check? ==> w.held < workers)
    && (step.Record? || step.GiveUp? ==> w.held > 0)
  }

  function Next(cfg: ThrottleConfig, workers: nat, w: World, step: Step): World {
    if !Enabled(workers, w, step) then w
    else
      match step
      case Check(now) =>
        var state := Availability(w.channel, now);
        w.(channel := Some(state), held := if state.enabled then w.held + 1 else w.held, clock := now)
      case Look(now) => w.(channel := Some(Availability(w.channel, now)), clock := now)
      case Record(now) =>
        var rows := Bumped(w.rows, WHATSAPP, Hour(now));
        World(rows, AfterSend(cfg, w.channel, Get(rows, WHATSAPP, Hour(now)), now), w.held - 1, w.sends + [now], now)
      case GiveUp(now) => w.(held := w.held - 1, clock := now)
      case AdminSet(enabled, text, now) => w.(channel := Some(ByAdmin(enabled, text, now)), clock := now)
      case Prune(now) => w.(rows := Pruned(w.rows, now - 2 * SECONDS_PER_HOUR), clock := now)
  }

  function Run(cfg: ThrottleConfig, workers: nat, w: World, steps: seq<Step>): World {
    if steps == [] then w else Next(cfg, workers, Run(cfg, workers, w, steps[..|steps| - 1]), steps[|steps| - 1])
  }

  predicate NoAdminEnable(steps: seq<Step>) {
    forall i :: 0 <= i < |steps| && steps[i].AdminSet? ==> !steps[i].enabled
  }

  /** Sends at a time in [lo, hi). */
  function CountIn(sends: seq<int>, lo: int, hi: int): nat {
    if sends == [] then 0
    else CountIn(sends[..|sends| - 1], lo, hi) + if lo <= sends[|sends| - 1] < hi then 1 else 0
  }

  function InHour(sends: seq<int>, hour: int): nat {
    CountIn(sends, hour, hour + SECONDS_PER_HOUR)
  }

  lemma CountOneMore(sends: seq<int>, t: int, lo: int, hi: int)
    ensures CountIn(sends + [t], lo, hi) == CountIn(sends, lo, hi) + if lo <= t < hi then 1 else 0
  {
    assert (sends + [t])[..|sends|] == sends;
  }

  lemma {:induction false} NoneIn(sends: seq<int>, lo: int, hi: int)
    requires forall i :: 0 <= i < |sends| ==> !(lo <= sends[i] < hi)
    ensures CountIn(sends, lo, hi) == 0
  {
    if sends != [] {
      NoneIn(sends[..|sends| - 1], lo, hi);
    }
  }

  // ---------- the invariant ----------

  ghost predicate Sound(workers: nat, w: World) {
    && w.held <= workers
    && (forall i :: 0 <= i < |w.sends| ==> w.sends[i] <= w.clock)
    && (forall i, j :: 0 <= i < j < |w.sends| ==> w.sends[i] <= w.sends[j])
    && (forall h :: h % SECONDS_PER_HOUR == 0 && h >= w.clock - 2 * SECONDS_PER_HOUR
          ==> Get(w.rows, WHATSAPP, h) == InHour(w.sends, h))
  }

  function Max(a: int, b: int): int {
    if a < b then b else a
  }

  function Bound(cfg: ThrottleConfig, workers: nat): int {
    Max(cfg.disableAtPerHour, workers) + workers - 1
  }

  predicate On(w: World) {
    w.channel.None? || w.channel.value.enabled
  }

  predicate AdminOff(w: World) {
    w.channel.Some? && !w.channel.value.enabled && w.channel.value.source == Admin
  }

  /** What the current hour may still get, by who switched the channel off. */
  ghost predicate Budget(cfg: ThrottleConfig, workers: nat, w: World) {
    var n := InHour(w.sends, Hour(w.clock));
    if On(w) then n <= Max(cfg.disableAtPerHour, workers) - 1
    else if AdminOff(w) then n + w.held <= Bound(cfg, workers)
    else
      && w.channel.value.source == AutoThrottle && w.channel.value.autoReEnableAt.Some?
      && w.held <= workers - 1
      && n + w.held <= (if w.channel.value.autoReEnableAt.value < Hour(w.clock) + SECONDS_PER_HOUR
                        then workers - 1 else Bound(cfg, workers))
  }

  ghost predicate HoursBounded(cfg: ThrottleConfig, workers: nat, w: World) {
    forall h :: h % SECONDS_PER_HOUR == 0 ==> InHour(w.sends, h) <= Bound(cfg, workers)
  }

  ghost predicate Valid(cfg: ThrottleConfig, workers: nat, w: World) {
    Sound(workers, w) && Budget(cfg, workers, w) && HoursBounded(cfg, workers, w)
  }

  lemma Later(cfg: ThrottleConfig, workers: nat, w: World, now: int)
    requires workers >= 1 && Valid(cfg, workers, w) && w.clock <= now
    ensures Valid(cfg, workers, w.(clock := now))
  {
    if Hour(now) != Hour(w.clock) {
      NextHour(w.clock, now);
      NoneIn(w.sends, Hour(now), Hour(now) + SECONDS_PER_HOUR);
    }
  }

  lemma NextHour(a: int, b: int)
    requires a <= b && Hour(a) != Hour(b)
    ensures a < Hour(b)
  {
    if Hour(b) <= a {
      SameBucket(Hour(b), a, SECONDS_PER_HOUR);
    }
  }

  lemma RecordKeeps(cfg: ThrottleConfig, workers: nat, w: World)
    requires workers >= 1 && cfg.reEnableAfterSeconds >= SECONDS_PER_HOUR && Valid(cfg, workers, w) && w.held > 0
    ensures Valid(cfg, workers, Next(cfg, workers, w, Record(w.clock)))
  {
    var v := Next(cfg, workers, w, Record(w.clock));
    var hour := Hour(w.clock);
    forall h | h % SECONDS_PER_HOUR == 0
      ensures InHour(v.sends, h) == InHour(w.sends, h) + if h == hour then 1 else 0
    {
      CountOneMore(w.sends, w.clock, h, h + SECONDS_PER_HOUR);
      if h <= w.clock < h + SECONDS_PER_HOUR {
        SameBucket(h, w.clock, SECONDS_PER_HOUR);
      }
    }
  }

  lemma NextKeeps(cfg: ThrottleConfig, workers: nat, w: World, step: Step)
    requires workers >= 1 && cfg.reEnableAfterSeconds >= SECONDS_PER_HOUR && Valid(cfg, workers, w)
    requires step.AdminSet? ==> !step.enabled
    ensures Valid(cfg, workers, Next(cfg, workers, w, step))
  {
    hide CountIn;
    if Enabled(workers, w, step) {
      Later(cfg, workers, w, step.now);
      if step.Record? {
        RecordKeeps(cfg, workers, w.(clock := step.now));
      }
    }
  }

  lemma {:induction false} RunValid(cfg: ThrottleConfig, workers: nat, steps: seq<Step>)
    requires workers >= 1 && cfg.reEnableAfterSeconds >= SECONDS_PER_HOUR && NoAdminEnable(steps)
    ensures Valid(cfg, workers, Run(cfg, workers, Start(), steps))
  {
    if steps != [] {
      var n := |steps| - 1;
      RunValid(cfg, workers, steps[..n]);
      NextKeeps(cfg, workers, Run(cfg, workers, Start(), steps[..n]), steps[n]);
    }
  }

  /** In every run without an admin enable, recorded sends in a clock hour are
      at most the larger of threshold and workers, plus workers, minus one. */
  lemma SendsPerHour(cfg: ThrottleConfig, workers: nat, steps: seq<Step>, hour: int)
    requires workers >= 1 && cfg.reEnableAfterSeconds >= SECONDS_PER_HOUR && NoAdminEnable(steps)
    requires hour % SECONDS_PER_HOUR == 0
    ensures InHour(Run(cfg, workers, Start(), steps).sends, hour) <= Bound(cfg, workers)
  {
    RunValid(cfg, workers, steps);
  }

  // ---------- exactly when the documented bound holds ----------

  function Times(step: Step, n: nat): seq<Step> {
    if n == 0 then [] else Times(step, n - 1) + [step]
  }

  lemma OneLast(cfg: ThrottleConfig, workers: nat, w: World, steps: seq<Step>, step: Step)
    ensures Run(cfg, workers, w, steps + [step]) == Next(cfg, workers, Run(cfg, workers, w, steps), step)
  {
    assert (steps + [step])[..|steps|] == steps;
  }

  lemma {:induction false} RunOn(cfg: ThrottleConfig, workers: nat, w: World, a: seq<Step>, b: seq<Step>)
    ensures Run(cfg, workers, w, a + b) == Run(cfg, workers, Run(cfg, workers, w, a), b)
  {
    if b == [] {
      assert a + b == a;
    } else {
      var n := |b| - 1;
      RunOn(cfg, workers, w, a, b[..n]);
      assert a + b == (a + b[..n]) + [b[n]];
      OneLast(cfg, workers, w, a + b[..n], b[n]);
    }
  }

  /** Checks on an enabled channel hand out tokens. */
  lemma {:induction false} ManyChecks(cfg: ThrottleConfig, workers: nat, w: World, now: int, n: nat)
    requires Availability(w.channel, now).enabled && w.clock <= now && w.held + n <= workers
    ensures
      var v := Run(cfg, workers, w, Times(Check(now), n));
      && v.held == w.held + n && v.sends == w.sends && v.rows == w.rows && v.clock <= now
      && Availability(v.channel, now).enabled && (n > 0 ==> On(v)) && (On(w) ==> On(v))
  {
    if n > 0 {
      ManyChecks(cfg, workers, w, now, n - 1);
      OneLast(cfg, workers, w, Times(Check(now), n - 1), Check(now));
    }
  }

  /** Held tokens are recorded whatever the channel says; a switched-off
      channel stays as it is. */
  lemma {:induction false} ManyRecords(cfg: ThrottleConfig, workers: nat, w: World, now: int, n: nat, hour: int)
    requires w.clock <= now && n <= w.held && hour <= now < hour + SECONDS_PER_HOUR
    ensures
      var v := Run(cfg, workers, w, Times(Record(now), n));
      && v.held == w.held - n && v.clock <= now
      && InHour(v.sends, hour) == InHour(w.sends, hour) + n
      && (!On(w) ==> v.channel == w.channel)
  {
    if n > 0 {
      ManyRecords(cfg, workers, w, now, n - 1, hour);
      OneLast(cfg, workers, w, Times(Record(now), n - 1), Record(now));
      var u := Run(cfg, workers, w, Times(Record(now), n - 1));
      CountOneMore(u.sends, now, hour, hour + SECONDS_PER_HOUR);
    }
  }

  function Pairs(now: int, n: nat): seq<Step> {
    if n == 0 then [] else Pairs(now, n - 1) + [Check(now)] + [Record(now)]
  }

  ghost predicate AllAt(sends: seq<int>, t: int) {
    forall i :: 0 <= i < |sends| ==> sends[i] == t
  }

  lemma OnePair(cfg: ThrottleConfig, workers: nat, u: World, now: int)
    requires workers >= 1 && u.held == 0 && u.clock <= now && On(u) && AllAt(u.sends, now)
    requires Get(u.rows, WHATSAPP, Hour(now)) + 1 < cfg.disableAtPerHour
    ensures
      var v := Next(cfg, workers, Next(cfg, workers, u, Check(now)), Record(now));
      && v.held == 0 && v.clock <= now && On(v) && AllAt(v.sends, now)
      && Get(v.rows, WHATSAPP, Hour(now)) == Get(u.rows, WHATSAPP, Hour(now)) + 1
  {
    hide BucketStart;
  }

  /** Fewer sends than the threshold leave the channel on. */
  lemma {:induction false} ManyPairs(cfg: ThrottleConfig, workers: nat, now: int, n: nat)
    requires workers >= 1 && now >= 0 && (n == 0 || n < cfg.disableAtPerHour)
    ensures
      var v := Run(cfg, workers, Start(), Pairs(now, n));
      && v.held == 0 && v.clock <= now && On(v) && Get(v.rows, WHATSAPP, Hour(now)) == n && AllAt(v.sends, now)
  {
    hide BucketStart, Next;
    if n > 0 {
      ManyPairs(cfg, workers, now, n - 1);
      var u := Run(cfg, workers, Start(), Pairs(now, n - 1));
      OnePair(cfg, workers, u, now);
      OneLast(cfg, workers, Start(), Pairs(now, n - 1), Check(now));
      OneLast(cfg, workers, Start(), Pairs(now, n - 1) + [Check(now)], Record(now));
    }
  }

  const TRIP_TIME := SECONDS_PER_HOUR - 1

  /** Up to the threshold in the first hour, with all other workers left
      holding a check. */
  function FirstHour(cfg: ThrottleConfig, workers: nat): seq<Step> {
    Pairs(TRIP_TIME, if cfg.disableAtPerHour < 1 then 0 else cfg.disableAtPerHour - 1)
    + Times(Check(TRIP_TIME), workers) + [Record(TRIP_TIME)]
  }

  /** When the cool-down ends: first the stale checks are recorded, then every
      worker checks again and records. */
  function SecondHour(cfg: ThrottleConfig, workers: nat): seq<Step>
    requires workers >= 1
  {
    var y := TRIP_TIME + cfg.reEnableAfterSeconds;
    Times(Record(y), workers - 1) + Times(Check(y), workers) + Times(Record(y), workers)
  }

  /** Switched off by the throttle until the given time. */
  predicate OffUntil(w: World, until: int) {
    && w.channel.Some? && !w.channel.value.enabled && w.channel.value.source == AutoThrottle
    && w.channel.value.autoReEnableAt == Some(until)
  }

  lemma TripStep(cfg: ThrottleConfig, workers: nat, u: World, now: int)
    requires u.held > 0 && u.clock <= now && On(u) && AllAt(u.sends, now)
    requires Get(u.rows, WHATSAPP, Hour(now)) + 1 >= cfg.disableAtPerHour
    ensures
      var v := Next(cfg, workers, u, Record(now));
      && v.held == u.held - 1 && v.clock == now && AllAt(v.sends, now)
      && OffUntil(v, now + cfg.reEnableAfterSeconds)
  {
    hide BucketStart;
  }

  lemma FirstHourTrips(cfg: ThrottleConfig, workers: nat)
    requires workers >= 1
    ensures
      var v := Run(cfg, workers, Start(), FirstHour(cfg, workers));
      && v.held == workers - 1 && v.clock <= TRIP_TIME && AllAt(v.sends, TRIP_TIME)
      && OffUntil(v, TRIP_TIME + cfg.reEnableAfterSeconds)
  {
    hide BucketStart, Next, Run, Pairs, Times, AllAt;
    var n := if cfg.disableAtPerHour < 1 then 0 else cfg.disableAtPerHour - 1;
    ManyPairs(cfg, workers, TRIP_TIME, n);
    var u := Run(cfg, workers, Start(), Pairs(TRIP_TIME, n));
    RunOn(cfg, workers, Start(), Pairs(TRIP_TIME, n), Times(Check(TRIP_TIME), workers));
    ManyChecks(cfg, workers, u, TRIP_TIME, workers);
    var checked := Run(cfg, workers, u, Times(Check(TRIP_TIME), workers));
    TripStep(cfg, workers, checked, TRIP_TIME);
    OneLast(cfg, workers, Start(), Pairs(TRIP_TIME, n) + Times(Check(TRIP_TIME), workers), Record(TRIP_TIME));
  }

  /** A run that puts two sends per worker, less one, into one hour. */
  lemma CrowdedHour(cfg: ThrottleConfig, workers: nat)
    requires workers >= 1 && cfg.reEnableAfterSeconds >= SECONDS_PER_HOUR
    ensures
      var steps := FirstHour(cfg, workers) + SecondHour(cfg, workers);
      var hour := Hour(TRIP_TIME + cfg.reEnableAfterSeconds);
      && NoAdminEnable(steps)
      && InHour(Run(cfg, workers, Start(), steps).sends, hour) == 2 * workers - 1
  {
    hide Next, BucketStart, Run, Times, Pairs;
    var y := TRIP_TIME + cfg.reEnableAfterSeconds;
    var hour := Hour(y);
    FirstHourTrips(cfg, workers);
    var v := Run(cfg, workers, Start(), FirstHour(cfg, workers));
    assert TRIP_TIME < hour by {
      NotSameHour(y);
    }
    NoneIn(v.sends, hour, hour + SECONDS_PER_HOUR);
    var a, b, c := Times(Record(y), workers - 1), Times(Check(y), workers), Times(Record(y), workers);
    ManyRecords(cfg, workers, v, y, workers - 1, hour);
    var v1 := Run(cfg, workers, v, a);
    ManyChecks(cfg, workers, v1, y, workers);
    var v2 := Run(cfg, workers, v1, b);
    ManyRecords(cfg, workers, v2, y, workers, hour);
    RunOn(cfg, workers, v, a, b);
    RunOn(cfg, workers, v, a + b, c);
    RunOn(cfg, workers, Start(), FirstHour(cfg, workers), SecondHour(cfg, workers));
    NoAdminIn(cfg, workers);
  }

  lemma NotSameHour(y: int)
    requires y >= TRIP_TIME + SECONDS_PER_HOUR
    ensures TRIP_TIME < Hour(y)
  {
  }

  lemma {:induction false} NoAdminInTimes(step: Step, n: nat)
    requires !step.AdminSet?
    ensures forall i :: 0 <= i < |Times(step, n)| ==> !Times(step, n)[i].AdminSet?
  {
    if n > 0 {
      NoAdminInTimes(step, n - 1);
    }
  }

  lemma {:induction false} NoAdminInPairs(now: int, n: nat)
    ensures forall i :: 0 <= i < |Pairs(now, n)| ==> !Pairs(now, n)[i].AdminSet?
  {
    if n > 0 {
      NoAdminInPairs(now, n - 1);
    }
  }

  lemma NoAdminIn(cfg: ThrottleConfig, workers: nat)
    requires workers >= 1
    ensures NoAdminEnable(FirstHour(cfg, workers) + SecondHour(cfg, workers))
  {
    var y := TRIP_TIME + cfg.reEnableAfterSeconds;
    NoAdminInPairs(TRIP_TIME, if cfg.disableAtPerHour < 1 then 0 else cfg.disableAtPerHour - 1);
    NoAdminInTimes(Check(TRIP_TIME), workers);
    NoAdminInTimes(Record(y), workers - 1);
    NoAdminInTimes(Check(y), workers);
    NoAdminInTimes(Record(y), workers);
  }

  /** In every run without an admin enable every clock hour stays within the
      threshold plus the other workers. */
  ghost predicate ThresholdBoundHolds(cfg: ThrottleConfig, workers: nat) {
    forall steps, hour :: NoAdminEnable(steps) && hour % SECONDS_PER_HOUR == 0
      ==> InHour(Run(cfg, workers, Start(), steps).sends, hour) <= cfg.disableAtPerHour + workers - 1
  }

  /** The threshold plus the other workers bounds every hour exactly when there
      are no more workers than the threshold. */
  lemma ThresholdBoundExactly(cfg: ThrottleConfig, workers: nat)
    requires workers >= 1 && cfg.reEnableAfterSeconds >= SECONDS_PER_HOUR
    ensures ThresholdBoundHolds(cfg, workers) <==> workers <= cfg.disableAtPerHour
  {
    hide Run, CountIn, BucketStart;
    if workers <= cfg.disableAtPerHour {
      forall steps, hour | NoAdminEnable(steps) && hour % SECONDS_PER_HOUR == 0
        ensures InHour(Run(cfg, workers, Start(), steps).sends, hour) <= cfg.disableAtPerHour + workers - 1
      {
        SendsPerHour(cfg, workers, steps, hour);
      }
    } else {
      CrowdedHour(cfg, workers);
    }
  }

  // ---------- one worker, any hour-long span ----------

  /** Send i brought its clock hour to the threshold. */
  ghost predicate Trips(cfg: ThrottleConfig, sends: seq<int>, i: int) {
    0 <= i < |sends| && InHour(sends[..i + 1], Hour(sends[i])) >= cfg.disableAtPerHour
  }

  /** After a trip the worker stays silent for an hour. */
  ghost predicate Quiet(cfg: ThrottleConfig, w: World, i: int)
    requires 0 <= i < |w.sends|
  {
    w.clock >= w.sends[i] + SECONDS_PER_HOUR
    || (w.held == 0 && !On(w)
        && (w.channel.value.source == Admin
            || (w.channel.value.autoReEnableAt.Some? &&
              w.channel.value.autoReEnableAt.value >= w.sends[i] + SECONDS_PER_HOUR)))
  }

  ghost predicate Spaced(cfg: ThrottleConfig, w: World) {
    && (forall i :: Trips(cfg, w.sends, i) ==> Quiet(cfg, w, i))
    && (forall i, j :: Trips(cfg, w.sends, i) && i < j < |w.sends| ==> w.sends[j] >= w.sends[i] + SECONDS_PER_HOUR)
  }

  lemma TripsKept(cfg: ThrottleConfig, sends: seq<int>, t: int, i: int)
    requires i < |sends|
    ensures Trips(cfg, sends + [t], i) <==> Trips(cfg, sends, i)
  {
    if 0 <= i {
      assert (sends + [t])[..i + 1] == sends[..i + 1];
    }
  }

  lemma SpacedRecord(cfg: ThrottleConfig, w: World)
    requires cfg.reEnableAfterSeconds >= SECONDS_PER_HOUR && Valid(cfg, 1, w) && Spaced(cfg, w) && w.held > 0
    ensures Spaced(cfg, Next(cfg, 1, w, Record(w.clock)))
  {
    hide CountIn, Trips, BucketStart, HoursBounded;
    var v := Next(cfg, 1, w, Record(w.clock));
    var n := |w.sends|;
    forall i | i < n
      ensures Trips(cfg, v.sends, i) <==> Trips(cfg, w.sends, i)
    {
      TripsKept(cfg, w.sends, w.clock, i);
    }
    NewTrip(cfg, w);
    forall i | Trips(cfg, v.sends, i)
      ensures 0 <= i <= n
    {
      InRange(cfg, v.sends, i);
    }
  }

  lemma NewTrip(cfg: ThrottleConfig, w: World)
    requires cfg.reEnableAfterSeconds >= SECONDS_PER_HOUR && Valid(cfg, 1, w) && w.held > 0
    ensures
      var v := Next(cfg, 1, w, Record(w.clock));
      Trips(cfg, v.sends, |w.sends|) ==> Quiet(cfg, v, |w.sends|)
  {
    hide HoursBounded;
    var v := Next(cfg, 1, w, Record(w.clock));
    var hour := Hour(w.clock);
    assert v.sends[..|w.sends| + 1] == v.sends;
    CountOneMore(w.sends, w.clock, hour, hour + SECONDS_PER_HOUR);
    assert Get(w.rows, WHATSAPP, hour) == InHour(w.sends, hour);
  }

  lemma SpacedNext(cfg: ThrottleConfig, w: World, step: Step)
    requires cfg.reEnableAfterSeconds >= SECONDS_PER_HOUR && Valid(cfg, 1, w) && Spaced(cfg, w)
    requires step.AdminSet? ==> !step.enabled
    ensures Spaced(cfg, Next(cfg, 1, w, step))
  {
    hide CountIn, Trips, BucketStart, Valid;
    if Enabled(1, w, step) && step.Record? {
      Later(cfg, 1, w, step.now);
      SpacedRecord(cfg, w.(clock := step.now));
    }
  }

  lemma {:induction false} RunSpaced(cfg: ThrottleConfig, steps: seq<Step>)
    requires cfg.reEnableAfterSeconds >= SECONDS_PER_HOUR && NoAdminEnable(steps)
    ensures Spaced(cfg, Run(cfg, 1, Start(), steps))
  {
    if steps != [] {
      var n := |steps| - 1;
      RunSpaced(cfg, steps[..n]);
      RunValid(cfg, 1, steps[..n]);
      SpacedNext(cfg, Run(cfg, 1, Start(), steps[..n]), steps[n]);
    }
  }

  lemma {:induction false} SplitCount(sends: seq<int>, lo: int, mid: int, hi: int)
    requires lo <= mid <= hi
    ensures CountIn(sends, lo, hi) == CountIn(sends, lo, mid) + CountIn(sends, mid, hi)
  {
    if sends != [] {
      SplitCount(sends[..|sends| - 1], lo, mid, hi);
    }
  }

  /** If the threshold is met inside [t, b + 1h), some send there is a trip. */
  lemma {:induction false} SomeTrip(cfg: ThrottleConfig, sends: seq<int>, t: int, b: int) returns (i: int)
    requires b % SECONDS_PER_HOUR == 0 && b <= t < b + SECONDS_PER_HOUR && cfg.disableAtPerHour >= 1
    requires CountIn(sends, t, b + SECONDS_PER_HOUR) >= cfg.disableAtPerHour
    ensures Trips(cfg, sends, i) && t <= sends[i] < b + SECONDS_PER_HOUR
  {
    var n := |sends| - 1;
    if t <= sends[n] < b + SECONDS_PER_HOUR {
      i := n;
      SameBucket(b, sends[n], SECONDS_PER_HOUR);
      SplitCount(sends, b, t, b + SECONDS_PER_HOUR);
      assert sends[..n + 1] == sends;
    } else {
      i := SomeTrip(cfg, sends[..n], t, b);
      assert sends[..n] + [sends[n]] == sends;
      TripsKept(cfg, sends[..n], sends[n], i);
    }
  }

  /** With one worker no span of an hour holds more than twice the threshold,
      less one. */
  lemma SendsPerSpan(cfg: ThrottleConfig, steps: seq<Step>, t: int)
    requires cfg.disableAtPerHour >= 1 && cfg.reEnableAfterSeconds >= SECONDS_PER_HOUR && NoAdminEnable(steps)
    ensures CountIn(Run(cfg, 1, Start(), steps).sends, t, t + SECONDS_PER_HOUR) <= 2 * cfg.disableAtPerHour - 1
  {
    hide CountIn, Trips, Run, BucketStart, Budget;
    var w := Run(cfg, 1, Start(), steps);
    var sends := w.sends;
    RunValid(cfg, 1, steps);
    RunSpaced(cfg, steps);
    var b := Hour(t);
    SplitCount(sends, t, b + SECONDS_PER_HOUR, t + SECONDS_PER_HOUR);
    SplitCount(sends, b, t, b + SECONDS_PER_HOUR);
    SplitCount(sends, b + SECONDS_PER_HOUR, t + SECONDS_PER_HOUR, b + 2 * SECONDS_PER_HOUR);
    assert InHour(sends, b) <= Bound(cfg, 1) && InHour(sends, b + SECONDS_PER_HOUR) <= Bound(cfg, 1);
    if CountIn(sends, t, b + SECONDS_PER_HOUR) >= cfg.disableAtPerHour {
      var i := SomeTrip(cfg, sends, t, b);
      InRange(cfg, sends, i);
      forall j | 0 <= j < |sends|
        ensures !(b + SECONDS_PER_HOUR <= sends[j] < t + SECONDS_PER_HOUR)
      {
        assert j < i ==> sends[j] <= sends[i];
      }
      NoneIn(sends, b + SECONDS_PER_HOUR, t + SECONDS_PER_HOUR);
    }
  }

  lemma InRange(cfg: ThrottleConfig, sends: seq<int>, i: int)
    requires Trips(cfg, sends, i)
    ensures 0 <= i < |sends|
  {
  }

  // ---------- admin switches ----------

  lemma AdminOffStep(cfg: ThrottleConfig, workers: nat, w: World, step: Step)
    requires AdminOff(w) && (step.AdminSet? ==> !step.enabled)
    ensures AdminOff(Next(cfg, workers, w, step))
    ensures |Next(cfg, workers, w, step).sends| + Next(cfg, workers, w, step).held <= |w.sends| + w.held
  {
  }

  /** An admin's switching off is undone only by an admin's switching on: until
      then no check is granted, so only sends already checked are recorded. */
  lemma {:induction false} AdminDisableSticks(cfg: ThrottleConfig, workers: nat, w: World, steps: seq<Step>)
    requires AdminOff(w) && NoAdminEnable(steps)
    ensures AdminOff(Run(cfg, workers, w, steps))
    ensures |Run(cfg, workers, w, steps).sends| + Run(cfg, workers, w, steps).held <= |w.sends| + w.held
  {
    if steps != [] {
      var n := |steps| - 1;
      AdminDisableSticks(cfg, workers, w, steps[..n]);
      AdminOffStep(cfg, workers, Run(cfg, workers, w, steps[..n]), steps[n]);
    }
  }

  /** An admin's switching on takes effect at once, whatever the throttle had
      done: until the next switch the next check of a free worker is granted. */
  lemma AdminEnableGrants(cfg: ThrottleConfig, workers: nat, w: World, text: string, at: int, now: int)
    requires w.clock <= at <= now && w.held < workers
    ensures
      var on := Next(cfg, workers, w, AdminSet(true, text, at));
      && on.channel == Some(ChannelState(true, AdminSaid(text), Admin, at, None))
      && Next(cfg, workers, on, Check(now)) == on.(held := w.held + 1, clock := now)
  {
  }

  /** An admin's switching off refuses every check. */
  lemma AdminDisableRefuses(cfg: ThrottleConfig, workers: nat, w: World, text: string, at: int, now: int)
    requires w.clock <= at <= now && w.held < workers
    ensures
      var off := Next(cfg, workers, w, AdminSet(false, text, at));
      && off.channel == Some(ChannelState(false, AdminSaid(text), Admin, at, None))
      && Next(cfg, workers, off, Check(now)) == off.(clock := now)
  {
  }

  // ---------- when the throttle switches ----------

  lemma SoundKept(cfg: ThrottleConfig, workers: nat, w: World, step: Step)
    requires Sound(workers, w)
    ensures Sound(workers, Next(cfg, workers, w, step))
  {
    hide CountIn;
    if Enabled(workers, w, step) && step.Record? {
      forall h | h % SECONDS_PER_HOUR == 0
        ensures InHour(w.sends + [step.now], h) == InHour(w.sends, h) + if h == Hour(step.now) then 1 else 0
      {
        CountOneMore(w.sends, step.now, h, h + SECONDS_PER_HOUR);
        if h <= step.now < h + SECONDS_PER_HOUR {
          SameBucket(h, step.now, SECONDS_PER_HOUR);
        }
      }
    }
  }

  lemma {:induction false} RunSound(cfg: ThrottleConfig, workers: nat, steps: seq<Step>)
    ensures Sound(workers, Run(cfg, workers, Start(), steps))
  {
    hide Sound, Next;
    if steps == [] {
      StartSound(workers);
    } else {
      var n := |steps| - 1;
      RunSound(cfg, workers, steps[..n]);
      SoundKept(cfg, workers, Run(cfg, workers, Start(), steps[..n]), steps[n]);
    }
  }

  lemma StartSound(workers: nat)
    ensures Sound(workers, Start())
  {
  }

  /** After any run, whoever switched what, recording a send switches the
      channel off exactly when it is on and the sends of the clock hour, this
      one included, have reached the threshold; the state tells how many. */
  lemma TripsExactly(cfg: ThrottleConfig, workers: nat, steps: seq<Step>, now: int)
    requires Run(cfg, workers, Start(), steps).held > 0 && Run(cfg, workers, Start(), steps).clock <= now
    ensures
      var w := Run(cfg, workers, Start(), steps);
      var v := Next(cfg, workers, w, Record(now));
      var count := InHour(v.sends, BucketStart(now, 3600));
      && v.sends == w.sends + [now] && v.held == w.held - 1
      && (if On(w) && count >= cfg.disableAtPerHour
          then v.channel == Some(ChannelState(false, TooMany(count, cfg.disableAtPerHour), AutoThrottle, now,
                                              Some(now + cfg.reEnableAfterSeconds)))
          else v.channel == w.channel)
  {
    hide CountIn, BucketStart;
    var w := Run(cfg, workers, Start(), steps);
    RunSound(cfg, workers, steps);
    SoundKept(cfg, workers, w, Record(now));
  }

  /** Nobody touches the channel or checks it from the end of the cool-down on. */
  predicate Before(steps: seq<Step>, until: int) {
    forall i :: 0 <= i < |steps| ==> !steps[i].AdminSet? && steps[i].now < until
  }

  lemma OffStep(cfg: ThrottleConfig, workers: nat, w: World, step: Step, until: int)
    requires OffUntil(w, until) && !step.AdminSet? && step.now < until
    ensures
      var v := Next(cfg, workers, w, step);
      v.channel == w.channel && v.held <= w.held && (w.clock < until ==> v.clock < until)
  {
  }

  /** Switched off by the throttle, the channel grants no check before its
      cool-down is over, whatever is called meanwhile but the admin's switch,
      and grants the first one after it. */
  lemma {:induction false} CoolsDownExactly(cfg: ThrottleConfig, workers: nat, w: World, steps: seq<Step>, until: int,
                                            now: int)
    requires OffUntil(w, until) && w.clock < until && Before(steps, until)
    ensures
      var v := Run(cfg, workers, w, steps);
      && v.channel == w.channel && v.held <= w.held && v.clock < until
      && (v.clock <= now && v.held < workers ==>
            var u := Next(cfg, workers, v, Check(now));
            && u.held == (if until <= now then v.held + 1 else v.held)
            && u.channel == (if until <= now
                             then Some(ChannelState(true, Expired(w.channel.value.reason), AutoThrottle, now, None))
                             else w.channel))
  {
    if steps != [] {
      var n := |steps| - 1;
      CoolsDownExactly(cfg, workers, w, steps[..n], until, now);
      OffStep(cfg, workers, Run(cfg, workers, w, steps[..n]), steps[n], until);
    }
  }

  /** The first check finds the channel on. */
  lemma OnAtFirst(cfg: ThrottleConfig, workers: nat, now: int)
    requires workers >= 1 && now >= 0
    ensures
      var w := Next(cfg, workers, Start(), Check(now));
      w.held == 1 && w.channel == Some(ChannelState(true, NoReason, Boot, now, None))
  {
  }
}
