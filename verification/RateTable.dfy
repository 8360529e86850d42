/** The rate_limit table shared by the request limiter, the verify lockout and
    the WhatsApp throttle: counters keyed by (key, bucket_start). */
module RateTable {

  datatype Key =
    | PhoneCooldown(phone: string)
    | PhoneHourly(phone: string)
    | IpHourly(ip: string)
    | VerifyFailures(phone: string)
    | LockedUntil(phone: string)
    | VerifyIp(ip: string)
    | ChannelSend(channel: string)

  datatype Row = Row(key: Key, start: int)

  type Table = map<Row, int>

  const SECONDS_PER_HOUR := 3600

  /** The text stored in the key column. */
  function KeyText(k: Key): string {
    match k
    case PhoneCooldown(phone) => "phone:" + phone + ":cooldown"
    case PhoneHourly(phone) => "phone:" + phone + ":hourly"
    case IpHourly(ip) => "ip:" + ip + ":hourly"
    case VerifyFailures(phone) => "verify:phone:" + phone + ":failures"
    case LockedUntil(phone) => "verify:phone:" + phone + ":locked-until"
    case VerifyIp(ip) => "verify:ip:" + ip + ":5m"
    case ChannelSend(channel) => "channel_send:" + channel
  }

  lemma Affixed(prefix: string, a: string, b: string, suffix: string)
    requires prefix + a + suffix == prefix + b + suffix
    ensures a == b
  {
    var s, t := prefix + a + suffix, prefix + b + suffix;
    assert |a| == |b|;
    assert a == s[|prefix|..|prefix| + |a|] && b == t[|prefix|..|prefix| + |b|];
  }

  /** First, eighth and last characters tell the kinds of key apart. */
  lemma KindOfKey(k: Key)
    ensures
      var s := KeyText(k);
      && |s| > 7
      && (k.PhoneCooldown? ==> s[0] == 'p' && s[|s| - 1] == 'n')
      && (k.PhoneHourly? ==> s[0] == 'p' && s[|s| - 1] == 'y')
      && (k.IpHourly? ==> s[0] == 'i')
      && (k.VerifyFailures? ==> s[0] == 'v' && s[7] == 'p' && s[|s| - 1] == 's')
      && (k.LockedUntil? ==> s[0] == 'v' && s[7] == 'p' && s[|s| - 1] == 'l')
      && (k.VerifyIp? ==> s[0] == 'v' && s[7] == 'i')
      && (k.ChannelSend? ==> s[0] == 'c')
  {
  }

  /** No two subjects or purposes share a row, whatever text a phone or an
      address is. */
  lemma KeysNeverCollide(k: Key, m: Key)
    ensures KeyText(k) == KeyText(m) <==> k == m
  {
    if KeyText(k) == KeyText(m) {
      KindOfKey(k);
      KindOfKey(m);
      match k
      case PhoneCooldown(phone) => Affixed("phone:", phone, m.phone, ":cooldown");
      case PhoneHourly(phone) => Affixed("phone:", phone, m.phone, ":hourly");
      case IpHourly(ip) => Affixed("ip:", ip, m.ip, ":hourly");
      case VerifyFailures(phone) => Affixed("verify:phone:", phone, m.phone, ":failures");
      case LockedUntil(phone) => Affixed("verify:phone:", phone, m.phone, ":locked-until");
      case VerifyIp(ip) => Affixed("verify:ip:", ip, m.ip, ":5m");
      case ChannelSend(channel) =>
        assert channel == KeyText(k)[13..] && m.channel == KeyText(m)[13..];
    }
  }

  // ---------- windows ----------

  /** The start of the aligned window that holds `now`. */
  function BucketStart(now: int, window: int): (b: int)
    requires window > 0
    ensures b <= now < b + window
    ensures b % window == 0
  {
    MultipleDivides(now / window, window);
    now / window * window
  }

  lemma SameBucket(b: int, now: int, window: int)
    requires window > 0 && b % window == 0 && b <= now < b + window
    ensures BucketStart(now, window) == b
  {
    var q := b / window;
    assert b == q * window;
    assert now == q * window + (now - b);
    QuotientUnique(now, window, q);
  }

  lemma MultiplesInOrder(p: int, q: int, d: int)
    requires d > 0
    ensures p < q ==> p * d + d <= q * d
  {
    if p < q {
      var k := q - p;
      assert q * d == p * d + k * d;
      AtLeastOnce(k, d);
    }
  }

  lemma AtLeastOnce(k: int, d: int)
    requires k >= 1 && d > 0
    ensures d <= k * d
  {
  }

  lemma QuotientUnique(n: int, d: int, q: int)
    requires d > 0 && q * d <= n < q * d + d
    ensures n / d == q
  {
    var p := n / d;
    assert p * d <= n < p * d + d;
    MultiplesInOrder(p, q, d);
    MultiplesInOrder(q, p, d);
  }

  lemma MultipleDivides(q: int, d: int)
    requires d > 0
    ensures (q * d) % d == 0
  {
    QuotientUnique(q * d, d, q);
  }

  // ---------- rows ----------

  function Get(t: Table, key: Key, start: int): int {
    if Row(key, start) in t then t[Row(key, start)] else 0
  }

  function Bumped(t: Table, key: Key, start: int): Table {
    t[Row(key, start) := Get(t, key, start) + 1]
  }

  function Pruned(t: Table, olderThan: int): Table {
    map r | r in t && olderThan <= r.start :: t[r]
  }

  function Without(t: Table, key: Key): Table {
    map r | r in t && r.key != key :: t[r]
  }

  function Starts(t: Table, key: Key): set<int> {
    set r | r in t && r.key == key :: r.start
  }

  /** The value read back from a scalar: the latest row, or zero. */
  ghost predicate IsScalar(t: Table, key: Key, value: int) {
    if Starts(t, key) == {} then value == 0
    else value in Starts(t, key) && forall v :: v in Starts(t, key) ==> v <= value
  }

  function WithScalar(t: Table, key: Key, value: int): Table {
    Without(t, key)[Row(key, value) := 1]
  }

  class RateStore {
    var rows: Table

    constructor ()
      ensures rows == map[]
    {
      rows := map[];
    }

    method BumpRateBucket(key: Key, start: int) returns (count: int)
      modifies this
      ensures rows == Bumped(old(rows), key, start)
      ensures count == Get(rows, key, start) == Get(old(rows), key, start) + 1
    {
      if Row(key, start) in rows {
        rows := rows[Row(key, start) := rows[Row(key, start)] + 1];
      } else {
        rows := rows[Row(key, start) := 1];
      }
      count := rows[Row(key, start)];
    }

    method PruneRateBuckets(olderThan: int) returns (changes: nat)
      modifies this
      ensures rows == Pruned(old(rows), olderThan)
      ensures changes + |rows| == |old(rows)|
    {
      var kept := Pruned(rows, olderThan);
      assert kept.Keys <= rows.Keys;
      Smaller(kept.Keys, rows.Keys);
      changes := |rows| - |kept|;
      rows := kept;
    }

    method DeleteKey(key: Key)
      modifies this
      ensures rows == Without(old(rows), key)
    {
      rows := Without(rows, key);
    }

    /** The latest bucket_start among the rows of a key. */
    method ReadScalar(key: Key) returns (value: int)
      ensures IsScalar(rows, key, value)
    {
      var all := Starts(rows, key);
      if all == {} {
        return 0;
      }
      var left := all;
      value :| value in all;
      while left != {}
        invariant left <= all && value in all
        invariant forall v :: v in all && v !in left ==> v <= value
        decreases |left|
      {
        var v :| v in left;
        left := left - {v};
        if v > value {
          value := v;
        }
      }
    }

    method WriteScalar(key: Key, value: int)
      modifies this
      ensures rows == WithScalar(old(rows), key, value)
    {
      DeleteKey(key);
      rows := rows[Row(key, value) := 1];
    }
  }

  lemma Smaller<T>(a: set<T>, b: set<T>)
    requires a <= b
    ensures |a| <= |b|
  {
    assert b == a + (b - a);
  }
}
