/** The file emitter: messages cut into chunks by time, listed by a manifest. */
module Chunks {
  import opened MatchStream
  import Sorting

  /** The window a message falls in; a message without a time counts as time 0. */
  function ChunkOf(m: Message, chunkDurationMs: int): int
    requires 0 < chunkDurationMs
  {
    m.Time() / chunkDurationMs
  }

  /** Chunk `c` is the window from `c` to `c + 1` chunk lengths. */
  lemma WindowOfChunk(m: Message, duration: int, c: int)
    requires 0 < duration
    ensures ChunkOf(m, duration) == c <==> c * duration <= m.Time() < (c + 1) * duration
  {
    var t, q := m.Time(), ChunkOf(m, duration);
    assert q * duration <= t < q * duration + duration;
    if c < q {
      TimesMonotone(duration, c + 1, q);
    }
    if q < c {
      TimesMonotone(duration, q + 1, c);
    }
  }

  /** The lines of one chunk: its messages, in stream order. */
  function Lines(ms: seq<Message>, duration: int, index: int): seq<Message>
    requires 0 < duration
  {
    if ms == [] then []
    else
      var front := Lines(ms[..|ms| - 1], duration, index);
      if ChunkOf(ms[|ms| - 1], duration) == index then front + [ms[|ms| - 1]] else front
  }

  /** What a reader of the manifest gets: all chunks, one after another. */
  function Concatenated(indices: seq<int>, chunks: map<int, seq<Message>>): seq<Message>
    requires forall i :: 0 <= i < |indices| ==> indices[i] in chunks
  {
    if indices == [] then [] else chunks[indices[0]] + Concatenated(indices[1..], chunks)
  }

  ghost predicate Ascending(indices: seq<int>) {
    forall i, j :: 0 <= i < j < |indices| ==> indices[i] < indices[j]
  }

  /** The stream never goes back to an earlier chunk. */
  ghost predicate NeverGoesBack(ms: seq<Message>, duration: int)
    requires 0 < duration
  {
    forall i, j :: 0 <= i < j < |ms| ==> ChunkOf(ms[i], duration) <= ChunkOf(ms[j], duration)
  }

  ghost predicate Holds(chunks: map<int, seq<Message>>, ms: seq<Message>, duration: int)
    requires 0 < duration
  {
    && (forall c :: c in chunks ==> chunks[c] == Lines(ms, duration, c))
    && (forall i :: 0 <= i < |ms| ==> ChunkOf(ms[i], duration) in chunks)
    && (forall c :: c in chunks ==> exists i :: 0 <= i < |ms| && ChunkOf(ms[i], duration) == c)
  }

  /** Every line is a message of the stream with a time in the chunk's window. */
  ghost predicate Windowed(chunks: map<int, seq<Message>>, ms: seq<Message>, duration: int) {
    forall c, m :: c in chunks && m in chunks[c] ==> m in ms && c * duration <= m.Time() < (c + 1) * duration
  }

  /** Buckets everything after the first message and lists the chunks in order. */
  method WriteChunks(messages: seq<Message>, duration: int)
    returns (indices: seq<int>, chunks: map<int, seq<Message>>)
    requires messages != [] && 0 < duration
    ensures Ascending(indices) && (forall c :: c in chunks <==> c in indices)
    ensures Holds(chunks, messages[1..], duration)
    ensures Windowed(chunks, messages[1..], duration)
    ensures (forall i :: 0 <= i < |indices| ==> indices[i] in chunks)
         && (Concatenated(indices, chunks) == messages[1..] <==> NeverGoesBack(messages[1..], duration))
  {
    hide Lines, Concatenated, NeverGoesBack, ChunkOf, Windowed;
    chunks := map[];
    var keys: seq<int> := [];
    ghost var ms := messages[1..];
    var i := 1;
    while i < |messages|
      invariant 1 <= i <= |messages|
      invariant forall c :: c in chunks <==> c in keys
      invariant Sorting.Distinct(keys)
      invariant Holds(chunks, ms[..i - 1], duration)
    {
      assert messages[i] == ms[i - 1];
      assert ms[..i][..i - 1] == ms[..i - 1];
      var index := ChunkOf(messages[i], duration);
      NewChunkEmpty(chunks, ms[..i - 1], duration, index);
      var lines := if index in chunks then chunks[index] else [];
      if index !in chunks {
        keys := keys + [index];
      }
      chunks := chunks[index := lines + [messages[i]]];
      assert index in chunks;
      OneMoreLine(chunks, ms[..i - 1], messages[i], duration);
      assert ms[..i] == ms[..i - 1] + [messages[i]];
      i := i + 1;
    }
    assert ms[..i - 1] == ms;
    indices := Sorting.StableSort(keys, (a: int, b: int) => a <= b);
    SortedKeysAscend(keys);
    ManifestRestores(indices, chunks, ms, duration);
    LinesInWindow(chunks, ms, duration);
  }

  lemma NewChunkEmpty(chunks: map<int, seq<Message>>, ms: seq<Message>, duration: int, index: int)
    requires 0 < duration && Holds(chunks, ms, duration)
    ensures index !in chunks ==> Lines(ms, duration, index) == []
  {
    if index !in chunks {
      NoLines(ms, duration, index);
    }
  }

  lemma {:induction false} NoLines(ms: seq<Message>, duration: int, index: int)
    requires 0 < duration && forall i :: 0 <= i < |ms| ==> ChunkOf(ms[i], duration) != index
    ensures Lines(ms, duration, index) == []
  {
    if ms != [] {
      NoLines(ms[..|ms| - 1], duration, index);
    }
  }

  lemma OneMoreLine(chunks: map<int, seq<Message>>, ms: seq<Message>, m: Message, duration: int)
    requires 0 < duration
    requires var c := ChunkOf(m, duration); c in chunks && chunks[c] == Lines(ms, duration, c) + [m]
    requires forall c :: c in chunks && c != ChunkOf(m, duration) ==> chunks[c] == Lines(ms, duration, c)
    requires forall i :: 0 <= i < |ms| ==> ChunkOf(ms[i], duration) in chunks
    requires forall c :: c in chunks && c != ChunkOf(m, duration) ==>
      exists i :: 0 <= i < |ms| && ChunkOf(ms[i], duration) == c
    ensures Holds(chunks, ms + [m], duration)
  {
    var ns := ms + [m];
    assert ns[..|ms|] == ms;
    forall c | c in chunks
      ensures exists i :: 0 <= i < |ns| && ChunkOf(ns[i], duration) == c
    {
      if c == ChunkOf(m, duration) {
        assert ChunkOf(ns[|ms|], duration) == c;
      } else {
        var i :| 0 <= i < |ms| && ChunkOf(ms[i], duration) == c;
        assert ns[i] == ms[i];
      }
    }
  }

  lemma SortedKeysAscend(keys: seq<int>)
    requires Sorting.Distinct(keys)
    ensures var s := Sorting.StableSort(keys, (a: int, b: int) => a <= b);
      Ascending(s) && forall c :: c in s <==> c in keys
  {
    var le := (a: int, b: int) => a <= b;
    var s := Sorting.StableSort(keys, le);
    Sorting.StableSortSorted(keys, le);
    Sorting.MemberOfSort(keys, le);
    Sorting.StillDistinct(keys, s);
    forall i, j | 0 <= i < j < |s|
      ensures s[i] < s[j]
    {
      assert le(s[i], s[j]);
    }
  }

  /** Reading the chunks in manifest order gives the stream back exactly when
      the stream never goes back to an earlier chunk. */
  lemma ManifestRestores(indices: seq<int>, chunks: map<int, seq<Message>>, ms: seq<Message>, duration: int)
    requires 0 < duration && Ascending(indices) && Holds(chunks, ms, duration)
    requires (forall c :: c in chunks <==> c in indices) && forall i :: 0 <= i < |indices| ==> indices[i] in chunks
    ensures Concatenated(indices, chunks) == ms <==> NeverGoesBack(ms, duration)
  {
    ConcatenatedNeverGoesBack(indices, chunks, ms, duration);
    if NeverGoesBack(ms, duration) {
      forall i | 0 <= i < |ms|
        ensures ChunkOf(ms[i], duration) in indices
      {
      }
      InOrderRestored(indices, chunks, ms, ms, duration);
    }
  }

  lemma {:induction false} LinesFrom(ms: seq<Message>, duration: int, index: int)
    requires 0 < duration
    ensures forall m :: m in Lines(ms, duration, index) <==> m in ms && ChunkOf(m, duration) == index
  {
    hide ChunkOf;
    if ms != [] {
      LinesFrom(ms[..|ms| - 1], duration, index);
      assert ms == ms[..|ms| - 1] + [ms[|ms| - 1]];
    }
  }

  lemma LinesInWindow(chunks: map<int, seq<Message>>, ms: seq<Message>, duration: int)
    requires 0 < duration && Holds(chunks, ms, duration)
    ensures Windowed(chunks, ms, duration)
  {
    hide Lines, ChunkOf;
    forall c, m | c in chunks && m in chunks[c]
      ensures m in ms && c * duration <= m.Time() < (c + 1) * duration
    {
      LinesFrom(ms, duration, c);
      WindowOfChunk(m, duration, c);
    }
  }

  lemma {:induction false} LinesBelong(ms: seq<Message>, duration: int, index: int)
    requires 0 < duration
    ensures forall i :: 0 <= i < |Lines(ms, duration, index)| ==>
      ChunkOf(Lines(ms, duration, index)[i], duration) == index
  {
    if ms != [] {
      LinesBelong(ms[..|ms| - 1], duration, index);
    }
  }

  lemma {:induction false} ConcatenatedNeverGoesBack(indices: seq<int>, chunks: map<int, seq<Message>>,
      ms: seq<Message>, duration: int)
    requires 0 < duration && Ascending(indices)
    requires forall i :: 0 <= i < |indices| ==>
      indices[i] in chunks && chunks[indices[i]] == Lines(ms, duration, indices[i])
    ensures NeverGoesBack(Concatenated(indices, chunks), duration)
    ensures forall i :: 0 <= i < |Concatenated(indices, chunks)| ==>
      ChunkOf(Concatenated(indices, chunks)[i], duration) in indices
  {
    if indices != [] {
      var c, rest := indices[0], Concatenated(indices[1..], chunks);
      ConcatenatedNeverGoesBack(indices[1..], chunks, ms, duration);
      LinesBelong(ms, duration, c);
      var all := Concatenated(indices, chunks);
      assert all == chunks[c] + rest;
      forall i | 0 <= i < |all|
        ensures ChunkOf(all[i], duration) in indices && c <= ChunkOf(all[i], duration)
      {
        if i >= |chunks[c]| {
          assert all[i] == rest[i - |chunks[c]|];
          assert ChunkOf(all[i], duration) in indices[1..];
        }
      }
    }
  }

  /** The remaining chunks of an ordered stream are a suffix of it. */
  lemma {:induction false} InOrderRestored(indices: seq<int>, chunks: map<int, seq<Message>>, ms: seq<Message>,
      rest: seq<Message>, duration: int)
    requires 0 < duration && Ascending(indices) && NeverGoesBack(rest, duration)
    requires forall i :: 0 <= i < |indices| ==>
      indices[i] in chunks && chunks[indices[i]] == Lines(ms, duration, indices[i])
    requires forall i :: 0 <= i < |rest| ==> ChunkOf(rest[i], duration) in indices
    requires forall c :: c in indices ==> Lines(rest, duration, c) == Lines(ms, duration, c)
    ensures Concatenated(indices, chunks) == rest
  {
    if indices != [] {
      var c := indices[0];
      var k := FirstRun(rest, duration, c);
      forall i | k <= i < |rest|
        ensures ChunkOf(rest[i], duration) in indices[1..]
      {
        assert ChunkOf(rest[i], duration) != c;
      }
      forall d | d in indices[1..]
        ensures Lines(rest[k..], duration, d) == Lines(ms, duration, d)
      {
        LinesAfter(rest, k, duration, d);
      }
      InOrderRestored(indices[1..], chunks, ms, rest[k..], duration);
      assert rest == rest[..k] + rest[k..];
    }
  }

  /** Where the first chunk of an ordered stream ends. */
  lemma {:induction false} FirstRun(rest: seq<Message>, duration: int, c: int) returns (k: nat)
    requires 0 < duration && NeverGoesBack(rest, duration)
    requires forall i :: 0 <= i < |rest| ==> c <= ChunkOf(rest[i], duration)
    ensures k <= |rest| && Lines(rest, duration, c) == rest[..k]
    ensures forall i :: 0 <= i < k ==> ChunkOf(rest[i], duration) == c
    ensures forall i :: k <= i < |rest| ==> ChunkOf(rest[i], duration) != c
  {
    hide ChunkOf;
    if rest == [] {
      k := 0;
    } else {
      var n := |rest| - 1;
      var front := rest[..n];
      k := FirstRun(front, duration, c);
      if ChunkOf(rest[n], duration) == c {
        assert k == n;
        assert rest == front[..k] + [rest[n]];
        k := n + 1;
      } else {
        assert front[..k] == rest[..k];
      }
    }
  }

  lemma {:induction false} LinesAfter(ms: seq<Message>, k: nat, duration: int, d: int)
    requires 0 < duration && k <= |ms|
    requires forall i :: 0 <= i < k ==> ChunkOf(ms[i], duration) != d
    ensures Lines(ms[k..], duration, d) == Lines(ms, duration, d)
  {
    if k == |ms| {
      NoLines(ms, duration, d);
    } else {
      var n := |ms| - 1;
      assert ms[k..][..n - k] == ms[..n][k..];
      LinesAfter(ms[..n], k, duration, d);
    }
  }

  /** Times that never fall are enough, for any chunk length: what the
      simulator guarantees of its streams. */
  lemma TimesInOrderSuffice(ms: seq<Message>, duration: int)
    requires 0 < duration && forall i, j :: 0 <= i < j < |ms| ==> ms[i].Time() <= ms[j].Time()
    ensures NeverGoesBack(ms, duration)
  {
    forall i, j | 0 <= i < j < |ms|
      ensures ChunkOf(ms[i], duration) <= ChunkOf(ms[j], duration)
    {
      DivisionMonotone(ms[i].Time(), ms[j].Time(), duration);
    }
  }

  lemma TimesMonotone(d: int, x: int, y: int)
    requires 0 < d && x <= y
    ensures d * x <= d * y
  {
  }

  lemma DivisionMonotone(a: int, b: int, d: int)
    requires a <= b && 0 < d
    ensures a / d <= b / d
  {
    var x, y := a / d, b / d;
    assert d * x <= a && b < d * (y + 1);
    if y < x {
      TimesMonotone(d, y + 1, x);
      assert false;
    }
  }

  lemma OrderedStreamRestored(messages: seq<Message>, homeId: string, duration: int)
    requires 0 < duration && messages != [] && InitFirst(messages) && Read(messages, homeId).flow.ordered
    ensures NeverGoesBack(messages[1..], duration)
  {
    var ms := messages[1..];
    forall i, j | 0 <= i < j < |ms|
      ensures ms[i].Time() <= ms[j].Time()
    {
      OrderedMeansSorted(messages, homeId, i + 1, j + 1);
    }
    TimesInOrderSuffice(ms, duration);
  }

  // ---------- chunk names ----------

  function Digit(d: int): char
    requires 0 <= d < 10
  {
    "0123456789"[d]
  }

  function Decimal(n: nat): (s: string)
    ensures s != []
  {
    if n < 10 then [Digit(n)] else Decimal(n / 10) + [Digit(n % 10)]
  }

  function Zeros(n: nat): (s: string)
    ensures |s| == n
  {
    if n == 0 then "" else "0" + Zeros(n - 1)
  }

  /** `String(index).padStart(6, "0")` */
  function Padded(index: nat): string {
    var s := Decimal(index);
    if |s| < 6 then Zeros(6 - |s|) + s else s
  }

  function ChunkName(index: nat): string {
    "chunk-" + Padded(index) + ".ndjson.gz"
  }

  lemma PaddedSeven()
    ensures Padded(7) == "000007"
  {
    assert Zeros(2) == "00" && Zeros(4) == "0000" && Zeros(5) == "00000";
  }

  /** How a name reads. */
  lemma NameOfChunk()
    ensures ChunkName(7) == "chunk-000007.ndjson.gz"
  {
    hide Padded;
    PaddedSeven();
  }

  /** Dictionary order, as file listings sort names. */
  predicate LexLess(a: string, b: string) {
    b != [] && (a == [] || a[0] < b[0] || (a[0] == b[0] && LexLess(a[1..], b[1..])))
  }

  function FixedDigits(n: nat, k: nat): (s: string)
    ensures |s| == k
  {
    if k == 0 then "" else FixedDigits(n / 10, k - 1) + [Digit(n % 10)]
  }

  function Pow10(k: nat): nat {
    if k == 0 then 1 else 10 * Pow10(k - 1)
  }

  lemma {:induction false} LexSamePrefix(p: string, a: string, b: string)
    ensures LexLess(p + a, p + b) == LexLess(a, b)
  {
    if p == [] {
      assert p + a == a && p + b == b;
    } else {
      assert (p + a)[1..] == p[1..] + a && (p + b)[1..] == p[1..] + b;
      LexSamePrefix(p[1..], a, b);
    }
  }

  lemma {:induction false} LexExtended(a: string, b: string, x: string, y: string)
    requires |a| == |b| && LexLess(a, b)
    ensures LexLess(a + x, b + y)
  {
    if a[0] == b[0] {
      assert (a + x)[1..] == a[1..] + x && (b + y)[1..] == b[1..] + y;
      LexExtended(a[1..], b[1..], x, y);
    }
  }

  lemma {:induction false} FixedDigitsOrder(m: nat, n: nat, k: nat)
    requires m < n < Pow10(k)
    ensures LexLess(FixedDigits(m, k), FixedDigits(n, k))
  {
    assert k != 0;
    if m / 10 < n / 10 {
      FixedDigitsOrder(m / 10, n / 10, k - 1);
      LexExtended(FixedDigits(m / 10, k - 1), FixedDigits(n / 10, k - 1), [Digit(m % 10)], [Digit(n % 10)]);
    } else {
      assert m / 10 == n / 10;
      LexSamePrefix(FixedDigits(m / 10, k - 1), [Digit(m % 10)], [Digit(n % 10)]);
    }
  }

  lemma {:induction false} ZerosFirst(n: nat, k: nat)
    requires |Decimal(n)| <= k
    ensures Zeros(k - |Decimal(n)|) + Decimal(n) == FixedDigits(n, k)
  {
    if n < 10 {
      AllZeros(k - 1);
    } else {
      ZerosFirst(n / 10, k - 1);
    }
  }

  lemma {:induction false} AllZeros(k: nat)
    ensures FixedDigits(0, k) == Zeros(k)
  {
    if k != 0 {
      AllZeros(k - 1);
      ZerosEnd(k);
    }
  }

  lemma {:induction false} ZerosEnd(k: nat)
    requires 0 < k
    ensures Zeros(k) == Zeros(k - 1) + "0"
  {
    if k > 1 {
      ZerosEnd(k - 1);
    }
  }

  lemma {:induction false} DecimalLength(n: nat, k: nat)
    requires 0 < k && n < Pow10(k)
    ensures |Decimal(n)| <= k
  {
    if 10 <= n {
      DecimalLength(n / 10, k - 1);
    }
  }

  /** Up to a largest index, the names sort like the indices exactly when the
      index has at most six digits. */
  lemma NamesSortLikeIndices(largest: nat)
    ensures (forall a: nat, b: nat :: a < b <= largest ==> LexLess(ChunkName(a), ChunkName(b))) <==> largest < 1_000_000
  {
    if largest < 1_000_000 {
      forall a: nat, b: nat | a < b <= largest
        ensures LexLess(ChunkName(a), ChunkName(b))
      {
        SixDigitNames(a, b);
      }
    } else {
      hide LexLess, ChunkName;
      SeventhDigit();
    }
  }

  lemma SixDigitNames(a: nat, b: nat)
    requires a < b < 1_000_000
    ensures LexLess(ChunkName(a), ChunkName(b))
  {
    hide Padded, LexLess, FixedDigits, Pow10;
    SixDigits(a);
    SixDigits(b);
    FixedDigitsOrder(a, b, 6);
    LexExtended(Padded(a), Padded(b), ".ndjson.gz", ".ndjson.gz");
    LexSamePrefix("chunk-", Padded(a) + ".ndjson.gz", Padded(b) + ".ndjson.gz");
    assert ChunkName(a) == "chunk-" + (Padded(a) + ".ndjson.gz");
    assert ChunkName(b) == "chunk-" + (Padded(b) + ".ndjson.gz");
  }

  lemma SixDigits(n: nat)
    requires n < 1_000_000
    ensures Padded(n) == FixedDigits(n, 6) && n < Pow10(6)
  {
    Million();
    hide Pow10, Decimal, FixedDigits, Zeros;
    DecimalLength(n, 6);
    ZerosFirst(n, 6);
    NothingToPad(n);
  }

  lemma NothingToPad(n: nat)
    requires |Decimal(n)| <= 6
    ensures Padded(n) == Zeros(6 - |Decimal(n)|) + Decimal(n)
  {
    hide Decimal;
  }

  lemma Million()
    ensures Pow10(6) == 1_000_000
  {
    assert Pow10(2) == 100;
    assert Pow10(4) == 10_000;
  }

  lemma SeventhDigit()
    ensures !LexLess(ChunkName(999_999), ChunkName(1_000_000))
  {
    var a, b := Padded(999_999), Padded(1_000_000);
    assert Decimal(999_999)[0] == '9' by {
      FirstOfDecimal(999_999);
      FirstOfDecimal(99_999);
      FirstOfDecimal(9_999);
      FirstOfDecimal(999);
      FirstOfDecimal(99);
    }
    assert Decimal(1_000_000)[0] == '1' by {
      FirstOfDecimal(1_000_000);
      FirstOfDecimal(100_000);
      FirstOfDecimal(10_000);
      FirstOfDecimal(1_000);
      FirstOfDecimal(100);
      FirstOfDecimal(10);
    }
    SixDigits(999_999);
    assert |Decimal(1_000_000)| >= 6;
    LexSamePrefix("chunk-", a + ".ndjson.gz", b + ".ndjson.gz");
    assert ChunkName(999_999) == "chunk-" + (a + ".ndjson.gz");
    assert ChunkName(1_000_000) == "chunk-" + (b + ".ndjson.gz");
  }

  lemma FirstOfDecimal(n: nat)
    requires 10 <= n
    ensures Decimal(n)[0] == Decimal(n / 10)[0] && |Decimal(n)| == |Decimal(n / 10)| + 1
  {
  }
}
