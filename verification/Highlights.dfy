/** Highlight detection: events become windows, overlapping windows are merged. */
module Highlights {
  import opened Options
  import Sorting

  datatype EventType = Goal | PenaltyAttempt | Foul | MatchEnd | Save | Shot | OutOfBounds | Other
  datatype Severity = Soft | Yellow | Red | NoSeverity

  /** `t` is in milliseconds since the start of the stream. */
  datatype DetectorEvent = DetectorEvent(
    t: nat, kind: EventType, player: Option<string>, team: Option<string>,
    onTarget: bool, saved: bool, severity: Severity)

  datatype Kind = GoalKind | PenaltyKind | RedKind | MatchEndKind | SaveKind | YellowKind | ShotOnTargetKind

  datatype Rule = Rule(kind: Kind, importance: int, preMs: int, postMs: int)

  const GOAL_RULE := Rule(GoalKind, 10, 7_000, 10_000)
  const PENALTY_RULE := Rule(PenaltyKind, 9, 5_000, 8_000)
  const RED_RULE := Rule(RedKind, 8, 4_000, 8_000)
  const MATCH_END_RULE := Rule(MatchEndKind, 7, 15_000, 5_000)
  const SAVE_RULE := Rule(SaveKind, 4, 4_000, 5_000)
  const YELLOW_RULE := Rule(YellowKind, 3, 3_000, 5_000)
  const SHOT_RULE := Rule(ShotOnTargetKind, 2, 4_000, 5_000)

  function ClassifyEvent(e: DetectorEvent): Option<Rule> {
    match e.kind
    case Goal => Some(GOAL_RULE)
    case PenaltyAttempt => Some(PENALTY_RULE)
    case Foul =>
      if e.severity == Red then Some(RED_RULE) else if e.severity == Yellow then Some(YELLOW_RULE) else None
    case MatchEnd => Some(MATCH_END_RULE)
    case Save => Some(SAVE_RULE)
    case Shot => if e.onTarget && !e.saved then Some(SHOT_RULE) else None
    case OutOfBounds => None
    case Other => None
  }

  datatype Highlight = Highlight(
    startMs: int, endMs: int, kind: Kind, importance: int, player: Option<string>, team: Option<string>)

  /** The kind that an importance stands for. */
  function KindOf(importance: int): Kind {
    if importance == 10 then GoalKind else if importance == 9 then PenaltyKind else if importance == 8 then RedKind
    else if importance == 7 then MatchEndKind else if importance == 4 then SaveKind
    else if importance == 3 then YellowKind else ShotOnTargetKind
  }

  /** A window that ends after it starts and carries the kind of its importance. */
  predicate Proper(h: Highlight) {
    h.startMs <= h.endMs && h.kind == KindOf(h.importance)
  }

  function Window(e: DetectorEvent, rule: Rule): Highlight {
    Highlight(if e.t - rule.preMs < 0 then 0 else e.t - rule.preMs, e.t + rule.postMs,
              rule.kind, rule.importance, e.player, e.team)
  }

  /** The windows of the events that match a rule, in event order. */
  function RawWindows(events: seq<DetectorEvent>): (r: seq<Highlight>)
    ensures forall i :: 0 <= i < |r| ==> Proper(r[i])
  {
    if events == [] then []
    else
      var e := events[|events| - 1];
      var front := RawWindows(events[..|events| - 1]);
      match ClassifyEvent(e)
      case None => front
      case Some(rule) => front + [Window(e, rule)]
  }

  /** Sorted by start, the more important first. */
  predicate Before(a: Highlight, b: Highlight) {
    a.startMs < b.startMs || (a.startMs == b.startMs && a.importance >= b.importance)
  }

  /** An overlapping (or touching) window extends the last one, and gives it its
      kind, player and team when it is more important. */
  function Extended(last: Highlight, c: Highlight): Highlight {
    var e := last.(endMs := if c.endMs > last.endMs then c.endMs else last.endMs);
    if c.importance > last.importance
    then e.(kind := c.kind, importance := c.importance, player := c.player, team := c.team)
    else e
  }

  function Merged(m: seq<Highlight>, c: Highlight): seq<Highlight> {
    if m != [] && c.startMs <= m[|m| - 1].endMs then m[|m| - 1 := Extended(m[|m| - 1], c)] else m + [c]
  }

  function Merge(s: seq<Highlight>): seq<Highlight> {
    if s == [] then []
    else
      Merged(Merge(s[..|s| - 1]), s[|s| - 1])
  }

  ghost function Detected(events: seq<DetectorEvent>): seq<Highlight> {
    Merge(Sorting.StableSort(RawWindows(events), Before))
  }

  method DetectHighlights(events: seq<DetectorEvent>) returns (merged: seq<Highlight>)
    ensures merged == Detected(events)
    ensures Components(merged, RawWindows(events))
    ensures forall e :: e in events && Qualifies(e) ==> Shown(e, merged)
    ensures forall h :: h in merged ==> Founded(h, events)
  {
    hide Components, Extended, Window, ClassifyEvent, Proper, Qualifies, Shown, Founded;
    var raw := [];
    var i := 0;
    while i < |events|
      invariant 0 <= i <= |events| && raw == RawWindows(events[..i])
    {
      assert events[..i + 1][..i] == events[..i];
      var rule := ClassifyEvent(events[i]);
      if rule.Some? {
        raw := raw + [Window(events[i], rule.value)];
      }
      i := i + 1;
    }
    assert events[..i] == events;
    merged := MergeSorted(Sorting.StableSort(raw, Before));
    DetectedAreComponents(events);
    EveryEventShown(events);
    EveryHighlightFounded(events);
  }

  method MergeSorted(sorted: seq<Highlight>) returns (merged: seq<Highlight>)
    ensures merged == Merge(sorted)
  {
    merged := [];
    var i := 0;
    while i < |sorted|
      invariant 0 <= i <= |sorted| && merged == Merge(sorted[..i])
    {
      assert sorted[..i + 1][..i] == sorted[..i];
      var c, n := sorted[i], |merged|;
      if n > 0 && c.startMs <= merged[n - 1].endMs {
        merged := merged[n - 1 := Extended(merged[n - 1], c)];
      } else {
        merged := merged + [c];
      }
      i := i + 1;
    }
    assert sorted[..i] == sorted;
  }

  // ---------- what the merged windows are ----------

  predicate Holds(h: Highlight, x: real) {
    h.startMs as real <= x <= h.endMs as real
  }

  /** The instant lies in one of the windows. */
  ghost predicate Covered(s: seq<Highlight>, x: real) {
    exists i :: 0 <= i < |s| && Holds(s[i], x)
  }

  ghost predicate SameInstants(s: seq<Highlight>, r: seq<Highlight>) {
    forall x: real :: Covered(s, x) <==> Covered(r, x)
  }

  /** In order, with a gap between any two. */
  ghost predicate Separated(s: seq<Highlight>) {
    && (forall i :: 0 <= i < |s| ==> Proper(s[i]))
    && (forall i, j :: 0 <= i < j < |s| ==> s[i].endMs < s[j].startMs)
  }

  predicate Within(r: Highlight, h: Highlight) {
    h.startMs <= r.startMs && r.endMs <= h.endMs
  }

  /** The window carries what the most important window inside it carries. */
  ghost predicate Tops(h: Highlight, s: seq<Highlight>) {
    && (forall k :: 0 <= k < |s| && Within(s[k], h) ==> s[k].importance <= h.importance)
    && (exists k :: 0 <= k < |s| && Within(s[k], h) && s[k].importance == h.importance
                    && s[k].kind == h.kind && s[k].player == h.player && s[k].team == h.team)
  }

  ghost predicate WithinOne(r: Highlight, merged: seq<Highlight>) {
    exists i :: 0 <= i < |merged| && Within(r, merged[i])
  }

  ghost predicate EachWithin(s: seq<Highlight>, merged: seq<Highlight>) {
    forall k :: 0 <= k < |s| ==> WithinOne(s[k], merged)
  }

  /** The merged windows are the connected components of the raw ones: the same
      instants, in order and apart, every raw window inside one of them, each
      carrying the most important of its raw windows. */
  ghost predicate Components(merged: seq<Highlight>, raw: seq<Highlight>) {
    && Separated(merged)
    && SameInstants(merged, raw)
    && EachWithin(raw, merged)
    && (forall i :: 0 <= i < |merged| ==> Tops(merged[i], raw))
  }

  ghost predicate StartsUpTo(s: seq<Highlight>, x: int) {
    forall i :: 0 <= i < |s| ==> s[i].startMs <= x
  }

  lemma {:induction false} MergeIsComponents(s: seq<Highlight>)
    requires Sorting.Sorted(s, Before) && AllProper(s)
    ensures Components(Merge(s), s) && StartsUpToLast(Merge(s), s)
  {
    hide Sorting.Sorted, AllProper, Components, StartsUpToLast, Merged, Merge, Proper;
    if s == [] {
      NothingToMerge();
    } else {
      var n := |s| - 1;
      FrontSorted(s);
      MergeIsComponents(s[..n]);
      StartsUpToMore(Merge(s[..n]), s);
      MergeOneMore(Merge(s[..n]), s[..n], s[n]);
      MergeUnfolds(s);
      LastStart(Merge(s), s);
      assert s == s[..n] + [s[n]];
    }
  }

  ghost predicate AllProper(s: seq<Highlight>) {
    forall i :: 0 <= i < |s| ==> Proper(s[i])
  }

  ghost predicate StartsUpToLast(m: seq<Highlight>, s: seq<Highlight>) {
    if s == [] then m == [] else StartsUpTo(m, s[|s| - 1].startMs)
  }

  lemma FrontSorted(s: seq<Highlight>)
    requires Sorting.Sorted(s, Before) && AllProper(s) && s != []
    ensures Sorting.Sorted(s[..|s| - 1], Before) && AllProper(s[..|s| - 1]) && Proper(s[|s| - 1])
    ensures |s| > 1 ==> Before(s[|s| - 2], s[|s| - 1])
  {
  }

  lemma LastStart(m: seq<Highlight>, s: seq<Highlight>)
    requires s != [] && StartsUpTo(m, s[|s| - 1].startMs)
    ensures StartsUpToLast(m, s)
  {
  }

  lemma StartsUpToMore(m: seq<Highlight>, s: seq<Highlight>)
    requires s != [] && StartsUpToLast(m, s[..|s| - 1]) && (|s| > 1 ==> Before(s[|s| - 2], s[|s| - 1]))
    ensures StartsUpTo(m, s[|s| - 1].startMs)
  {
    var front := s[..|s| - 1];
    if front != [] {
      assert front[|front| - 1] == s[|s| - 2];
    }
  }

  lemma MergeUnfolds(s: seq<Highlight>)
    requires s != []
    ensures Merge(s) == Merged(Merge(s[..|s| - 1]), s[|s| - 1])
  {
    hide Merged;
  }

  lemma NothingToMerge()
    ensures Components(Merge([]), []) && StartsUpToLast(Merge([]), [])
  {
  }

  lemma MergeOneMore(m: seq<Highlight>, s: seq<Highlight>, c: Highlight)
    requires Components(m, s) && StartsUpTo(m, c.startMs) && Proper(c) && AllProper(s)
    ensures Components(Merged(m, c), s + [c]) && StartsUpTo(Merged(m, c), c.startMs)
  {
    hide Components, Extended;
    if m != [] && c.startMs <= m[|m| - 1].endMs {
      ExtendedStart(m[|m| - 1], c);
      Absorb(m, s, c);
    } else {
      Append(m, s, c);
    }
  }

  lemma ExtendedStart(last: Highlight, c: Highlight)
    ensures Extended(last, c).startMs == last.startMs
  {
  }

  lemma Append(m: seq<Highlight>, s: seq<Highlight>, c: Highlight)
    requires Components(m, s) && Proper(c) && (m == [] || m[|m| - 1].endMs < c.startMs)
    requires forall k :: 0 <= k < |s| ==> Proper(s[k])
    ensures Components(m + [c], s + [c])
  {
    hide Tops, EachWithin, Covered;
    var m', s' := m + [c], s + [c];
    AppendSeparated(m, c);
    CoveredByBoth(m, s, c);
    WithinOneMore(m, s, c, m', c);
    forall i | 0 <= i < |m'|
      ensures Tops(m'[i], s')
    {
      if i < |m| {
        TopsOneMore(m[i], s, c);
      } else {
        NewTop(c, m, s);
      }
    }
  }

  lemma AppendSeparated(m: seq<Highlight>, c: Highlight)
    requires Separated(m) && Proper(c) && (m == [] || m[|m| - 1].endMs < c.startMs)
    ensures Separated(m + [c])
    ensures forall i :: 0 <= i < |m| ==> m[i].endMs < c.startMs && !Within(c, m[i]) && Within(m[i], m[i])
  {
    forall i | 0 <= i < |m|
      ensures m[i].endMs < c.startMs
    {
      assert i == |m| - 1 || m[i].endMs < m[|m| - 1].startMs;
    }
  }

  lemma CoveredByBoth(m: seq<Highlight>, s: seq<Highlight>, c: Highlight)
    requires SameInstants(m, s)
    ensures SameInstants(m + [c], s + [c])
  {
    forall x: real
      ensures Covered(m + [c], x) <==> Covered(s + [c], x)
    {
      CoveredOneMore(m, c, x);
      CoveredOneMore(s, c, x);
    }
  }

  lemma CoveredOneMore(s: seq<Highlight>, c: Highlight, x: real)
    ensures Covered(s + [c], x) <==> Covered(s, x) || Holds(c, x)
  {
    var r := s + [c];
    if Covered(s, x) {
      var i :| 0 <= i < |s| && Holds(s[i], x);
      assert r[i] == s[i];
    }
    if Holds(c, x) {
      assert r[|s|] == c;
    }
  }

  /** Raw windows stay inside when merged windows only grow. */
  lemma WithinOneMore(m: seq<Highlight>, s: seq<Highlight>, c: Highlight, m': seq<Highlight>, home: Highlight)
    requires EachWithin(s, m) && |m| <= |m'|
    requires forall i :: 0 <= i < |m| ==> Within(m[i], m'[i])
    requires home in m' && Within(c, home)
    ensures EachWithin(s + [c], m')
  {
    forall k | 0 <= k < |s + [c]|
      ensures WithinOne((s + [c])[k], m')
    {
      if k < |s| {
        assert WithinOne(s[k], m);
        var i :| 0 <= i < |m| && Within(s[k], m[i]);
        assert Within(m[i], m'[i]);
      } else {
        var i :| 0 <= i < |m'| && m'[i] == home;
      }
    }
  }

  /** A window apart from a merged one does not touch what tops it. */
  lemma TopsOneMore(h: Highlight, s: seq<Highlight>, c: Highlight)
    requires Tops(h, s) && Proper(c) && !Within(c, h)
    ensures Tops(h, s + [c])
  {
    var k :| 0 <= k < |s| && Within(s[k], h) && s[k].importance == h.importance
             && s[k].kind == h.kind && s[k].player == h.player && s[k].team == h.team;
    assert (s + [c])[k] == s[k];
  }

  /** A window that starts after all others end is alone in its component. */
  lemma NewTop(c: Highlight, m: seq<Highlight>, s: seq<Highlight>)
    requires EachWithin(s, m) && Proper(c)
    requires forall i :: 0 <= i < |m| ==> m[i].endMs < c.startMs
    requires forall k :: 0 <= k < |s| ==> Proper(s[k])
    ensures Tops(c, s + [c])
  {
    var r := s + [c];
    assert Within(r[|s|], c);
    forall k | 0 <= k < |s|
      ensures !Within(s[k], c)
    {
      assert WithinOne(s[k], m);
      var i :| 0 <= i < |m| && Within(s[k], m[i]);
    }
  }

  lemma Absorb(m: seq<Highlight>, s: seq<Highlight>, c: Highlight)
    requires Components(m, s) && Proper(c) && StartsUpTo(m, c.startMs)
    requires m != [] && c.startMs <= m[|m| - 1].endMs
    requires forall k :: 0 <= k < |s| ==> Proper(s[k])
    ensures Components(m[|m| - 1 := Extended(m[|m| - 1], c)], s + [c])
  {
    hide Tops, EachWithin, Covered;
    var n := |m| - 1;
    var last, last' := m[n], Extended(m[n], c);
    var m', s' := m[n := last'], s + [c];
    ExtendedSeparated(m, c);
    forall x: real
      ensures Covered(m', x) <==> Covered(s', x)
    {
      CoveredByHull(m, last', c, x);
      CoveredOneMore(s, c, x);
    }
    assert m'[n] == last';
    WithinOneMore(m, s, c, m', last');
    forall i | 0 <= i < |m'|
      ensures Tops(m'[i], s')
    {
      if i < n {
        TopsOneMore(m[i], s, c);
      } else {
        ExtendedTops(m, s, c);
      }
    }
  }

  lemma ExtendedSeparated(m: seq<Highlight>, c: Highlight)
    requires Separated(m) && Proper(c) && StartsUpTo(m, c.startMs) && m != [] && c.startMs <= m[|m| - 1].endMs
    ensures Separated(m[|m| - 1 := Extended(m[|m| - 1], c)])
    ensures forall i :: 0 <= i < |m| - 1 ==> !Within(c, m[i])
    ensures Within(m[|m| - 1], Extended(m[|m| - 1], c)) && Within(c, Extended(m[|m| - 1], c))
  {
    assert forall i :: 0 <= i < |m| - 1 ==> m[i].endMs < m[|m| - 1].startMs;
  }

  /** Extending the last window by one that meets it adds just its instants. */
  lemma CoveredByHull(m: seq<Highlight>, last': Highlight, c: Highlight, x: real)
    requires m != [] && last' == Extended(m[|m| - 1], c)
    requires m[|m| - 1].startMs <= c.startMs <= m[|m| - 1].endMs && c.startMs <= c.endMs
    ensures Covered(m[|m| - 1 := last'], x) <==> Covered(m, x) || Holds(c, x)
  {
    var n := |m| - 1;
    var m' := m[n := last'];
    assert Holds(last', x) <==> Holds(m[n], x) || Holds(c, x);
    if Covered(m', x) {
      var i :| 0 <= i < |m'| && Holds(m'[i], x);
      assert i < n ==> Holds(m[i], x);
    }
    if Covered(m, x) {
      var i :| 0 <= i < |m| && Holds(m[i], x);
      assert if i < n then Holds(m'[i], x) else Holds(m'[n], x);
    }
    if Holds(c, x) {
      assert Holds(m'[n], x);
    }
  }

  lemma ExtendedTops(m: seq<Highlight>, s: seq<Highlight>, c: Highlight)
    requires m != [] && Separated(m) && EachWithin(s, m) && Proper(c) && Tops(m[|m| - 1], s)
    requires m[|m| - 1].startMs <= c.startMs <= m[|m| - 1].endMs
    requires forall k :: 0 <= k < |s| ==> Proper(s[k])
    ensures Tops(Extended(m[|m| - 1], c), s + [c])
  {
    var n := |m| - 1;
    var last, last', r := m[n], Extended(m[n], c), s + [c];
    assert forall i :: 0 <= i < n ==> m[i].endMs < m[n].startMs;
    forall k | 0 <= k < |s| && Within(s[k], last')
      ensures s[k].importance <= last'.importance
    {
      assert WithinOne(s[k], m);
      var i :| 0 <= i < |m| && Within(s[k], m[i]);
      assert i == n;
    }
    if c.importance > last.importance {
      assert r[|s|] == c && Within(c, last');
    } else {
      var k :| 0 <= k < |s| && Within(s[k], last) && s[k].importance == last.importance
               && s[k].kind == last.kind && s[k].player == last.player && s[k].team == last.team;
      assert r[k] == s[k] && Within(s[k], last');
    }
  }

  // ---------- rearranging the raw windows ----------

  lemma BeforeIsTotal()
    ensures Sorting.TotalOrder(Before)
  {
  }

  lemma ComponentsOfRearranged(m: seq<Highlight>, s: seq<Highlight>, r: seq<Highlight>)
    requires Components(m, s) && multiset(s) == multiset(r)
    ensures Components(m, r)
  {
    hide Tops, Separated, Covered, SameInstants, EachWithin;
    SameMembers(s, r);
    SameInstantsOfMembers(s, r);
    InstantsCompose(m, s, r);
    EachOfMembers(m, s, r);
    forall i | 0 <= i < |m|
      ensures Tops(m[i], r)
    {
      TopsOfMembers(m[i], s, r);
    }
  }

  lemma EachOfMembers(m: seq<Highlight>, s: seq<Highlight>, r: seq<Highlight>)
    requires EachWithin(s, m) && forall h :: h in s <==> h in r
    ensures EachWithin(r, m)
  {
    forall k | 0 <= k < |r|
      ensures WithinOne(r[k], m)
    {
      assert r[k] in s;
    }
  }

  lemma SameInstantsOfMembers(s: seq<Highlight>, r: seq<Highlight>)
    requires forall h :: h in s <==> h in r
    ensures SameInstants(s, r)
  {
    hide Covered;
    forall x: real
      ensures Covered(s, x) <==> Covered(r, x)
    {
      CoveredByMembers(s, r, x);
      CoveredByMembers(r, s, x);
    }
  }

  lemma InstantsCompose(m: seq<Highlight>, s: seq<Highlight>, r: seq<Highlight>)
    requires SameInstants(m, s) && SameInstants(s, r)
    ensures SameInstants(m, r)
  {
    hide Covered;
    forall x: real
      ensures Covered(m, x) <==> Covered(r, x)
    {
      assert Covered(s, x) <==> Covered(r, x);
    }
  }

  lemma SameMembers(s: seq<Highlight>, r: seq<Highlight>)
    requires multiset(s) == multiset(r)
    ensures forall h :: h in s <==> h in r
  {
    forall h
      ensures h in s <==> h in r
    {
      assert h in s <==> h in multiset(s);
      assert h in r <==> h in multiset(r);
    }
  }

  lemma CoveredByMembers(s: seq<Highlight>, r: seq<Highlight>, x: real)
    requires forall h :: h in s ==> h in r
    ensures Covered(s, x) ==> Covered(r, x)
  {
    if Covered(s, x) {
      var i :| 0 <= i < |s| && Holds(s[i], x);
      assert s[i] in r;
      var j :| 0 <= j < |r| && r[j] == s[i];
    }
  }

  lemma TopsOfMembers(h: Highlight, s: seq<Highlight>, r: seq<Highlight>)
    requires Tops(h, s) && forall w :: w in s <==> w in r
    ensures Tops(h, r)
  {
    forall k | 0 <= k < |r| && Within(r[k], h)
      ensures r[k].importance <= h.importance
    {
      assert r[k] in s;
    }
    var k :| 0 <= k < |s| && Within(s[k], h) && s[k].importance == h.importance
             && s[k].kind == h.kind && s[k].player == h.player && s[k].team == h.team;
    assert s[k] in r;
    var j :| 0 <= j < |r| && r[j] == s[k];
    assert Within(r[j], h);
  }

  lemma DetectedAreComponents(events: seq<DetectorEvent>)
    ensures Components(Detected(events), RawWindows(events))
  {
    var raw := RawWindows(events);
    var sorted := Sorting.StableSort(raw, Before);
    BeforeIsTotal();
    Sorting.StableSortSorted(raw, Before);
    forall i | 0 <= i < |sorted|
      ensures Proper(sorted[i])
    {
      assert sorted[i] in raw;
    }
    MergeIsComponents(sorted);
    ComponentsOfRearranged(Merge(sorted), sorted, raw);
  }

  // ---------- which events make highlights ----------

  /** The events worth a highlight. */
  predicate Qualifies(e: DetectorEvent) {
    || e.kind == Goal || e.kind == PenaltyAttempt || e.kind == MatchEnd || e.kind == Save
    || (e.kind == Foul && (e.severity == Red || e.severity == Yellow))
    || (e.kind == Shot && e.onTarget && !e.saved)
  }

  /** The window opens `pre` before the event, but not before the stream, and
      closes `post` after it. */
  predicate Spans(h: Highlight, t: nat, pre: nat, post: nat) {
    h.startMs == (if t < pre then 0 else t - pre) && h.endMs == t + post
  }

  /** The window of a single event, told from its fields alone. */
  predicate CandidateOf(e: DetectorEvent, h: Highlight) {
    && h.player == e.player && h.team == e.team
    && (|| (e.kind == Goal && h.kind == GoalKind && h.importance == 10 && Spans(h, e.t, 7_000, 10_000))
        || (e.kind == PenaltyAttempt && h.kind == PenaltyKind && h.importance == 9 && Spans(h, e.t, 5_000, 8_000))
        || (e.kind == Foul && e.severity == Red && h.kind == RedKind && h.importance == 8
            && Spans(h, e.t, 4_000, 8_000))
        || (e.kind == MatchEnd && h.kind == MatchEndKind && h.importance == 7 && Spans(h, e.t, 15_000, 5_000))
        || (e.kind == Save && h.kind == SaveKind && h.importance == 4 && Spans(h, e.t, 4_000, 5_000))
        || (e.kind == Foul && e.severity == Yellow && h.kind == YellowKind && h.importance == 3
            && Spans(h, e.t, 3_000, 5_000))
        || (e.kind == Shot && e.onTarget && !e.saved && h.kind == ShotOnTargetKind && h.importance == 2
            && Spans(h, e.t, 4_000, 5_000)))
  }

  function Qualifying(events: seq<DetectorEvent>): (r: seq<DetectorEvent>)
    ensures forall e :: e in r <==> e in events && Qualifies(e)
  {
    if events == [] then []
    else
      var front, e := Qualifying(events[..|events| - 1]), events[|events| - 1];
      assert events == events[..|events| - 1] + [e];
      if Qualifies(e) then front + [e] else front
  }

  lemma RuleFits(e: DetectorEvent)
    ensures ClassifyEvent(e).Some? <==> Qualifies(e)
    ensures Qualifies(e) ==> CandidateOf(e, Window(e, ClassifyEvent(e).value))
  {
  }

  /** The raw windows are those of the qualifying events, one each, in order. */
  lemma {:induction false} RawAreCandidates(events: seq<DetectorEvent>)
    ensures |RawWindows(events)| == |Qualifying(events)|
    ensures forall i :: 0 <= i < |RawWindows(events)| ==> CandidateOf(Qualifying(events)[i], RawWindows(events)[i])
  {
    hide ClassifyEvent, Window, CandidateOf, Qualifies, Proper;
    if events != [] {
      RawAreCandidates(events[..|events| - 1]);
      RuleFits(events[|events| - 1]);
    }
  }

  /** The event's own window lies inside a highlight of at least its importance. */
  ghost predicate Shown(e: DetectorEvent, merged: seq<Highlight>) {
    exists c, h :: CandidateOf(e, c) && h in merged && Within(c, h) && c.importance <= h.importance
  }

  /** The highlight is about one of the events: it contains its window and takes
      kind, importance, player and team from it. */
  ghost predicate Founded(h: Highlight, events: seq<DetectorEvent>) {
    exists e, c :: e in events && CandidateOf(e, c) && Within(c, h)
                   && h.kind == c.kind && h.importance == c.importance && h.player == c.player && h.team == c.team
  }

  /** Inside components, a raw window is inside one of at least its importance. */
  lemma InsideOne(merged: seq<Highlight>, raw: seq<Highlight>, k: nat) returns (i: nat)
    requires Components(merged, raw) && k < |raw|
    ensures i < |merged| && Within(raw[k], merged[i]) && raw[k].importance <= merged[i].importance
  {
    hide SameInstants, Separated, Within;
    assert WithinOne(raw[k], merged);
    i :| 0 <= i < |merged| && Within(raw[k], merged[i]);
    assert Tops(merged[i], raw);
  }

  /** A component is topped by one of the raw windows. */
  lemma ToppedBy(merged: seq<Highlight>, raw: seq<Highlight>, i: nat) returns (k: nat)
    requires Components(merged, raw) && i < |merged|
    ensures k < |raw| && Within(raw[k], merged[i]) && raw[k].importance == merged[i].importance
    ensures raw[k].kind == merged[i].kind && raw[k].player == merged[i].player && raw[k].team == merged[i].team
  {
    hide SameInstants, Separated, Within, EachWithin;
    var h := merged[i];
    assert Tops(h, raw);
    k :| 0 <= k < |raw| && Within(raw[k], h) && raw[k].importance == h.importance
         && raw[k].kind == h.kind && raw[k].player == h.player && raw[k].team == h.team;
  }

  lemma EveryEventShown(events: seq<DetectorEvent>)
    ensures forall e :: e in events && Qualifies(e) ==> Shown(e, Detected(events))
  {
    hide CandidateOf, Qualifies, Detected, RawWindows, Within, Components, Proper;
    DetectedAreComponents(events);
    RawAreCandidates(events);
    forall e | e in events && Qualifies(e)
      ensures Shown(e, Detected(events))
    {
      var k :| 0 <= k < |Qualifying(events)| && Qualifying(events)[k] == e;
      var i := InsideOne(Detected(events), RawWindows(events), k);
    }
  }

  lemma EveryHighlightFounded(events: seq<DetectorEvent>)
    ensures forall h :: h in Detected(events) ==> Founded(h, events)
  {
    hide CandidateOf, Qualifies, Detected, RawWindows, Within, Components, Proper;
    DetectedAreComponents(events);
    RawAreCandidates(events);
    forall h | h in Detected(events)
      ensures Founded(h, events)
    {
      var i :| 0 <= i < |Detected(events)| && Detected(events)[i] == h;
      var k := ToppedBy(Detected(events), RawWindows(events), i);
      assert Qualifying(events)[k] in events;
    }
  }

  /** There are highlights exactly when some event qualifies. */
  lemma NoHighlightWithoutEvent(events: seq<DetectorEvent>)
    ensures Detected(events) == [] <==> forall e :: e in events ==> !Qualifies(e)
  {
    hide Qualifies, Detected, RawWindows, CandidateOf, Within;
    EveryEventShown(events);
    EveryHighlightFounded(events);
    if Detected(events) != [] {
      assert Founded(Detected(events)[0], events);
      var e, c :| e in events && CandidateOf(e, c);
      CandidateQualifies(e, c);
    }
  }

  lemma CandidateQualifies(e: DetectorEvent, c: Highlight)
    requires CandidateOf(e, c)
    ensures Qualifies(e)
  {
  }

  // ---------- there is only one way to do it ----------

  /** Two lists of separated windows over the same instants start alike. */
  lemma FirstStart(a: seq<Highlight>, b: seq<Highlight>)
    requires Separated(a) && Separated(b) && SameInstants(a, b) && a != []
    ensures b != [] && b[0].startMs <= a[0].startMs
  {
    var x := a[0].startMs as real;
    assert Holds(a[0], x);
    assert Covered(b, x);
    var j :| 0 <= j < |b| && Holds(b[j], x);
    assert j == 0 || b[0].endMs < b[j].startMs;
  }

  /** An instant between the first window and the second is not covered. */
  lemma GapNotCovered(a: seq<Highlight>, x: real)
    requires Separated(a) && a != [] && a[0].endMs as real < x && (|a| > 1 ==> x < a[1].startMs as real)
    ensures !Covered(a, x)
  {
    forall i | 0 <= i < |a|
      ensures !Holds(a[i], x)
    {
      assert i <= 1 || a[1].endMs < a[i].startMs;
    }
  }

  lemma FirstEnd(a: seq<Highlight>, b: seq<Highlight>)
    requires Separated(a) && Separated(b) && SameInstants(a, b) && a != [] && b != []
    requires a[0].startMs == b[0].startMs
    ensures b[0].endMs <= a[0].endMs
  {
    if a[0].endMs < b[0].endMs {
      // an instant just after the first window of `a`, before the second
      var x := if |a| > 1 && a[1].startMs <= b[0].endMs then (a[0].endMs as real + a[1].startMs as real) / 2.0
               else b[0].endMs as real;
      assert Holds(b[0], x);
      assert Covered(b, x);
      GapNotCovered(a, x);
      assert false;
    }
  }

  lemma CoveredRest(a: seq<Highlight>, x: real)
    requires Separated(a) && a != []
    ensures Covered(a[1..], x) <==> Covered(a, x) && a[0].endMs as real < x
  {
    if Covered(a[1..], x) {
      var i :| 0 <= i < |a[1..]| && Holds(a[1..][i], x);
      assert Holds(a[i + 1], x) && a[0].endMs < a[i + 1].startMs;
    }
    if Covered(a, x) && a[0].endMs as real < x {
      var i :| 0 <= i < |a| && Holds(a[i], x);
      assert a[1..][i - 1] == a[i];
    }
  }

  ghost predicate SameBounds(a: seq<Highlight>, b: seq<Highlight>) {
    |a| == |b| && forall i :: 0 <= i < |a| ==> a[i].startMs == b[i].startMs && a[i].endMs == b[i].endMs
  }

  /** Separated windows are determined by the instants they cover. */
  lemma {:induction false} ComponentsUnique(a: seq<Highlight>, b: seq<Highlight>)
    requires Separated(a) && Separated(b) && SameInstants(a, b)
    ensures SameBounds(a, b)
    decreases |a|
  {
    if a == [] {
      if b != [] {
        FirstStart(b, a);
      }
    } else {
      FirstStart(a, b);
      FirstStart(b, a);
      FirstEnd(a, b);
      FirstEnd(b, a);
      forall x: real
        ensures Covered(a[1..], x) <==> Covered(b[1..], x)
      {
        CoveredRest(a, x);
        CoveredRest(b, x);
      }
      ComponentsUnique(a[1..], b[1..]);
      assert forall i :: 0 < i < |a| ==> a[i] == a[1..][i - 1];
      assert forall i :: 0 < i < |b| ==> b[i] == b[1..][i - 1];
    }
  }

  /** The highlight without the attribution that a tie leaves open. */
  function Unattributed(h: Highlight): Highlight {
    h.(player := None, team := None)
  }

  lemma SameTop(h: Highlight, g: Highlight, s: seq<Highlight>)
    requires Proper(h) && Proper(g) && h.startMs == g.startMs && h.endMs == g.endMs
    requires Tops(h, s) && Tops(g, s)
    ensures Unattributed(h) == Unattributed(g)
  {
    var k :| 0 <= k < |s| && Within(s[k], h) && s[k].importance == h.importance
             && s[k].kind == h.kind && s[k].player == h.player && s[k].team == h.team;
    var j :| 0 <= j < |s| && Within(s[j], g) && s[j].importance == g.importance
             && s[j].kind == g.kind && s[j].player == g.player && s[j].team == g.team;
    assert Within(s[k], g) && Within(s[j], h);
  }

  lemma {:induction false} RawOfBoth(a: seq<DetectorEvent>, b: seq<DetectorEvent>)
    ensures RawWindows(a + b) == RawWindows(a) + RawWindows(b)
  {
    if b == [] {
      assert a + b == a;
    } else {
      var n := |b| - 1;
      assert (a + b)[..|a| + n] == a + b[..n];
      RawOfBoth(a, b[..n]);
    }
  }

  lemma CancelOne(x: multiset<DetectorEvent>, y: multiset<DetectorEvent>, z: multiset<DetectorEvent>, e: DetectorEvent)
    requires x + multiset{e} == y + multiset{e} + z
    ensures x == y + z
  {
    assert x == x + multiset{e} - multiset{e};
    assert y + z == y + multiset{e} + z - multiset{e};
  }

  /** Permuted events have permuted windows. */
  lemma {:induction false} RawOfPermuted(a: seq<DetectorEvent>, b: seq<DetectorEvent>)
    requires multiset(a) == multiset(b)
    ensures multiset(RawWindows(a)) == multiset(RawWindows(b))
    decreases |a|
  {
    if a == [] {
      assert b == [] by { assert |multiset(b)| == 0; }
    } else {
      var n := |a| - 1;
      var e := a[n];
      assert a == a[..n] + [e];
      assert e in multiset(b);
      var i :| 0 <= i < |b| && b[i] == e;
      var front, back := b[..i], b[i + 1..];
      assert b == front + [e] + back;
      assert multiset(a) == multiset(a[..n]) + multiset{e};
      assert multiset(b) == multiset(front) + multiset{e} + multiset(back);
      CancelOne(multiset(a[..n]), multiset(front), multiset(back), e);
      RawOfPermuted(a[..n], front + back);
      RawOfBoth(a[..n], [e]);
      RawOfBoth(front + [e], back);
      RawOfBoth(front, [e]);
      RawOfBoth(front, back);
    }
  }

  /** Highlights do not depend on the order of the events, but for player and
      team where windows of equal importance tie. */
  lemma OrderIndependent(a: seq<DetectorEvent>, b: seq<DetectorEvent>)
    requires multiset(a) == multiset(b)
    ensures |Detected(a)| == |Detected(b)|
    ensures forall i :: 0 <= i < |Detected(a)| ==> Unattributed(Detected(a)[i]) == Unattributed(Detected(b)[i])
  {
    DetectedAreComponents(a);
    DetectedAreComponents(b);
    RawOfPermuted(a, b);
    var h, g, raw := Detected(a), Detected(b), RawWindows(a);
    ComponentsOfRearranged(g, RawWindows(b), raw);
    ComponentsUnique(h, g);
    forall i | 0 <= i < |h|
      ensures Unattributed(h[i]) == Unattributed(g[i])
    {
      SameTop(h[i], g[i], raw);
    }
  }

  // ---------- the top highlights ----------

  /** More important, or as important and earlier. */
  predicate Outranks(a: Highlight, b: Highlight) {
    a.importance > b.importance || (a.importance == b.importance && a.startMs <= b.startMs)
  }

  predicate NoLater(a: Highlight, b: Highlight) {
    a.startMs <= b.startMs
  }

  /** The elements of `all` that are in `chosen`, in the order of `all`. */
  function Chosen(all: seq<Highlight>, chosen: seq<Highlight>): seq<Highlight> {
    if all == [] then []
    else
      var front, h := Chosen(all[..|all| - 1], chosen), all[|all| - 1];
      if h in chosen then front + [h] else front
  }

  ghost predicate StartsAscend(s: seq<Highlight>) {
    forall i, j :: 0 <= i < j < |s| ==> s[i].startMs < s[j].startMs
  }

  method TopHighlights(events: seq<DetectorEvent>, limit: int) returns (top: seq<Highlight>)
    ensures |top| == if limit <= 0 then 0 else if limit < |Detected(events)| then limit else |Detected(events)|
    ensures top == Chosen(Detected(events), top) && StartsAscend(top)
    ensures forall k, h :: k in top && h in Detected(events) && h !in top ==>
              k.importance > h.importance || (k.importance == h.importance && k.startMs < h.startMs)
  {
    if limit <= 0 {
      NothingChosen(Detected(events));
      return [];
    }
    var all := DetectHighlights(events);
    var ranked := Sorting.StableSort(all, Outranks);
    var best := if limit < |ranked| then ranked[..limit] else ranked;
    top := Sorting.StableSort(best, NoLater);
    TopIsRight(all, ranked, best, top);
  }

  lemma {:induction false} NothingChosen(all: seq<Highlight>)
    ensures Chosen(all, []) == []
  {
    if all != [] {
      NothingChosen(all[..|all| - 1]);
    }
  }

  lemma OrdersAreTotal()
    ensures Sorting.TotalOrder(Outranks) && Sorting.TotalOrder(NoLater)
  {
  }

  lemma TopIsRight(all: seq<Highlight>, ranked: seq<Highlight>, best: seq<Highlight>, top: seq<Highlight>)
    requires Separated(all) && ranked == Sorting.StableSort(all, Outranks)
    requires best <= ranked && top == Sorting.StableSort(best, NoLater)
    ensures top == Chosen(all, top) && StartsAscend(top)
    ensures forall k, h :: k in top && h in all && h !in top ==>
              k.importance > h.importance || (k.importance == h.importance && k.startMs < h.startMs)
  {
    OrdersAreTotal();
    Sorting.StableSortSorted(all, Outranks);
    Sorting.StableSortSorted(best, NoLater);
    Sorting.MemberOfSort(all, Outranks);
    Sorting.MemberOfSort(best, NoLater);
    AllAscend(all);
    Sorting.StillDistinct(all, ranked);
    assert Sorting.Distinct(best);
    Sorting.StillDistinct(best, top);
    TopAscends(all, top);
    AscendingIsChosen(all, top);
    forall k, h | k in top && h in all && h !in top
      ensures k.importance > h.importance || (k.importance == h.importance && k.startMs < h.startMs)
    {
      var i :| 0 <= i < |best| && best[i] == k;
      var j :| 0 <= j < |ranked| && ranked[j] == h;
      assert j >= |best|;
      assert Outranks(ranked[i], ranked[j]);
      StartsIdentify(all, k, h);
    }
  }

  lemma AllAscend(all: seq<Highlight>)
    requires Separated(all)
    ensures StartsAscend(all) && Sorting.Distinct(all)
  {
  }

  lemma StartsIdentify(all: seq<Highlight>, k: Highlight, h: Highlight)
    requires StartsAscend(all) && k in all && h in all
    ensures k.startMs == h.startMs ==> k == h
  {
    var i :| 0 <= i < |all| && all[i] == k;
    var j :| 0 <= j < |all| && all[j] == h;
  }

  lemma TopAscends(all: seq<Highlight>, top: seq<Highlight>)
    requires StartsAscend(all) && Sorting.Sorted(top, NoLater) && Sorting.Distinct(top)
    requires forall h :: h in top ==> h in all
    ensures StartsAscend(top)
  {
    forall i, j | 0 <= i < j < |top|
      ensures top[i].startMs < top[j].startMs
    {
      assert NoLater(top[i], top[j]);
      StartsIdentify(all, top[i], top[j]);
    }
  }

  lemma EmptyOrMember(s: seq<Highlight>)
    ensures s == [] || exists h :: h in s
  {
    assert s == [] || s[0] in s;
  }

  /** A chronological choice from a chronological list keeps its order. */
  lemma {:induction false} AscendingIsChosen(all: seq<Highlight>, top: seq<Highlight>)
    requires StartsAscend(all) && StartsAscend(top) && forall h :: h in top ==> h in all
    ensures Chosen(all, top) == top
    decreases |all|
  {
    if all == [] {
      EmptyOrMember(top);
    } else {
      var n := |all| - 1;
      if all[n] in top {
        LastOfBoth(all, top);
        var m := |top| - 1;
        forall h | h in top[..m]
          ensures h in all[..n]
        {
          var i :| 0 <= i < m && top[i] == h;
          assert h in top;
          var j :| 0 <= j < |all| && all[j] == h;
          assert h.startMs < top[m].startMs;
          assert all[..n][j] == h;
        }
        AscendingIsChosen(all[..n], top[..m]);
        ChoiceIgnores(all[..n], top[..m], top[m]);
        assert top == top[..m] + [top[m]];
      } else {
        AscendingIsChosen(all[..n], top);
      }
    }
  }

  lemma LastOfBoth(all: seq<Highlight>, top: seq<Highlight>)
    requires StartsAscend(all) && StartsAscend(top) && all != [] && all[|all| - 1] in top
    requires forall h :: h in top ==> h in all
    ensures top[|top| - 1] == all[|all| - 1]
  {
    var n, m := |all| - 1, |top| - 1;
    assert forall j :: 0 <= j < n ==> all[j].startMs < all[n].startMs;
    assert forall i :: 0 <= i < m ==> top[i].startMs < top[m].startMs;
    var i :| 0 <= i < |top| && top[i] == all[n];
    assert top[m] in all;
    var j :| 0 <= j < |all| && all[j] == top[m];
  }

  /** A later highlight does not matter for the choice among earlier ones. */
  lemma {:induction false} ChoiceIgnores(all: seq<Highlight>, chosen: seq<Highlight>, h: Highlight)
    requires forall i :: 0 <= i < |all| ==> all[i] != h
    ensures Chosen(all, chosen + [h]) == Chosen(all, chosen)
  {
    if all != [] {
      ChoiceIgnores(all[..|all| - 1], chosen, h);
    }
  }
}
