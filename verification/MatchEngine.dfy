/** The simulator's main loop and the helpers it calls in a tick. */
module MatchEngine {
  import opened Options
  import opened Numerics
  import opened Pitch
  import opened MatchStream
  import opened Squad
  import opened Simulation
  import opened Rules
  import opened Trace
  import opened Runs

  /** The line-up the constructor builds has both roles on both sides. */
  lemma LineUpHasRoles(cfg: Config, home: seq<PlayerSim>, away: seq<PlayerSim>, ps: seq<PlayerSim>)
    requires cfg.Playable()
    requires |home| == |cfg.home.players| && LinesUp(cfg.home, 0, home)
    requires |away| == |cfg.away.players| && LinesUp(cfg.away, 1, away)
    requires ps == home + away
    ensures HasBothRoles(ps, 0) && HasBothRoles(ps, 1)
  {
    hide HasBothRoles, LinesUp, FieldsBothRoles;
    RolesLineUp(cfg.home, 0, home, ps, 0);
    RolesLineUp(cfg.away, 1, away, ps, |home|);
  }

  lemma StartConserved(ps: seq<PlayerSim>)
    requires HasBothRoles(ps, 0) && HasBothRoles(ps, 1)
    ensures Conserved(ps, ps)
  {
  }

  lemma BothFit(cfg: Config, home: seq<PlayerSim>, away: seq<PlayerSim>, ps: seq<PlayerSim>)
    requires LinesUp(cfg.home, 0, home) && LinesUp(cfg.away, 1, away) && ps == home + away
    ensures AllFit(ps)
  {
    forall i | 0 <= i < |ps|
      ensures Fit(ps[i])
    {
      assert i < |home| || ps[i] == away[i - |home|];
    }
  }

  /** Found from `at` on in the cast, a team brings a goalkeeper and an outfielder. */
  lemma RolesLineUp(team: Team, side: Side, part: seq<PlayerSim>, ps: seq<PlayerSim>, at: nat)
    requires FieldsBothRoles(team) && |part| == |team.players| && LinesUp(team, side, part)
    requires at + |part| <= |ps| && forall i :: 0 <= i < |part| ==> ps[at + i] == part[i]
    ensures HasBothRoles(ps, side)
  {
    var k :| 0 <= k < |StartingXI(team)| && StartingXI(team)[k].position == "GK";
    assert Keeper(part[k], side) && ps[at + k] == part[k];
    var o :| 0 <= o < |StartingXI(team)| && StartingXI(team)[o].position != "GK";
    assert Outfield(part[o], side) && ps[at + o] == part[o];
  }

  lemma DistinctLineUp(cfg: Config, home: seq<PlayerSim>, away: seq<PlayerSim>)
    requires cfg.Playable()
    requires |home| == |cfg.home.players| && LinesUp(cfg.home, 0, home)
    requires |away| == |cfg.away.players| && LinesUp(cfg.away, 1, away)
    ensures DistinctIds(home + away)
  {
    hide Fit, OnPitchCount, FieldsBothRoles;
    forall i | 0 <= i < |home + away|
      ensures (home + away)[i].id == cfg.Roster()[i].id
    {
      assert i < |home| || (home + away)[i] == away[i - |home|];
    }
  }

  method LineUp(cfg: Config) returns (ps: seq<PlayerSim>)
    requires cfg.Playable()
    ensures ps == CastOf(cfg)
    ensures Conserved(ps, ps) && AllFit(ps)
    ensures DistinctIds(ps)
    ensures OnPitchCount(ps, 0) == |StartingXI(cfg.home)| && OnPitchCount(ps, 1) == |StartingXI(cfg.away)|
  {
    hide LinedUp, Conserved, AllFit, HasBothRoles, DistinctIds, Fit;
    var home := LineUpTeam(cfg.home, 0);
    var away := LineUpTeam(cfg.away, 1);
    ps := home + away;
    LineUpHasRoles(cfg, home, away, ps);
    StartConserved(ps);
    BothFit(cfg, home, away, ps);
    DistinctLineUp(cfg, home, away);
    CountOfBoth(home, away, 0);
    CountOfBoth(home, away, 1);
  }

  lemma RestyleKeeps(start: seq<PlayerSim>, ps: seq<PlayerSim>, i: nat, q: PlayerSim)
    requires Conserved(start, ps) && AllFit(ps)
    requires i < |ps| && Shape(q) == Shape(ps[i]) && Fit(q)
    ensures Conserved(start, ps[i := q]) && AllFit(ps[i := q])
  {
    MotionConserves(start, ps, ps[i := q]);
  }

  /** A player's animation and card mark touch no law. */
  lemma Animate(start: seq<PlayerSim>, ps: seq<PlayerSim>, i: nat, anim: AnimTag, phase: Phase, ball: Ball)
    requires CastLaw(start, ps) && i < |ps|
    ensures CastLaw(start, ps[i := ps[i].(anim := anim)])
    ensures Possession(phase, ball, ps) ==> Possession(phase, ball, ps[i := ps[i].(anim := anim)])
  {
    assert Fit(ps[i]);
    RestyleKeeps(start, ps, i, ps[i].(anim := anim));
    if Possession(phase, ball, ps) {
      RestylePossession(phase, ball, ps, i, ps[i].(anim := anim));
    }
  }

  lemma Caution(start: seq<PlayerSim>, ps: seq<PlayerSim>, i: nat, yellow: bool)
    requires CastLaw(start, ps) && i < |ps|
    ensures CastLaw(start, ps[i := ps[i].(yellowCarded := yellow)])
  {
    assert Fit(ps[i]);
    RestyleKeeps(start, ps, i, ps[i].(yellowCarded := yellow));
  }

  lemma RestylePossession(phase: Phase, ball: Ball, ps: seq<PlayerSim>, i: nat, q: PlayerSim)
    requires Possession(phase, ball, ps)
    requires i < |ps| && Shape(q) == Shape(ps[i]) && q.pos == ps[i].pos
    ensures Possession(phase, ball, ps[i := q])
  {
    SameShapeMeans(q, ps[i]);
  }

  /** Looking at the element after a kept prefix: dropped or kept. */
  lemma Splice<T>(kept: seq<T>, was: seq<T>, k: nat)
    requires k < |was|
    ensures var s := kept + was[k..];
      && s[|kept|] == was[k]
      && s[..|kept|] + s[|kept| + 1..] == kept + was[k + 1..]
      && s == kept + [was[k]] + was[k + 1..]
  {
  }

  /** How many of the first `k` events of a buffer are kept, the buffer once
      they have been looked at, and the stream by then. */
  ghost function KeptCount(was: seq<Event>, k: nat, t: int): nat
    requires k <= |was|
  {
    |NotDue(was[..k], t)|
  }

  ghost function Unsent(was: seq<Event>, k: nat, t: int): (r: seq<Event>)
    requires k <= |was|
    ensures |r| == KeptCount(was, k, t) + |was| - k
  {
    NotDue(was[..k], t) + was[k..]
  }

  ghost function Sent(sent: seq<Message>, was: seq<Event>, k: nat, t: int): seq<Message>
    requires k <= |was|
  {
    sent + Wrap(Due(was[..k], t))
  }

  lemma SendStep(sent: seq<Message>, was: seq<Event>, k: nat, t: int)
    requires k < |was|
    ensures Sent(sent, was, k + 1, t)
         == if was[k].t <= t then Sent(sent, was, k, t) + [Ev(was[k])] else Sent(sent, was, k, t)
  {
    hide Due, NotDue, Wrap;
    DueOneMore(was, k, t);
    var due := Due(was[..k], t);
    WrapOneMore(due, was[k]);
    assert sent + (Wrap(due) + [Ev(was[k])]) == sent + Wrap(due) + [Ev(was[k])];
  }

  lemma KeepStep(was: seq<Event>, k: nat, t: int)
    requires k < |was|
    ensures KeptCount(was, k + 1, t) == KeptCount(was, k, t) + if was[k].t <= t then 0 else 1
    ensures Unsent(was, k, t)[KeptCount(was, k, t)] == was[k]
    ensures was[k].t <= t ==>
      Unsent(was, k + 1, t) == Unsent(was, k, t)[..KeptCount(was, k, t)] + Unsent(was, k, t)[KeptCount(was, k, t) + 1..]
    ensures t < was[k].t ==> Unsent(was, k + 1, t) == Unsent(was, k, t)
  {
    hide Due, NotDue;
    DueOneMore(was, k, t);
    Splice(NotDue(was[..k], t), was, k);
  }

  lemma FlushEnds(sent: seq<Message>, was: seq<Event>, t: int)
    ensures KeptCount(was, 0, t) == 0 && Unsent(was, 0, t) == was && Sent(sent, was, 0, t) == sent
    ensures Unsent(was, |was|, t) == NotDue(was, t) && Sent(sent, was, |was|, t) == sent + Wrap(Due(was, t))
  {
    assert was[..|was|] == was;
  }

  /** The squads of the line-up are conserved and every player is fit. */
  ghost predicate CastLaw(lineUp: seq<PlayerSim>, players: seq<PlayerSim>) {
    && Conserved(lineUp, players)
    && AllFit(players)
  }

  /** Each side has an outfielder and a goalkeeper on the pitch, all inside the box. */
  lemma CastMeans(lineUp: seq<PlayerSim>, players: seq<PlayerSim>, side: Side)
    requires CastLaw(lineUp, players)
    ensures Select(players, OutfieldOf(side)) != [] && Select(players, KeeperOf(side)) != []
    ensures forall i :: 0 <= i < |players| && players[i].isOnPitch ==>
      InBox(players[i].pos) && InBox(players[i].homeSlot)
  {
    assert HasBothRoles(players, side);
    forall i | 0 <= i < |players| && players[i].isOnPitch
      ensures InBox(players[i].pos) && InBox(players[i].homeSlot)
    {
      assert Fit(players[i]);
    }
  }

  /** The book has read what was sent and then what is buffered. */
  ghost predicate LogLaw(messages: seq<Message>, buffer: seq<Event>, book: Book, homeId: string) {
    book == ReadOn(Read(messages, homeId), buffer, homeId)
  }

  /** The buffer holds only events of tick `t`, and the stream is in order and
      may be continued at `t`. */
  ghost predicate TimeLaw(buffer: seq<Event>, flow: Flow, t: int) {
    && (forall i :: 0 <= i < |buffer| ==> buffer[i].t == t)
    && OpenAt(flow, t)
  }

  /** Scores are the goals told so far and every shot is accounted for. */
  ghost predicate TallyLaw(a: Tally, homeScore: nat, awayScore: nat, inFlight: bool, cutOff: nat, secondHalf: bool) {
    && homeScore == a.home && awayScore == a.away && a.goals == a.home + a.away
    && a.scoresRight && !a.owed
    && a.shots == a.goals + a.saves + a.wides + One(inFlight) + cutOff
    && cutOff <= One(secondHalf)
  }

  /** The match is in one of its halves. */
  ghost predicate HalfLaw(stage: Stage, period: int, secondHalf: bool) {
    && stage == (if secondHalf then SecondHalf else FirstHalf)
    && period == (if secondHalf then 2 else 1)
  }

  /** What is kept true of the records while the ball is in play. */
  datatype Record = Record(
    messages: seq<Message>, buffer: seq<Event>, book: Book,
    homeScore: nat, awayScore: nat, inFlight: bool, cutOff: nat, secondHalf: bool, period: int)

  ghost predicate RecordLaw(r: Record, t: int, homeId: string) {
    && LogLaw(r.messages, r.buffer, r.book, homeId)
    && TimeLaw(r.buffer, r.book.flow, t)
    && TallyLaw(r.book.tally, r.homeScore, r.awayScore, r.inFlight, r.cutOff, r.secondHalf)
    && HalfLaw(r.book.flow.stage, r.period, r.secondHalf)
  }

  ghost predicate SubstitutionMade(ps: seq<PlayerSim>, side: Side, off: nat, on: nat) {
    && off < |ps| && Outfield(ps[off], side)
    && (forall i :: 0 <= i < |ps| && Outfield(ps[i], side) ==> ps[i].fatigue <= ps[off].fatigue)
    && on < |ps| && Benched(ps[on], side)
    && (forall i :: 0 <= i < on ==> !Benched(ps[i], side))
  }

  /** A substitution leaves the ball with whoever has it, on the pitch or not. */
  lemma SubstitutionPossession(phase: Phase, ball: Ball, ps: seq<PlayerSim>, off: nat, on: nat, side: Side)
    requires Possession(phase, ball, ps)
    requires off < |ps| && Outfield(ps[off], side) && InBox(ps[off].pos)
    requires on < |ps| && Benched(ps[on], side)
    ensures Possession(phase, ball, Swap(ps, off, on))
  {
  }

  lemma SubstitutionKeeps(start: seq<PlayerSim>, ps: seq<PlayerSim>, phase: Phase, ball: Ball, off: nat, on: nat,
      side: Side)
    requires CastLaw(start, ps) && Possession(phase, ball, ps) && SubstitutionMade(ps, side, off, on)
    ensures CastLaw(start, Swap(ps, off, on)) && Possession(phase, ball, Swap(ps, off, on))
  {
    assert Fit(ps[off]);
    SubstitutionConserves(start, ps, off, on, side);
    SubstitutionPossession(phase, ball, ps, off, on, side);
  }

  lemma FormationKeeps(start: seq<PlayerSim>, ps: seq<PlayerSim>, qs: seq<PlayerSim>)
    requires CastLaw(start, ps) && |qs| == |ps|
    requires forall i :: 0 <= i < |ps| ==> qs[i] == if ps[i].isOnPitch then InFormation(ps[i]) else ps[i]
    ensures CastLaw(start, qs) && SameShapes(ps, qs)
  {
    forall i | 0 <= i < |ps|
      ensures Fit(qs[i]) && Shape(qs[i]) == Shape(ps[i])
    {
      assert Fit(ps[i]);
    }
    MotionConserves(start, ps, qs);
  }

  /** A player is put somewhere in the box. */
  lemma PlaceAt(start: seq<PlayerSim>, ps: seq<PlayerSim>, i: nat, pos: Vec2)
    requires CastLaw(start, ps) && i < |ps| && InBox(pos)
    ensures CastLaw(start, ps[i := ps[i].(pos := pos)]) && SameShapes(ps, ps[i := ps[i].(pos := pos)])
  {
    assert Fit(ps[i]);
    RestyleKeeps(start, ps, i, ps[i].(pos := pos));
  }

  /** One player has moved within the box and kept his shape. */
  lemma MovedKeeps(start: seq<PlayerSim>, ps: seq<PlayerSim>, i: nat, q: PlayerSim)
    requires CastLaw(start, ps) && i < |ps|
    requires Shape(q) == Shape(ps[i]) && InBox(q.pos) && q.fatigue == ps[i].fatigue
    ensures CastLaw(start, ps[i := q]) && SameShapes(ps, ps[i := q])
  {
    assert Fit(ps[i]);
    SameShapeMeans(q, ps[i]);
    RestyleKeeps(start, ps, i, q);
  }

  ghost predicate MovedWell(p: PlayerSim, q: PlayerSim) {
    Fit(q) && Shape(p) == Shape(q)
  }

  lemma StandStill(p: PlayerSim)
    requires Fit(p)
    ensures MovedWell(p, p)
  {
  }

  lemma AllMovedKeeps(start: seq<PlayerSim>, ps: seq<PlayerSim>, qs: seq<PlayerSim>)
    requires CastLaw(start, ps) && |ps| == |qs|
    requires forall i :: 0 <= i < |ps| ==> MovedWell(ps[i], qs[i])
    ensures CastLaw(start, qs) && SameShapes(ps, qs)
  {
    forall i | 0 <= i < |ps|
      ensures Fit(qs[i]) && Shape(ps[i]) == Shape(qs[i])
    {
      assert MovedWell(ps[i], qs[i]);
    }
    MotionConserves(start, ps, qs);
  }

  /** Motion of the others leaves possession as it is. */
  lemma MovedPossession(phase: Phase, ball: Ball, ps: seq<PlayerSim>, qs: seq<PlayerSim>)
    requires Possession(phase, ball, ps) && SameShapes(ps, qs)
    requires ball.carrier.Some? ==> qs[ball.carrier.value].pos == ps[ball.carrier.value].pos
    ensures Possession(phase, ball, qs)
  {
    match phase
    case Play(_) => SameShapeMeans(ps[ball.carrier.value], qs[ball.carrier.value]);
    case BallInFlight(_, receiver, _, _, _, _) => SameShapeMeans(ps[receiver], qs[receiver]);
    case ShotInFlight(_, shooter, keeper, _, _, _, _, _, _) =>
      SameShapeMeans(ps[shooter], qs[shooter]);
      SameShapeMeans(ps[keeper], qs[keeper]);
    case _ =>
  }

  lemma AnimatedPossession(phase: Phase, ball: Ball, ps: seq<PlayerSim>, qs: seq<PlayerSim>)
    requires Possession(phase, ball, ps) && SameShapes(ps, qs) && SamePlaces(ps, qs)
    ensures Possession(phase, ball, qs)
  {
    MovedPossession(phase, ball, ps, qs);
  }

  lemma AllAnimatedKeeps(start: seq<PlayerSim>, ps: seq<PlayerSim>, qs: seq<PlayerSim>, anim: AnimTag)
    requires CastLaw(start, ps) && |ps| == |qs|
    requires forall i :: 0 <= i < |ps| ==> qs[i] == if ps[i].isOnPitch then ps[i].(anim := anim) else ps[i]
    ensures CastLaw(start, qs) && SameShapes(ps, qs) && SamePlaces(ps, qs)
  {
    forall i | 0 <= i < |ps|
      ensures Fit(qs[i]) && Shape(ps[i]) == Shape(qs[i]) && ps[i].pos == qs[i].pos
    {
      assert Fit(ps[i]);
    }
    MotionConserves(start, ps, qs);
  }

  lemma OnPitchInBox(start: seq<PlayerSim>, ps: seq<PlayerSim>, i: nat)
    requires CastLaw(start, ps) && i < |ps| && ps[i].isOnPitch
    ensures InBox(ps[i].pos)
  {
    assert Fit(ps[i]);
  }

  lemma KeptMeans(r: Record, t: int, homeId: string)
    requires RecordLaw(r, t, homeId)
    ensures LogLaw(r.messages, r.buffer, r.book, homeId) && TimeLaw(r.buffer, r.book.flow, t)
    ensures !r.book.tally.owed && r.book.tally.scoresRight
    ensures r.book.flow.stage == if r.secondHalf then SecondHalf else FirstHalf
    ensures r.homeScore == r.book.tally.home && r.awayScore == r.book.tally.away
  {
  }

  lemma PeriodKept(r: Record, t: int, homeId: string)
    requires RecordLaw(r, t, homeId)
    ensures r.period == if r.secondHalf then 2 else 1
  {
  }

  lemma FramesSent(r: Record, t: int, homeId: string)
    requires RecordLaw(r, t, homeId)
    ensures r.book.flow.frames == Read(r.messages, homeId).flow.frames
  {
    EventsAreNoFrames(Read(r.messages, homeId), r.buffer, homeId);
  }

  lemma SameStage(r: Record, r': Record, t: int, homeId: string)
    requires RecordLaw(r, t, homeId)
    requires LogLaw(r'.messages, r'.buffer, r'.book, homeId) && TimeLaw(r'.buffer, r'.book.flow, t)
    requires r'.book.tally == r.book.tally && r'.book.flow.stage == r.book.flow.stage
    requires r'.(messages := r.messages, buffer := r.buffer, book := r.book) == r
    ensures RecordLaw(r', t, homeId)
  {
  }

  /** The records after a goal: the shot in flight has become it. */
  lemma GoalKept(r: Record, r': Record, side: Side, t: int, homeId: string)
    requires RecordLaw(r, t, homeId) && r.inFlight && !r'.inFlight
    requires LogLaw(r'.messages, r'.buffer, r'.book, homeId) && TimeLaw(r'.buffer, r'.book.flow, t)
    requires r'.homeScore == r.homeScore + One(side == 0) && r'.awayScore == r.awayScore + One(side == 1)
    requires r'.book.tally
          == r.book.tally.(goals := r.book.tally.goals + 1, home := r'.homeScore, away := r'.awayScore)
    requires r'.book.flow.stage == r.book.flow.stage && r'.period == r.period
    requires r'.cutOff == r.cutOff && r'.secondHalf == r.secondHalf
    ensures RecordLaw(r', t, homeId)
  {
  }

  /** The records after half-time: a shot in flight has been written off. */
  lemma SecondHalfKept(r: Record, r': Record, t: int, homeId: string)
    requires RecordLaw(r, t, homeId) && !r.secondHalf
    requires LogLaw(r'.messages, r'.buffer, r'.book, homeId) && TimeLaw(r'.buffer, r'.book.flow, t)
    requires r'.book.tally == r.book.tally && r'.book.flow.stage == SecondHalf && r'.period == 2 && r'.secondHalf
    requires r'.homeScore == r.homeScore && r'.awayScore == r.awayScore
    requires !r'.inFlight && r'.cutOff == r.cutOff + One(r.inFlight)
    ensures RecordLaw(r', t, homeId)
  {
  }

  /** The records after the frame of tick `t`, ready for the next tick. */
  lemma FrameKept(r: Record, r': Record, t: int, homeId: string)
    requires RecordLaw(r, t, homeId)
    requires LogLaw(r'.messages, r'.buffer, r'.book, homeId) && r'.buffer == []
    requires r'.book == Book(r.book.tally, FrameNoted(r.book.flow, t))
    requires r'.(messages := r.messages, buffer := r.buffer, book := r.book) == r
    ensures RecordLaw(r', t + TICK_MS, homeId)
  {
  }

  lemma WhistleRead(b: Book, t: int, homeId: string)
    ensures ReadOn(b, FinalWhistle(t), homeId)
         == Enter(Enter(Enter(Enter(b, Ev(PeriodEnd(t, 2)), homeId), Ev(Commentary(t, PeriodEndLine)), homeId),
                        Ev(MatchEnd(t)), homeId), Ev(Commentary(t, MatchEndLine)), homeId)
  {
    hide Enter;
    var e0, e1, e2, e3 := PeriodEnd(t, 2), Commentary(t, PeriodEndLine), MatchEnd(t), Commentary(t, MatchEndLine);
    assert [] + [e0] == [e0] && [e0] + [e1] == [e0, e1] && [e0, e1] + [e2] == [e0, e1, e2];
    assert [e0, e1, e2] + [e3] == FinalWhistle(t);
    ReadOnOneMore(b, [], e0, homeId);
    ReadOnOneMore(b, [e0], e1, homeId);
    ReadOnOneMore(b, [e0, e1], e2, homeId);
    ReadOnOneMore(b, [e0, e1, e2], e3, homeId);
  }

  lemma NotedKeepsFrames(f: Flow, t: int, stage: Stage)
    ensures Noted(f, t).(stage := stage).frames == f.frames
  {
  }

  lemma OpeningKept(r: Record, homeId: string)
    requires LogLaw(r.messages, r.buffer, r.book, homeId) && TimeLaw(r.buffer, r.book.flow, 0)
    requires r.book.tally == BLANK.tally && r.book.flow.stage == FirstHalf && r.period == 1 && !r.secondHalf
    requires r.homeScore == 0 && r.awayScore == 0 && !r.inFlight && r.cutOff == 0
    ensures RecordLaw(r, 0, homeId) && r.book.flow.lastT <= 0
  {
  }

  /** What the book of a whole run of `d` milliseconds says. The brackets are
      complete exactly when the run reaches half-time: a run of 2 to 99 ms does not. */
  ghost predicate Accounted(b: Book, d: nat, cutOff: nat, inFlight: bool) {
    && b.flow.legal && b.flow.ordered
    && b.flow.frames == d / TICK_MS + 1
    && b.flow.lastT == d
    && (b.flow.stage == Over <==> d <= 1 || TICK_MS <= d)
    && b.tally.scoresRight && !b.tally.owed && b.tally.goals == b.tally.home + b.tally.away
    && b.tally.shots == b.tally.goals + b.tally.saves + b.tally.wides + One(inFlight) + cutOff
    && cutOff <= 1
  }

  lemma LastWhistle(r: Record, t: int, d: nat, homeId: string)
    requires RecordLaw(r, t, homeId) && t % TICK_MS == 0 && d < t <= d + TICK_MS
    requires r.book.flow.lastT == t - TICK_MS && r.book.flow.lastIsFrame && TICK_MS * r.book.flow.frames == t
    requires r.secondHalf == (t - TICK_MS >= if HALF_DURATION_MS < d / 2 then HALF_DURATION_MS else d / 2)
    ensures Accounted(ReadOn(r.book, FinalWhistle(d), homeId), d, r.cutOff, r.inFlight)
  {
    hide Enter, ReadOn, LogLaw;
    ReachesHalf(d, t);
    WhistleRead(r.book, d, homeId);
    WhistleEffect(r.book, d, homeId);
  }

  /** The last tick of a run is at half of it exactly unless it lasts 2 to 99 ms. */
  lemma ReachesHalf(d: nat, t: int)
    requires t % TICK_MS == 0 && d < t <= d + TICK_MS
    ensures t - TICK_MS >= (if HALF_DURATION_MS < d / 2 then HALF_DURATION_MS else d / 2) <==> d <= 1 || TICK_MS <= d
    ensures t == TICK_MS * (d / TICK_MS + 1)
  {
  }

  lemma AllSent(messages: seq<Message>, book: Book, homeId: string)
    requires LogLaw(messages, [], book, homeId)
    ensures book == Read(messages, homeId)
  {
  }

  lemma WhistleEffect(b: Book, t: int, homeId: string)
    requires b.flow.ordered && b.flow.legal && 0 <= t && b.flow.lastT <= t && b.tally.scoresRight && !b.tally.owed
    requires b.flow.stage == FirstHalf || b.flow.stage == SecondHalf
    ensures Enter(Enter(Enter(Enter(b, Ev(PeriodEnd(t, 2)), homeId), Ev(Commentary(t, PeriodEndLine)), homeId),
                        Ev(MatchEnd(t)), homeId), Ev(Commentary(t, MatchEndLine)), homeId)
         == Book(b.tally,
                 Flow(if b.flow.stage == SecondHalf then Over else Broken, b.flow.frames, t, false, true, true))
  {
    var b1 := Enter(b, Ev(PeriodEnd(t, 2)), homeId);
    assert b1 == Book(b.tally, Noted(b.flow, t).(stage := if b.flow.stage == SecondHalf then Whistled else Broken));
    EnterLine(b1, t, PeriodEndLine, homeId);
    var b2 := Book(b1.tally, Noted(b1.flow, t));
    var b3 := Enter(b2, Ev(MatchEnd(t)), homeId);
    assert b3 == Book(b2.tally, Noted(b2.flow, t).(stage := if b2.flow.stage == Whistled then Over else Broken));
    EnterLine(b3, t, MatchEndLine, homeId);
  }

  lemma NoneDueYet()
    ensures SubsDue(-TICK_MS) == 0
  {
  }

  lemma FrameIsLegal(lineUp: seq<PlayerSim>, t: int, ball: Ball, ps: seq<PlayerSim>, period: int)
    requires CastLaw(lineUp, ps) && DistinctIds(lineUp) && 0 <= t
    requires ball.carrier.Some? ==> ball.carrier.value < |ps|
    ensures FrameLegal(FrameOf(t, ball, ps, period)) && BallMarksAgree(FrameOf(t, ball, ps, period))
  {
    forall i, j | 0 <= i < j < |ps|
      ensures ps[i].id != ps[j].id
    {
      assert SamePerson(lineUp[i], ps[i]) && SamePerson(lineUp[j], ps[j]);
    }
    ShownLegal(ps, CarrierId(ball, ps));
  }

  /** The `b`-th of the opponents in order is the first of the nearest. */
  ghost predicate FirstLeast(m: Maths, ps: seq<PlayerSim>, c: nat, opponents: seq<nat>, b: nat, n: nat)
    requires b < n <= |opponents|
  {
    forall k :: 0 <= k < n ==>
      if k < b then Gap(m, ps, c, opponents[b]) < Gap(m, ps, c, opponents[k])
      else Gap(m, ps, c, opponents[b]) <= Gap(m, ps, c, opponents[k])
  }

  lemma FoundNearest(m: Maths, ps: seq<PlayerSim>, c: nat, opponents: seq<nat>, b: nat)
    requires c < |ps| && opponents == Select(ps, OutfieldOf(1 - ps[c].team)) && b < |opponents|
    requires FirstLeast(m, ps, c, opponents, b, |opponents|)
    ensures Nearest(m, ps, c, opponents[b])
  {
    hide Gap, Outfield, Select;
    var opp := opponents[b];
    assert Passes(ps[opp], OutfieldOf(1 - ps[c].team));
    forall k: nat | k < |ps| && Outfield(ps[k], 1 - ps[c].team)
      ensures if k < opp then Gap(m, ps, c, opp) < Gap(m, ps, c, k) else Gap(m, ps, c, opp) <= Gap(m, ps, c, k)
    {
      assert Passes(ps[k], OutfieldOf(1 - ps[c].team));
      var j :| 0 <= j < |opponents| && opponents[j] == k;
      assert b < j ==> opp < k;
    }
  }

  lemma OutfieldInBox(start: seq<PlayerSim>, ps: seq<PlayerSim>, i: nat, side: Side)
    requires CastLaw(start, ps) && i < |ps| && Outfield(ps[i], side)
    ensures InBox(ps[i].pos)
  {
    assert Fit(ps[i]);
  }

  lemma NotPaused(phase: Phase, ball: Ball, ps: seq<PlayerSim>)
    requires Possession(phase, ball, ps)
    ensures !phase.HalftimePaused?
  {
  }

  lemma Carrying(phase: Phase, ball: Ball, ps: seq<PlayerSim>) returns (c: nat)
    requires Possession(phase, ball, ps) && phase.Play?
    ensures ball.carrier == Some(c) && c < |ps| && phase == Play(ps[c].team)
  {
    c := ball.carrier.value;
  }

  lemma NearestMeans(m: Maths, ps: seq<PlayerSim>, c: nat, opp: nat)
    requires Nearest(m, ps, c, opp)
    ensures c < |ps| && opp < |ps| && Outfield(ps[opp], 1 - ps[c].team) && c != opp
  {
  }

  lemma OutOfReach(e: Setting, a: Stand, t: int, opp: nat)
    requires Carried(a) && Nearest(e.maths, a.players, a.ball.carrier.value, opp)
    requires Gap(e.maths, a.players, a.ball.carrier.value, opp) > 2.5
    ensures Tackled(e, a, a, [], t)
  {
    hide Nearest, Gap;
    assert TackledBy(e, a, a, [], t, opp);
  }

  lemma TackleMade(e: Setting, a: Stand, b: Stand, t: int, opp: nat, won: bool)
    requires Carried(a) && Nearest(e.maths, a.players, a.ball.carrier.value, opp)
    requires Gap(e.maths, a.players, a.ball.carrier.value, opp) <= 2.5 && won == (e.oracle.uniform(a.drawn) < 0.55)
    requires
      var c := a.ball.carrier.value;
      b == if won
           then a.(phase := Play(a.players[opp].team), ball := HeldBy(a.players, opp),
                   players := Acting(Acting(a.players, opp, TackleTag), c, Fall), drawn := a.drawn + 1)
           else a.(players := Acting(a.players, opp, TackleTag), drawn := a.drawn + 1)
    ensures
      Tackled(e, a, b, [Tackle(t, a.players[opp].id, a.players[a.ball.carrier.value].id, won)], t)
  {
    hide Gap;
    var told := [Tackle(t, a.players[opp].id, a.players[a.ball.carrier.value].id, won)];
    assert TackledBy(e, a, b, told, t, opp);
  }

  lemma ShotHeld(phase: Phase, ball: Ball, ps: seq<PlayerSim>)
    requires phase.ShotInFlight? && ball.carrier.None? && (phase.willGoal ==> phase.onTarget)
    requires phase.shooter < |ps| && ps[phase.shooter].team == phase.possessing
    requires phase.keeper < |ps| && Keeper(ps[phase.keeper], 1 - phase.possessing)
    ensures Possession(phase, ball, ps)
  {
  }

  lemma TooFarToFoul(e: Setting, a: Stand, t: int, opp: nat)
    requires Carried(a) && Nearest(e.maths, a.players, a.ball.carrier.value, opp)
    requires Gap(e.maths, a.players, a.ball.carrier.value, opp) > 3.0
    ensures Fouled(e, a, a, [], t)
  {
    hide Nearest, Gap;
    var severity := SomeJudgement(e.oracle.uniform(a.drawn));
    assert FouledBy(e, a, a, [], t, opp, severity);
  }

  lemma FoulMade(e: Setting, a: Stand, b: Stand, told: seq<Event>, t: int, opp: nat, severity: Severity)
    requires Carried(a) && Nearest(e.maths, a.players, a.ball.carrier.value, opp)
    requires Gap(e.maths, a.players, a.ball.carrier.value, opp) <= 3.0
    requires Judged(e.oracle.uniform(a.drawn), severity) && FoulGiven(a, b, told, t, opp, severity)
    ensures Fouled(e, a, b, told, t)
  {
    hide Gap;
    assert FouledBy(e, a, b, told, t, opp, severity);
  }

  lemma SomeJudgement(u: Uniform) returns (severity: Severity)
    ensures Judged(u, severity)
  {
    severity := if u < 0.7 then Soft else if u < 0.97 then Yellow else Red;
  }

  /** Whoever is the striker in formation was the striker before. */
  lemma StillStriker(formed: seq<PlayerSim>, ps: seq<PlayerSim>, side: Side, striker: nat)
    requires IsStriker(formed, side, striker) && |formed| == |ps|
    requires forall i :: 0 <= i < |ps| ==> formed[i] == if ps[i].isOnPitch then InFormation(ps[i]) else ps[i]
    ensures IsStriker(ps, side, striker)
  {
    forall i | 0 <= i < |ps|
      ensures Outfield(formed[i], side) == Outfield(ps[i], side) && formed[i].position == ps[i].position
    {
    }
  }

  lemma StrikerOnPitch(ps: seq<PlayerSim>, side: Side, striker: nat)
    requires IsStriker(ps, side, striker)
    ensures striker < |ps| && ps[striker].isOnPitch && ps[striker].team == side
  {
  }

  lemma StrikerHas(ps: seq<PlayerSim>, ball: Ball, qs: seq<PlayerSim>, side: Side, striker: nat)
    requires IsStriker(ps, side, striker) && qs == Formed(ps, striker) && ball == HeldBy(qs, striker)
    ensures Possession(Play(side), ball, qs)
  {
    assert qs[striker] == FormedOne(ps[striker], true);
  }

  lemma KickedOffPlays(a: Stand, b: Stand, side: Side)
    requires KickedOff(a, b, side)
    ensures b.phase == Play(side) && b.home == a.home && b.away == a.away
    ensures b.drawn == a.drawn + 1 && b.sampled == a.sampled
  {
  }

  /** Among the outfielders in order, the i-th with the right role comes first. */
  lemma FirstOfFilter(ps: seq<PlayerSim>, side: Side, outfielders: seq<nat>, i: nat)
    requires outfielders == Select(ps, OutfieldOf(side)) && i < |outfielders|
    requires if ps[outfielders[i]].position == "ST"
             then forall k :: 0 <= k < i ==> ps[outfielders[k]].position != "ST"
             else i == 0 && forall k :: 0 <= k < |outfielders| ==> ps[outfielders[k]].position != "ST"
    ensures IsStriker(ps, side, outfielders[i])
  {
    hide Outfield, Select;
    assert Passes(ps[outfielders[i]], OutfieldOf(side));
    forall j | 0 <= j < |ps| && Outfield(ps[j], side)
      ensures exists k :: 0 <= k < |outfielders| && outfielders[k] == j
    {
      assert Passes(ps[j], OutfieldOf(side));
    }
    forall j | 0 <= j < |ps| && Outfield(ps[j], side)
      ensures j < outfielders[i] ==> ps[j].position != "ST"
      ensures ps[outfielders[i]].position != "ST" ==> ps[j].position != "ST" && outfielders[i] <= j
    {
      var k :| 0 <= k < |outfielders| && outfielders[k] == j;
      assert i < k ==> outfielders[i] < outfielders[k];
    }
  }

  lemma NobodyYet(a: Stand)
    ensures Drifters(a.players[..0], a.ball.carrier) == 0
  {
  }

  lemma ShowDriftedOn(e: Setting, a: Stand, i: nat)
    requires e.maths.Lawful() && i < |a.players|
    ensures DriftedOn(e, a, i) == if a.players[i].isOnPitch && a.ball.carrier != Some(i)
                                  then Drift(e, a, i, Drifters(a.players[..i], a.ball.carrier)) else a.players[i]
  {
  }

  lemma CarrierStays(e: Setting, a: Stand)
    requires e.maths.Lawful() && (a.ball.carrier.Some? ==> a.ball.carrier.value < |a.players|)
    ensures a.ball.carrier.Some? ==>
      Scattered(e, a).players[a.ball.carrier.value] == a.players[a.ball.carrier.value]
  {
    if a.ball.carrier.Some? {
      assert !Drifts(a, a.ball.carrier.value);
    }
  }

  lemma SeenTold(s: Seen, buffer: seq<Event>, whistled: seq<Event>, told: seq<Event>)
    ensures SeenIn(s, buffer + whistled + told) == SeenIn(SeenIn(s, buffer), whistled + told)
  {
    assert buffer + whistled + told == buffer + (whistled + told);
    SeenInBoth(s, buffer, whistled + told);
  }

  lemma CutOffCounted(trace: seq<Turn>, turn: Turn, scene: Scene)
    ensures One(ShotCutOff(trace + [turn], scene))
         == One(ShotCutOff(trace, scene))
            + One(HalfTimeAt(scene.Duration(), TICK_MS * |trace|)
                  && StandBefore(trace, scene, |trace|).phase.ShotInFlight?)
  {
    hide ShotCutOff;
    CutOffOn(trace, turn, scene);
    if HalfTimeAt(scene.Duration(), TICK_MS * |trace|) {
      NothingCutBefore(trace, scene);
    }
  }

  class Match {
    const cfg: Config
    const maths: Maths
    const rng: Rng
    ghost const lineUp: seq<PlayerSim>

    var players: seq<PlayerSim>
    var ball: Ball
    var eventBuffer: seq<Event>
    var messages: seq<Message>
    var period: int
    var halftimeFired: bool
    var phase: Phase
    var homeScore: nat
    var awayScore: nat
    var nextSubIdx: nat
    var seenTackle: bool   // the three event types whose presence is checked
    var seenFoul: bool
    var seenOut: bool
    var lastStateT: int
    var openingKickoffTeam: Side

    ghost var book: Book         // what a reader of the sent and the buffered messages has written down
    ghost var cutOff: nat        // shots ended by the half-time whistle

    ghost function Env(): Setting {
      Setting(cfg, maths, rng.oracle)
    }

    /** How the match stands. */
    ghost function Now(): Stand
      reads this, rng
    {
      Stand(phase, ball, players, homeScore, awayScore, rng.drawn, rng.sampled)
    }

    ghost function Flags(): Seen
      reads this
    {
      Seen(seenTackle, seenFoul, seenOut)
    }

    ghost predicate Cast()
      reads this
    {
      CastLaw(lineUp, players)
    }

    /** The flags are up for what has been sent and buffered. */
    ghost predicate Noticed()
      reads this
    {
      Flags() == SeenIn(SeenOf(messages), eventBuffer)
    }

    ghost predicate Logged()
      reads this
    {
      LogLaw(messages, eventBuffer, book, cfg.home.id) && Noticed()
    }

    ghost function Records(): Record
      reads this
    {
      Record(messages, eventBuffer, book, homeScore, awayScore, phase.ShotInFlight?, cutOff, halftimeFired, period)
    }

    ghost predicate Kept(t: int)
      reads this
    {
      RecordLaw(Records(), t, cfg.home.id) && Noticed()
    }

    /** The same, were a shot in flight or not. */
    ghost predicate KeptBut(t: int, inFlight: bool)
      reads this
    {
      RecordLaw(Records().(inFlight := inFlight), t, cfg.home.id) && Noticed()
    }

    ghost predicate Ready(t: int)
      reads this
    {
      && t % TICK_MS == 0
      && cfg.home.id != cfg.away.id
      && DistinctIds(lineUp)
      && Cast()
      && Kept(t)
      && Possession(phase, ball, players)
    }

    constructor (cfg: Config, maths: Maths, oracle: Oracle)
      requires cfg.Playable() && maths.Lawful()
      ensures this.cfg == cfg && this.maths == maths && rng.oracle == oracle && fresh(rng)
      ensures Cast() && Logged() && players == lineUp == CastOf(cfg)
      ensures DistinctIds(lineUp)
      ensures OnPitchCount(lineUp, 0) == |StartingXI(cfg.home)| && OnPitchCount(lineUp, 1) == |StartingXI(cfg.away)|
      ensures book == BLANK && eventBuffer == [] && messages == [Opening(cfg)]
      ensures period == 1 && !halftimeFired && nextSubIdx == 0 && lastStateT == -STATE_PERIOD_MS
      ensures Now() == LinedUpStand(Env(), 1)
      ensures cutOff == 0
    {
      this.cfg, this.maths := cfg, maths;
      var r := new Rng(oracle);
      var init := Opening(cfg);
      var ps := LineUp(cfg);
      var heads := r.Chance(0.5);
      rng := r;
      lineUp, players := ps, ps;
      ball := Ball(Vec3(0.0, 0.0, 0.0), Vec3(0.0, 0.0, 0.0), None);
      eventBuffer, messages := [], [init];
      period, halftimeFired := 1, false;
      phase := Play(if heads then 0 else 1);
      homeScore, awayScore, nextSubIdx := 0, 0, 0;
      seenTackle, seenFoul, seenOut := false, false, false;
      lastStateT, openingKickoffTeam := -STATE_PERIOD_MS, 0;
      book := BLANK;
      cutOff := 0;
      new;
      ReadOneMore([], init, cfg.home.id);
      SeenOneMore([], init);
      assert [] + [init] == [init];
    }

    method TrackEvent(e: Event)
      requires Logged()
      modifies this`eventBuffer, this`book, this`seenTackle, this`seenFoul, this`seenOut
      ensures Logged()
      ensures eventBuffer == old(eventBuffer) + [e]
      ensures book == Enter(old(book), Ev(e), cfg.home.id)
    {
      hide Enter, Read, ReadOn, SeenIn, SeenOf;
      SeenInOneMore(SeenOf(messages), eventBuffer, e);
      seenTackle, seenFoul, seenOut := seenTackle || e.Tackle?, seenFoul || e.Foul?, seenOut || e.OutOfBounds?;
      ReadOnOneMore(Read(messages, cfg.home.id), eventBuffer, e, cfg.home.id);
      eventBuffer := eventBuffer + [e];
      book := Enter(book, Ev(e), cfg.home.id);
    }

    /** An event of open play that touches no tally, at tick `t`. */
    method TrackPlay(t: int, e: Event)
      requires Kept(t) && e.t == t && OpenPlay(e)
      modifies this`eventBuffer, this`book, this`seenTackle, this`seenFoul, this`seenOut
      ensures Kept(t) && eventBuffer == old(eventBuffer) + [e]
    {
      hide Enter, Read, ReadOn, One, SeenIn, SeenOf;
      EnterPlay(book, e, cfg.home.id);
      TrackEvent(e);
    }

    /** A commentary line picked at random from a bank. */
    method SayLine(t: int, bank: Bank)
      requires Logged() && TimeLaw(eventBuffer, book.flow, t) && book.tally.scoresRight && bank != ShotOffTarget
      modifies this`eventBuffer, this`book, this`seenTackle, this`seenFoul, this`seenOut, rng
      ensures Logged() && TimeLaw(eventBuffer, book.flow, t)
      ensures book == Book(old(book).tally, Noted(old(book).flow, t))
      ensures eventBuffer == old(eventBuffer) + [Commentary(t, bank)]
      ensures rng.drawn == old(rng.drawn) + 1 && rng.sampled == old(rng.sampled)
    {
      hide Enter, Read, ReadOn, One, SeenIn, SeenOf;
      EnterLine(book, t, bank, cfg.home.id);
      var _ := rng.Next();
      TrackEvent(Commentary(t, bank));
    }

    /** The same while a half is running. */
    method Say(t: int, bank: Bank)
      requires Kept(t) && bank != ShotOffTarget
      modifies this`eventBuffer, this`book, this`seenTackle, this`seenFoul, this`seenOut, rng
      ensures Kept(t) && eventBuffer == old(eventBuffer) + [Commentary(t, bank)]
      ensures rng.drawn == old(rng.drawn) + 1 && rng.sampled == old(rng.sampled)
    {
      hide Read, ReadOn, SeenIn, SeenOf;
      SayLine(t, bank);
    }

    /** A shot leaves one more shot to account for. */
    method TrackShot(t: int, e: Event)
      requires Kept(t) && e.t == t && e.Shot? && !phase.ShotInFlight?
      modifies this`eventBuffer, this`book, this`seenTackle, this`seenFoul, this`seenOut
      ensures KeptBut(t, true) && eventBuffer == old(eventBuffer) + [e]
    {
      hide Enter, Read, ReadOn, SeenIn, SeenOf;
      EnterShot(book, e, cfg.home.id);
      TrackEvent(e);
    }

    method Launch(t: int, e: Event, flight: Phase)
      requires Kept(t) && e.t == t && e.Shot? && phase.Play? && flight.ShotInFlight?
      modifies this`phase, this`ball, this`eventBuffer, this`book, this`seenTackle, this`seenFoul, this`seenOut
      ensures Kept(t) && eventBuffer == old(eventBuffer) + [e]
      ensures phase == flight && ball == old(ball).(carrier := None)
    {
      hide RecordLaw, SeenIn, SeenOf;
      TrackShot(t, e);
      ball := ball.(carrier := None);
      phase := flight;
    }

    /** Moves the due events of the buffer into the stream, in buffer order. */
    method FlushEventsThrough(t: int)
      modifies this`eventBuffer, this`messages
      ensures messages == old(messages) + Wrap(Due(old(eventBuffer), t))
      ensures eventBuffer == NotDue(old(eventBuffer), t)
    {
      hide KeptCount, Unsent, Sent, Due, NotDue;
      ghost var was, sent := eventBuffer, messages;
      FlushEnds(sent, was, t);
      var i := 0;
      ghost var k := 0;
      while i < |eventBuffer|
        invariant 0 <= k <= |was| && i == KeptCount(was, k, t)
        invariant eventBuffer == Unsent(was, k, t) && messages == Sent(sent, was, k, t)
        decreases |was| - k
      {
        SendStep(sent, was, k, t);
        KeepStep(was, k, t);
        var ev := eventBuffer[i];
        if ev.t <= t {
          messages := messages + [Ev(ev)];
          eventBuffer := eventBuffer[..i] + eventBuffer[i + 1..];
        } else {
          i := i + 1;
        }
        k := k + 1;
      }
    }

    /** Sends the whole buffer when every event in it is due. */
    method FlushAll(t: int)
      requires Logged() && forall i :: 0 <= i < |eventBuffer| ==> eventBuffer[i].t <= t
      modifies this`eventBuffer, this`messages
      ensures Logged() && eventBuffer == []
      ensures messages == old(messages) + Wrap(old(eventBuffer))
    {
      AllDue(eventBuffer, t);
      ReadOnIsRead(messages, eventBuffer, cfg.home.id);
      SeenTogether(messages, eventBuffer);
      FlushEventsThrough(t);
    }

    /** The outfield opponent closest to player `c`, the first of them on ties. */
    method NearestOpponentTo(c: nat) returns (best: Option<nat>)
      requires Cast() && c < |players|
      ensures best.Some? && Nearest(maths, players, c, best.value) && InBox(players[best.value].pos)
    {
      hide CastLaw, Select, InBox, Outfield, FirstLeast, Nearest;
      CastMeans(lineUp, players, 1 - players[c].team);
      var opponents := Select(players, OutfieldOf(1 - players[c].team));
      ghost var b;
      best, b := FirstNearest(c, opponents);
      FoundNearest(maths, players, c, opponents, b);
      OutfieldInBox(lineUp, players, best.value, 1 - players[c].team);
    }

    method FirstNearest(c: nat, opponents: seq<nat>) returns (best: Option<nat>, ghost b: nat)
      requires opponents != [] && c < |players| && forall k :: 0 <= k < |opponents| ==> opponents[k] < |players|
      ensures b < |opponents| && best == Some(opponents[b])
      ensures FirstLeast(maths, players, c, opponents, b, |opponents|)
    {
      hide Dist;
      best, b := None, 0;
      var i := 0;
      while i < |opponents|
        invariant 0 <= i <= |opponents|
        invariant i == 0 ==> best.None?
        invariant i > 0 ==> b < i && best == Some(opponents[b]) && FirstLeast(maths, players, c, opponents, b, i)
      {
        var q := opponents[i];
        if best.None?
           || Dist(maths, players[c].pos, players[q].pos) < Dist(maths, players[c].pos, players[best.value].pos) {
          best, b := Some(q), i;
        }
        i := i + 1;
      }
    }

    /** The nearest opponent within 2.5 m tackles the carrier; if he succeeds
        the ball and the possession are his. */
    method TryTackle(t: int) returns (success: bool, ghost told: seq<Event>)
      requires Ready(t) && phase.Play?
      modifies this`players, this`ball, this`phase, this`eventBuffer, this`book, rng
      modifies this`seenTackle, this`seenFoul, this`seenOut
      ensures Ready(t) && eventBuffer == old(eventBuffer) + told
      ensures Carried(old(Now())) && Tackled(Env(), old(Now()), Now(), told, t)
      ensures success <==> phase != old(phase)
    {
      hide CastLaw, RecordLaw, Dist, InBox, DistinctIds, SeenIn, SeenOf, Nearest, Possession, Outfield, Tackled;
      ghost var who := Carrying(phase, ball, players);
      var c := ball.carrier.value;
      var nearest := NearestOpponentTo(c);
      var opp := nearest.value;
      NearestMeans(maths, players, c, opp);
      if Dist(maths, players[c].pos, players[opp].pos) > 2.5 {
        OutOfReach(Env(), Now(), t, opp);
        return false, [];
      }
      success, told := MakeTackle(t, c, opp);
      TackleMade(Env(), old(Now()), Now(), t, opp, success);
    }

    /** The die, the event and its outcome. */
    method MakeTackle(t: int, c: nat, opp: nat) returns (success: bool, ghost told: seq<Event>)
      requires Ready(t) && phase.Play? && c < |players| && opp < |players| && c != opp && InBox(players[opp].pos)
      modifies this`players, this`ball, this`phase, this`eventBuffer, this`book, rng
      modifies this`seenTackle, this`seenFoul, this`seenOut
      ensures Ready(t) && eventBuffer == old(eventBuffer) + told
      ensures success == (rng.oracle.uniform(old(rng.drawn)) < 0.55)
      ensures told == [Tackle(t, old(players)[opp].id, old(players)[c].id, success)]
      ensures
        var a := old(Now());
        Now() == if success
                 then a.(phase := Play(a.players[opp].team), ball := HeldBy(a.players, opp),
                         players := Acting(Acting(a.players, opp, TackleTag), c, Fall), drawn := a.drawn + 1)
                 else a.(players := Acting(a.players, opp, TackleTag), drawn := a.drawn + 1)
    {
      hide CastLaw, RecordLaw, InBox, DistinctIds, SeenIn, SeenOf, Possession;
      success := rng.Chance(0.55);
      told := [Tackle(t, players[opp].id, players[c].id, success)];
      TrackPlay(t, Tackle(t, players[opp].id, players[c].id, success));
      Challenge(c, opp, success);
    }

    /** Player `opp` goes for the ball of player `c`. */
    method Challenge(c: nat, opp: nat, success: bool)
      requires Cast() && c < |players| && opp < |players| && c != opp && InBox(players[opp].pos)
      requires Possession(phase, ball, players)
      modifies this`players, this`ball, this`phase
      ensures Cast() && Possession(phase, ball, players)
      ensures if success
              then
                && phase == Play(players[opp].team) && ball == HeldBy(old(players), opp)
                && players == Acting(Acting(old(players), opp, TackleTag), c, Fall)
              else phase == old(phase) && ball == old(ball) && players == Acting(old(players), opp, TackleTag)
    {
      hide CastLaw, Possession, InBox;
      Animate(lineUp, players, opp, TackleTag, phase, ball);
      players := players[opp := players[opp].(anim := TackleTag)];
      if success {
        WinBall(c, opp);
      }
    }

    /** Player `c` falls and player `opp` has the ball. */
    method WinBall(c: nat, opp: nat)
      requires Cast() && c < |players| && opp < |players| && c != opp && InBox(players[opp].pos)
      modifies this`players, this`ball, this`phase
      ensures Cast() && Possession(phase, ball, players)
      ensures phase == Play(players[opp].team) && ball == HeldBy(old(players), opp)
      ensures players == Acting(old(players), c, Fall)
    {
      hide CastLaw, InBox;
      Animate(lineUp, players, c, Fall, phase, ball);
      players := players[c := players[c].(anim := Fall)];
      ball := HeldBy(players, opp);
      phase := Play(players[opp].team);
    }

    /** The nearest opponent within 3 m fouls the carrier: play stops for a free
        kick of the fouled side, who keep the ball. */
    method TryFoul(t: int) returns (fouled: bool, ghost told: seq<Event>)
      requires Ready(t) && phase.Play?
      modifies this`players, this`ball, this`phase, this`eventBuffer, this`book, rng
      modifies this`seenTackle, this`seenFoul, this`seenOut
      ensures Ready(t) && eventBuffer == old(eventBuffer) + told
      ensures Carried(old(Now())) && Fouled(Env(), old(Now()), Now(), told, t)
      ensures fouled <==> told != []
    {
      hide CastLaw, RecordLaw, Dist, InBox, SeenIn, SeenOf, Nearest, DistinctIds, Possession, Fouled, Judged;
      ghost var who := Carrying(phase, ball, players);
      var c := ball.carrier.value;
      var nearest := NearestOpponentTo(c);
      var opp := nearest.value;
      NearestMeans(maths, players, c, opp);
      if Dist(maths, players[c].pos, players[opp].pos) > 3.0 {
        TooFarToFoul(Env(), Now(), t, opp);
        return false, [];
      }
      ghost var severity;
      severity, told := MakeFoul(t, opp);
      FoulMade(Env(), old(Now()), Now(), told, t, opp, severity);
      fouled := true;
    }

    /** The foul, and the ball for the man fouled. */
    method MakeFoul(t: int, opp: nat) returns (ghost severity: Severity, ghost told: seq<Event>)
      requires Ready(t) && phase.Play? && opp < |players| && ball.carrier != Some(opp)
      modifies this`players, this`ball, this`phase, this`eventBuffer, this`book, rng
      modifies this`seenTackle, this`seenFoul, this`seenOut
      ensures Ready(t) && eventBuffer == old(eventBuffer) + told && Carried(old(Now()))
      ensures Judged(rng.oracle.uniform(old(rng.drawn)), severity)
      ensures FoulGiven(old(Now()), Now(), told, t, opp, severity)
    {
      hide CastLaw, RecordLaw, InBox, SeenIn, SeenOf, DistinctIds;
      var c := ball.carrier.value;
      severity, told := CallFoul(t, opp, c);
      ball := HeldBy(players, c);
      phase := AwaitRestart(t + 1500, players[c].team, FreeKick);
    }

    /** The foul event, and for a yellow or red card its line and the mark. */
    method CallFoul(t: int, opp: nat, c: nat) returns (ghost severity: Severity, ghost told: seq<Event>)
      requires Kept(t) && Cast() && opp < |players| && c < |players| && opp != c
      modifies this`players, this`eventBuffer, this`book, rng
      modifies this`seenTackle, this`seenFoul, this`seenOut
      ensures Kept(t) && Cast() && SamePlaces(old(players), players) && SameShapes(old(players), players)
      ensures eventBuffer == old(eventBuffer) + told && Judged(rng.oracle.uniform(old(rng.drawn)), severity)
      ensures told == [Foul(t, old(players)[opp].id, old(players)[c].id, severity)]
                      + if severity == Soft then [] else [Commentary(t, YellowCard)]
      ensures players == if severity == Soft then old(players)
                         else old(players)[opp := old(players)[opp].(yellowCarded := severity == Yellow)]
      ensures rng.drawn == old(rng.drawn) + (if severity == Soft then 1 else 2) && rng.sampled == old(rng.sampled)
    {
      hide CastLaw, RecordLaw, SeenIn, SeenOf;
      var roll := rng.Next();
      var severity' := if roll < 0.7 then Soft else if roll < 0.97 then Yellow else Red;
      severity, told := severity', [Foul(t, players[opp].id, players[c].id, severity')];
      TrackPlay(t, Foul(t, players[opp].id, players[c].id, severity'));
      if severity' != Soft {
        told := told + [Commentary(t, YellowCard)];
        ShowCard(t, opp, severity' == Yellow);
      }
    }

    method ShowCard(t: int, opp: nat, yellow: bool)
      requires Kept(t) && Cast() && opp < |players|
      modifies this`players, this`eventBuffer, this`book, rng
      modifies this`seenTackle, this`seenFoul, this`seenOut
      ensures Kept(t) && Cast()
      ensures players == old(players)[opp := old(players)[opp].(yellowCarded := yellow)]
      ensures eventBuffer == old(eventBuffer) + [Commentary(t, YellowCard)]
      ensures rng.drawn == old(rng.drawn) + 1 && rng.sampled == old(rng.sampled)
    {
      hide CastLaw, RecordLaw, SeenIn, SeenOf;
      Say(t, YellowCard);
      Caution(lineUp, players, opp, yellow);
      players := players[opp := players[opp].(yellowCarded := yellow)];
    }

    /** The carrier puts the ball out; the other side restarts. The ball stays
        with the carrier until then. */
    method TryOutOfBounds(t: int) returns (ghost told: seq<Event>)
      requires Ready(t) && phase.Play?
      modifies this`phase, this`eventBuffer, this`book, rng
      modifies this`seenTackle, this`seenFoul, this`seenOut
      ensures Ready(t) && eventBuffer == old(eventBuffer) + told
      ensures Carried(old(Now())) && PutOut(Env(), old(Now()), Now(), told, t)
    {
      hide CastLaw, RecordLaw, DistinctIds, SeenIn, SeenOf;
      var c := ball.carrier.value;
      var restartType := PickRestart();
      var restartTeam: Side := 1 - players[c].team;
      told := CallOut(t, players[c].id, restartType);
      phase := AwaitRestart(t + 1500, restartTeam, restartType);
    }

    method PickRestart() returns (restartType: Restart)
      modifies rng
      ensures restartType == WentOutFor(rng.oracle, old(rng.drawn))
      ensures rng.drawn == old(rng.drawn) + (if restartType == ThrowIn then 1 else 2)
      ensures rng.sampled == old(rng.sampled)
    {
      var roll := rng.Next();
      restartType := ThrowIn;
      if roll >= 0.6 {
        var again := rng.Next();
        restartType := if again < 0.5 then Corner else GoalKick;
      }
    }

    /** The event and its line. */
    method CallOut(t: int, toucher: string, restartType: Restart) returns (ghost told: seq<Event>)
      requires Kept(t)
      modifies this`eventBuffer, this`book, this`seenTackle, this`seenFoul, this`seenOut, rng
      ensures Kept(t) && eventBuffer == old(eventBuffer) + told
      ensures told == [OutOfBounds(t, toucher, restartType), Commentary(t, OutLine(restartType))]
      ensures rng.drawn == old(rng.drawn) + 1 && rng.sampled == old(rng.sampled)
    {
      hide RecordLaw, SeenIn, SeenOf;
      TrackPlay(t, OutOfBounds(t, toucher, restartType));
      var line := if restartType == ThrowIn then OutThrow else if restartType == Corner then OutCorner else OutGoalKick;
      Say(t, line);
      told := [OutOfBounds(t, toucher, restartType), Commentary(t, line)];
    }

    /** The receiver of a pass and its time of flight: one of the three best
        ranked team-mates, or anyone when nobody is well placed. */
    method PickReceiver(c: nat) returns (to: Option<nat>, flightMs: int)
      requires c < |players|
      modifies rng
      ensures to.None? <==> TeamMates(players, c) == []
      ensures to.Some? ==>
        && PassChosen(maths, players, c, rng.oracle.uniform(old(rng.drawn)), to.value, flightMs)
        && to.value in TeamMates(players, c)
      ensures 500 <= flightMs <= 1500
      ensures rng.drawn == old(rng.drawn) + One(to.Some?) && rng.sampled == old(rng.sampled)
    {
      hide Dist, RankedTargets, TeamMates, Index;
      var candidates := TeamMates(players, c);
      if candidates == [] {
        return None, 500;
      }
      var ranked := RankedTargets(maths, players, c);
      Thirds(rng.oracle.uniform(rng.drawn));
      if ranked != [] {
        var k := rng.IntRange(0, 2);
        var best := ranked[if k < |ranked| then k else |ranked| - 1];
        assert best in ranked;
        return Some(best), ClampInt(Round(Dist(maths, players[c].pos, players[best].pos) * 60.0), 500, 1500);
      }
      var k := rng.Pick(|candidates|);
      return Some(candidates[k]), ClampInt(Round(10.0 * 60.0), 500, 1500);
    }

    /** A pass to a team-mate; the ball is nobody's until it arrives. */
    method TryPass(t: int) returns (done: bool, ghost told: seq<Event>)
      requires Ready(t) && phase.Play?
      modifies this`players, this`ball, this`phase, this`eventBuffer, this`book, rng
      modifies this`seenTackle, this`seenFoul, this`seenOut
      ensures Ready(t) && eventBuffer == old(eventBuffer) + told
      ensures Carried(old(Now())) && Passed(Env(), old(Now()), Now(), told, t)
      ensures done <==> told != []
    {
      hide CastLaw, RecordLaw, Possession, TeamMates, PassChosen, DistinctIds, SeenIn, SeenOf;
      ghost var who := Carrying(phase, ball, players);
      var c := ball.carrier.value;
      var receiver, flightMs := PickReceiver(c);
      if receiver.None? {
        return false, [];
      }
      told := PlayPass(t, receiver.value, flightMs);
      done := true;
      assert PassedTo(Env(), old(Now()), Now(), told, t, receiver.value, flightMs);
    }

    /** The event, and the ball in the air. */
    method PlayPass(t: int, to: nat, flightMs: int) returns (ghost told: seq<Event>)
      requires Ready(t) && phase.Play? && Carried(Now()) && to in TeamMates(players, ball.carrier.value)
      modifies this`players, this`ball, this`phase, this`eventBuffer, this`book
      modifies this`seenTackle, this`seenFoul, this`seenOut
      ensures Ready(t) && eventBuffer == old(eventBuffer) + told && to < |old(players)|
      ensures
        var a, c := old(Now()), old(ball).carrier.value;
        && told == [Pass(t, a.players[c].id, a.players[to].id, a.players[to].pos, true)]
        && Now() == a.(phase := BallInFlight(a.players[c].team, to, t, t + flightMs, a.players[c].pos,
                                             a.players[to].pos),
                       ball := a.ball.(carrier := None), players := Acting(a.players, c, PassTag))
    {
      hide CastLaw, RecordLaw, InBox, TeamMates, DistinctIds, SeenIn, SeenOf;
      var c := ball.carrier.value;
      var from, target := players[c].pos, players[to].pos;
      told := [Pass(t, players[c].id, players[to].id, target, true)];
      TrackPlay(t, Pass(t, players[c].id, players[to].id, target, true));
      ball := ball.(carrier := None);
      phase := BallInFlight(players[c].team, to, t, t + flightMs, from, target);
      Animate(lineUp, players, c, PassTag, phase, ball);
      players := players[c := players[c].(anim := PassTag)];
    }

    /** The goalkeeper of a side; there always is one. */
    method TeamGoalkeeper(side: Side) returns (keeper: nat)
      requires Cast()
      ensures keeper < |players| && Keeper(players[keeper], side)
      ensures Select(players, KeeperOf(side)) != [] && keeper == Select(players, KeeperOf(side))[0]
    {
      CastMeans(lineUp, players, side);
      keeper := Select(players, KeeperOf(side))[0];
    }

    /** A shot from at most 35 m: its outcome is rolled when it is taken. */
    method TryShot(t: int) returns (done: bool, ghost told: seq<Event>)
      requires Ready(t) && phase.Play?
      modifies this`players, this`ball, this`phase, this`eventBuffer, this`book, rng
      modifies this`seenTackle, this`seenFoul, this`seenOut
      ensures Ready(t) && eventBuffer == old(eventBuffer) + told
      ensures Carried(old(Now())) && Fired(Env(), old(Now()), Now(), told, t)
      ensures done <==> told != []
    {
      hide CastLaw, RecordLaw, GoalDistance, Possession, Select, DistinctIds, SeenIn, SeenOf, ShotAim, OnTarget, Round;
      ghost var who := Carrying(phase, ball, players);
      var c := ball.carrier.value;
      var distToGoal := GoalDistance(maths, players, c);
      if distToGoal > 35.0 {
        return false, [];
      }
      var onTarget, willGoal, target := RollShot(OppositionGoalCentre(players[c].team).x);
      var flightMs := ClampInt(Round(distToGoal * 30.0), 600, 1500);
      told := TakeShot(t, onTarget, willGoal, target, flightMs);
      done := true;
    }

    /** The event, and the ball in the air. */
    method TakeShot(t: int, onTarget: bool, willGoal: bool, target: Vec3, flightMs: int)
      returns (ghost told: seq<Event>)
      requires Ready(t) && phase.Play? && (willGoal ==> onTarget)
      modifies this`players, this`ball, this`phase, this`eventBuffer, this`book
      modifies this`seenTackle, this`seenFoul, this`seenOut
      ensures Ready(t) && eventBuffer == old(eventBuffer) + told && Carried(old(Now()))
      ensures told == [Shot(t, old(players[ball.carrier.value].id), target, onTarget, false)]
      ensures
        var keepers := old(Select(players, KeeperOf(1 - players[ball.carrier.value].team)));
        keepers != [] && Now() == ShotOff(old(Now()), keepers[0], t, flightMs, target, willGoal, onTarget)
    {
      hide CastLaw, RecordLaw, InBox, Select, DistinctIds, SeenIn, SeenOf, Possession, Keeper;
      ghost var who := Carrying(phase, ball, players);
      var c := ball.carrier.value;
      var keeper := TeamGoalkeeper(1 - players[c].team);
      told := [Shot(t, players[c].id, target, onTarget, false)];
      Launch(t, Shot(t, players[c].id, target, onTarget, false),
             ShotInFlight(players[c].team, c, keeper, t, t + flightMs, players[c].pos, target, willGoal, onTarget));
      ShotHeld(phase, ball, players);
      Animate(lineUp, players, c, Shoot, phase, ball);
      players := players[c := players[c].(anim := Shoot)];
    }

    /** Whether a shot is on target and scores, and where it goes. */
    method RollShot(goalX: real) returns (onTarget: bool, willGoal: bool, target: Vec3)
      modifies rng
      ensures onTarget <==> rng.oracle.uniform(old(rng.drawn)) < 0.55
      ensures willGoal <==> onTarget && 11.0 * rng.oracle.uniform(old(rng.drawn) + 1) < 5.0
      ensures onTarget == OnTarget(rng.oracle, old(rng.drawn)) && willGoal == Scores(rng.oracle, old(rng.drawn))
      ensures target == ShotAim(rng.oracle, old(rng.drawn), goalX)
      ensures rng.drawn == old(rng.drawn) + 4 && rng.sampled == old(rng.sampled)
    {
      onTarget := rng.Chance(ON_TARGET_PROB_ON_SHOT);
      willGoal := false;
      if onTarget {
        willGoal := rng.Chance(GOAL_PROB_ON_SHOT / ON_TARGET_PROB_ON_SHOT);
      }
      var y := rng.Range(-3.0, 3.0);
      var z := rng.Range(0.4, 2.4);
      var aimY, aimZ := Clamp(y, -3.5, 3.5), Clamp(z, 0.2, 2.6);
      if onTarget {
        target := Vec3(goalX, aimY, aimZ);
      } else {
        var left := rng.Chance(0.5);
        target := Vec3(goalX, if left then 6.0 else -6.0, aimZ);
      }
    }

    /** A substitution. The man coming on may have been on before; the ball does
        not move, so the man going off may still be its carrier. */
    method TrySubstitution(t: int, side: Side) returns (done: bool, ghost told: seq<Event>)
      requires Ready(t)
      modifies this`players, this`eventBuffer, this`book, rng
      modifies this`seenTackle, this`seenFoul, this`seenOut
      ensures Ready(t) && eventBuffer == old(eventBuffer) + told
      ensures done <==> Select(old(players), BenchOf(side)) != []
      ensures SubMade(Env(), old(Now()), Now(), told, t, side)
    {
      hide RecordLaw, CastLaw, Possession, Swap, Select, Outfield, Benched, MostTired, DistinctIds, SeenIn, SeenOf;
      CastMeans(lineUp, players, side);
      var bench := Select(players, BenchOf(side));
      if bench == [] {
        return false, [];
      }
      var off, on := MostTired(players, side), bench[0];
      FirstOnBench(players, side);
      told := [Substitution(t, cfg.Of(side).id, players[on].id, players[off].id), Commentary(t, SubstitutionLine)];
      TellSubstitution(t, side, players[on].id, players[off].id);
      SubstitutionKeeps(lineUp, players, phase, ball, off, on, side);
      players := Swap(players, off, on);
      done := true;
    }

    method TellSubstitution(t: int, side: Side, playerIn: string, playerOut: string)
      requires Kept(t)
      modifies this`eventBuffer, this`book, this`seenTackle, this`seenFoul, this`seenOut, rng
      ensures Kept(t)
      ensures eventBuffer == old(eventBuffer)
        + [Substitution(t, cfg.Of(side).id, playerIn, playerOut), Commentary(t, SubstitutionLine)]
      ensures rng.drawn == old(rng.drawn) + 1 && rng.sampled == old(rng.sampled)
    {
      hide RecordLaw, SeenIn, SeenOf;
      TrackPlay(t, Substitution(t, cfg.Of(side).id, playerIn, playerOut));
      Say(t, SubstitutionLine);
    }

    /** Every player on the pitch goes back to his slot. */
    method ResetToFormation()
      requires Cast()
      modifies this`players
      ensures Cast() && SameShapes(old(players), players)
      ensures forall i :: 0 <= i < |players| ==>
        players[i] == if old(players)[i].isOnPitch then InFormation(old(players)[i]) else old(players)[i]
    {
      ghost var was := players;
      var i := 0;
      while i < |players|
        invariant 0 <= i <= |players| == |was|
        invariant forall k :: 0 <= k < i ==> players[k] == if was[k].isOnPitch then InFormation(was[k]) else was[k]
        invariant forall k :: i <= k < |was| ==> players[k] == was[k]
      {
        if players[i].isOnPitch {
          players := players[i := InFormation(players[i])];
        }
        i := i + 1;
      }
      FormationKeeps(lineUp, was, players);
    }

    /** A kickoff: formation, the striker with the ball on the centre spot. */
    method StartKickoff(t: int, side: Side, first: bool)
      requires Cast() && Logged() && TimeLaw(eventBuffer, book.flow, t) && !book.tally.owed && book.tally.scoresRight
      requires book.flow.stage in {FirstToKick, FirstHalf, SecondToKick, SecondHalf}
      modifies this`players, this`ball, this`phase, this`eventBuffer, this`book, rng
      modifies this`seenTackle, this`seenFoul, this`seenOut
      ensures Cast() && Logged() && TimeLaw(eventBuffer, book.flow, t)
      ensures book == Book(old(book).tally, Noted(old(book).flow, t).(stage :=
                        if old(book).flow.stage in {FirstToKick, FirstHalf} then FirstHalf else SecondHalf))
      ensures Possession(phase, ball, players) && KickedOff(old(Now()), Now(), side)
      ensures eventBuffer == old(eventBuffer)
        + KickoffTold(Env(), side, t, if first then KickoffLine else KickoffRestart)
    {
      hide LogLaw, TimeLaw, CastLaw, Noted, Select, Possession, IsStriker, Formed, SeenIn, SeenOf;
      ghost var striker := LineUpForKickoff(side);
      AnnounceKickoff(t, side, first);
      phase := Play(side);
      StrikerHas(old(players), ball, players, side, striker);
      assert KickedOffBy(old(Now()), Now(), side, striker);
    }

    /** Formation, and the ball for the striker. */
    method LineUpForKickoff(side: Side) returns (ghost who: nat)
      requires Cast()
      modifies this`players, this`ball
      ensures Cast() && IsStriker(old(players), side, who)
      ensures players == Formed(old(players), who) && ball == HeldBy(players, who)
    {
      hide CastLaw, Select, Outfield, Shape, IsStriker;
      ghost var was := players;
      ResetToFormation();
      ghost var formed := players;
      var striker := Striker(side);
      who := striker;
      StillStriker(formed, was, side, striker);
      PlaceAt(lineUp, players, striker, Vec2(0.0, 0.0));
      players := players[striker := players[striker].(pos := Vec2(0.0, 0.0))];
      ball := HeldBy(players, striker);
      StrikerOnPitch(was, side, striker);
      assert players == Formed(was, striker);
    }

    method AnnounceKickoff(t: int, side: Side, first: bool)
      requires Logged() && TimeLaw(eventBuffer, book.flow, t) && !book.tally.owed && book.tally.scoresRight
      requires book.flow.stage in {FirstToKick, FirstHalf, SecondToKick, SecondHalf}
      modifies this`eventBuffer, this`book, this`seenTackle, this`seenFoul, this`seenOut, rng
      ensures Logged() && TimeLaw(eventBuffer, book.flow, t)
      ensures book == Book(old(book).tally, Noted(old(book).flow, t).(stage :=
                        if old(book).flow.stage in {FirstToKick, FirstHalf} then FirstHalf else SecondHalf))
      ensures eventBuffer == old(eventBuffer)
        + KickoffTold(Env(), side, t, if first then KickoffLine else KickoffRestart)
      ensures rng.drawn == old(rng.drawn) + 1 && rng.sampled == old(rng.sampled)
    {
      hide Read, ReadOn, Enter, SeenIn, SeenOf;
      EnterKickoff(book, t, cfg.Of(side).id, cfg.home.id);
      TrackEvent(Kickoff(t, cfg.Of(side).id));
      SayLine(t, if first then KickoffLine else KickoffRestart);
    }

    /** The first striker on the pitch, or else the first outfielder. */
    method Striker(side: Side) returns (striker: nat)
      requires Cast()
      ensures IsStriker(players, side, striker)
    {
      hide CastLaw, Select, Outfield;
      CastMeans(lineUp, players, side);
      var outfielders := Select(players, OutfieldOf(side));
      var i := 0;
      while i < |outfielders|
        invariant 0 <= i <= |outfielders|
        invariant forall k :: 0 <= k < i ==> players[outfielders[k]].position != "ST"
      {
        if players[outfielders[i]].position == "ST" {
          FirstOfFilter(players, side, outfielders, i);
          return outfielders[i];
        }
        i := i + 1;
      }
      FirstOfFilter(players, side, outfielders, 0);
      striker := outfielders[0];
    }

    // ---------- motion ----------

    /** The carrier runs at the goal, with some swerve, and takes the ball along. */
    method MoveCarrier()
      requires Cast() && maths.Lawful() && Possession(phase, ball, players) && phase.Play?
      modifies this`players, this`ball, rng
      ensures Cast() && Possession(phase, ball, players)
      ensures Carried(old(Now())) && Now() == Ran(Env(), old(Now()))
    {
      hide CastLaw, CarrierNext, AngleTo, Stretch;
      var c := ball.carrier.value;
      var p := players[c];
      var goal := OppositionGoalCentre(p.team);
      var noise := rng.Normal(0.0, 0.6);
      var angle := AngleTo(maths, p.pos, Vec2(goal.x, goal.y)) + noise * 0.4;
      var speed := rng.Range(4.0, 7.0);
      var step := speed * TICK_MS as real / 1000.0;
      var next := CarrierNext(maths, p.pos, angle, step);
      var q := p.(pos := next, facing := angle, anim := if speed > 5.5 then Sprint else Run);
      MovedKeeps(lineUp, players, c, q);
      players := players[c := q];
      ball := Ball(Vec3(next.x, next.y, 0.3), Vec3(maths.cos(angle) * speed, maths.sin(angle) * speed, 0.0), Some(c));
      assert step == speed / 10.0;
      assert Now() == Running(maths, old(Now()), c, angle, speed);
      assert angle == AngleTo(maths, p.pos, Vec2(goal.x, goal.y)) + 0.24 * rng.oracle.gauss(old(rng.sampled));
    }

    /** Everybody else on the pitch drifts towards his slot. */
    method DriftOthers()
      requires Cast() && maths.Lawful() && Possession(phase, ball, players)
      modifies this`players, rng
      ensures Cast() && Possession(phase, ball, players)
      ensures Now() == Scattered(Env(), old(Now()))
    {
      hide Conserved, AllFit, DriftedOn, Drifters;
      ghost var was := Now();
      DriftThrough();
      assert players == Scattered(Env(), was).players;
      AllMovedKeeps(lineUp, was.players, players);
      CarrierStays(Env(), was);
      MovedPossession(phase, ball, was.players, players);
    }

    /** The loop over the players, in their order. */
    method DriftThrough()
      requires Cast() && maths.Lawful() && (ball.carrier.Some? ==> ball.carrier.value < |players|)
      modifies this`players, rng
      ensures |players| == |old(players)|
      ensures forall k :: 0 <= k < |players| ==>
        players[k] == DriftedOn(Env(), old(Now()), k) && MovedWell(old(players)[k], players[k])
      ensures rng.drawn == old(rng.drawn) + Drifters(old(players), ball.carrier)
      ensures rng.sampled == old(rng.sampled) + 2 * Drifters(old(players), ball.carrier)
    {
      hide Conserved, Fit, MovedWell, InBox, DriftedOn, Drifters;
      ghost var was := Now();
      var side: Option<Side> := if phase.Play? || phase.BallInFlight? || phase.ShotInFlight?
        then Some(phase.possessing) else None;
      var carrierPos := if ball.carrier.Some? then Some(players[ball.carrier.value].pos) else None;
      var i := 0;
      NobodyYet(was);
      while i < |players|
        invariant 0 <= i <= |players| == |was.players|
        invariant forall k :: 0 <= k < i ==>
          players[k] == DriftedOn(Env(), was, k) && MovedWell(was.players[k], players[k])
        invariant forall k :: i <= k < |players| ==> players[k] == was.players[k]
        invariant rng.drawn == was.drawn + Drifters(was.players[..i], ball.carrier)
        invariant rng.sampled == was.sampled + 2 * Drifters(was.players[..i], ball.carrier)
      {
        assert Fit(was.players[i]);
        DriftersOneMore(was.players, ball.carrier, i);
        ghost var k := Drifters(was.players[..i], ball.carrier);
        ShowDriftedOn(Env(), was, i);
        if players[i].isOnPitch && ball.carrier != Some(i) {
          DriftOne(i, side, carrierPos, was, k);
        } else {
          StandStill(was.players[i]);
        }
        i := i + 1;
      }
      assert was.players[..i] == was.players;
    }

    /** One player's drift; `k` others have drifted before him. */
    method DriftOne(i: nat, side: Option<Side>, carrierPos: Option<Vec2>, ghost was: Stand, ghost k: nat)
      requires i < |players| && |players| == |was.players| && players[i] == was.players[i]
      requires Fit(players[i]) && players[i].isOnPitch && maths.Lawful()
      requires side == Possessing(was.phase) && carrierPos == CarrierPos(was)
      requires rng.drawn == was.drawn + k && rng.sampled == was.sampled + 2 * k
      modifies this`players, rng
      ensures players == old(players)[i := Drift(Env(), was, i, k)] && MovedWell(old(players)[i], players[i])
      ensures rng.drawn == old(rng.drawn) + 1 && rng.sampled == old(rng.sampled) + 2
    {
      hide Fit, DriftTarget, Drifted, InBox, Stretch, IntoBox;
      var noiseX := rng.Normal(0.0, 0.4);
      var noiseY := rng.Normal(0.0, 0.4);
      var aim := DriftTarget(players[i], side, carrierPos);
      assert noiseX == 0.4 * rng.oracle.gauss(was.sampled + 2 * k);
      assert noiseY == 0.4 * rng.oracle.gauss(was.sampled + 2 * k + 1);
      var target := IntoBox(Vec2(aim.x + noiseX, aim.y + noiseY));
      var speed;
      if players[i].isGK {
        speed := rng.Range(0.5, 2.0);
      } else {
        speed := rng.Range(2.0, 5.0);
      }
      DriftFits(Env(), was, i, k);
      players := players[i := Drifted(maths, players[i], target, speed)];
    }

    /** An animation for everybody on the pitch. */
    method AnimateAll(anim: AnimTag)
      requires Cast() && Possession(phase, ball, players)
      modifies this`players
      ensures Cast() && Possession(phase, ball, players)
      ensures players == Everybody(old(players), anim)
    {
      ghost var was := players;
      var i := 0;
      while i < |players|
        invariant 0 <= i <= |players| == |was|
        invariant forall k :: 0 <= k < i ==> players[k] == if was[k].isOnPitch then was[k].(anim := anim) else was[k]
        invariant forall k :: i <= k < |was| ==> players[k] == was[k]
      {
        if players[i].isOnPitch {
          players := players[i := players[i].(anim := anim)];
        }
        i := i + 1;
      }
      AllAnimatedKeeps(lineUp, was, players, anim);
      AnimatedPossession(phase, ball, was, players);
    }

    // ---------- one tick, phase by phase ----------

    /** The ball flies to where the receiver now is. On arrival he has it, or,
        when he has gone off, the first outfielder of the other side. */
    method TickBallInFlight(t: int)
      requires Ready(t) && phase.BallInFlight?
      modifies this`ball, this`phase
      ensures Ready(t)
      ensures old(phase).receiver < |old(players)| && Landed(old(Now()), Now(), [], t)
    {
      hide CastLaw, RecordLaw, Select, FlightPosition, FlightProgress, DistinctIds, SeenIn, SeenOf;
      var receiver := players[phase.receiver];
      var target := if receiver.isOnPitch then receiver.pos else phase.target;
      var progress := FlightProgress(t, phase.startT, phase.arrivalT);
      var z := 1.5 * 4.0 * progress * (1.0 - progress);
      assert z == Bow(6.0, progress);
      ball := ball.(pos := FlightPosition(phase.from, target, progress, z));
      CastMeans(lineUp, players, 1 - phase.possessing);
      if t >= phase.arrivalT {
        if receiver.isOnPitch {
          ball := HeldBy(players, phase.receiver);
          phase := Play(receiver.team);
        } else {
          var opp := Select(players, OutfieldOf(1 - phase.possessing))[0];
          ball := HeldBy(players, opp);
          phase := Play(players[opp].team);
        }
      }
    }

    /** A goal and the celebration that follows. */
    method ScoreGoal(t: int)
      requires Ready(t) && phase.ShotInFlight? && phase.arrivalT <= t && phase.willGoal
      modifies this`phase, this`homeScore, this`awayScore, this`eventBuffer, this`book, rng
      modifies this`seenTackle, this`seenFoul, this`seenOut
      ensures Ready(t) && phase == Celebrate(t + 5000, 1 - old(phase).possessing)
      ensures homeScore == old(homeScore) + One(old(phase).possessing == 0)
      ensures awayScore == old(awayScore) + One(old(phase).possessing == 1)
      ensures eventBuffer == old(eventBuffer) + [
        Goal(t, players[old(phase).shooter].id, cfg.Of(old(phase).possessing).id),
        Commentary(t, GoalLine), ScoreChange(t, homeScore, awayScore)]
      ensures rng.drawn == old(rng.drawn) + 1 && rng.sampled == old(rng.sampled)
    {
      hide CastLaw, RecordLaw, SeenIn, SeenOf;
      var shooter := players[phase.shooter];
      RecordGoal(t, shooter.id, shooter.team);
      phase := Celebrate(t + 5000, 1 - shooter.team);
    }

    /** The score and the three events that tell it. */
    method RecordGoal(t: int, shooterId: string, side: Side)
      requires Kept(t) && phase.ShotInFlight? && cfg.home.id != cfg.away.id
      modifies this`homeScore, this`awayScore, this`eventBuffer, this`book, rng
      modifies this`seenTackle, this`seenFoul, this`seenOut
      ensures KeptBut(t, false)
      ensures homeScore == old(homeScore) + One(side == 0) && awayScore == old(awayScore) + One(side == 1)
      ensures eventBuffer == old(eventBuffer) +
        [Goal(t, shooterId, cfg.Of(side).id), Commentary(t, GoalLine), ScoreChange(t, homeScore, awayScore)]
      ensures rng.drawn == old(rng.drawn) + 1 && rng.sampled == old(rng.sampled)
    {
      hide LogLaw, TimeLaw, SeenIn, SeenOf;
      ghost var before := Records();
      KeptMeans(before, t, cfg.home.id);
      if side == 0 {
        homeScore := homeScore + 1;
      } else {
        awayScore := awayScore + 1;
      }
      TellGoal(t, shooterId, side);
      GoalKept(before, Records().(inFlight := false), side, t, cfg.home.id);
    }

    method TellGoal(t: int, shooterId: string, side: Side)
      requires Logged() && TimeLaw(eventBuffer, book.flow, t) && cfg.home.id != cfg.away.id
      requires !book.tally.owed && book.tally.scoresRight && book.flow.stage in {FirstHalf, SecondHalf}
      requires homeScore == book.tally.home + One(side == 0) && awayScore == book.tally.away + One(side == 1)
      modifies this`eventBuffer, this`book, rng
      modifies this`seenTackle, this`seenFoul, this`seenOut
      ensures Logged() && TimeLaw(eventBuffer, book.flow, t)
      ensures book == Book(
        old(book).tally.(goals := old(book).tally.goals + 1, home := homeScore, away := awayScore),
          Noted(old(book).flow, t))
      ensures eventBuffer == old(eventBuffer) +
        [Goal(t, shooterId, cfg.Of(side).id), Commentary(t, GoalLine), ScoreChange(t, homeScore, awayScore)]
      ensures rng.drawn == old(rng.drawn) + 1 && rng.sampled == old(rng.sampled)
    {
      hide Enter, LogLaw, SeenIn, SeenOf;
      EnterGoal(book, t, shooterId, cfg.Of(side).id, cfg.home.id);
      TrackEvent(Goal(t, shooterId, cfg.Of(side).id));
      var _ := rng.Next();
      TrackEvent(Commentary(t, GoalLine));
      TrackEvent(ScoreChange(t, homeScore, awayScore));
    }

    /** A save: the keeper has the ball and will take the goal kick. */
    method MakeSave(t: int)
      requires Ready(t) && phase.ShotInFlight? && phase.arrivalT <= t && !phase.willGoal && phase.onTarget
      modifies this`phase, this`players, this`ball, this`eventBuffer, this`book, rng
      modifies this`seenTackle, this`seenFoul, this`seenOut
      ensures Ready(t) && phase == AwaitRestart(t + 2000, 1 - old(phase).possessing, GoalKick)
      ensures players == Acting(old(players), old(phase).keeper, Catch)
      ensures ball == HeldBy(old(players), old(phase).keeper)
      ensures eventBuffer == old(eventBuffer) + [Save(t, players[old(phase).keeper].id), Commentary(t, ShotSaved)]
      ensures rng.drawn == old(rng.drawn) + 1 && rng.sampled == old(rng.sampled)
    {
      hide CastLaw, RecordLaw, InBox, SeenIn, SeenOf, DistinctIds;
      var keeper := phase.keeper;
      OnPitchInBox(lineUp, players, keeper);
      RecordSave(t, players[keeper].id);
      Animate(lineUp, players, keeper, Catch, phase, ball);
      players := players[keeper := players[keeper].(anim := Catch)];
      ball := HeldBy(players, keeper);
      phase := AwaitRestart(t + 2000, players[keeper].team, GoalKick);
    }

    method RecordSave(t: int, keeperId: string)
      requires Kept(t) && phase.ShotInFlight?
      modifies this`eventBuffer, this`book, this`seenTackle, this`seenFoul, this`seenOut, rng
      ensures KeptBut(t, false)
      ensures eventBuffer == old(eventBuffer) + [Save(t, keeperId), Commentary(t, ShotSaved)]
      ensures rng.drawn == old(rng.drawn) + 1 && rng.sampled == old(rng.sampled)
    {
      hide Enter, Read, ReadOn, SeenIn, SeenOf;
      EnterSave(book, Save(t, keeperId), cfg.home.id);
      TrackEvent(Save(t, keeperId));
      SayLine(t, ShotSaved);
    }

    /** A shot off target: goal kick for the other side. */
    method MissTarget(t: int)
      requires Ready(t) && phase.ShotInFlight? && phase.arrivalT <= t && !phase.willGoal && !phase.onTarget
      modifies this`phase, this`eventBuffer, this`book, rng
      modifies this`seenTackle, this`seenFoul, this`seenOut
      ensures Ready(t) && phase == AwaitRestart(t + 2000, 1 - old(phase).possessing, GoalKick)
      ensures eventBuffer == old(eventBuffer)
        + [OutOfBounds(t, players[old(phase).shooter].id, GoalKick), Commentary(t, ShotOffTarget)]
      ensures rng.drawn == old(rng.drawn) + 1 && rng.sampled == old(rng.sampled)
    {
      hide CastLaw, RecordLaw, SeenIn, SeenOf, DistinctIds;
      var shooter := players[phase.shooter];
      RecordMiss(t, shooter.id);
      phase := AwaitRestart(t + 2000, 1 - shooter.team, GoalKick);
    }

    method RecordMiss(t: int, shooterId: string)
      requires Kept(t) && phase.ShotInFlight?
      modifies this`eventBuffer, this`book, this`seenTackle, this`seenFoul, this`seenOut, rng
      ensures KeptBut(t, false)
      ensures eventBuffer == old(eventBuffer) + [OutOfBounds(t, shooterId, GoalKick), Commentary(t, ShotOffTarget)]
      ensures rng.drawn == old(rng.drawn) + 1 && rng.sampled == old(rng.sampled)
    {
      hide Enter, Read, ReadOn, SeenIn, SeenOf;
      EnterPlay(book, OutOfBounds(t, shooterId, GoalKick), cfg.home.id);
      TrackEvent(OutOfBounds(t, shooterId, GoalKick));
      EnterWide(book, t, cfg.home.id);
      var _ := rng.Next();
      TrackEvent(Commentary(t, ShotOffTarget));
    }

    /** The shot flies; on arrival it is a goal, a save or a miss. */
    method TickShotInFlight(t: int) returns (ghost told: seq<Event>)
      requires Ready(t) && phase.ShotInFlight?
      modifies this`phase, this`players, this`ball, this`homeScore, this`awayScore, this`eventBuffer, this`book, rng
      modifies this`seenTackle, this`seenFoul, this`seenOut
      ensures Ready(t) && eventBuffer == old(eventBuffer) + told
      ensures old(phase).shooter < |old(players)| && old(phase).keeper < |old(players)|
      ensures Arrived(Env(), old(Now()), Now(), told, t)
    {
      hide CastLaw, RecordLaw, FlightPosition, FlightProgress, SeenIn, SeenOf, DistinctIds;
      var progress := FlightProgress(t, phase.startT, phase.arrivalT);
      var z := phase.goalTarget.z * progress + 2.5 * 4.0 * progress * (1.0 - progress);
      assert z == Climbed(phase.goalTarget.z, progress) + Bow(10.0, progress);
      ball := ball.(pos := FlightPosition(phase.from, Vec2(phase.goalTarget.x, phase.goalTarget.y), progress, z));
      told := [];
      if t >= phase.arrivalT {
        if phase.willGoal {
          ScoreGoal(t);
          told := GoalTold(Env(), players[old(phase).shooter], t, homeScore, awayScore);
        } else if phase.onTarget {
          MakeSave(t);
          told := SaveTold(players[old(phase).keeper], t);
        } else {
          MissTarget(t);
          told := MissTold(players[old(phase).shooter], t);
        }
      }
    }

    /** The celebration, until its kickoff is due. */
    method TickCelebrate(t: int) returns (ghost told: seq<Event>)
      requires Ready(t) && phase.Celebrate?
      modifies this`players, this`ball, this`phase, this`eventBuffer, this`book, rng
      modifies this`seenTackle, this`seenFoul, this`seenOut
      ensures Ready(t) && eventBuffer == old(eventBuffer) + told
      ensures Celebrated(Env(), old(Now()), Now(), told, t)
    {
      hide CastLaw, RecordLaw, Possession, KickedOff, DistinctIds, SeenIn, SeenOf;
      told := [];
      AnimateAll(CelebrateTag);
      if t >= phase.resumeT {
        told := KickoffTold(Env(), phase.nextKickoffTeam, t, KickoffRestart);
        KickoffInPlay(t, phase.nextKickoffTeam);
      }
    }

    /** A kickoff while a half is running. */
    method KickoffInPlay(t: int, side: Side)
      requires Cast() && Kept(t) && !phase.ShotInFlight?
      modifies this`players, this`ball, this`phase, this`eventBuffer, this`book, rng
      modifies this`seenTackle, this`seenFoul, this`seenOut
      ensures Cast() && Kept(t) && Possession(phase, ball, players)
      ensures KickedOff(old(Now()), Now(), side)
      ensures eventBuffer == old(eventBuffer) + KickoffTold(Env(), side, t, KickoffRestart)
    {
      hide CastLaw, LogLaw, TimeLaw, TallyLaw, HalfLaw, RecordLaw, HeldBy, Noted, KickedOff, Possession, SeenIn, SeenOf;
      ghost var before := Records();
      KeptMeans(before, t, cfg.home.id);
      StartKickoff(t, side, false);
      KickedOffPlays(old(Now()), Now(), side);
      NotedKeepsFrames(before.book.flow, t, before.book.flow.stage);
      SameStage(before, Records(), t, cfg.home.id);
    }

    /** A restart, once it is due: the goalkeeper on his six-yard line for a goal
        kick, else an outfielder of the side where the ball lies. */
    method TickRestart(t: int)
      requires Ready(t) && phase.AwaitRestart?
      modifies this`players, this`ball, this`phase, rng
      ensures Ready(t) && Restarted(Env(), old(Now()), Now(), [], t)
    {
      hide CastLaw, RecordLaw, Select, InBox, Shape, DistinctIds, SeenIn, SeenOf, Index, IntoBox;
      if t < phase.resumeT {
        AnimateAll(Idle);
        return;
      }
      var taker, spot := PickTaker(phase.restartTeam, phase.restartType);
      PlaceAt(lineUp, players, taker, spot);
      players := players[taker := players[taker].(pos := spot)];
      ball := HeldBy(players, taker);
      phase := Play(phase.restartTeam);
    }

    /** Who takes a restart and where. */
    method PickTaker(side: Side, restartType: Restart) returns (taker: nat, spot: Vec2)
      requires Cast()
      modifies rng
      ensures taker < |players| && players[taker].team == side && players[taker].isOnPitch && InBox(spot)
      ensures restartType == GoalKick ==>
        && Select(players, KeeperOf(side)) != [] && taker == Select(players, KeeperOf(side))[0]
        && spot == GoalKickSpot(side)
      ensures restartType != GoalKick ==>
        && Select(players, OutfieldOf(side)) != []
        && taker == Select(players, OutfieldOf(side))[Index(|Select(players, OutfieldOf(side))|,
                                                          rng.oracle.uniform(old(rng.drawn)))]
        && spot == IntoBox(Vec2(ball.pos.x, ball.pos.y))
      ensures rng.drawn == old(rng.drawn) + 1 && rng.sampled == old(rng.sampled)
    {
      hide CastLaw, Select, InBox, Index;
      CastMeans(lineUp, players, side);
      var candidates := Select(players, OutfieldOf(side));
      var k := rng.IntRange(0, |candidates| - 1);
      assert |candidates| - 1 - 0 + 1 == |candidates|;
      taker, spot := candidates[k], IntoBox(Vec2(ball.pos.x, ball.pos.y));
      if restartType == GoalKick {
        taker := TeamGoalkeeper(side);
        spot := GoalKickSpot(side);
      }
    }

    /** In play: the carrier runs, the others drift, and at most one thing happens. */
    method TickPlay(t: int) returns (ghost told: seq<Event>)
      requires Ready(t) && phase.Play? && maths.Lawful()
      modifies this`players, this`ball, this`phase, this`eventBuffer, this`book, rng
      modifies this`seenTackle, this`seenFoul, this`seenOut
      ensures Ready(t) && eventBuffer == old(eventBuffer) + told
      ensures Carried(old(Now())) && Acted(Env(), Scattered(Env(), Ran(Env(), old(Now()))), Now(), told, t)
    {
      hide CastLaw, RecordLaw, Possession, DistinctIds, Contest, Outcome, AttackingThird, SeenIn, SeenOf, DriftedOn,
        Running;
      ghost var c := Carrying(phase, ball, players);
      RunAndDrift();
      ghost var moved := Now();
      var final := InFinalThird();
      var shoot := false;
      if final {
        shoot := rng.Chance(SHOT_PROB_FINAL_THIRD);
      }
      if shoot {
        told := HaveAGo(t);
      } else {
        told := ContestOrPass(t);
      }
    }

    /** The carrier tries his luck. */
    method HaveAGo(t: int) returns (ghost told: seq<Event>)
      requires Ready(t) && phase.Play?
      modifies this`players, this`ball, this`phase, this`eventBuffer, this`book, rng
      modifies this`seenTackle, this`seenFoul, this`seenOut
      ensures Ready(t) && eventBuffer == old(eventBuffer) + told
      ensures Carried(old(Now())) && Outcome(Env(), Shooting, old(Now()), Now(), told, t)
    {
      hide CastLaw, RecordLaw, Possession, Fired, DistinctIds, SeenIn, SeenOf;
      var _, events := TryShot(t);
      told := events;
    }

    /** Is the carrier in the attacking third? */
    method InFinalThird() returns (final: bool)
      requires Possession(phase, ball, players) && phase.Play?
      ensures Carried(Now())
      ensures final <==> AttackingThird(players[ball.carrier.value].team, players[ball.carrier.value].pos.x)
    {
      var c := players[ball.carrier.value];
      final := if c.team == 0 then c.pos.x > FINAL_THIRD_X else c.pos.x < -FINAL_THIRD_X;
    }

    method RunAndDrift()
      requires Cast() && Possession(phase, ball, players) && phase.Play? && maths.Lawful()
      modifies this`players, this`ball, rng
      ensures Cast() && Possession(phase, ball, players)
      ensures Carried(old(Now())) && Now() == Scattered(Env(), Ran(Env(), old(Now())))
    {
      hide CastLaw, Possession, DriftedOn, Running;
      ghost var c := Carrying(phase, ball, players);
      MoveCarrier();
      DriftOthers();
    }

    /** A tackle, a foul, a ball out of play or a pass, tried in this order until
        one of the dice says yes. */
    method ContestOrPass(t: int) returns (ghost told: seq<Event>)
      requires Ready(t) && phase.Play?
      modifies this`players, this`ball, this`phase, this`eventBuffer, this`book, rng
      modifies this`seenTackle, this`seenFoul, this`seenOut
      ensures Ready(t) && eventBuffer == old(eventBuffer) + told && Carried(old(Now()))
      ensures var attempt := Contest(Env().oracle, old(rng.drawn));
        Outcome(Env(), attempt, old(Now()).(drawn := old(rng.drawn) + Dice(attempt, false)), Now(), told, t)
    {
      hide CastLaw, RecordLaw, Possession, DistinctIds, Tackled, Fouled, PutOut, Passed, SeenIn, SeenOf;
      ghost var c := Carrying(phase, ball, players);
      var tackle := rng.Chance(TACKLE_PROB_PER_TICK);
      if tackle {
        var _, events := TryTackle(t);
        told := events;
        return;
      }
      var foul := rng.Chance(FOUL_PROB_PER_TICK);
      if foul {
        var _, events := TryFoul(t);
        told := events;
        return;
      }
      told := OutOrPass(t);
    }

    method OutOrPass(t: int) returns (ghost told: seq<Event>)
      requires Ready(t) && phase.Play?
      modifies this`players, this`ball, this`phase, this`eventBuffer, this`book, rng
      modifies this`seenTackle, this`seenFoul, this`seenOut
      ensures Ready(t) && eventBuffer == old(eventBuffer) + told && Carried(old(Now()))
      ensures
        var a, n := old(Now()), old(rng.drawn);
        if rng.oracle.uniform(n) < OUT_OF_BOUNDS_PROB_PER_TICK then
          PutOut(Env(), a.(drawn := n + 1), Now(), told, t)
        else if rng.oracle.uniform(n + 1) < PASS_PROB_PER_TICK then
          Passed(Env(), a.(drawn := n + 2), Now(), told, t)
        else NothingHappened(a.(drawn := n + 2), Now(), told)
    {
      hide CastLaw, RecordLaw, Possession, DistinctIds, PutOut, Passed, SeenIn, SeenOf;
      ghost var c := Carrying(phase, ball, players);
      var out := rng.Chance(OUT_OF_BOUNDS_PROB_PER_TICK);
      if out {
        told := TryOutOfBounds(t);
        return;
      }
      var pass := rng.Chance(PASS_PROB_PER_TICK);
      told := [];
      if pass {
        var _, events := TryPass(t);
        told := events;
      }
    }

    // ---------- the tick ----------

    /** What the phase at the start of the tick asks for. */
    method Dispatch(t: int) returns (ghost told: seq<Event>)
      requires Ready(t) && maths.Lawful()
      modifies this`players, this`ball, this`phase, this`eventBuffer, this`book, rng
      modifies this`seenTackle, this`seenFoul, this`seenOut, this`homeScore, this`awayScore
      ensures Ready(t) && eventBuffer == old(eventBuffer) + told
      ensures Dispatched(Env(), old(Now()), Now(), told, t)
    {
      hide CastLaw, RecordLaw, Possession, DistinctIds, SeenIn, SeenOf, Acted, Landed, Arrived, Celebrated, Restarted,
        DriftedOn;
      NotPaused(phase, ball, players);
      told := [];
      match phase
      case Play(_) =>
        told := TickPlay(t);
      case BallInFlight(_, _, _, _, _, _) =>
        DriftOthers();
        TickBallInFlight(t);
      case ShotInFlight(_, _, _, _, _, _, _, _, _) =>
        DriftOthers();
        told := TickShotInFlight(t);
      case Celebrate(_, _) =>
        told := TickCelebrate(t);
      case AwaitRestart(_, _, _) =>
        TickRestart(t);
    }

    /** The half-time whistle, at the first tick not before half of the match:
        the other side kicks off. A shot in flight is lost. */
    method HalfTime(t: int) returns (ghost told: seq<Event>)
      requires Ready(t) && !halftimeFired
      modifies this`players, this`ball, this`phase, this`eventBuffer, this`messages, this`book, rng
      modifies this`seenTackle, this`seenFoul, this`seenOut, this`period, this`halftimeFired, this`cutOff
      ensures Ready(t) && halftimeFired && messages == old(messages) && eventBuffer == old(eventBuffer) + told
      ensures cutOff == old(cutOff) + One(old(phase).ShotInFlight?)
      ensures HalfTimeCalled(Env(), old(Now()), Now(), told, t, openingKickoffTeam)
    {
      hide CastLaw, RecordLaw, LogLaw, TimeLaw, Noted, Possession, KickedOff, DistinctIds, SeenIn, SeenOf, HalfTimeTold,
        KickoffTold;
      ghost var before := Records();
      EndFirstHalf(t);
      KickOffSecondHalf(t, before);
      told := HalfTimeTold(t) + KickoffTold(Env(), 1 - openingKickoffTeam, t, KickoffRestart);
    }

    /** The other side kicks off; a shot in flight is written off. */
    method KickOffSecondHalf(t: int, ghost before: Record)
      requires Cast() && Logged() && TimeLaw(eventBuffer, book.flow, t) && !book.tally.owed && book.tally.scoresRight
      requires RecordLaw(before, t, cfg.home.id) && !before.secondHalf
      requires book.tally == before.book.tally && book.flow.stage == SecondToKick && period == 2
      requires homeScore == before.homeScore && awayScore == before.awayScore && cutOff == before.cutOff
      requires phase.ShotInFlight? == before.inFlight
      modifies this`players, this`ball, this`phase, this`eventBuffer, this`book, this`halftimeFired, this`cutOff, rng
      modifies this`seenTackle, this`seenFoul, this`seenOut
      ensures Cast() && Kept(t) && Possession(phase, ball, players) && halftimeFired
      ensures KickedOff(old(Now()), Now(), 1 - openingKickoffTeam)
      ensures cutOff == old(cutOff) + One(old(phase).ShotInFlight?)
      ensures eventBuffer == old(eventBuffer) + KickoffTold(Env(), 1 - openingKickoffTeam, t, KickoffRestart)
    {
      hide CastLaw, RecordLaw, LogLaw, TimeLaw, Noted, Possession, KickedOff, SeenIn, SeenOf, KickoffTold;
      cutOff := cutOff + One(phase.ShotInFlight?);
      StartKickoff(t, 1 - openingKickoffTeam, false);
      KickedOffPlays(old(Now()), Now(), 1 - openingKickoffTeam);
      halftimeFired := true;
      SecondHalfKept(before, Records(), t, cfg.home.id);
    }

    method EndFirstHalf(t: int)
      requires Kept(t) && !halftimeFired
      modifies this`eventBuffer, this`messages, this`book, this`period, rng
      modifies this`seenTackle, this`seenFoul, this`seenOut
      ensures Logged() && TimeLaw(eventBuffer, book.flow, t) && period == 2 && messages == old(messages)
      ensures !book.tally.owed && book.tally.scoresRight
      ensures book.tally == old(book).tally && book.flow.stage == SecondToKick
      ensures eventBuffer == old(eventBuffer) + HalfTimeTold(t)
      ensures rng.drawn == old(rng.drawn) + 2 && rng.sampled == old(rng.sampled)
    {
      hide LogLaw, TimeLaw, Noted, SeenIn, SeenOf;
      KeptMeans(Records(), t, cfg.home.id);
      FlushNone(t);
      ChangeEnds(t);
      assert book.flow.stage == Noted(old(book).flow, t).(stage := SecondToKick).stage;
    }

    /** Flushing up to just before the tick sends nothing: the whole buffer is of this tick. */
    method FlushNone(t: int)
      requires Logged() && TimeLaw(eventBuffer, book.flow, t)
      modifies this`eventBuffer, this`messages
      ensures eventBuffer == old(eventBuffer) && messages == old(messages)
    {
      hide SeenIn, SeenOf;
      NoneDue(eventBuffer, t - 1);
      FlushEventsThrough(t - 1);
    }

    /** The events that end the first half and start the second. */
    method ChangeEnds(t: int)
      requires Logged() && TimeLaw(eventBuffer, book.flow, t) && !book.tally.owed && book.tally.scoresRight
      requires book.flow.stage == FirstHalf
      modifies this`eventBuffer, this`book, this`period, rng
      modifies this`seenTackle, this`seenFoul, this`seenOut
      ensures Logged() && TimeLaw(eventBuffer, book.flow, t) && period == 2
      ensures book == Book(old(book).tally, Noted(old(book).flow, t).(stage := SecondToKick))
      ensures eventBuffer == old(eventBuffer) + HalfTimeTold(t)
      ensures rng.drawn == old(rng.drawn) + 2 && rng.sampled == old(rng.sampled)
    {
      hide Enter, Read, ReadOn, SeenIn, SeenOf;
      EnterPeriod(book, PeriodEnd(t, 1), cfg.home.id);
      TrackEvent(PeriodEnd(t, 1));
      SayLine(t, PeriodEndLine);
      period := 2;
      EnterPeriod(book, PeriodStart(t, 2), cfg.home.id);
      TrackEvent(PeriodStart(t, 2));
      SayLine(t, PeriodStartLine);
    }

    /** The substitutions that have become due. */
    method Substitutions(t: int) returns (ghost told: seq<Event>)
      requires Ready(t) && nextSubIdx == SubsDue(t - TICK_MS)
      modifies this`players, this`eventBuffer, this`book, this`nextSubIdx, rng
      modifies this`seenTackle, this`seenFoul, this`seenOut
      ensures Ready(t) && nextSubIdx == SubsDue(t) && eventBuffer == old(eventBuffer) + told
      ensures if old(nextSubIdx) == SubsDue(t) then Now() == old(Now()) && told == []
              else SubMade(Env(), old(Now()), Now(), told, t, SUB_SCHEDULE[old(nextSubIdx)].1)
    {
      hide CastLaw, RecordLaw, Possession, SubMade, DistinctIds, SeenIn, SeenOf;
      OneSubAtATime(cfg.matchDurationMs, t);
      told := [];
      while nextSubIdx < |SUB_SCHEDULE| && t >= SUB_SCHEDULE[nextSubIdx].0
        invariant Ready(t) && old(nextSubIdx) <= nextSubIdx <= SubsDue(t) && eventBuffer == old(eventBuffer) + told
        invariant if old(nextSubIdx) == nextSubIdx then Now() == old(Now()) && told == []
                  else SubMade(Env(), old(Now()), Now(), told, t, SUB_SCHEDULE[old(nextSubIdx)].1)
        decreases |SUB_SCHEDULE| - nextSubIdx
      {
        var _, events := TrySubstitution(t, SUB_SCHEDULE[nextSubIdx].1);
        told := events;
        nextSubIdx := nextSubIdx + 1;
      }
    }

    /** In the last minute but for its last five seconds, the first of tackle,
        foul and ball out of play that the match has not seen is told, though
        nothing happens. */
    method ForceCoverage(t: int) returns (ghost told: seq<Event>)
      requires Ready(t)
      modifies this`eventBuffer, this`book, this`seenTackle, this`seenFoul, this`seenOut
      ensures Ready(t) && eventBuffer == old(eventBuffer) + told
      ensures Forced(Env(), players, old(Flags()), told, t)
    {
      hide RecordLaw, Possession, CastLaw, DistinctIds, SeenIn, SeenOf, Select;
      told := [];
      if !(cfg.matchDurationMs - 60_000 < t < cfg.matchDurationMs - 5_000) || (seenTackle && seenFoul && seenOut) {
        return;
      }
      var a := FirstOutfielder(0);
      var b := FirstOutfielder(1);
      var e := if !seenTackle then Tackle(t, a, b, true)
               else if !seenFoul then Foul(t, a, b, Soft)
               else OutOfBounds(t, a, ThrowIn);
      told := [e];
      TrackPlay(t, e);
    }

    method FirstOutfielder(side: Side) returns (id: string)
      requires Cast()
      ensures Select(players, OutfieldOf(side)) != []
      ensures id == players[Select(players, OutfieldOf(side))[0]].id
    {
      CastMeans(lineUp, players, side);
      id := players[Select(players, OutfieldOf(side))[0]].id;
    }

    /** The state frame of a tick. */
    method PushStateFrame(t: int)
      requires Logged() && eventBuffer == [] && OpenAt(book.flow, t) && 100 * book.flow.frames == t
      requires !book.tally.owed && book.tally.scoresRight
      requires Cast() && DistinctIds(lineUp) && Possession(phase, ball, players)
      modifies this`messages, this`book
      ensures Logged() && messages == old(messages) + [State(FrameOf(t, ball, players, period))]
      ensures book == Book(old(book).tally, FrameNoted(old(book).flow, t))
    {
      hide Read, Enter, SeenOf;
      var frame := FrameOf(t, ball, players, period);
      FrameIsLegal(lineUp, t, ball, players, period);
      EnterFrame(book, frame, cfg.home.id);
      ReadOneMore(messages, State(frame), cfg.home.id);
      SeenOneMore(messages, State(frame));
      messages := messages + [State(frame)];
      book := Enter(book, State(frame), cfg.home.id);
    }

    /** What the loop knows at the start of tick `t`. */
    ghost predicate Clocked(t: int)
      reads this
    {
      && 100 * book.flow.frames == t && lastStateT == t - STATE_PERIOD_MS
      && book.flow.lastT <= t && (0 < t ==> book.flow.lastT == t - TICK_MS && book.flow.lastIsFrame)
      && nextSubIdx == SubsDue(t - TICK_MS)
      && halftimeFired == (t - TICK_MS >= HalfDuration(cfg.matchDurationMs))
      && lineUp == CastOf(cfg)
    }

    /** The flush of tick `t` and its frame. */
    method SendFrame(t: int)
      requires Ready(t) && 100 * book.flow.frames == t && lastStateT == t - STATE_PERIOD_MS
      modifies this`eventBuffer, this`messages, this`book, this`lastStateT
      ensures Cast() && Possession(phase, ball, players) && Kept(t + TICK_MS)
      ensures eventBuffer == [] && lastStateT == t && 100 * book.flow.frames == t + TICK_MS
      ensures book.flow.lastT == t && book.flow.lastIsFrame
      ensures messages == old(messages) + Wrap(old(eventBuffer)) + [State(FrameOf(t, ball, players, period))]
    {
      hide CastLaw, LogLaw, FrameOf, TallyLaw, HalfLaw, Possession, SeenIn, SeenOf;
      ghost var before := Records();
      KeptMeans(before, t, cfg.home.id);
      FlushAll(t);
      if t - lastStateT >= STATE_PERIOD_MS - 1 {
        PushStateFrame(t);
        lastStateT := t;
      }
      FrameKept(before, Records(), t, cfg.home.id);
    }

    /** One turn of the main loop: what it dispatched on, how it left things and
        what it told. */
    method Tick(t: int) returns (ghost turn: Turn)
      requires Ready(t) && Clocked(t) && maths.Lawful()
      modifies this, rng
      ensures Ready(t + TICK_MS) && Clocked(t + TICK_MS) && eventBuffer == []
      ensures openingKickoffTeam == old(openingKickoffTeam) && turn.stop == Now()
      ensures TurnLaw(Env(), openingKickoffTeam, old(Now()), turn, SeenIn(SeenOf(old(messages)), old(eventBuffer)), t)
      ensures messages == old(messages) + Wrap(old(eventBuffer) + turn.whistled + turn.told + turn.forced)
                          + [State(FrameOf(t, ball, players, PeriodAt(cfg.matchDurationMs, t)))]
      ensures cutOff == old(cutOff) + One(HalfTimeAt(cfg.matchDurationMs, t) && old(phase).ShotInFlight?)
    {
      hide CastLaw, RecordLaw, Possession, FrameOf, DistinctIds, SubsDue, SeenIn, SeenOf, TurnLaw, CastOf;
      turn := Act(t);
      PeriodKept(Records(), t, cfg.home.id);
      SendFrame(t);
    }

    /** Half-time and the substitutions that are due. */
    method Whistles(t: int) returns (ghost told: seq<Event>)
      requires Ready(t) && nextSubIdx == SubsDue(t - TICK_MS)
      requires halftimeFired == (t - TICK_MS >= HalfDuration(cfg.matchDurationMs))
      modifies this`players, this`ball, this`phase, this`eventBuffer, this`messages, this`book, rng
      modifies this`seenTackle, this`seenFoul, this`seenOut, this`period, this`halftimeFired, this`cutOff,
        this`nextSubIdx
      ensures Ready(t) && nextSubIdx == SubsDue(t) && halftimeFired == (t >= HalfDuration(cfg.matchDurationMs))
      ensures messages == old(messages) && eventBuffer == old(eventBuffer) + told
      ensures Interrupted(Env(), old(Now()), Now(), told, t, openingKickoffTeam)
      ensures cutOff == old(cutOff) + One(HalfTimeAt(cfg.matchDurationMs, t) && old(phase).ShotInFlight?)
    {
      hide CastLaw, RecordLaw, Possession, DistinctIds, SubsDue, SubMade, HalfTimeCalled, SeenIn, SeenOf;
      OneSubAtATime(cfg.matchDurationMs, t);
      told := [];
      if !halftimeFired && t >= HalfDuration(cfg.matchDurationMs) {
        told := HalfTime(t);
      }
      ghost var more := Substitutions(t);
      assert (told == [] ==> told + more == more) && (more == [] ==> told + more == told);
      told := told + more;
    }

    /** Everything a turn does before it sends. */
    method Act(t: int) returns (ghost turn: Turn)
      requires Ready(t) && maths.Lawful() && nextSubIdx == SubsDue(t - TICK_MS) && lineUp == CastOf(cfg)
      requires halftimeFired == (t - TICK_MS >= HalfDuration(cfg.matchDurationMs))
      modifies this`players, this`ball, this`phase, this`eventBuffer, this`messages, this`book
      modifies this`seenTackle, this`seenFoul, this`seenOut, this`homeScore, this`awayScore, rng
      modifies this`period, this`halftimeFired, this`cutOff, this`nextSubIdx
      ensures Ready(t) && turn.stop == Now()
      ensures nextSubIdx == SubsDue(t) && halftimeFired == (t >= HalfDuration(cfg.matchDurationMs))
      ensures messages == old(messages) && book.flow.frames == old(book).flow.frames
      ensures eventBuffer == old(eventBuffer) + turn.whistled + turn.told + turn.forced
      ensures TurnLaw(Env(), openingKickoffTeam, old(Now()), turn, SeenIn(SeenOf(old(messages)), old(eventBuffer)), t)
      ensures cutOff == old(cutOff) + One(HalfTimeAt(cfg.matchDurationMs, t) && old(phase).ShotInFlight?)
    {
      hide RecordLaw, Possession, Read, ReadOn, DistinctIds, HalfTimeAt, SubsDue, HalfDuration, One, SeenIn, SeenOf,
        Interrupted, Dispatched, Forced, CastOf, Conserved, AllFit;
      ghost var was := Now();
      FramesSent(Records(), t, cfg.home.id);
      ghost var whistled := Whistles(t);
      ghost var start := Now();
      ghost var told, forced := GoOn(t);
      FramesSent(Records(), t, cfg.home.id);
      SeenTold(SeenOf(messages), old(eventBuffer), whistled, told);
      turn := Turn(start, Now(), whistled, told, forced);
    }

    /** The dispatch and the events forced after it. */
    method GoOn(t: int) returns (ghost told: seq<Event>, ghost forced: seq<Event>)
      requires Ready(t) && maths.Lawful()
      modifies this`players, this`ball, this`phase, this`eventBuffer, this`book
      modifies this`seenTackle, this`seenFoul, this`seenOut, this`homeScore, this`awayScore, rng
      ensures Ready(t) && eventBuffer == old(eventBuffer) + told + forced
      ensures Dispatched(Env(), old(Now()), Now(), told, t)
      ensures Forced(Env(), players, SeenIn(SeenOf(messages), old(eventBuffer) + told), forced, t)
    {
      hide CastLaw, RecordLaw, Possession, DistinctIds, SeenIn, SeenOf, Dispatched, Forced;
      told := Dispatch(t);
      forced := ForceCoverage(t);
    }

    /** The period start and the opening kickoff. */
    method Open()
      requires Cast() && Logged() && DistinctIds(lineUp) && cfg.home.id != cfg.away.id
      requires book == BLANK && eventBuffer == [] && period == 1 && !halftimeFired && cutOff == 0
      requires lineUp == CastOf(cfg) && Now() == LinedUpStand(Env(), 1)
      modifies this`players, this`ball, this`phase, this`eventBuffer, this`book, this`openingKickoffTeam, rng
      modifies this`seenTackle, this`seenFoul, this`seenOut
      ensures Ready(0) && book.flow.frames == 0 && book.flow.lastT <= 0
      ensures Staged(Scene(Env(), openingKickoffTeam, Now()))
      ensures eventBuffer == OpeningTold(Env(), openingKickoffTeam)
    {
      hide CastLaw, LogLaw, TimeLaw, RecordLaw, Possession, KickedOff, DistinctIds, SeenIn, SeenOf, CastOf, KickoffTold;
      AnnounceStart();
      var heads := rng.Chance(0.5);
      openingKickoffTeam := if heads then 0 else 1;
      assert Now() == LinedUpStand(Env(), 3);
      KickOffFirstHalf();
    }

    method KickOffFirstHalf()
      requires Cast() && Logged() && TimeLaw(eventBuffer, book.flow, 0) && book.tally == BLANK.tally
      requires book.flow.stage == FirstToKick && book.flow.frames == 0 && book.flow.lastT == 0
      requires period == 1 && !halftimeFired && cutOff == 0 && homeScore == 0 && awayScore == 0
      modifies this`players, this`ball, this`phase, this`eventBuffer, this`book, rng
      modifies this`seenTackle, this`seenFoul, this`seenOut
      ensures Cast() && Kept(0) && Possession(phase, ball, players)
      ensures book.flow.frames == 0 && book.flow.lastT <= 0
      ensures KickedOff(old(Now()), Now(), openingKickoffTeam)
      ensures eventBuffer == old(eventBuffer) + KickoffTold(Env(), openingKickoffTeam, 0, KickoffLine)
    {
      hide CastLaw, LogLaw, TimeLaw, TallyLaw, HalfLaw, RecordLaw, Noted, Possession, KickedOff, SeenIn, SeenOf,
        KickoffTold;
      ghost var flow := book.flow;
      StartKickoff(0, openingKickoffTeam, true);
      KickedOffPlays(old(Now()), Now(), openingKickoffTeam);
      NotedKeepsFrames(flow, 0, FirstHalf);
      OpeningKept(Records(), cfg.home.id);
    }

    method AnnounceStart()
      requires Logged() && book == BLANK && eventBuffer == []
      modifies this`eventBuffer, this`book, rng
      modifies this`seenTackle, this`seenFoul, this`seenOut
      ensures Logged() && TimeLaw(eventBuffer, book.flow, 0)
      ensures book.tally == BLANK.tally && !book.tally.owed && book.tally.scoresRight
      ensures book.flow.stage == FirstToKick && book.flow.frames == 0 && book.flow.lastT == 0
      ensures eventBuffer == [PeriodStart(0, 1), Commentary(0, PeriodStartLine)]
      ensures rng.drawn == old(rng.drawn) + 1 && rng.sampled == old(rng.sampled)
    {
      hide Enter, Read, ReadOn, SeenIn, SeenOf;
      EnterPeriod(book, PeriodStart(0, 1), cfg.home.id);
      TrackEvent(PeriodStart(0, 1));
      SayLine(0, PeriodStartLine);
    }

    /** The trace so far explains the stream so far. */
    ghost predicate OnRecord(trace: seq<Turn>, scene: Scene, t: int)
      reads this, rng
    {
      && scene.setting == Env() && scene.opening == openingKickoffTeam && Staged(scene)
      && TICK_MS * |trace| == t && Traced(trace, scene)
      && StandBefore(trace, scene, |trace|) == Now()
      && messages == Narrated(trace, scene) && eventBuffer == OpeningAt(scene, |trace|)
      && cutOff == One(ShotCutOff(trace, scene))
    }

    /** The opening, with an empty trace. */
    method OpenRecord() returns (ghost scene: Scene)
      requires Cast() && Logged() && DistinctIds(lineUp) && cfg.home.id != cfg.away.id && maths.Lawful()
      requires book == BLANK && eventBuffer == [] && period == 1 && !halftimeFired && cutOff == 0
      requires nextSubIdx == 0 && lastStateT == -STATE_PERIOD_MS && messages == [Opening(cfg)]
      requires lineUp == CastOf(cfg) && Now() == LinedUpStand(Env(), 1)
      modifies this`players, this`ball, this`phase, this`eventBuffer, this`book, this`openingKickoffTeam, rng
      modifies this`seenTackle, this`seenFoul, this`seenOut
      ensures Ready(0) && Clocked(0) && OnRecord([], scene, 0)
    {
      hide CastLaw, RecordLaw, Possession, LogLaw, DistinctIds, SubsDue, Staged, SeenIn, SeenOf, CastOf, OpeningTold,
        LinedUpStand, TurnLaw;
      Open();
      scene := Scene(Env(), openingKickoffTeam, Now());
      NoneDueYet();
    }

    /** One turn of the main loop and its entry in the trace. */
    method RecordedTick(t: int, ghost trace: seq<Turn>, ghost scene: Scene) returns (ghost longer: seq<Turn>)
      requires Ready(t) && Clocked(t) && maths.Lawful() && OnRecord(trace, scene, t)
      modifies this, rng
      ensures Ready(t + TICK_MS) && Clocked(t + TICK_MS) && OnRecord(longer, scene, t + TICK_MS)
    {
      hide CastLaw, RecordLaw, Possession, FrameOf, DistinctIds, SubsDue, Traced, ShotCutOff, HalfTimeAt, One, Staged,
        PeriodAt, SeenIn, SeenOf, TurnLaw, Narrated, CastOf, OpeningTold;
      ghost var turn := Tick(t);
      longer := trace + [turn];
      assert trace[..|trace|] == trace;
      TracedOn(trace, turn, scene);
      NarratedOn(trace, turn, scene);
      CutOffCounted(trace, turn, scene);
    }

    /** The end of the run: what the whole stream says. */
    method Finish(t: int, ghost trace: seq<Turn>, ghost scene: Scene)
      requires Ready(t) && Clocked(t) && OnRecord(trace, scene, t)
      requires cfg.matchDurationMs < t <= cfg.matchDurationMs + TICK_MS
      modifies this`eventBuffer, this`messages, this`book, rng
      modifies this`seenTackle, this`seenFoul, this`seenOut
      ensures IsRun(messages, trace, scene)
      ensures Accounted(Read(messages, cfg.home.id), cfg.matchDurationMs,
                        One(ShotCutOff(trace, scene)), trace[|trace| - 1].stop.phase.ShotInFlight?)
    {
      hide CastLaw, RecordLaw, Possession, Read, ReadOn, Traced, ShotCutOff, Accounted, DistinctIds, SubsDue, LogLaw,
        One, Wrap, Staged, Narrated, SeenIn, SeenOf, CastOf, OpeningTold;
      var d := cfg.matchDurationMs;
      ghost var r := Records();
      KeptMeans(r, t, cfg.home.id);
      Close(d);
      LastWhistle(r, t, d, cfg.home.id);
      AllSent(messages, book, cfg.home.id);
    }

    /** The final whistle. */
    method Close(endT: int)
      requires Logged() && eventBuffer == [] && book.flow.lastT <= endT && 0 <= endT
      modifies this`eventBuffer, this`messages, this`book, rng
      modifies this`seenTackle, this`seenFoul, this`seenOut
      ensures Logged() && eventBuffer == []
      ensures messages == old(messages) + Wrap(FinalWhistle(endT))
      ensures book == ReadOn(old(book), FinalWhistle(endT), cfg.home.id)
    {
      hide Enter, Read, ReadOn, LogLaw, SeenIn, SeenOf;
      ghost var b := book;
      TrackEvent(PeriodEnd(endT, 2));
      var _ := rng.Next();
      TrackEvent(Commentary(endT, PeriodEndLine));
      TrackEvent(MatchEnd(endT));
      var _ := rng.Next();
      TrackEvent(Commentary(endT, MatchEndLine));
      WhistleRead(b, endT, cfg.home.id);
      assert eventBuffer == FinalWhistle(endT);
      FlushAll(endT);
    }
  }

  /** The whole run: opening, main loop, final whistle. The trace explains the
      stream tick by tick, and the teams, the duration and the draws decide both. */
  method RunSimulation(cfg: Config, maths: Maths, oracle: Oracle)
    returns (messages: seq<Message>, ghost trace: seq<Turn>, ghost scene: Scene)
    requires cfg.Playable() && maths.Lawful()
    ensures IsRun(messages, trace, scene) && scene.setting == Setting(cfg, maths, oracle)
    ensures WellRun(trace, scene)
    ensures InitFirst(messages) && messages != [] && messages[0] == Opening(cfg)
    ensures AllFramesShow(messages, |StartingXI(cfg.home)| + |StartingXI(cfg.away)|)
    ensures Accounted(Read(messages, cfg.home.id), cfg.matchDurationMs,
                      One(ShotCutOff(trace, scene)), trace[|trace| - 1].stop.phase.ShotInFlight?)
  {
    hide CastLaw, RecordLaw, LogLaw, Possession, Read, OnPitchCount, Traced, ShotCutOff, AllFramesShow, InitFirst,
      Accounted, DistinctIds, SubsDue, FrameOf, Staged, WellRun, IsRun, Narrated, SeenIn, SeenOf, CastOf, OpeningTold,
      LinedUpStand, HalfDuration, Opening;
    var m := new Match(cfg, maths, oracle);
    scene := m.OpenRecord();
    trace := [];
    var t := 0;
    while t <= cfg.matchDurationMs
      invariant m.Ready(t) && m.Clocked(t) && m.cfg == cfg && m.maths == maths && fresh(m) && fresh(m.rng)
      invariant m.rng.oracle == oracle && m.OnRecord(trace, scene, t)
      invariant t <= cfg.matchDurationMs + TICK_MS
      decreases cfg.matchDurationMs + TICK_MS - t
    {
      trace := m.RecordedTick(t, trace, scene);
      t := t + TICK_MS;
    }
    m.Finish(t, trace, scene);
    EveryRun(m.messages, trace, scene);
    RunShows(m.messages, trace, scene);
    messages := m.messages;
  }
}
