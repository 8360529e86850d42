/** The messages of a match stream and the book a reader of the stream keeps. */
module MatchStream {
  import opened Options
  import opened Pitch

  datatype Player = Player(id: string, name: string, number: int, position: string)
  datatype Team = Team(id: string, name: string, primaryKit: string, secondaryKit: string, players: seq<Player>)
  datatype MatchInit = MatchInit(matchId: string, home: Team, away: Team, startTime: string)

  datatype AnimTag =
    | Idle | Walk | Run | Sprint | Kick | PassTag | Header | Shoot | TackleTag | Fall | CelebrateTag | Throw
    | Catch | Dribble | Jump

  datatype PlayerState = PlayerState(id: string, pos: Vec2, facing: real, anim: AnimTag, hasBall: bool, fatigue: real)
  datatype StateFrame = StateFrame(t: int, ballPos: Vec3, ballVel: Vec3, carrier: Option<string>,
                                   players: seq<PlayerState>, period: int)

  datatype Restart = ThrowIn | Corner | GoalKick | FreeKick | Penalty
  datatype Severity = Soft | Yellow | Red

  /** The template banks that commentary is picked from. */
  datatype Bank =
    | KickoffLine | KickoffRestart | YellowCard | OutThrow | OutCorner | OutGoalKick | SubstitutionLine
    | GoalLine | ShotSaved | ShotOffTarget | PeriodStartLine | PeriodEndLine | MatchEndLine

  /** Commentary text is opaque; `bank` names the bank it is picked from. */
  datatype Event =
    | Kickoff(t: int, team: string)
    | Pass(t: int, from: string, to: string, target2: Vec2, success: bool)
    | Shot(t: int, player: string, target3: Vec3, onTarget: bool, saved: bool)
    | Goal(t: int, player: string, team: string)
    | Tackle(t: int, player: string, victim: string, success: bool)
    | Foul(t: int, player: string, victim: string, severity: Severity)
    | Save(t: int, keeper: string)
    | OutOfBounds(t: int, touchedBy: string, restart: Restart)
    | Substitution(t: int, team: string, playerIn: string, playerOut: string)
    | ScoreChange(t: int, home: int, away: int)
    | PeriodStart(t: int, period: int)
    | PeriodEnd(t: int, period: int)
    | MatchEnd(t: int)
    | Commentary(t: int, bank: Bank)

  datatype Message = Init(init: MatchInit) | State(frame: StateFrame) | Ev(event: Event)
  {
    function Time(): int {
      match this
      case Init(_) => 0
      case State(f) => f.t
      case Ev(e) => e.t
    }
  }

  /** What the stream validator asks of the players of a frame, on typed values. */
  predicate PlayersLegal(ps: seq<PlayerState>) {
    && (forall i :: 0 <= i < |ps| ==> 0.0 <= ps[i].fatigue <= 1.0)
    && (forall i, j :: 0 <= i < j < |ps| ==> !(ps[i].hasBall && ps[j].hasBall))
  }

  predicate FrameLegal(f: StateFrame) {
    0 <= f.t && PlayersLegal(f.players)
  }

  predicate EventLegal(e: Event) {
    && 0 <= e.t
    && (e.ScoreChange? ==> 0 <= e.home && 0 <= e.away)
    && (e.PeriodStart? || e.PeriodEnd? ==> 1 <= e.period)
  }

  /** A player marked as having the ball is the ball's carrier. */
  predicate MarksAgree(ps: seq<PlayerState>, carrier: Option<string>) {
    forall i :: 0 <= i < |ps| && ps[i].hasBall ==> carrier == Some(ps[i].id)
  }

  predicate BallMarksAgree(f: StateFrame) {
    MarksAgree(f.players, f.carrier)
  }

  /** How far the match has come, as its period events tell. */
  datatype Stage = Before | FirstToKick | FirstHalf | Interval | SecondToKick | SecondHalf | Whistled | Over | Broken

  function NextStage(s: Stage, e: Event): Stage {
    match e
    case Commentary(_, _) => s
    case PeriodStart(_, p) =>
      if s == Before && p == 1 then FirstToKick else if s == Interval && p == 2 then SecondToKick else Broken
    case PeriodEnd(_, p) =>
      if s == FirstHalf && p == 1 then Interval else if s == SecondHalf && p == 2 then Whistled else Broken
    case MatchEnd(_) => if s == Whistled then Over else Broken
    case Kickoff(_, _) =>
      if s == FirstToKick || s == FirstHalf then FirstHalf
      else if s == SecondToKick || s == SecondHalf then SecondHalf else Broken
    case _ => if s == FirstHalf || s == SecondHalf then s else Broken
  }

  datatype Kind = Shots | Goals | HomeGoals(homeId: string) | Saves | Wides | Frames

  predicate IsA(m: Message, k: Kind) {
    match k
    case Frames => m.State?
    case Shots => m.Ev? && m.event.Shot?
    case Goals => m.Ev? && m.event.Goal?
    case HomeGoals(homeId) => m.Ev? && m.event.Goal? && m.event.team == homeId
    case Saves => m.Ev? && m.event.Save?
    case Wides => m.Ev? && m.event.Commentary? && m.event.bank == ShotOffTarget
  }

  /** What somebody who reads the stream from its start has counted ... */
  datatype Tally = Tally(
    shots: nat, goals: nat, saves: nat, wides: nat, // wides: shots that missed the target
    home: nat, away: nat,                           // goals by side
    owed: bool,                                     // a goal is waiting for its score change
    scoresRight: bool)                              // every score change followed a goal and told the tally

  /** ... and how the stream has run so far. */
  datatype Flow = Flow(
    stage: Stage,
    frames: nat, lastT: int, lastIsFrame: bool,
    ordered: bool,                                  // times never fall; events before their frame; frames on the grid
    legal: bool)                                    // every message passes the validator

  datatype Book = Book(tally: Tally, flow: Flow)

  const BLANK: Book := Book(Tally(0, 0, 0, 0, 0, 0, false, true), Flow(Before, 0, 0, false, true, true))

  function One(p: bool): nat {
    if p then 1 else 0
  }

  predicate Legal(m: Message) {
    match m
    case Init(_) => true
    case State(f) => FrameLegal(f) && BallMarksAgree(f)
    case Ev(e) => EventLegal(e)
  }

  /** May `m` come next in a stream? Only the final whistle may follow the
      frame of its own time. */
  predicate InOrder(f: Flow, m: Message) {
    match m
    case Init(_) => true
    case State(s) => s.t == 100 * f.frames && (f.lastT < s.t || (f.lastT == s.t && !f.lastIsFrame))
    case Ev(e) => f.lastT < e.t || (f.lastT == e.t && (f.lastIsFrame ==> e == PeriodEnd(e.t, 2)))
  }

  /** A score change settles exactly one goal and tells the tally; nothing but
      its commentary comes between the two. */
  predicate ScoreRight(a: Tally, m: Message) {
    if m.Ev? && m.event.ScoreChange? then a.owed && m.event.home == a.home && m.event.away == a.away
    else a.owed ==> m.Ev? && m.event.Commentary?
  }

  function EnterTally(a: Tally, m: Message, homeId: string): Tally {
    if m.Init? then a else
      Tally(a.shots + One(IsA(m, Shots)),
            a.goals + One(IsA(m, Goals)),
            a.saves + One(IsA(m, Saves)),
            a.wides + One(IsA(m, Wides)),
            a.home + One(IsA(m, HomeGoals(homeId))),
            a.away + One(IsA(m, Goals) && !IsA(m, HomeGoals(homeId))),
            if m.Ev? && m.event.ScoreChange? then false else a.owed || IsA(m, Goals),
            a.scoresRight && ScoreRight(a, m))
  }

  function EnterFlow(f: Flow, m: Message): Flow {
    if m.Init? then f else
      Flow(if m.Ev? then NextStage(f.stage, m.event) else f.stage,
           f.frames + One(m.State?),
           m.Time(),
           m.State?,
           f.ordered && InOrder(f, m),
           f.legal && Legal(m))
  }

  function Enter(b: Book, m: Message, homeId: string): Book {
    Book(EnterTally(b.tally, m, homeId), EnterFlow(b.flow, m))
  }

  /** May the stream go on with events of time `t`? */
  predicate OpenAt(f: Flow, t: int) {
    f.ordered && f.legal && 0 <= t && f.lastT <= t && (f.lastT == t ==> !f.lastIsFrame)
  }

  /** Events of open play that touch no tally. */
  predicate OpenPlay(e: Event) {
    e.Pass? || e.Tackle? || e.Foul? || e.OutOfBounds? || e.Substitution?
  }

  /** The flow after a legal event of time `t` that leaves the stage as it is. */
  function Noted(f: Flow, t: int): Flow {
    f.(lastT := t, lastIsFrame := false)
  }

  lemma EnterPlay(b: Book, e: Event, homeId: string)
    requires OpenAt(b.flow, e.t) && !b.tally.owed && b.tally.scoresRight
    requires b.flow.stage == FirstHalf || b.flow.stage == SecondHalf
    requires OpenPlay(e)
    ensures Enter(b, Ev(e), homeId) == Book(b.tally, Noted(b.flow, e.t))
  {
  }

  function FrameNoted(f: Flow, t: int): Flow {
    f.(frames := f.frames + 1, lastT := t, lastIsFrame := true)
  }

  lemma EnterFrame(b: Book, frame: StateFrame, homeId: string)
    requires OpenAt(b.flow, frame.t) && frame.t == 100 * b.flow.frames && !b.tally.owed && b.tally.scoresRight
    requires FrameLegal(frame) && BallMarksAgree(frame)
    ensures Enter(b, State(frame), homeId) == Book(b.tally, FrameNoted(b.flow, frame.t))
  {
  }

  lemma EnterShot(b: Book, e: Event, homeId: string)
    requires OpenAt(b.flow, e.t) && !b.tally.owed && b.tally.scoresRight
    requires b.flow.stage == FirstHalf || b.flow.stage == SecondHalf
    requires e.Shot?
    ensures Enter(b, Ev(e), homeId) == Book(b.tally.(shots := b.tally.shots + 1), Noted(b.flow, e.t))
  {
  }

  lemma EnterSave(b: Book, e: Event, homeId: string)
    requires OpenAt(b.flow, e.t) && !b.tally.owed && b.tally.scoresRight
    requires b.flow.stage == FirstHalf || b.flow.stage == SecondHalf
    requires e.Save?
    ensures Enter(b, Ev(e), homeId) == Book(b.tally.(saves := b.tally.saves + 1), Noted(b.flow, e.t))
  {
  }

  lemma EnterWide(b: Book, t: int, homeId: string)
    requires OpenAt(b.flow, t) && b.tally.scoresRight
    ensures Enter(b, Ev(Commentary(t, ShotOffTarget)), homeId)
         == Book(b.tally.(wides := b.tally.wides + 1), Noted(b.flow, t))
  {
  }

  /** A kickoff opens a half or goes on with it. */
  lemma EnterKickoff(b: Book, t: int, team: string, homeId: string)
    requires OpenAt(b.flow, t) && !b.tally.owed && b.tally.scoresRight
    requires b.flow.stage in {FirstToKick, FirstHalf, SecondToKick, SecondHalf}
    ensures Enter(b, Ev(Kickoff(t, team)), homeId)
         == Book(b.tally, Noted(b.flow, t).(
                   stage := if b.flow.stage in {FirstToKick, FirstHalf} then FirstHalf else SecondHalf))
  {
  }

  /** A period event, at the stage it belongs to. */
  lemma EnterPeriod(b: Book, e: Event, homeId: string)
    requires OpenAt(b.flow, e.t) && !b.tally.owed && b.tally.scoresRight
    requires (e.PeriodStart? || e.PeriodEnd?) && 1 <= e.period
    ensures Enter(b, Ev(e), homeId) == Book(b.tally, Noted(b.flow, e.t).(stage := NextStage(b.flow.stage, e)))
  {
  }

  /** A goal, its line and its score change, taken together. */
  lemma EnterGoal(b: Book, t: int, player: string, team: string, homeId: string)
    requires OpenAt(b.flow, t) && !b.tally.owed && b.tally.scoresRight
    requires b.flow.stage == FirstHalf || b.flow.stage == SecondHalf
    ensures var home := b.tally.home + One(team == homeId);
      var away := b.tally.away + One(team != homeId);
      var b1 := Enter(b, Ev(Goal(t, player, team)), homeId);
      var b2 := Enter(b1, Ev(Commentary(t, GoalLine)), homeId);
      Enter(b2, Ev(ScoreChange(t, home, away)), homeId)
        == Book(b.tally.(goals := b.tally.goals + 1, home := home, away := away), Noted(b.flow, t))
  {
  }

  lemma EnterLine(b: Book, t: int, bank: Bank, homeId: string)
    requires OpenAt(b.flow, t) && b.tally.scoresRight && bank != ShotOffTarget
    ensures Enter(b, Ev(Commentary(t, bank)), homeId) == Book(b.tally, Noted(b.flow, t))
  {
  }

  /** The book after reading the whole stream. */
  function Read(log: seq<Message>, homeId: string): Book {
    if log == [] then BLANK else Enter(Read(log[..|log| - 1], homeId), log[|log| - 1], homeId)
  }

  lemma ReadOneMore(log: seq<Message>, m: Message, homeId: string)
    ensures Read(log + [m], homeId) == Enter(Read(log, homeId), m, homeId)
  {
    assert (log + [m])[..|log|] == log;
  }

  /** The book after reading on through some events. */
  function ReadOn(b: Book, evs: seq<Event>, homeId: string): Book {
    if evs == [] then b else Enter(ReadOn(b, evs[..|evs| - 1], homeId), Ev(evs[|evs| - 1]), homeId)
  }

  lemma ReadOnOneMore(b: Book, evs: seq<Event>, e: Event, homeId: string)
    ensures ReadOn(b, evs + [e], homeId) == Enter(ReadOn(b, evs, homeId), Ev(e), homeId)
  {
    assert (evs + [e])[..|evs|] == evs;
  }

  lemma {:induction false} EventsAreNoFrames(b: Book, evs: seq<Event>, homeId: string)
    ensures ReadOn(b, evs, homeId).flow.frames == b.flow.frames
  {
    if evs != [] {
      EventsAreNoFrames(b, evs[..|evs| - 1], homeId);
    }
  }

  /** Events as messages. */
  function Wrap(evs: seq<Event>): seq<Message> {
    if evs == [] then [] else Wrap(evs[..|evs| - 1]) + [Ev(evs[|evs| - 1])]
  }

  lemma WrapOneMore(evs: seq<Event>, e: Event)
    ensures Wrap(evs + [e]) == Wrap(evs) + [Ev(e)]
  {
    assert (evs + [e])[..|evs|] == evs;
  }

  lemma {:induction false} ReadOnIsRead(log: seq<Message>, evs: seq<Event>, homeId: string)
    ensures Read(log + Wrap(evs), homeId) == ReadOn(Read(log, homeId), evs, homeId)
  {
    if evs == [] {
      assert log + Wrap(evs) == log;
    } else {
      var n := |evs| - 1;
      ReadOnIsRead(log, evs[..n], homeId);
      assert log + Wrap(evs) == (log + Wrap(evs[..n])) + [Ev(evs[n])];
      ReadOneMore(log + Wrap(evs[..n]), Ev(evs[n]), homeId);
    }
  }

  ghost predicate InitFirst(log: seq<Message>) {
    forall k :: 0 < k < |log| ==> !log[k].Init?
  }

  predicate Final(s: Stage) {
    s == Whistled || s == Over || s == Broken
  }

  /** What one entry says about time. */
  lemma EnterTime(f: Flow, m: Message)
    requires !m.Init?
    ensures var f' := EnterFlow(f, m);
      && f'.lastT == m.Time() && f'.lastIsFrame == m.State?
      && (f'.ordered ==> f.ordered && f.lastT <= m.Time())
      && (f'.ordered && m.Ev? && f.lastIsFrame && f.lastT == m.Time() ==> Final(f'.stage))
      && (Final(f.stage) ==> Final(f'.stage))
      && (f'.ordered && m.State? && f.lastT == m.Time() ==> !f.lastIsFrame)
  {
  }

  /** A book in order means a stream in order: times never fall, and an event
      that follows the frame of its own time belongs to the final whistle. */
  lemma {:induction false} OrderedMeansSorted(log: seq<Message>, homeId: string, i: nat, j: nat)
    requires Read(log, homeId).flow.ordered && InitFirst(log)
    requires 0 < i < j < |log|
    ensures log[i].Time() <= log[j].Time() == Read(log[..j + 1], homeId).flow.lastT
    ensures log[i].State? && log[j].Ev? && log[i].Time() == log[j].Time()
      ==> Final(Read(log[..j + 1], homeId).flow.stage)
    decreases |log|
  {
    var n := |log| - 1;
    var front := log[..n];
    EnterTime(Read(front, homeId).flow, log[n]);
    if j < n {
      OrderedMeansSorted(front, homeId, i, j);
      assert front[..j + 1] == log[..j + 1];
    } else {
      assert log[..j + 1] == log;
      LastEntry(front, homeId);
      if i < j - 1 {
        OrderedMeansSorted(front, homeId, i, j - 1);
        assert front[..j] == front;
      }
    }
  }

  lemma LastEntry(log: seq<Message>, homeId: string)
    requires 1 < |log| && InitFirst(log)
    ensures Read(log, homeId).flow.lastT == log[|log| - 1].Time()
    ensures Read(log, homeId).flow.lastIsFrame == log[|log| - 1].State?
  {
    EnterTime(Read(log[..|log| - 1], homeId).flow, log[|log| - 1]);
  }

  /** Frames are exactly the grid 0, 100, 200, ... */
  lemma {:induction false} FramesOnGrid(log: seq<Message>, homeId: string, i: nat)
    requires Read(log, homeId).flow.ordered
    requires i < |log| && log[i].State?
    ensures log[i].frame.t == 100 * Read(log[..i], homeId).flow.frames
  {
    var n := |log| - 1;
    if i < n {
      FramesOnGrid(log[..n], homeId, i);
      assert log[..n][..i] == log[..i];
    }
  }

  /** Every score change tells the goals of each side so far. */
  lemma {:induction false} ScoresTold(log: seq<Message>, homeId: string, i: nat)
    requires Read(log, homeId).tally.scoresRight
    requires i < |log| && log[i].Ev? && log[i].event.ScoreChange?
    ensures log[i].event.home == Read(log[..i], homeId).tally.home
    ensures log[i].event.away == Read(log[..i], homeId).tally.away
  {
    var n := |log| - 1;
    if i < n {
      ScoresTold(log[..n], homeId, i);
      assert log[..n][..i] == log[..i];
    }
  }

  function Count(log: seq<Message>, k: Kind): nat {
    if log == [] then 0 else Count(log[..|log| - 1], k) + if IsA(log[|log| - 1], k) then 1 else 0
  }

  /** The tallies of the book are counts over the stream. */
  lemma {:induction false} TalliesAreCounts(log: seq<Message>, homeId: string)
    ensures var a := Read(log, homeId).tally;
      && a.shots == Count(log, Shots) && a.saves == Count(log, Saves) && a.wides == Count(log, Wides)
      && a.goals == Count(log, Goals) && a.home == Count(log, HomeGoals(homeId)) && a.home + a.away == a.goals
    ensures Read(log, homeId).flow.frames == Count(log, Frames)
  {
    if log != [] {
      TalliesAreCounts(log[..|log| - 1], homeId);
    }
  }

  /** Legal books hold only messages the validator accepts. */
  lemma {:induction false} LegalMeansAllLegal(log: seq<Message>, homeId: string, i: nat)
    requires Read(log, homeId).flow.legal && i < |log|
    ensures log[i].State? ==> FrameLegal(log[i].frame) && BallMarksAgree(log[i].frame)
    ensures log[i].Ev? ==> EventLegal(log[i].event)
  {
    if i < |log| - 1 {
      LegalMeansAllLegal(log[..|log| - 1], homeId, i);
    }
  }
}
