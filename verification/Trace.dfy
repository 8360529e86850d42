/** What a run of the simulator leaves behind, tick by tick, and what follows
    from how one tick leads to the next. */
module Trace {
  import opened Options
  import opened Numerics
  import opened Pitch
  import opened MatchStream
  import opened Squad
  import opened Simulation
  import opened Rules

  /** One tick: how things stood when it dispatched on the phase and at its end,
      and the events before the dispatch, from it and forced after it. */
  datatype Turn = Turn(start: Stand, stop: Stand, whistled: seq<Event>, told: seq<Event>, forced: seq<Event>)

  /** What a run is given, which side opens it and how things stand then. */
  datatype Scene = Scene(setting: Setting, opening: Side, kickoff: Stand)
  {
    function Duration(): nat {
      setting.cfg.matchDurationMs
    }

    function Cast(): seq<PlayerSim> {
      CastOf(setting.cfg)
    }
  }

  /** Before the kickoff: the rosters lined up, the ball on the centre spot. */
  function LinedUpStand(e: Setting, drawn: nat): Stand {
    Stand(Play(if e.oracle.uniform(0) < 0.5 then 0 else 1), Ball(Vec3(0.0, 0.0, 0.0), Vec3(0.0, 0.0, 0.0), None),
          CastOf(e.cfg), 0, 0, drawn, 0)
  }

  /** The third draw decides who opens, and the match has been kicked off. */
  ghost predicate Staged(scene: Scene) {
    && scene.opening == (if scene.setting.oracle.uniform(2) < 0.5 then 0 else 1)
    && KickedOff(LinedUpStand(scene.setting, 3), scene.kickoff, scene.opening)
  }

  // ---------- the stream of a trace ----------

  function OpeningAt(scene: Scene, k: nat): seq<Event> {
    if k == 0 then OpeningTold(scene.setting, scene.opening) else []
  }

  /** The events of tick `k` and then its frame. */
  function Report(scene: Scene, turn: Turn, k: nat): seq<Message> {
    Wrap(OpeningAt(scene, k) + turn.whistled + turn.told + turn.forced)
    + [State(FrameOf(TICK_MS * k, turn.stop.ball, turn.stop.players, PeriodAt(scene.Duration(), TICK_MS * k)))]
  }

  function Narrated(trace: seq<Turn>, scene: Scene): seq<Message> {
    if trace == [] then [Opening(scene.setting.cfg)]
    else
      var n := |trace| - 1;
      Narrated(trace[..n], scene) + Report(scene, trace[n], n)
  }

  lemma NarratedOn(trace: seq<Turn>, turn: Turn, scene: Scene)
    ensures Narrated(trace + [turn], scene) == Narrated(trace, scene) + Report(scene, turn, |trace|)
  {
    assert (trace + [turn])[..|trace|] == trace;
  }

  /** Which of the three events a reader has seen. */
  function SeenOf(ms: seq<Message>): Seen {
    if ms == [] then Seen(false, false, false)
    else
      var front, last := SeenOf(ms[..|ms| - 1]), ms[|ms| - 1];
      if last.Ev? then SeenAfter(front, last.event) else front
  }

  lemma SeenOneMore(ms: seq<Message>, m: Message)
    ensures SeenOf(ms + [m]) == if m.Ev? then SeenAfter(SeenOf(ms), m.event) else SeenOf(ms)
  {
    assert (ms + [m])[..|ms|] == ms;
  }

  lemma SeenInOneMore(s: Seen, evs: seq<Event>, e: Event)
    ensures SeenIn(s, evs + [e]) == SeenAfter(SeenIn(s, evs), e)
  {
    assert (evs + [e])[..|evs|] == evs;
  }

  lemma {:induction false} SeenTogether(s: seq<Message>, evs: seq<Event>)
    ensures SeenOf(s + Wrap(evs)) == SeenIn(SeenOf(s), evs)
  {
    if evs == [] {
      assert s + Wrap(evs) == s;
    } else {
      var n := |evs| - 1;
      SeenTogether(s, evs[..n]);
      assert s + Wrap(evs) == s + Wrap(evs[..n]) + [Ev(evs[n])];
      SeenOneMore(s + Wrap(evs[..n]), Ev(evs[n]));
    }
  }

  lemma {:induction false} SeenInBoth(s: Seen, a: seq<Event>, b: seq<Event>)
    ensures SeenIn(s, a + b) == SeenIn(SeenIn(s, a), b)
  {
    if b == [] {
      assert a + b == a;
    } else {
      var n := |b| - 1;
      SeenInBoth(s, a, b[..n]);
      assert a + b == a + b[..n] + [b[n]];
      SeenInOneMore(s, a + b[..n], b[n]);
    }
  }

  // ---------- the law of a trace ----------

  /** Possession is coherent, the squads of the cast are conserved and everybody
      is fit. */
  ghost predicate Coherent(a: Stand, cast: seq<PlayerSim>) {
    Possession(a.phase, a.ball, a.players) && Conserved(cast, a.players) && AllFit(a.players)
  }

  /** A turn at time `t`, after the stand `prev` and with `seen` told before it. */
  ghost predicate TurnLaw(e: Setting, opening: Side, prev: Stand, turn: Turn, seen: Seen, t: int)
    requires e.maths.Lawful()
  {
    && Interrupted(e, prev, turn.start, turn.whistled, t, opening)
    && Coherent(turn.start, CastOf(e.cfg))
    && Dispatched(e, turn.start, turn.stop, turn.told, t)
    && Coherent(turn.stop, CastOf(e.cfg))
    && Forced(e, turn.stop.players, SeenIn(seen, turn.whistled + turn.told), turn.forced, t)
  }

  /** How things stood before tick `k`. */
  function StandBefore(trace: seq<Turn>, scene: Scene, k: nat): Stand
    requires k <= |trace|
  {
    if k == 0 then scene.kickoff else trace[k - 1].stop
  }

  function SeenBefore(trace: seq<Turn>, scene: Scene, k: nat): Seen
    requires k <= |trace|
  {
    SeenIn(SeenOf(Narrated(trace[..k], scene)), OpeningAt(scene, k))
  }

  /** Tick `k` of a trace keeps the law. */
  ghost predicate Lawful(trace: seq<Turn>, scene: Scene, k: nat)
    requires scene.setting.maths.Lawful()
  {
    && k < |trace|
    && TurnLaw(scene.setting, scene.opening, StandBefore(trace, scene, k), trace[k], SeenBefore(trace, scene, k),
               TICK_MS * k)
  }

  /** Each tick follows from the one before, and every tick keeps the laws of the game. */
  ghost predicate Traced(trace: seq<Turn>, scene: Scene) {
    scene.setting.maths.Lawful() && forall k: nat :: k < |trace| ==> Lawful(trace, scene, k)
  }

  /** A whole run: the stream tells the trace of its ticks and then the final whistle. */
  ghost predicate IsRun(messages: seq<Message>, trace: seq<Turn>, scene: Scene) {
    && Staged(scene) && Traced(trace, scene)
    && |trace| == scene.Duration() / TICK_MS + 1
    && messages == Narrated(trace, scene) + Wrap(FinalWhistle(scene.Duration()))
  }

  lemma TracedOn(trace: seq<Turn>, turn: Turn, scene: Scene)
    requires Traced(trace, scene)
    requires TurnLaw(scene.setting, scene.opening, StandBefore(trace, scene, |trace|), turn,
                     SeenBefore(trace, scene, |trace|), TICK_MS * |trace|)
    ensures Traced(trace + [turn], scene)
    ensures StandBefore(trace + [turn], scene, |trace| + 1) == turn.stop
  {
    hide TurnLaw, Narrated, SeenOf, SeenIn;
    var more := trace + [turn];
    forall k: nat | k < |more|
      ensures Lawful(more, scene, k)
    {
      assert more[..k] == trace[..k];
      if k < |trace| {
        assert Lawful(trace, scene, k);
      }
    }
  }

  // ---------- what a phase may become ----------

  /** What a phase may have become by the end of the tick at time `t`. */
  predicate Follows(was: Phase, now: Phase, t: int) {
    match was
    case Play(side) =>
      || now.Play?
      || (now.BallInFlight? && now.possessing == side && now.startT == t && 500 <= now.arrivalT - t <= 1500)
      || (now.ShotInFlight? && now.possessing == side && now.startT == t && 600 <= now.arrivalT - t <= 1500)
      || (now.AwaitRestart? && now.resumeT == t + 1500
          && now.restartTeam == if now.restartType == FreeKick then side else 1 - side)
    case BallInFlight(_, _, _, arrivalT, _, _) => if t < arrivalT then now == was else now.Play?
    case ShotInFlight(side, _, _, _, arrivalT, _, _, willGoal, _) =>
      if t < arrivalT then now == was
      else if willGoal then now == Celebrate(t + 5000, 1 - side)
      else now == AwaitRestart(t + 2000, 1 - side, GoalKick)
    case Celebrate(resumeT, side) => if t < resumeT then now == was else now == Play(side)
    case AwaitRestart(resumeT, side, _) => if t < resumeT then now == was else now == Play(side)
    case HalftimePaused(_) => false
  }

  /** Drifting changes no shape. */
  lemma ScatteredShapes(e: Setting, a: Stand)
    requires e.maths.Lawful()
    ensures SameShapes(a.players, Scattered(e, a).players)
  {
    hide DriftTarget, IntoBox, MoveToward, Dist;
  }

  lemma ShapeOf(ps: seq<PlayerSim>, qs: seq<PlayerSim>, i: nat)
    requires SameShapes(ps, qs) && i < |ps|
    ensures ps[i].team == qs[i].team && ps[i].isGK == qs[i].isGK && ps[i].isOnPitch == qs[i].isOnPitch
  {
    SameShapeMeans(ps[i], qs[i]);
  }

  /** The carrier after everybody has moved. */
  lemma CarrierMoved(e: Setting, a: Stand)
    requires e.maths.Lawful() && Carried(a)
    ensures var m := Scattered(e, Ran(e, a)); var c := a.ball.carrier.value;
      && m.ball.carrier == Some(c) && m.phase == a.phase && |m.players| == |a.players|
      && m.players[c] == Ran(e, a).players[c] && m.players[c].team == a.players[c].team
  {
    hide Stretch, CarrierNext, AngleTo;
    assert !Drifts(Ran(e, a), a.ball.carrier.value);
  }

  lemma PassFollows(e: Setting, a: Stand, b: Stand, told: seq<Event>, t: int)
    requires Carried(a) && Passed(e, a, b, told, t)
    requires a.phase == Play(a.players[a.ball.carrier.value].team)
    ensures Follows(a.phase, b.phase, t)
  {
    hide TeamMates, RankedTargets, Gap, Round;
    if TeamMates(a.players, a.ball.carrier.value) != [] {
      var to: nat, flightMs :| PassedTo(e, a, b, told, t, to, flightMs);
    }
  }

  lemma ActFollows(e: Setting, m: Stand, b: Stand, told: seq<Event>, t: int)
    requires Carried(m) && Acted(e, m, b, told, t) && m.phase == Play(m.players[m.ball.carrier.value].team)
    ensures Follows(m.phase, b.phase, t)
  {
    hide Nearest, Gap, Select, Passed, GoalDistance, ShotAim;
    var p := m.players[m.ball.carrier.value];
    var attempt := Tried(e.oracle, m.drawn, AttackingThird(p.team, p.pos.x));
    var a := m.(drawn := m.drawn + Dice(attempt, AttackingThird(p.team, p.pos.x)));
    match attempt
    case Passing => PassFollows(e, a, b, told, t);
    case _ =>
  }

  lemma DispatchFollows(e: Setting, a: Stand, b: Stand, told: seq<Event>, t: int)
    requires e.maths.Lawful() && Possession(a.phase, a.ball, a.players) && Dispatched(e, a, b, told, t)
    ensures Follows(a.phase, b.phase, t)
  {
    hide Acted, Select, DriftedOn, Running, SameShapes, ShotPosition, PassPosition;
    match a.phase
    case Play(_) =>
      CarrierMoved(e, a);
      ActFollows(e, Scattered(e, Ran(e, a)), b, told, t);
    case ShotInFlight(_, shooter, keeper, _, _, _, _, _, _) =>
      ScatteredShapes(e, a);
      ShapeOf(a.players, Scattered(e, a).players, shooter);
      ShapeOf(a.players, Scattered(e, a).players, keeper);
    case _ =>
  }

  /** The phase a tick dispatches on: the one found or, at half-time, the other
      side has kicked off. */
  function DispatchedAt(was: Phase, scene: Scene, t: int): Phase {
    if HalfTimeAt(scene.Duration(), t) then Play(1 - scene.opening) else was
  }

  lemma TurnFollows(trace: seq<Turn>, scene: Scene, k: nat)
    requires Traced(trace, scene) && k < |trace|
    ensures trace[k].start.phase == DispatchedAt(StandBefore(trace, scene, k).phase, scene, TICK_MS * k)
    ensures Follows(trace[k].start.phase, trace[k].stop.phase, TICK_MS * k)
  {
    hide Dispatched, Possession, Conserved, AllFit, Follows, SeenIn, Forced, HalfTimeAt, SubsDue, Select, Substituted,
      SubstitutionTold, IsStriker, Formed;
    assert Lawful(trace, scene, k);
    DispatchFollows(scene.setting, trace[k].start, trace[k].stop, trace[k].told, TICK_MS * k);
  }

  // ---------- play resumes ----------

  /** When a phase other than play must end, counted from the tick that left
      play, and that it has not ended before time `t`. */
  predicate Pending(phase: Phase, leftAt: int, t: int) {
    match phase
    case Play(_) => false
    case BallInFlight(_, _, _, arrivalT, _, _) => t - TICK_MS < arrivalT <= leftAt + 1500
    case ShotInFlight(_, _, _, _, arrivalT, _, _, _, _) => t - TICK_MS < arrivalT <= leftAt + 1500
    case Celebrate(resumeT, _) => t - TICK_MS < resumeT <= leftAt + 6500
    case AwaitRestart(resumeT, _, _) => t - TICK_MS < resumeT <= leftAt + 3500
    case HalftimePaused(_) => false
  }

  /** One more tick of waiting. */
  lemma StillPending(was: Phase, now: Phase, leftAt: int, t: int)
    requires Pending(was, leftAt, t) && Follows(was, now, t) && !now.Play?
    requires leftAt % TICK_MS == 0 && t % TICK_MS == 0
    ensures Pending(now, leftAt, t + TICK_MS)
  {
  }

  lemma OpensInPlay(scene: Scene)
    requires Staged(scene)
    ensures scene.kickoff.phase == Play(scene.opening)
  {
    hide IsStriker, Formed;
  }

  /** Out of play after tick `k`, play was left at some tick `j` from which the
      phase has still to end in time. */
  lemma {:induction false} PlayWasLeft(trace: seq<Turn>, scene: Scene, k: nat) returns (j: nat)
    requires Staged(scene) && Traced(trace, scene) && k < |trace| && !trace[k].stop.phase.Play?
    ensures j <= k && trace[j].start.phase.Play?
    ensures Pending(trace[k].stop.phase, TICK_MS * j, TICK_MS * (k + 1))
  {
    hide HalfTimeAt, Traced, Staged;
    TurnFollows(trace, scene, k);
    if trace[k].start.phase.Play? {
      j := k;
    } else {
      OpensInPlay(scene);
      j := PlayWasLeft(trace, scene, k - 1);
      StillPending(trace[k].start.phase, trace[k].stop.phase, TICK_MS * j, TICK_MS * k);
    }
  }

  predicate InPlay(turn: Turn) {
    turn.start.phase.Play? || turn.stop.phase.Play?
  }

  /** From any other phase play resumes within 6500 ms: among any 65 ticks in a
      row that end with tick `k` there is one in play. */
  lemma PlayResumes(trace: seq<Turn>, scene: Scene, k: nat) returns (j: nat)
    requires Staged(scene) && Traced(trace, scene) && k < |trace|
    ensures j <= k <= j + 64 && InPlay(trace[j])
  {
    hide Traced, Staged;
    if InPlay(trace[k]) {
      j := k;
    } else {
      j := PlayWasLeft(trace, scene, k);
    }
  }

  /** Among the 65 ticks up to tick `k` there is one in play. */
  ghost predicate SeenPlay(trace: seq<Turn>, k: nat) {
    exists j :: 0 <= j <= k && k <= j + 64 && j < |trace| && InPlay(trace[j])
  }

  // ---------- who is moved by hand ----------

  function OnPitch(ps: seq<PlayerSim>): set<nat> {
    set i | 0 <= i < |ps| && ps[i].isOnPitch
  }

  /** The men who came on between the two. */
  function CameOn(ps: seq<PlayerSim>, qs: seq<PlayerSim>): set<nat>
    requires |ps| == |qs|
  {
    set i | 0 <= i < |ps| && !ps[i].isOnPitch && qs[i].isOnPitch
  }

  ghost predicate AtMostOne(s: set<nat>) {
    forall i, j :: i in s && j in s ==> i == j
  }

  /** Nobody comes on or goes off but when a substitution is due, and then one
      man at most comes on. */
  ghost predicate ComeOnWhenDue(ps: seq<PlayerSim>, qs: seq<PlayerSim>, t: int)
    requires |ps| == |qs|
  {
    && (SubsDue(t) == SubsDue(t - TICK_MS) ==> OnPitch(ps) == OnPitch(qs) && CameOn(ps, qs) == {})
    && AtMostOne(CameOn(ps, qs))
  }

  /** Those repositioned by the phase itself: everybody on the pitch for the
      kickoff after a celebration, the taker of a restart that is due. */
  function PlacedByPhase(was: Phase, ball: Ball, ps: seq<PlayerSim>, t: int): set<nat> {
    match was
    case Celebrate(resumeT, _) => if resumeT <= t then OnPitch(ps) else {}
    case AwaitRestart(resumeT, _, _) => if resumeT <= t && ball.carrier.Some? then {ball.carrier.value} else {}
    case _ => {}
  }

  /** Those repositioned in a tick: at half-time everybody who was on the pitch,
      a man coming on, and whom the phase places. */
  function Repositioned(ps: seq<PlayerSim>, turn: Turn, d: nat, t: int): set<nat>
    requires |ps| == |turn.stop.players|
  {
    (if HalfTimeAt(d, t) then OnPitch(ps) else {})
    + CameOn(ps, turn.stop.players)
    + PlacedByPhase(turn.start.phase, turn.stop.ball, turn.stop.players, t)
  }

  /** Everybody else moves at most 0.7 m. */
  ghost predicate MovesWell(ps: seq<PlayerSim>, turn: Turn, d: nat, t: int) {
    && |ps| == |turn.stop.players|
    && ComeOnWhenDue(ps, turn.stop.players, t)
    && forall i :: 0 <= i < |ps| && i !in Repositioned(ps, turn, d, t) ==> Stride(ps[i], turn.stop.players[i])
  }

  /** Everybody but those placed strides, and nobody enters or leaves the pitch. */
  ghost predicate StrodeBut(ps: seq<PlayerSim>, qs: seq<PlayerSim>, placed: set<nat>) {
    && |ps| == |qs|
    && forall i :: 0 <= i < |ps| ==> ps[i].isOnPitch == qs[i].isOnPitch && (i !in placed ==> Stride(ps[i], qs[i]))
  }

  ghost predicate SamePlaces(ps: seq<PlayerSim>, qs: seq<PlayerSim>) {
    |ps| == |qs| && forall i :: 0 <= i < |ps| ==> ps[i].pos == qs[i].pos && ps[i].isOnPitch == qs[i].isOnPitch
  }

  lemma CarrierStride(m: Maths, from: Vec2, angle: real, step: real)
    requires m.Lawful() && InBox(from) && 0.0 <= step <= 0.7
    ensures DistSq(from, CarrierNext(m, from, angle, step)) <= STRIDE_SQ
  {
    hide DistSq, CarrierNext;
    CarrierStep(m, from, angle, step);
    SquareMonotone(step, 0.7);
  }

  lemma RunStride(m: Maths, a: Stand, c: nat, angle: real, speed: real)
    requires m.Lawful() && c < |a.players| && InBox(a.players[c].pos) && 0.0 <= speed <= 7.0
    ensures Stride(a.players[c], Running(m, a, c, angle, speed).players[c])
  {
    hide DistSq, CarrierNext;
    CarrierStride(m, a.players[c].pos, angle, speed / 10.0);
  }

  /** A drifting man strides and stays fit. */
  lemma DriftStrides(e: Setting, a: Stand, i: nat)
    requires e.maths.Lawful() && i < |a.players| && Fit(a.players[i])
    ensures var q := DriftedOn(e, a, i);
      Fit(q) && Stride(a.players[i], q) && q.isOnPitch == a.players[i].isOnPitch
  {
    hide Drifted, Fit, InBox, Stride, DriftTarget, Stretch;
    if Drifts(a, i) {
      DriftFits(e, a, i, Drifters(a.players[..i], a.ball.carrier));
    } else {
      StoodStill(a.players[i]);
    }
  }

  lemma StoodStill(p: PlayerSim)
    ensures Stride(p, p)
  {
  }

  lemma DriftFits(e: Setting, a: Stand, i: nat, k: nat)
    requires e.maths.Lawful() && i < |a.players| && Fit(a.players[i]) && a.players[i].isOnPitch
    ensures var q := Drift(e, a, i, k); Fit(q) && Stride(a.players[i], q) && Shape(q) == Shape(a.players[i])
    ensures Drift(e, a, i, k).isOnPitch
  {
    hide Drifted, Fit, InBox, Stride, DriftTarget;
    var aim := DriftTarget(a.players[i], Possessing(a.phase), CarrierPos(a));
    var x, y := 0.4 * e.oracle.gauss(a.sampled + 2 * k), 0.4 * e.oracle.gauss(a.sampled + 2 * k + 1);
    var u := e.oracle.uniform(a.drawn + k);
    DriftedFit(e.maths, a.players[i], IntoBox(Vec2(aim.x + x, aim.y + y)),
               if a.players[i].isGK then Stretch(0.5, 2.0, u) else Stretch(2.0, 5.0, u));
    SameShapeMeans(Drift(e, a, i, k), a.players[i]);
  }

  lemma ScatterStrides(e: Setting, a: Stand)
    requires e.maths.Lawful() && AllFit(a.players)
    ensures StrodeBut(a.players, Scattered(e, a).players, {})
  {
    hide DriftedOn, Fit, Stride;
    forall i | 0 <= i < |a.players|
      ensures var q := Scattered(e, a).players[i]; a.players[i].isOnPitch == q.isOnPitch && Stride(a.players[i], q)
    {
      DriftStrides(e, a, i);
    }
  }

  /** The carrier has run, then everybody else has drifted. */
  lemma RunThenScatter(e: Setting, a: Stand)
    requires e.maths.Lawful() && AllFit(a.players) && Carried(a) && InBox(a.players[a.ball.carrier.value].pos)
    ensures StrodeBut(a.players, Scattered(e, Ran(e, a)).players, {})
  {
    hide Stride, Fit, Drift, CarrierNext;
    var c, r := a.ball.carrier.value, Ran(e, a);
    var goal := OppositionGoalCentre(a.players[c].team);
    RunStride(e.maths, a, c, AngleTo(e.maths, a.players[c].pos, Vec2(goal.x, goal.y)) +
      0.24 * e.oracle.gauss(a.sampled),
              Stretch(4.0, 7.0, e.oracle.uniform(a.drawn)));
    forall i | 0 <= i < |a.players|
      ensures var q := Scattered(e, r).players[i]; a.players[i].isOnPitch == q.isOnPitch && Stride(a.players[i], q)
    {
      if i == c {
        CarrierMoved(e, a);
      } else {
        assert r.players[i] == a.players[i] && Fit(a.players[i]);
        DriftStrides(e, r, i);
      }
    }
  }

  lemma StrideThenStand(ps: seq<PlayerSim>, qs: seq<PlayerSim>, rs: seq<PlayerSim>)
    requires StrodeBut(ps, qs, {}) && SamePlaces(qs, rs)
    ensures StrodeBut(ps, rs, {})
  {
    forall i | 0 <= i < |ps|
      ensures ps[i].isOnPitch == rs[i].isOnPitch && Stride(ps[i], rs[i])
    {
      assert Stride(ps[i], qs[i]);
    }
  }

  /** What is tried moves nobody. */
  lemma ActMoves(e: Setting, m: Stand, b: Stand, told: seq<Event>, t: int)
    requires Carried(m) && Acted(e, m, b, told, t)
    ensures SamePlaces(m.players, b.players)
  {
    hide Gap, Select, GoalDistance, ShotAim, TeamMates, RankedTargets, PassChosen, Outfield;
    var p := m.players[m.ball.carrier.value];
    var attempt := Tried(e.oracle, m.drawn, AttackingThird(p.team, p.pos.x));
    var a := m.(drawn := m.drawn + Dice(attempt, AttackingThird(p.team, p.pos.x)));
    match attempt
    case Passing =>
      if TeamMates(a.players, a.ball.carrier.value) != [] {
        var to: nat, flightMs :| PassedTo(e, a, b, told, t, to, flightMs);
      }
    case _ =>
  }

  /** Those not placed have stood still. */
  lemma StandingBut(ps: seq<PlayerSim>, qs: seq<PlayerSim>, placed: set<nat>)
    requires |ps| == |qs|
    requires forall i :: 0 <= i < |ps| ==>
      ps[i].isOnPitch == qs[i].isOnPitch && (i !in placed ==> ps[i].pos == qs[i].pos)
    ensures StrodeBut(ps, qs, placed)
  {
  }

  lemma KickoffMoves(ps: seq<PlayerSim>, cheering: seq<PlayerSim>, striker: nat)
    requires cheering == Everybody(ps, CelebrateTag)
    ensures StrodeBut(ps, Formed(cheering, striker), OnPitch(Formed(cheering, striker)))
  {
    var qs := Formed(cheering, striker);
    forall i: nat | i < |ps|
      ensures ps[i].isOnPitch == qs[i].isOnPitch && (i !in OnPitch(qs) ==> ps[i].pos == qs[i].pos)
    {
      assert qs[i] == FormedOne(cheering[i], i == striker);
    }
    StandingBut(ps, qs, OnPitch(qs));
  }

  lemma CelebrationMoves(e: Setting, a: Stand, b: Stand, told: seq<Event>, t: int)
    requires a.phase.Celebrate? && Celebrated(e, a, b, told, t)
    ensures StrodeBut(a.players, b.players, PlacedByPhase(a.phase, b.ball, b.players, t))
  {
    hide StrodeBut, IsStriker, OnPitch, Formed, HeldBy;
    var cheering := Everybody(a.players, CelebrateTag);
    if a.phase.resumeT <= t {
      var striker: nat :| KickedOffBy(a.(players := cheering), b, a.phase.nextKickoffTeam, striker);
      KickoffMoves(a.players, cheering, striker);
    } else {
      StandingBut(a.players, b.players, {});
    }
  }

  lemma RestartMoves(e: Setting, a: Stand, b: Stand, told: seq<Event>, t: int)
    requires a.phase.AwaitRestart? && Restarted(e, a, b, told, t)
    ensures StrodeBut(a.players, b.players, PlacedByPhase(a.phase, b.ball, b.players, t))
  {
    hide StrodeBut, Select, Index;
    StandingBut(a.players, b.players, if a.phase.resumeT <= t then {b.ball.carrier.value} else {});
  }

  lemma DispatchMoves(e: Setting, a: Stand, b: Stand, told: seq<Event>, t: int)
    requires e.maths.Lawful() && Possession(a.phase, a.ball, a.players) && AllFit(a.players)
    requires Dispatched(e, a, b, told, t)
    ensures StrodeBut(a.players, b.players, PlacedByPhase(a.phase, b.ball, b.players, t))
  {
    hide Acted, Select, Scattered, Ran, SamePlaces, StrodeBut, ShotPosition, PassPosition, AllFit, Celebrated,
      Restarted;
    match a.phase
    case Play(_) =>
      RunThenScatter(e, a);
      CarrierMoved(e, a);
      ActMoves(e, Scattered(e, Ran(e, a)), b, told, t);
      StrideThenStand(a.players, Scattered(e, Ran(e, a)).players, b.players);
    case BallInFlight(_, _, _, _, _, _) => ScatterStrides(e, a);
    case ShotInFlight(_, _, _, _, _, _, _, _, _) =>
      ScatterStrides(e, a);
      CaughtInPlace(Scattered(e, a).players, b.players, a.phase.keeper);
      StrideThenStand(a.players, Scattered(e, a).players, b.players);
    case Celebrate(_, _) => CelebrationMoves(e, a, b, told, t);
    case AwaitRestart(_, _, _) => RestartMoves(e, a, b, told, t);
  }

  lemma CaughtInPlace(ps: seq<PlayerSim>, qs: seq<PlayerSim>, keeper: nat)
    requires qs == ps || (keeper < |ps| && qs == Acting(ps, keeper, Catch))
    ensures SamePlaces(ps, qs)
  {
  }

  /** Nobody is moved before the dispatch but at half-time and on coming on. */
  ghost predicate StayedBut(ps: seq<PlayerSim>, qs: seq<PlayerSim>, placed: set<nat>) {
    |ps| == |qs| && forall i :: 0 <= i < |ps| && i !in placed + CameOn(ps, qs) ==> qs[i].pos == ps[i].pos
  }

  /** In a swap one man comes on, and only he changes his place. */
  lemma SwapPlaces(ps: seq<PlayerSim>, off: nat, on: nat)
    requires off < |ps| && on < |ps| && ps[off].isOnPitch && !ps[on].isOnPitch
    ensures CameOn(ps, Swap(ps, off, on)) == {on}
    ensures forall i :: 0 <= i < |ps| && i != on ==> Swap(ps, off, on)[i].pos == ps[i].pos
  {
    assert off != on;
  }

  lemma NobodyMoved(ps: seq<PlayerSim>)
    ensures StayedBut(ps, ps, {}) && CameOn(ps, ps) == {}
  {
  }

  lemma FirstOnBench(ps: seq<PlayerSim>, side: Side)
    requires Select(ps, BenchOf(side)) != []
    ensures var on := Select(ps, BenchOf(side))[0];
            on < |ps| && Benched(ps[on], side) && forall i :: 0 <= i < on ==> !Benched(ps[i], side)
  {
    hide Select, Benched;
    var bench := Select(ps, BenchOf(side));
    assert Passes(ps[bench[0]], BenchOf(side));
    forall i | 0 <= i < bench[0]
      ensures !Benched(ps[i], side)
    {
      assert Passes(ps[i], BenchOf(side)) ==> i in bench;
    }
  }

  /** A substitution takes a man on the pitch off exactly when somebody sits on
      the bench and he is the most tired outfielder, the ball's carrier as well
      as anybody; and whoever is taken off is back on the bench. */
  lemma SubstitutionAftermath(ps: seq<PlayerSim>, side: Side, c: nat)
    requires Select(ps, OutfieldOf(side)) != []
    requires c < |ps| && ps[c].isOnPitch
    ensures !Substituted(ps, side)[c].isOnPitch <==> Select(ps, BenchOf(side)) != [] && MostTired(ps, side) == c
    ensures !Substituted(ps, side)[c].isOnPitch ==> c in Select(Substituted(ps, side), BenchOf(side))
  {
    hide MostTired, Select;
    if Select(ps, BenchOf(side)) != [] {
      FirstOnBench(ps, side);
      var off := MostTired(ps, side);
      assert Passes(Substituted(ps, side)[off], BenchOf(side));
    }
  }

  /** A substitution told is one made: the most tired outfielder is off, and the
      first outfielder of the bench is on in his place and slot. */
  lemma SubstitutionMeans(e: Setting, a: Stand, b: Stand, evs: seq<Event>, t: int, side: Side)
    requires SubMade(e, a, b, evs, t, side)
    ensures evs == [] <==> forall i :: 0 <= i < |a.players| ==> !Benched(a.players[i], side)
    ensures evs != [] ==> exists off: nat, on: nat ::
      SubstitutedBy(a.players, b.players, off, on, side)
      && evs[0] == Substitution(t, e.cfg.Of(side).id, a.players[on].id, a.players[off].id)
  {
    hide MostTired, Select;
    var bench := Select(a.players, BenchOf(side));
    if bench != [] {
      FirstOnBench(a.players, side);
      var off, on := MostTired(a.players, side), bench[0];
      assert SubstitutedBy(a.players, b.players, off, on, side);
    } else {
      forall i | 0 <= i < |a.players|
        ensures !Benched(a.players[i], side)
      {
        assert Passes(a.players[i], BenchOf(side)) ==> i in bench;
      }
    }
  }

  ghost predicate SubstitutedBy(ps: seq<PlayerSim>, qs: seq<PlayerSim>, off: nat, on: nat, side: Side) {
    && |ps| == |qs| && off < |ps| && on < |ps|
    && Outfield(ps[off], side) && (forall i :: 0 <= i < |ps| && Outfield(ps[i], side) ==>
                                     ps[i].fatigue < ps[off].fatigue || (ps[i].fatigue == ps[off].fatigue && off <= i))
    && Benched(ps[on], side) && (forall i :: 0 <= i < on ==> !Benched(ps[i], side))
    && !qs[off].isOnPitch && qs[on].isOnPitch && qs[on].pos == ps[off].pos && qs[on].homeSlot == ps[off].homeSlot
    && forall i :: 0 <= i < |ps| && i != off && i != on ==> qs[i] == ps[i]
  }

  /** Only a man who comes on changes his place. */
  lemma SubstitutedPlaces(ps: seq<PlayerSim>, side: Side)
    requires Select(ps, OutfieldOf(side)) != []
    ensures StayedBut(ps, Substituted(ps, side), {}) && AtMostOne(CameOn(ps, Substituted(ps, side)))
  {
    hide MostTired, Select, CameOn, Swap;
    if Select(ps, BenchOf(side)) != [] {
      FirstOnBench(ps, side);
      SwapPlaces(ps, MostTired(ps, side), Select(ps, BenchOf(side))[0]);
    } else {
      NobodyMoved(ps);
    }
  }

  lemma KickoffStays(ps: seq<PlayerSim>, striker: nat)
    ensures StayedBut(ps, Formed(ps, striker), OnPitch(ps))
    ensures CameOn(ps, Formed(ps, striker)) == {} && OnPitch(ps) == OnPitch(Formed(ps, striker))
  {
    var qs := Formed(ps, striker);
    forall i | 0 <= i < |ps|
      ensures ps[i].isOnPitch == qs[i].isOnPitch && (!ps[i].isOnPitch ==> qs[i].pos == ps[i].pos)
    {
      assert qs[i] == FormedOne(ps[i], i == striker);
    }
  }

  lemma WhistleMoves(e: Setting, a: Stand, b: Stand, evs: seq<Event>, t: int, opening: Side)
    requires Interrupted(e, a, b, evs, t, opening)
    ensures StayedBut(a.players, b.players, if HalfTimeAt(e.cfg.matchDurationMs, t) then OnPitch(a.players) else {})
    ensures ComeOnWhenDue(a.players, b.players, t)
  {
    hide Select, Substituted, SubstitutionTold, HalfTimeAt, SubsDue, CameOn, OnPitch, StayedBut, Formed, IsStriker;
    OneSubAtATime(e.cfg.matchDurationMs, t);
    if HalfTimeAt(e.cfg.matchDurationMs, t) {
      var striker: nat :| KickedOffBy(a.(drawn := a.drawn + 2), b, 1 - opening, striker);
      KickoffStays(a.players, striker);
    } else if SubsDue(t - TICK_MS) < SubsDue(t) {
      SubstitutedPlaces(a.players, SUB_SCHEDULE[SubsDue(t - TICK_MS)].1);
    } else {
      NobodyMoved(a.players);
    }
  }

  /** The moves of a tick: first by hand, then in the dispatch. */
  lemma TurnMoves(ps: seq<PlayerSim>, turn: Turn, d: nat, t: int)
    requires StayedBut(ps, turn.start.players, if HalfTimeAt(d, t) then OnPitch(ps) else {})
    requires StrodeBut(turn.start.players, turn.stop.players,
                       PlacedByPhase(turn.start.phase, turn.stop.ball, turn.stop.players, t))
    requires ComeOnWhenDue(ps, turn.start.players, t)
    ensures MovesWell(ps, turn, d, t)
  {
    hide HalfTimeAt, PlacedByPhase, SubsDue;
    var qs, rs := turn.start.players, turn.stop.players;
    assert CameOn(ps, qs) == CameOn(ps, rs) && OnPitch(qs) == OnPitch(rs);
    forall i | 0 <= i < |ps| && i !in Repositioned(ps, turn, d, t)
      ensures Stride(ps[i], rs[i])
    {
      assert Stride(qs[i], rs[i]);
    }
  }

  /** In every tick of a run nobody moves more than 0.7 m but those repositioned. */
  lemma TickMoves(trace: seq<Turn>, scene: Scene, k: nat)
    requires Traced(trace, scene) && k < |trace|
    ensures MovesWell(StandBefore(trace, scene, k).players, trace[k], scene.Duration(), TICK_MS * k)
  {
    hide Dispatched, Possession, Conserved, AllFit, SeenIn, Forced, Interrupted, StayedBut, StrodeBut, PlacedByPhase,
      ComeOnWhenDue, MovesWell, HalfTimeAt, OnPitch;
    assert Lawful(trace, scene, k);
    var turn, prev, t := trace[k], StandBefore(trace, scene, k), TICK_MS * k;
    WhistleMoves(scene.setting, prev, turn.start, turn.whistled, t, scene.opening);
    DispatchMoves(scene.setting, turn.start, turn.stop, turn.told, t);
    TurnMoves(prev.players, turn, scene.Duration(), t);
  }

  /** But for half-time, substitutions and a restart or kickoff that is due,
      nobody moves more than 0.7 m in a tick or enters or leaves the pitch. */
  lemma OrdinaryTick(ps: seq<PlayerSim>, turn: Turn, d: nat, t: int)
    requires MovesWell(ps, turn, d, t) && !HalfTimeAt(d, t) && SubsDue(t) == SubsDue(t - TICK_MS)
    requires turn.start.phase.Celebrate? || turn.start.phase.AwaitRestart? ==> t < turn.start.phase.resumeT
    ensures forall i :: 0 <= i < |ps| ==>
      Stride(ps[i], turn.stop.players[i]) && ps[i].isOnPitch == turn.stop.players[i].isOnPitch
  {
    hide HalfTimeAt, SubsDue, Stride;
    var qs := turn.stop.players;
    forall i: nat | i < |ps|
      ensures Stride(ps[i], qs[i]) && ps[i].isOnPitch == qs[i].isOnPitch
    {
      assert i in OnPitch(ps) <==> ps[i].isOnPitch;
      assert i in OnPitch(qs) <==> qs[i].isOnPitch;
      assert i !in Repositioned(ps, turn, d, t);
    }
  }

  // ---------- shots cut off ----------

  /** Half-time was called at tick `k` on a shot in flight. */
  predicate CutAt(trace: seq<Turn>, scene: Scene, k: nat) {
    k < |trace| && HalfTimeAt(scene.Duration(), TICK_MS * k) && StandBefore(trace, scene, k).phase.ShotInFlight?
  }

  ghost predicate ShotCutOff(trace: seq<Turn>, scene: Scene) {
    exists k: nat :: CutAt(trace, scene, k)
  }

  lemma CutOffOn(trace: seq<Turn>, turn: Turn, scene: Scene)
    ensures ShotCutOff(trace + [turn], scene)
      <==> ShotCutOff(trace, scene)
           || (HalfTimeAt(scene.Duration(), TICK_MS * |trace|)
               && StandBefore(trace, scene, |trace|).phase.ShotInFlight?)
  {
    hide HalfTimeAt;
    var more, n := trace + [turn], |trace|;
    forall k: nat | k <= n
      ensures StandBefore(more, scene, k) == StandBefore(trace, scene, k)
    {
    }
    if ShotCutOff(trace, scene) {
      var k: nat :| CutAt(trace, scene, k);
      assert CutAt(more, scene, k);
    }
    if HalfTimeAt(scene.Duration(), TICK_MS * n) && StandBefore(trace, scene, n).phase.ShotInFlight? {
      assert CutAt(more, scene, n);
    }
    if ShotCutOff(more, scene) {
      var k: nat :| CutAt(more, scene, k);
      assert k < n ==> CutAt(trace, scene, k);
    }
  }

  /** Before half-time nothing has been cut off. */
  lemma NothingCutBefore(trace: seq<Turn>, scene: Scene)
    requires TICK_MS * |trace| - TICK_MS < HalfDuration(scene.Duration())
    ensures !ShotCutOff(trace, scene)
  {
  }
}
