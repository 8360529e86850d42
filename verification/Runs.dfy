/** What holds of every run of the simulator, whatever the draws. */
module Runs {
  import opened Options
  import opened Numerics
  import opened Pitch
  import opened MatchStream
  import opened Squad
  import opened Simulation
  import opened Rules
  import opened Trace

  lemma LawAt(trace: seq<Turn>, scene: Scene, k: nat)
    requires Traced(trace, scene) && k < |trace|
    ensures scene.setting.maths.Lawful()
    ensures TurnLaw(scene.setting, scene.opening, StandBefore(trace, scene, k), trace[k],
                    SeenBefore(trace, scene, k), TICK_MS * k)
  {
    hide TurnLaw, StandBefore, SeenBefore;
    assert Lawful(trace, scene, k);
  }

  // ---------- one stream for one seed ----------

  lemma OneTurn(scene: Scene, prev: Stand, turn: Turn, turn': Turn, seen: Seen, t: int)
    requires scene.setting.maths.Lawful()
    requires TurnLaw(scene.setting, scene.opening, prev, turn, seen, t)
    requires TurnLaw(scene.setting, scene.opening, prev, turn', seen, t)
    ensures turn == turn'
  {
    hide Dispatched, Interrupted, Possession, Conserved, AllFit, SeenIn, Select;
    OneWhistle(scene.setting, prev, turn.start, turn'.start, turn.whistled, turn'.whistled, t, scene.opening);
    OneOutcome(scene.setting, turn.start, turn.stop, turn'.stop, turn.told, turn'.told, t);
  }

  lemma TracedFront(trace: seq<Turn>, scene: Scene, n: nat)
    requires Traced(trace, scene) && n <= |trace|
    ensures Traced(trace[..n], scene)
  {
    hide TurnLaw, Narrated, SeenOf, SeenIn;
    forall k: nat | k < n
      ensures Lawful(trace[..n], scene, k)
    {
      assert Lawful(trace, scene, k);
      assert trace[..n][..k] == trace[..k];
    }
  }

  lemma {:induction false} OneTrace(trace: seq<Turn>, trace': seq<Turn>, scene: Scene)
    requires Traced(trace, scene) && Traced(trace', scene) && |trace| == |trace'|
    ensures trace == trace'
  {
    hide Traced, TurnLaw, Narrated, SeenOf, SeenIn;
    if trace != [] {
      var n := |trace| - 1;
      TracedFront(trace, scene, n);
      TracedFront(trace', scene, n);
      OneTrace(trace[..n], trace'[..n], scene);
      LawAt(trace, scene, n);
      LawAt(trace', scene, n);
      assert StandBefore(trace, scene, n) == StandBefore(trace', scene, n) by {
        assert n > 0 ==> trace[n - 1] == trace[..n][n - 1] && trace'[n - 1] == trace'[..n][n - 1];
      }
      assert SeenBefore(trace, scene, n) == SeenBefore(trace', scene, n);
      OneTurn(scene, StandBefore(trace, scene, n), trace[n], trace'[n], SeenBefore(trace, scene, n), TICK_MS * n);
      assert trace == trace[..n] + [trace[n]] && trace' == trace'[..n] + [trace'[n]];
    }
  }

  /** The teams, the duration and the seed decide the whole stream. */
  lemma OneStreamPerSeed(messages: seq<Message>, messages': seq<Message>, trace: seq<Turn>, trace': seq<Turn>,
      scene: Scene, scene': Scene)
    requires IsRun(messages, trace, scene) && IsRun(messages', trace', scene') && scene.setting == scene'.setting
    ensures messages == messages' && trace == trace' && scene == scene'
  {
    hide Traced, Narrated, KickedOff;
    OneKickoff(LinedUpStand(scene.setting, 3), scene.kickoff, scene'.kickoff, scene.opening);
    OneTrace(trace, trace', scene);
  }

  // ---------- shots ----------

  /** The die of a turn that says whether its shot is on target: it comes after
      the carrier's, the drifters' and the one that let him shoot. */
  function ShotDie(turn: Turn): nat {
    turn.start.drawn + Drifters(turn.start.players, turn.start.ball.carrier) + 2
  }

  /** A shot in flight was taken in an earlier turn and has been flying since. */
  lemma {:induction false} ShotWasTaken(trace: seq<Turn>, scene: Scene, k: nat) returns (j: nat)
    requires Staged(scene) && Traced(trace, scene) && k < |trace| && trace[k].start.phase.ShotInFlight?
    ensures j < k && trace[j].start.phase.Play?
    ensures forall i :: j < i <= k ==> trace[i].start.phase == trace[j].stop.phase
  {
    hide HalfTimeAt, Traced, Staged;
    TurnFollows(trace, scene, k);
    OpensInPlay(scene);
    TurnFollows(trace, scene, k - 1);
    if trace[k - 1].start.phase.Play? {
      j := k - 1;
    } else {
      j := ShotWasTaken(trace, scene, k - 1);
    }
  }

  lemma ShotRolled(e: Setting, m: Stand, b: Stand, told: seq<Event>, t: int)
    requires Carried(m) && Acted(e, m, b, told, t) && m.phase.Play? && b.phase.ShotInFlight?
    ensures var p := m.players[m.ball.carrier.value];
      && AttackingThird(p.team, p.pos.x)
      && told == [Shot(t, p.id, b.phase.goalTarget, b.phase.onTarget, false)]
      && b.phase.onTarget == OnTarget(e.oracle, m.drawn + 1) && b.phase.willGoal == Scores(e.oracle, m.drawn + 1)
  {
    hide Nearest, Gap, Select, GoalDistance, ShotAim, TeamMates, RankedTargets, PassChosen, OnTarget, Scores;
  }

  lemma RunKeepsPitch(e: Setting, a: Stand)
    requires Carried(a)
    ensures Drifters(Ran(e, a).players, Ran(e, a).ball.carrier) == Drifters(a.players, a.ball.carrier)
    ensures Ran(e, a).drawn == a.drawn + 1
  {
    hide Stretch, CarrierNext, AngleTo;
    SameDrifters(a.players, Ran(e, a).players, a.ball.carrier);
  }

  /** A shot taken in a turn is what its dice make of it. */
  lemma ShotFromDice(trace: seq<Turn>, scene: Scene, j: nat)
    requires Traced(trace, scene) && j < |trace|
    requires trace[j].start.phase.Play? && trace[j].stop.phase.ShotInFlight?
    ensures var shot := trace[j].stop.phase;
      && shot.onTarget == OnTarget(scene.setting.oracle, ShotDie(trace[j]))
      && shot.willGoal == Scores(scene.setting.oracle, ShotDie(trace[j]))
      && |trace[j].told| == 1 && trace[j].told[0].Shot? && trace[j].told[0].onTarget == shot.onTarget
  {
    hide Traced, Acted, Conserved, AllFit, SeenIn, Forced, Interrupted, DriftedOn, Running, OnTarget, Scores,
      StandBefore, SeenBefore;
    LawAt(trace, scene, j);
    var e, a := scene.setting, trace[j].start;
    RunKeepsPitch(e, a);
    ShotRolled(e, Scattered(e, Ran(e, a)), trace[j].stop, trace[j].told, TICK_MS * j);
  }

  /** A shot arrives in turn `k`. */
  predicate Arrives(trace: seq<Turn>, k: nat) {
    k < |trace| && trace[k].start.phase.ShotInFlight? && trace[k].start.phase.arrivalT <= TICK_MS * k
  }

  /** The shot of turn `j` arrives in turn `k` and is told as its dice said: a
      goal when both said yes, a save when only the first did, else a miss. */
  ghost predicate ToldByDice(trace: seq<Turn>, scene: Scene, j: nat, k: nat)
    requires j < k && Arrives(trace, k)
  {
    var n, t := ShotDie(trace[j]), TICK_MS * k;
    var onTarget := scene.setting.oracle.uniform(n) < 0.55;
    var scores := onTarget && 11.0 * scene.setting.oracle.uniform(n + 1) < 5.0;
    var ps, shot := trace[k].stop.players, trace[k].start.phase;
    && trace[j].start.phase.Play? && |trace[j].told| == 1 && trace[j].told[0].Shot?
    && trace[j].told[0].onTarget == onTarget
    && (forall i :: j < i <= k ==> trace[i].start.phase == trace[j].stop.phase)
    && shot.shooter < |ps| && shot.keeper < |ps|
    && if scores then
         var side := ps[shot.shooter].team;
         trace[k].told == [Goal(t, ps[shot.shooter].id, scene.setting.cfg.Of(side).id), Commentary(t, GoalLine),
                           ScoreChange(t, trace[k].start.home + One(side == 0), trace[k].start.away + One(side == 1))]
       else if onTarget then trace[k].told == [Save(t, ps[shot.keeper].id), Commentary(t, ShotSaved)]
       else trace[k].told == [OutOfBounds(t, ps[shot.shooter].id, GoalKick), Commentary(t, ShotOffTarget)]
  }

  ghost predicate DecidedByDice(trace: seq<Turn>, scene: Scene, k: nat)
    requires Arrives(trace, k)
  {
    exists j: nat :: j < k && ToldByDice(trace, scene, j, k)
  }

  lemma ArrivalTold(e: Setting, a: Stand, b: Stand, told: seq<Event>, t: int)
    requires e.maths.Lawful() && Possession(a.phase, a.ball, a.players) && Dispatched(e, a, b, told, t)
    requires a.phase.ShotInFlight? && a.phase.arrivalT <= t
    ensures var shooter, keeper := a.phase.shooter, a.phase.keeper;
      && shooter < |b.players| && keeper < |b.players|
      && var side := b.players[shooter].team;
      told == if a.phase.willGoal
              then GoalTold(e, b.players[shooter], t, a.home + One(side == 0), a.away + One(side == 1))
              else if a.phase.onTarget then SaveTold(b.players[keeper], t) else MissTold(b.players[shooter], t)
  {
    hide DriftedOn, SameShapes, ShotPosition;
  }

  /** Every shot that arrives is told as the two dice it was taken with said. */
  lemma ShotsDecidedByDice(trace: seq<Turn>, scene: Scene, k: nat)
    requires Staged(scene) && Traced(trace, scene) && Arrives(trace, k)
    ensures DecidedByDice(trace, scene, k)
  {
    hide Traced, Staged, Dispatched, Conserved, AllFit, SeenIn, Forced, Interrupted, StandBefore, SeenBefore, Drifters;
    var j := ShotWasTaken(trace, scene, k);
    assert trace[j + 1].start.phase == trace[j].stop.phase == trace[k].start.phase;
    ShotFromDice(trace, scene, j);
    LawAt(trace, scene, k);
    ArrivalTold(scene.setting, trace[k].start, trace[k].stop, trace[k].told, TICK_MS * k);
    assert ToldByDice(trace, scene, j, k);
  }

  // ---------- play ----------

  /** What a turn in play tells and leaves, and what its dice said, the die
      numbered `n` being the first after everybody has moved: a shot from beyond
      the 25 m line, a tackle, a foul, the ball out and a pass are tried in this
      order, and how a tackle ends, how hard a foul is and what an out is
      restarted with are dice of their own. */
  ghost predicate SaidByDice(m: Maths, o: Oracle, n: nat, ps: seq<PlayerSim>, c: nat, b: Stand, told: seq<Event>,
      t: int)
    requires c < |ps|
  {
    var mine, theirs := ps[c].team, 1 - ps[c].team;
    var final := if ps[c].team == 0 then 25.0 < ps[c].pos.x else ps[c].pos.x < -25.0;
    var k: nat := if final then n + 1 else n;
    var shoots, tackles := final && o.uniform(n) < 0.0022, o.uniform(k) < 0.012;
    var fouls, out, passes := o.uniform(k + 1) < 0.0035, o.uniform(k + 2) < 0.0035, o.uniform(k + 3) < 0.05;
    if told == [] then
      && b.phase == Play(mine) && b.ball.carrier == Some(c)
      && if shoots then 35.0 < GoalDistance(m, ps, c)
      else if tackles then exists opp: nat :: Nearest(m, ps, c, opp) && 2.5 < Gap(m, ps, c, opp)
      else if fouls then exists opp: nat :: Nearest(m, ps, c, opp) && 3.0 < Gap(m, ps, c, opp)
      else !out && (passes ==> forall q: nat :: q < |ps| && Outfield(ps[q], ps[c].team) ==> q == c)
    else
      match told[0]
      case Shot(_, player, _, onTarget, _) =>
        && player == ps[c].id && shoots && (onTarget <==> o.uniform(n + 1) < 0.55)
        && b.phase.ShotInFlight? && b.phase.possessing == mine && b.ball.carrier.None?
      case Tackle(_, player, victim, won) =>
        && victim == ps[c].id && !shoots && tackles && (won <==> o.uniform(k + 1) < 0.55)
        && b.phase == Play(if won then theirs else mine) && Carried(b) && |b.players| == |ps|
        && (if won then b.players[b.ball.carrier.value].id == player else b.ball.carrier == Some(c))
      case Foul(_, player, victim, severity) =>
        && victim == ps[c].id && !shoots && !tackles && fouls
        && (exists opp: nat :: Nearest(m, ps, c, opp) && ps[opp].id == player && opp < |b.players|
                               && (severity != Soft ==> b.players[opp].yellowCarded == (severity == Yellow)))
        && severity == (if o.uniform(k + 2) < 0.7 then Soft else if o.uniform(k + 2) < 0.97 then Yellow else Red)
        && b.phase == AwaitRestart(t + 1500, mine, FreeKick) && b.ball.carrier == Some(c)
      case OutOfBounds(_, player, restart) =>
        && player == ps[c].id && !shoots && !tackles && !fouls && out
        && restart == (if o.uniform(k + 3) < 0.6 then ThrowIn else if o.uniform(k + 4) < 0.5 then Corner else GoalKick)
        && b.phase == AwaitRestart(t + 1500, theirs, restart)
      case Pass(_, from, to, _, success) =>
        && from == ps[c].id && !shoots && !tackles && !fouls && !out && passes && success
        && b.phase.BallInFlight? && b.phase.possessing == mine && b.ball.carrier.None?
        && b.phase.receiver < |ps| && ps[b.phase.receiver].id == to
      case _ => false
  }

  lemma PassSaid(e: Setting, a: Stand, b: Stand, told: seq<Event>, t: int)
    requires Carried(a) && Passed(e, a, b, told, t)
    ensures var c := a.ball.carrier.value;
      if told == [] then
        && b == a
        && forall q: nat :: q < |a.players| && Outfield(a.players[q], a.players[c].team) ==> q == c
      else
        && told[0].Pass? && told[0].success && told[0].from == a.players[c].id
        && b.phase.BallInFlight? && b.phase.possessing == a.players[c].team
        && b.ball.carrier.None? && b.phase.receiver < |a.players| && a.players[b.phase.receiver].id == told[0].to
  {
    hide RankedTargets, PassChosen, Outfield;
    var c := a.ball.carrier.value;
    if TeamMates(a.players, c) != [] {
      var to: nat, flightMs :| PassedTo(e, a, b, told, t, to, flightMs);
    } else {
      forall q: nat | q < |a.players| && Outfield(a.players[q], a.players[c].team)
        ensures q == c
      {
        assert q !in TeamMates(a.players, c);
      }
    }
  }

  lemma ActSaid(e: Setting, m: Stand, b: Stand, told: seq<Event>, t: int)
    requires Carried(m) && Acted(e, m, b, told, t) && m.phase == Play(m.players[m.ball.carrier.value].team)
    ensures SaidByDice(e.maths, e.oracle, m.drawn, m.players, m.ball.carrier.value, b, told, t)
  {
    hide Gap, Select, GoalDistance, ShotAim, Passed, Outfield;
    var p := m.players[m.ball.carrier.value];
    var final := AttackingThird(p.team, p.pos.x);
    var attempt := Tried(e.oracle, m.drawn, final);
    var a := m.(drawn := m.drawn + Dice(attempt, final));
    match attempt
    case Passing => PassSaid(e, a, b, told, t);
    case _ =>
  }

  /** Turn `k`, if in play, tells what its dice say. */
  ghost predicate PlayedByDice(trace: seq<Turn>, scene: Scene, k: nat)
    requires scene.setting.maths.Lawful() && k < |trace|
  {
    var a := trace[k].start;
    a.phase.Play? ==>
      && Carried(a)
      && var m := Scattered(scene.setting, Ran(scene.setting, a));
         && m.drawn == a.drawn + Drifters(a.players, a.ball.carrier) + 1
         && SaidByDice(scene.setting.maths, scene.setting.oracle, m.drawn, m.players, a.ball.carrier.value,
                       trace[k].stop, trace[k].told, TICK_MS * k)
  }

  lemma PlayIsDiced(trace: seq<Turn>, scene: Scene, k: nat)
    requires Traced(trace, scene) && k < |trace|
    ensures PlayedByDice(trace, scene, k)
  {
    hide Traced, Acted, Conserved, AllFit, SeenIn, Forced, Interrupted, DriftedOn, Running, StandBefore, SeenBefore,
      SaidByDice;
    LawAt(trace, scene, k);
    var e, a := scene.setting, trace[k].start;
    if a.phase.Play? {
      RunKeepsPitch(e, a);
      CarrierMoved(e, a);
      ActSaid(e, Scattered(e, Ran(e, a)), trace[k].stop, trace[k].told, TICK_MS * k);
    }
  }

  ghost predicate TellsGoal(evs: seq<Event>) {
    exists i :: 0 <= i < |evs| && evs[i].Goal?
  }

  lemma ActTellsNoGoal(e: Setting, m: Stand, b: Stand, told: seq<Event>, t: int)
    requires Carried(m) && Acted(e, m, b, told, t)
    ensures !TellsGoal(told)
  {
    hide Nearest, Gap, Select, GoalDistance, ShotAim, TeamMates, RankedTargets, PassChosen;
    var p := m.players[m.ball.carrier.value];
    var attempt := Tried(e.oracle, m.drawn, AttackingThird(p.team, p.pos.x));
    var a := m.(drawn := m.drawn + Dice(attempt, AttackingThird(p.team, p.pos.x)));
    match attempt
    case Passing =>
      if TeamMates(a.players, a.ball.carrier.value) != [] {
        var to: nat, flightMs :| PassedTo(e, a, b, told, t, to, flightMs);
      }
    case _ =>
  }

  /** The dispatch tells a goal exactly when a shot that was to score arrives. */
  lemma GoalFromShot(e: Setting, a: Stand, b: Stand, told: seq<Event>, t: int)
    requires e.maths.Lawful() && Possession(a.phase, a.ball, a.players) && Dispatched(e, a, b, told, t)
    ensures TellsGoal(told) <==> a.phase.ShotInFlight? && a.phase.arrivalT <= t && a.phase.willGoal
  {
    hide Acted, DriftedOn, Running, ShotPosition, PassPosition, Select, KickedOff;
    match a.phase
    case Play(_) =>
      ActTellsNoGoal(e, Scattered(e, Ran(e, a)), b, told, t);
    case ShotInFlight(_, _, _, _, arrivalT, _, _, willGoal, _) =>
      if arrivalT <= t && willGoal {
        assert told[0].Goal?;
      }
    case _ =>
  }

  /** A goal is told in a tick exactly when a shot arrives whose both dice said yes. */
  lemma GoalsExactly(trace: seq<Turn>, scene: Scene, k: nat)
    requires Staged(scene) && Traced(trace, scene) && k < |trace|
    ensures TellsGoal(trace[k].whistled + trace[k].told + trace[k].forced)
      <==> Arrives(trace, k) && exists j: nat :: j < k && ScoringShot(trace, scene, j, k)
  {
    hide Traced, Staged, Dispatched, Conserved, AllFit, SeenIn, Forced, Interrupted, StandBefore, SeenBefore, Drifters,
      Possession, TellsGoal;
    LawAt(trace, scene, k);
    var turn, t := trace[k], TICK_MS * k;
    var seen := SeenIn(SeenBefore(trace, scene, k), turn.whistled + turn.told);
    GoalFromShot(scene.setting, turn.start, turn.stop, turn.told, t);
    GoalsApart(scene, turn, StandBefore(trace, scene, k), seen, t);
    if Arrives(trace, k) {
      var j := ShotWasTaken(trace, scene, k);
      assert trace[j + 1].start.phase == trace[j].stop.phase == trace[k].start.phase;
      ShotFromDice(trace, scene, j);
      assert turn.start.phase.willGoal ==> ScoringShot(trace, scene, j, k);
      forall i: nat | i < k && ScoringShot(trace, scene, i, k)
        ensures turn.start.phase.willGoal
      {
        assert trace[i + 1].start.phase == trace[i].stop.phase == trace[k].start.phase;
        ShotFromDice(trace, scene, i);
      }
    }
  }

  /** The shot of turn `j`, in the air until turn `k`, with two dice that say goal. */
  ghost predicate ScoringShot(trace: seq<Turn>, scene: Scene, j: nat, k: nat)
    requires j < k < |trace|
  {
    var n := ShotDie(trace[j]);
    && trace[j].start.phase.Play?
    && (forall i :: j < i <= k ==> trace[i].start.phase == trace[j].stop.phase)
    && scene.setting.oracle.uniform(n) < 0.55 && 11.0 * scene.setting.oracle.uniform(n + 1) < 5.0
  }

  lemma GoalsApart(scene: Scene, turn: Turn, prev: Stand, seen: Seen, t: int)
    requires Interrupted(scene.setting, prev, turn.start, turn.whistled, t, scene.opening)
    requires Forced(scene.setting, turn.stop.players, seen, turn.forced, t)
    ensures TellsGoal(turn.whistled + turn.told + turn.forced) <==> TellsGoal(turn.told)
  {
    hide KickedOff, Substituted, Select, MostTired, HalfTimeAt, SubsDue;
    var all := turn.whistled + turn.told + turn.forced;
    assert forall i :: 0 <= i < |turn.whistled| ==> !turn.whistled[i].Goal?;
    assert forall i :: 0 <= i < |turn.forced| ==> !turn.forced[i].Goal?;
    if TellsGoal(turn.told) {
      var i :| 0 <= i < |turn.told| && turn.told[i].Goal?;
      assert all[|turn.whistled| + i].Goal?;
    }
  }

  // ---------- the ball ----------

  /** Over the field, between the goal lines and at most 5.1 m high. */
  predicate OverField(p: Vec3) {
    -HALF_LENGTH <= p.x <= HALF_LENGTH && -MAX_Y <= p.y <= MAX_Y && 0.0 <= p.z <= 5.1
  }

  /** The ball is over the field and any flight of it begins and ends there. */
  predicate BallLaw(a: Stand) {
    && OverField(a.ball.pos)
    && match a.phase
       case BallInFlight(_, _, _, _, from, target) => InBox(from) && InBox(target)
       case ShotInFlight(_, _, _, _, _, from, target, _, _) =>
         InBox(from) && OverField(target) && target.z <= 2.4
       case _ => true
  }

  /** A parabola over the unit interval, at most a quarter of its factor high. */
  lemma Rise(factor: real, progress: real)
    requires 0.0 <= progress <= 1.0 && 0.0 <= factor
    ensures 0.0 <= Bow(factor, progress) <= 0.25 * factor
  {
    var p := progress * (1.0 - progress);
    ProductSign(progress, 1.0 - progress);
    HalfwayHighest(progress);
    ProductSign(factor, p);
    ProductSign(factor, 0.25 - p);
    SplitDifference(factor, 0.25, p);
    Associate(factor, progress, 1.0 - progress);
  }

  lemma HalfwayHighest(progress: real)
    ensures progress * (1.0 - progress) <= 0.25
  {
    assert (progress - 0.5) * (progress - 0.5) == 0.25 - progress * (1.0 - progress);
  }

  lemma Associate(a: real, b: real, c: real)
    ensures a * b * c == a * (b * c)
  {
  }

  lemma OverOnTheWay(from: Vec2, target: Vec2, progress: real, z: real)
    requires InBox(from) && -HALF_LENGTH <= target.x <= HALF_LENGTH && -MAX_Y <= target.y <= MAX_Y
    requires 0.0 <= progress <= 1.0 && 0.0 <= z <= 5.1
    ensures OverField(FlightPosition(from, target, progress, z))
  {
    Between(from.x, target.x, progress, -HALF_LENGTH, HALF_LENGTH);
    Between(from.y, target.y, progress, -MAX_Y, MAX_Y);
  }

  lemma ShotOver(phase: Phase, t: int)
    requires phase.ShotInFlight? && InBox(phase.from) && OverField(phase.goalTarget) && phase.goalTarget.z <= 2.4
    ensures OverField(ShotPosition(phase, t))
  {
    hide FlightProgress, FlightPosition, Bow;
    var progress := FlightProgress(t, phase.startT, phase.arrivalT);
    Rise(10.0, progress);
    var z := phase.goalTarget.z;
    assert Climbed(z, progress) == Part(z, progress);
    OverOnTheWay(phase.from, Vec2(phase.goalTarget.x, phase.goalTarget.y), progress,
                 Climbed(z, progress) + Bow(10.0, progress));
  }

  ghost predicate Inside(ps: seq<PlayerSim>) {
    forall i :: 0 <= i < |ps| && ps[i].isOnPitch ==> InBox(ps[i].pos)
  }

  lemma PassOver(a: Stand, t: int)
    requires a.phase.BallInFlight? && a.phase.receiver < |a.players| && Inside(a.players)
    requires InBox(a.phase.from) && InBox(a.phase.target)
    ensures OverField(PassPosition(a, t))
  {
    hide FlightProgress, FlightPosition, Bow;
    var progress := FlightProgress(t, a.phase.startT, a.phase.arrivalT);
    var receiver := a.players[a.phase.receiver];
    Rise(6.0, progress);
    OverOnTheWay(a.phase.from, if receiver.isOnPitch then receiver.pos else a.phase.target, progress,
                 Bow(6.0, progress));
  }

  lemma HeldOver(ps: seq<PlayerSim>, i: nat)
    requires i < |ps| && InBox(ps[i].pos)
    ensures OverField(HeldBy(ps, i).pos)
  {
  }

  lemma ScatteredInside(e: Setting, a: Stand)
    requires e.maths.Lawful() && AllFit(a.players)
    ensures Inside(Scattered(e, a).players)
  {
    hide DriftedOn, Stride, InBox;
    forall i | 0 <= i < |a.players| && Scattered(e, a).players[i].isOnPitch
      ensures InBox(Scattered(e, a).players[i].pos)
    {
      assert Fit(a.players[i]);
      DriftStrides(e, a, i);
      assert Fit(Scattered(e, a).players[i]);
    }
  }

  /** The carrier has run inside the box, and so does he after everybody has drifted. */
  lemma MovedInside(e: Setting, a: Stand)
    requires e.maths.Lawful() && AllFit(a.players) && Carried(a)
    ensures var m := Scattered(e, Ran(e, a)); var c := a.ball.carrier.value;
      && Inside(m.players) && m.ball.carrier == Some(c) && c < |m.players|
      && InBox(m.players[c].pos) && OverField(m.ball.pos)
  {
    hide DriftedOn, Fit, AngleTo, InBox, Stretch;
    var c, r := a.ball.carrier.value, Ran(e, a);
    CarrierMoved(e, a);
    RanFit(e, a);
    ScatteredInside(e, r);
    HeldOver(r.players, c);
  }

  lemma RanFit(e: Setting, a: Stand)
    requires e.maths.Lawful() && AllFit(a.players) && Carried(a)
    ensures AllFit(Ran(e, a).players) && InBox(Ran(e, a).players[a.ball.carrier.value].pos)
  {
    hide AngleTo, Stretch;
    assert Fit(a.players[a.ball.carrier.value]);
  }

  lemma ActBall(e: Setting, m: Stand, b: Stand, told: seq<Event>, t: int)
    requires Carried(m) && Acted(e, m, b, told, t) && m.phase.Play?
    requires Inside(m.players) && InBox(m.players[m.ball.carrier.value].pos) && OverField(m.ball.pos)
    ensures BallLaw(b)
  {
    hide Gap, Select, GoalDistance, RankedTargets, PassChosen, TeamMates;
    var p := m.players[m.ball.carrier.value];
    var attempt := Tried(e.oracle, m.drawn, AttackingThird(p.team, p.pos.x));
    var a := m.(drawn := m.drawn + Dice(attempt, AttackingThird(p.team, p.pos.x)));
    match attempt
    case Passing =>
      if TeamMates(a.players, a.ball.carrier.value) != [] {
        var to: nat, flightMs :| PassedTo(e, a, b, told, t, to, flightMs);
        assert to in TeamMates(a.players, a.ball.carrier.value);
      }
    case _ =>
  }

  lemma DispatchBall(e: Setting, a: Stand, b: Stand, told: seq<Event>, t: int)
    requires e.maths.Lawful() && Possession(a.phase, a.ball, a.players) && AllFit(a.players) && BallLaw(a)
    requires Possession(b.phase, b.ball, b.players)
    requires Dispatched(e, a, b, told, t)
    ensures BallLaw(b)
  {
    hide Acted, DriftedOn, Running, AllFit, PassPosition, ShotPosition, Celebrated, Restarted, Landed, Arrived;
    match a.phase
    case Play(_) =>
      MovedInside(e, a);
      ActBall(e, Scattered(e, Ran(e, a)), b, told, t);
    case BallInFlight(_, _, _, _, _, _) =>
      ScatteredInside(e, a);
      PassOver(Scattered(e, a), t);
      LandedBall(Scattered(e, a), b, told, t);
    case ShotInFlight(_, _, _, _, _, _, _, _, _) =>
      ShotOver(a.phase, t);
      ArrivedBall(e, Scattered(e, a), b, told, t);
    case Celebrate(_, _) => CelebratedBall(e, a, b, told, t);
    case AwaitRestart(_, _, _) => RestartedBall(e, a, b, told, t);
  }

  lemma LandedBall(a: Stand, b: Stand, told: seq<Event>, t: int)
    requires a.phase.BallInFlight? && a.phase.receiver < |a.players| && Landed(a, b, told, t)
    requires Inside(a.players) && BallLaw(a) && OverField(PassPosition(a, t))
    ensures BallLaw(b)
  {
    hide PassPosition, Select;
    var others := Select(a.players, OutfieldOf(1 - a.phase.possessing));
    if others != [] {
      assert Passes(a.players[others[0]], OutfieldOf(1 - a.phase.possessing));
    }
  }

  lemma ArrivedBall(e: Setting, a: Stand, b: Stand, told: seq<Event>, t: int)
    requires a.phase.ShotInFlight? && a.phase.shooter < |a.players| && a.phase.keeper < |a.players|
    requires Arrived(e, a, b, told, t) && BallLaw(a) && OverField(ShotPosition(a.phase, t))
    requires Possession(b.phase, b.ball, b.players)
    ensures BallLaw(b)
  {
    hide ShotPosition;
  }

  lemma CelebratedBall(e: Setting, a: Stand, b: Stand, told: seq<Event>, t: int)
    requires a.phase.Celebrate? && Celebrated(e, a, b, told, t) && BallLaw(a)
    ensures BallLaw(b)
  {
    if a.phase.resumeT <= t {
      KickoffBall(a.(players := Everybody(a.players, CelebrateTag)), b, a.phase.nextKickoffTeam);
    }
  }

  lemma KickoffBall(a: Stand, b: Stand, side: Side)
    requires KickedOff(a, b, side)
    ensures BallLaw(b)
  {
    var striker: nat :| KickedOffBy(a, b, side, striker);
    assert b.players[striker] == FormedOne(a.players[striker], true);
  }

  lemma RestartedBall(e: Setting, a: Stand, b: Stand, told: seq<Event>, t: int)
    requires a.phase.AwaitRestart? && Restarted(e, a, b, told, t) && BallLaw(a)
    ensures BallLaw(b)
  {
    hide Select, Index;
  }

  lemma WhistleBall(e: Setting, a: Stand, b: Stand, evs: seq<Event>, t: int, opening: Side)
    requires Interrupted(e, a, b, evs, t, opening) && BallLaw(a)
    ensures BallLaw(b)
  {
    hide Select, Substituted, SubstitutionTold, HalfTimeAt, SubsDue, KickedOff;
    if HalfTimeAt(e.cfg.matchDurationMs, t) {
      KickoffBall(a.(drawn := a.drawn + 2), b, 1 - opening);
    }
  }

  /** In every frame of every run the ball is over the field. */
  lemma {:induction false} BallStaysOverField(trace: seq<Turn>, scene: Scene, k: nat)
    requires Staged(scene) && Traced(trace, scene) && k < |trace|
    ensures BallLaw(trace[k].start) && BallLaw(trace[k].stop)
  {
    hide Traced, BallLaw, Dispatched, Conserved, AllFit, SeenIn, Forced, Interrupted, SeenBefore, Possession, KickedOff;
    LawAt(trace, scene, k);
    if k == 0 {
      KickoffBall(LinedUpStand(scene.setting, 3), scene.kickoff, scene.opening);
    } else {
      BallStaysOverField(trace, scene, k - 1);
    }
    WhistleBall(scene.setting, StandBefore(trace, scene, k), trace[k].start, trace[k].whistled, TICK_MS * k,
                scene.opening);
    DispatchBall(scene.setting, trace[k].start, trace[k].stop, trace[k].told, TICK_MS * k);
  }

  // ---------- events the match must show ----------

  function Many(s: Seen): nat {
    One(s.tackle) + One(s.foul) + One(s.out)
  }

  lemma {:induction false} SeenGrows(s: Seen, evs: seq<Event>)
    ensures Many(s) <= Many(SeenIn(s, evs))
    ensures s == Seen(true, true, true) ==> SeenIn(s, evs) == s
  {
    if evs != [] {
      SeenGrows(s, evs[..|evs| - 1]);
    }
  }

  lemma ForcedCounts(e: Setting, ps: seq<PlayerSim>, seen: Seen, evs: seq<Event>, t: int)
    requires Forced(e, ps, seen, evs, t)
    requires e.cfg.matchDurationMs - 60_000 < t < e.cfg.matchDurationMs - 5_000
    ensures Many(seen) < Many(SeenIn(seen, evs)) || Many(seen) == 3
  {
    hide Select;
    if evs != [] {
      assert evs[..|evs| - 1] == [] && SeenIn(seen, evs) == SeenAfter(SeenIn(seen, []), evs[0]);
    }
  }

  function SeenUpTo(trace: seq<Turn>, scene: Scene, k: nat): Seen
    requires k <= |trace|
  {
    SeenOf(Narrated(trace[..k], scene))
  }

  lemma SeenStep(trace: seq<Turn>, scene: Scene, k: nat)
    requires k < |trace|
    ensures SeenUpTo(trace, scene, k + 1)
         == SeenIn(SeenIn(SeenBefore(trace, scene, k), trace[k].whistled + trace[k].told), trace[k].forced)
  {
    hide SeenIn, SeenOf, Narrated, Wrap, FrameOf, OpeningAt;
    var turn, sent := trace[k], Narrated(trace[..k], scene);
    var opening, told := OpeningAt(scene, k), turn.whistled + turn.told;
    assert trace[..k + 1] == trace[..k] + [turn];
    NarratedOn(trace[..k], turn, scene);
    var evs := opening + turn.whistled + turn.told + turn.forced;
    assert evs == opening + told + turn.forced;
    var frame := State(FrameOf(TICK_MS * k, turn.stop.ball, turn.stop.players,
                               PeriodAt(scene.Duration(), TICK_MS * k)));
    assert sent + Report(scene, turn, k) == sent + Wrap(evs) + [frame];
    SeenOneMore(sent + Wrap(evs), frame);
    SeenTogether(sent, evs);
    SeenInBoth(SeenOf(sent), opening + told, turn.forced);
    SeenInBoth(SeenOf(sent), opening, told);
  }

  lemma CoverageStep(trace: seq<Turn>, scene: Scene, k: nat)
    requires Traced(trace, scene) && k < |trace|
    requires scene.Duration() - 60_000 < TICK_MS * k < scene.Duration() - 5_000
    ensures Many(SeenUpTo(trace, scene, k)) < Many(SeenUpTo(trace, scene, k + 1))
            || Many(SeenUpTo(trace, scene, k + 1)) == 3
  {
    hide Traced, Dispatched, Conserved, AllFit, SeenIn, Forced, Interrupted, Possession, Many, SeenOf, Narrated,
      OpeningAt;
    LawAt(trace, scene, k);
    SeenStep(trace, scene, k);
    var before, told := SeenBefore(trace, scene, k), trace[k].whistled + trace[k].told;
    SeenGrows(SeenOf(Narrated(trace[..k], scene)), OpeningAt(scene, k));
    SeenGrows(before, told);
    SeenGrows(SeenIn(before, told), trace[k].forced);
    ForcedCounts(scene.setting, trace[k].stop.players, SeenIn(before, told), trace[k].forced, TICK_MS * k);
    AtMostThree(SeenUpTo(trace, scene, k + 1));
  }

  lemma AtMostThree(s: Seen)
    ensures Many(s) <= 3
    ensures Many(s) == 3 <==> s == Seen(true, true, true)
  {
  }

  lemma {:induction false} SeenStays(trace: seq<Turn>, scene: Scene, k: nat, n: nat)
    requires k <= n <= |trace| && SeenUpTo(trace, scene, k) == Seen(true, true, true)
    ensures SeenUpTo(trace, scene, n) == Seen(true, true, true)
  {
    hide SeenIn, SeenOf, Narrated, OpeningAt;
    if k < n {
      SeenStays(trace, scene, k, n - 1);
      var turn := trace[n - 1];
      SeenStep(trace, scene, n - 1);
      SeenGrows(SeenOf(Narrated(trace[..n - 1], scene)), OpeningAt(scene, n - 1));
      SeenGrows(Seen(true, true, true), turn.whistled + turn.told);
      SeenGrows(Seen(true, true, true), turn.forced);
    }
  }

  lemma {:induction false} SeenMeans(ms: seq<Message>)
    ensures SeenOf(ms).tackle ==> exists i :: 0 <= i < |ms| && ms[i].Ev? && ms[i].event.Tackle?
    ensures SeenOf(ms).foul ==> exists i :: 0 <= i < |ms| && ms[i].Ev? && ms[i].event.Foul?
    ensures SeenOf(ms).out ==> exists i :: 0 <= i < |ms| && ms[i].Ev? && ms[i].event.OutOfBounds?
  {
    if ms != [] {
      var n := |ms| - 1;
      SeenMeans(ms[..n]);
      assert forall i :: 0 <= i < n ==> ms[..n][i] == ms[i];
      assert ms[n] == ms[|ms| - 1];
    }
  }

  /** A match of more than 5200 ms shows a tackle, a foul and a ball out of
      play, however the dice fall. */
  lemma CoverageForced(messages: seq<Message>, trace: seq<Turn>, scene: Scene)
    requires IsRun(messages, trace, scene) && 5_200 < scene.Duration()
    ensures exists i :: 0 <= i < |messages| && messages[i].Ev? && messages[i].event.Tackle?
    ensures exists i :: 0 <= i < |messages| && messages[i].Ev? && messages[i].event.Foul?
    ensures exists i :: 0 <= i < |messages| && messages[i].Ev? && messages[i].event.OutOfBounds?
  {
    hide Traced, Staged, SeenIn, SeenOf, Narrated, Many, SeenUpTo, FinalWhistle;
    var last: nat := (scene.Duration() - 5_001) / TICK_MS;
    assert 2 <= last && TICK_MS * last < scene.Duration() - 5_000 <= TICK_MS * last + TICK_MS;
    CoverageStep(trace, scene, last - 2);
    CoverageStep(trace, scene, last - 1);
    CoverageStep(trace, scene, last);
    AtMostThree(SeenUpTo(trace, scene, last + 1));
    AtMostThree(SeenUpTo(trace, scene, last));
    AtMostThree(SeenUpTo(trace, scene, last - 1));
    SeenStays(trace, scene, last + 1, |trace|);
    WholeSeen(messages, trace, scene);
    SeenMeans(messages);
  }

  lemma WholeSeen(messages: seq<Message>, trace: seq<Turn>, scene: Scene)
    requires IsRun(messages, trace, scene) && SeenUpTo(trace, scene, |trace|) == Seen(true, true, true)
    ensures SeenOf(messages) == Seen(true, true, true)
  {
    hide Traced, Staged, SeenIn, SeenOf, Narrated, FinalWhistle;
    assert trace[..|trace|] == trace;
    SeenTogether(Narrated(trace, scene), FinalWhistle(scene.Duration()));
    SeenGrows(SeenOf(Narrated(trace, scene)), FinalWhistle(scene.Duration()));
  }

  /** An event the match does not force. */
  predicate Unforced(e: Event) {
    e.Pass? || e.Shot? || e.Goal? || e.Save?
  }

  ghost predicate QuietDraws(scene: Scene) {
    forall n: nat :: 0.05 <= scene.setting.oracle.uniform(n)
  }

  /** When no draw is below 0.05 nothing is ever tried. */
  lemma {:induction false} QuietTurn(trace: seq<Turn>, scene: Scene, k: nat)
    requires Staged(scene) && Traced(trace, scene) && k < |trace| && QuietDraws(scene)
    ensures trace[k].start.phase.Play? && trace[k].stop.phase.Play? && trace[k].told == []
  {
    hide Traced, Staged, HalfTimeAt;
    TurnFollows(trace, scene, k);
    if k == 0 {
      OpensInPlay(scene);
    } else {
      QuietTurn(trace, scene, k - 1);
    }
    QuietPlay(trace, scene, k);
  }

  lemma QuietPlay(trace: seq<Turn>, scene: Scene, k: nat)
    requires Traced(trace, scene) && k < |trace| && QuietDraws(scene) && trace[k].start.phase.Play?
    ensures trace[k].told == [] && trace[k].stop.phase.Play?
  {
    hide Traced, Scattered, Ran, GoalDistance, Nearest, Gap, Outfield;
    PlayIsDiced(trace, scene, k);
  }

  ghost predicate Quiet(ms: seq<Message>) {
    forall i :: 0 <= i < |ms| && ms[i].Ev? ==> !Unforced(ms[i].event)
  }

  lemma {:induction false} QuietEvents(ms: seq<Message>, evs: seq<Event>)
    requires Quiet(ms) && forall i :: 0 <= i < |evs| ==> !Unforced(evs[i])
    ensures Quiet(ms + Wrap(evs))
  {
    if evs == [] {
      assert ms + Wrap(evs) == ms;
    } else {
      var n := |evs| - 1;
      QuietEvents(ms, evs[..n]);
      assert ms + Wrap(evs) == ms + Wrap(evs[..n]) + [Ev(evs[n])];
    }
  }

  lemma WhistledQuietly(scene: Scene, turn: Turn, prev: Stand, seen: Seen, k: nat)
    requires Interrupted(scene.setting, prev, turn.start, turn.whistled, TICK_MS * k, scene.opening)
    requires Forced(scene.setting, turn.stop.players, seen, turn.forced, TICK_MS * k) && turn.told == []
    ensures var evs := OpeningAt(scene, k) + turn.whistled + turn.told + turn.forced;
      forall i :: 0 <= i < |evs| ==> !Unforced(evs[i])
  {
    hide KickedOff, Substituted, Select, MostTired, HalfTimeAt, SubsDue;
    assert forall i :: 0 <= i < |turn.whistled| ==> !Unforced(turn.whistled[i]);
    assert forall i :: 0 <= i < |turn.forced| ==> !Unforced(turn.forced[i]);
  }

  lemma {:induction false} QuietStream(trace: seq<Turn>, scene: Scene)
    requires Staged(scene) && Traced(trace, scene) && QuietDraws(scene)
    ensures Quiet(Narrated(trace, scene))
  {
    hide Traced, Staged, QuietDraws, FrameOf, OpeningAt, Wrap, Interrupted, Forced, Dispatched, Possession, Conserved,
      AllFit, SeenBefore, StandBefore, SeenIn, Unforced;
    if trace != [] {
      var n := |trace| - 1;
      TracedFront(trace, scene, n);
      QuietStream(trace[..n], scene);
      QuietTurn(trace, scene, n);
      LawAt(trace, scene, n);
      var seen := SeenIn(SeenBefore(trace, scene, n), trace[n].whistled + trace[n].told);
      WhistledQuietly(scene, trace[n], StandBefore(trace, scene, n), seen, n);
      var evs := OpeningAt(scene, n) + trace[n].whistled + trace[n].told + trace[n].forced;
      QuietEvents(Narrated(trace[..n], scene), evs);
      assert Narrated(trace, scene)
          == Narrated(trace[..n], scene) + Wrap(evs) + [State(FrameAfter(scene, trace[n], n))];
    }
  }

  /** No other event is promised: when no draw is below 0.05, as when every draw
      is 0.99, the match has no pass, no shot, no goal and no save. */
  lemma QuietMatch(messages: seq<Message>, trace: seq<Turn>, scene: Scene)
    requires IsRun(messages, trace, scene) && QuietDraws(scene)
    ensures forall i :: 0 <= i < |messages| && messages[i].Ev? ==> !Unforced(messages[i].event)
  {
    hide Traced, Staged, QuietDraws, Narrated, Wrap;
    QuietStream(trace, scene);
    QuietEvents(Narrated(trace, scene), FinalWhistle(scene.Duration()));
  }

  // ---------- the frames ----------

  function FramesOf(ms: seq<Message>): seq<StateFrame> {
    if ms == [] then []
    else
      var front := FramesOf(ms[..|ms| - 1]);
      if ms[|ms| - 1].State? then front + [ms[|ms| - 1].frame] else front
  }

  lemma FramesOneMore(ms: seq<Message>, m: Message)
    ensures FramesOf(ms + [m]) == if m.State? then FramesOf(ms) + [m.frame] else FramesOf(ms)
  {
    assert (ms + [m])[..|ms|] == ms;
  }

  lemma {:induction false} EventsAddNoFrames(ms: seq<Message>, evs: seq<Event>)
    ensures FramesOf(ms + Wrap(evs)) == FramesOf(ms)
  {
    if evs == [] {
      assert ms + Wrap(evs) == ms;
    } else {
      var n := |evs| - 1;
      EventsAddNoFrames(ms, evs[..n]);
      assert ms + Wrap(evs) == ms + Wrap(evs[..n]) + [Ev(evs[n])];
      FramesOneMore(ms + Wrap(evs[..n]), Ev(evs[n]));
    }
  }

  function FrameAfter(scene: Scene, turn: Turn, k: nat): StateFrame {
    FrameOf(TICK_MS * k, turn.stop.ball, turn.stop.players, PeriodAt(scene.Duration(), TICK_MS * k))
  }

  /** The k-th frame of the stream shows the state at the end of tick `k`. */
  lemma {:induction false} FramesShowTrace(trace: seq<Turn>, scene: Scene)
    ensures |FramesOf(Narrated(trace, scene))| == |trace|
    ensures forall k :: 0 <= k < |trace| ==>
      FramesOf(Narrated(trace, scene))[k] == FrameAfter(scene, trace[k], k)
  {
    hide FrameOf, Wrap, FramesOf, PeriodAt, OpeningAt;
    if trace == [] {
      NoFramesYet(scene);
    } else {
      var n := |trace| - 1;
      FramesShowTrace(trace[..n], scene);
      var sent := Narrated(trace[..n], scene);
      var evs := OpeningAt(scene, n) + trace[n].whistled + trace[n].told + trace[n].forced;
      var frame := FrameAfter(scene, trace[n], n);
      assert Narrated(trace, scene) == sent + Wrap(evs) + [State(frame)];
      EventsAddNoFrames(sent, evs);
      FramesOneMore(sent + Wrap(evs), State(frame));
      assert FramesOf(Narrated(trace, scene)) == FramesOf(sent) + [frame];
      forall k | 0 <= k < |trace|
        ensures FramesOf(Narrated(trace, scene))[k] == FrameAfter(scene, trace[k], k)
      {
        if k < n {
          assert trace[..n][k] == trace[k];
        }
      }
    }
  }

  lemma NoFramesYet(scene: Scene)
    ensures FramesOf(Narrated([], scene)) == []
  {
    assert Narrated([], scene)[..0] == [];
  }

  lemma FrameShowsSquads(cast: seq<PlayerSim>, a: Stand, t: int, period: int)
    requires Coherent(a, cast)
    ensures FrameShows(FrameOf(t, a.ball, a.players, period), OnPitchCount(cast, 0) + OnPitchCount(cast, 1))
  {
    hide Possession;
    var carrierId := CarrierId(a.ball, a.players);
    SquadsComplete(cast, a.players, 0);
    SquadsComplete(cast, a.players, 1);
    ShownCount(a.players, carrierId);
    var shown := Shown(a.players, carrierId);
    forall k | 0 <= k < |shown|
      ensures InBox(shown[k].pos)
    {
      var i := ShownFrom(a.players, carrierId, k);
      assert Fit(a.players[i]);
    }
  }

  lemma {:induction false} EventsShowNothing(ms: seq<Message>, evs: seq<Event>, n: nat)
    requires AllFramesShow(ms, n) && InitFirst(ms) && ms != []
    ensures AllFramesShow(ms + Wrap(evs), n) && InitFirst(ms + Wrap(evs))
  {
    if evs == [] {
      assert ms + Wrap(evs) == ms;
    } else {
      EventsShowNothing(ms, evs[..|evs| - 1], n);
      assert ms + Wrap(evs) == ms + Wrap(evs[..|evs| - 1]) + [Ev(evs[|evs| - 1])];
    }
  }

  /** The stream starts with the opening message, and every frame shows the
      squads, everybody in the box. */
  lemma {:induction false} EveryFrameShows(trace: seq<Turn>, scene: Scene)
    requires Traced(trace, scene)
    ensures var ms := Narrated(trace, scene);
      && AllFramesShow(ms, OnPitchCount(scene.Cast(), 0) + OnPitchCount(scene.Cast(), 1))
      && InitFirst(ms) && ms != [] && ms[0] == Opening(scene.setting.cfg)
  {
    hide Traced, TurnLaw, FrameOf, Wrap, FrameShows, OnPitchCount, OpeningAt, Coherent, CastOf;
    if trace != [] {
      var n, total := |trace| - 1, OnPitchCount(scene.Cast(), 0) + OnPitchCount(scene.Cast(), 1);
      TracedFront(trace, scene, n);
      EveryFrameShows(trace[..n], scene);
      var sent := Narrated(trace[..n], scene);
      var evs := OpeningAt(scene, n) + trace[n].whistled + trace[n].told + trace[n].forced;
      var frame := FrameAfter(scene, trace[n], n);
      assert Narrated(trace, scene) == sent + Wrap(evs) + [State(frame)];
      EventsShowNothing(sent, evs, total);
      StopCoherent(trace, scene, n);
      FrameShowsSquads(scene.Cast(), trace[n].stop, TICK_MS * n, PeriodAt(scene.Duration(), TICK_MS * n));
    }
  }

  lemma StopCoherent(trace: seq<Turn>, scene: Scene, k: nat)
    requires Traced(trace, scene) && k < |trace|
    ensures Coherent(trace[k].stop, scene.Cast())
  {
    hide Traced, Dispatched, Forced, Interrupted, SeenBefore, StandBefore, Coherent, SeenIn;
    LawAt(trace, scene, k);
  }

  /** The same for a whole run. */
  lemma RunShows(messages: seq<Message>, trace: seq<Turn>, scene: Scene)
    requires IsRun(messages, trace, scene)
    ensures AllFramesShow(messages, OnPitchCount(scene.Cast(), 0) + OnPitchCount(scene.Cast(), 1))
    ensures InitFirst(messages) && messages != [] && messages[0] == Opening(scene.setting.cfg)
  {
    hide Traced, Staged, Narrated, FinalWhistle, AllFramesShow, InitFirst, OnPitchCount, CastOf, Wrap;
    EveryFrameShows(trace, scene);
    EventsShowNothing(Narrated(trace, scene), FinalWhistle(scene.Duration()),
                      OnPitchCount(scene.Cast(), 0) + OnPitchCount(scene.Cast(), 1));
  }

  // ---------- all together ----------

  /** Every tick of the run: play has been seen lately, nobody moves more than
      0.7 m but those repositioned, the ball is over the field, what is tried in
      play is what the dice say, and a shot that arrives is told as its own dice
      said, goals coming from nothing else. */
  ghost predicate WellRun(trace: seq<Turn>, scene: Scene) {
    && scene.setting.maths.Lawful()
    && forall k: nat :: k < |trace| ==>
      && SeenPlay(trace, k)
      && MovesWell(StandBefore(trace, scene, k).players, trace[k], scene.Duration(), TICK_MS * k)
      && BallLaw(trace[k].stop)
      && PlayedByDice(trace, scene, k)
      && (Arrives(trace, k) ==> DecidedByDice(trace, scene, k))
      && (TellsGoal(trace[k].whistled + trace[k].told + trace[k].forced) ==> Arrives(trace, k))
  }

  lemma EveryRun(messages: seq<Message>, trace: seq<Turn>, scene: Scene)
    requires IsRun(messages, trace, scene)
    ensures WellRun(trace, scene)
  {
    hide Staged, Narrated, FinalWhistle, SeenPlay, MovesWell, BallLaw, DecidedByDice, TellsGoal, Arrives, ScoringShot,
      Wrap, Lawful, PlayedByDice;
    forall k: nat | k < |trace|
      ensures SeenPlay(trace, k)
      ensures MovesWell(StandBefore(trace, scene, k).players, trace[k], scene.Duration(), TICK_MS * k)
      ensures BallLaw(trace[k].stop) && PlayedByDice(trace, scene, k)
      ensures Arrives(trace, k) ==> DecidedByDice(trace, scene, k)
      ensures TellsGoal(trace[k].whistled + trace[k].told + trace[k].forced) ==> Arrives(trace, k)
    {
      PlaySeen(trace, scene, k);
      TickMoves(trace, scene, k);
      BallStaysOverField(trace, scene, k);
      PlayIsDiced(trace, scene, k);
      if Arrives(trace, k) {
        ShotsDecidedByDice(trace, scene, k);
      }
      GoalsExactly(trace, scene, k);
    }
  }

  lemma PlaySeen(trace: seq<Turn>, scene: Scene, k: nat)
    requires Staged(scene) && Traced(trace, scene) && k < |trace|
    ensures SeenPlay(trace, k)
  {
    hide Staged, Traced, InPlay;
    var j := PlayResumes(trace, scene, k);
  }
}
