/** The 10 Hz match simulator: a state machine over a phase, a ball, the players
    and an event buffer, driven by an arbitrary random oracle. */
module Simulation {
  import opened Options
  import opened Numerics
  import opened Pitch
  import opened MatchStream
  import opened Squad

  const TICK_MS := 100
  const STATE_PERIOD_MS := 100
  const HALF_DURATION_MS := 2_700_000
  const FINAL_THIRD_X := 25.0
  const PASS_PROB_PER_TICK := 0.05
  const SHOT_PROB_FINAL_THIRD := 0.0022
  const TACKLE_PROB_PER_TICK := 0.012
  const FOUL_PROB_PER_TICK := 0.0035
  const OUT_OF_BOUNDS_PROB_PER_TICK := 0.0035
  const GOAL_PROB_ON_SHOT := 0.25
  const ON_TARGET_PROB_ON_SHOT := 0.55

  datatype Config = Config(matchId: string, matchDurationMs: nat, home: Team, away: Team, startTime: string)
  {
    function Of(side: Side): Team {
      if side == 0 then home else away
    }

    function Roster(): seq<Player> {
      home.players + away.players
    }

    /** What the roster loader and the stream format ask of the teams, and the
        two roles a starting eleven cannot do without. */
    ghost predicate Playable() {
      && home.id != away.id
      && (forall i :: 0 <= i < |Roster()| ==> Roster()[i].id != "")
      && (forall i, j :: 0 <= i < j < |Roster()| ==> Roster()[i].id != Roster()[j].id)
      && FieldsBothRoles(home) && FieldsBothRoles(away)
    }
  }

  /** The first message of a run. */
  function Opening(cfg: Config): Message {
    Init(MatchInit(cfg.matchId, cfg.home, cfg.away, cfg.startTime))
  }

  function StartingXI(team: Team): seq<Player> {
    if |team.players| < 11 then team.players else team.players[..11]
  }

  /** Everybody on the rosters, as they line up. */
  function CastOf(cfg: Config): seq<PlayerSim> {
    LineUpOf(cfg.home, 0) + LineUpOf(cfg.away, 1)
  }

  ghost predicate FieldsBothRoles(team: Team) {
    && (exists i :: 0 <= i < |StartingXI(team)| && StartingXI(team)[i].position == "GK")
    && (exists i :: 0 <= i < |StartingXI(team)| && StartingXI(team)[i].position != "GK")
  }

  /** Players are named by their index in the cast; ids are distinct. */
  datatype Ball = Ball(pos: Vec3, vel: Vec3, carrier: Option<nat>)

  datatype Phase =
    | Play(possessing: Side)
    | BallInFlight(possessing: Side, receiver: nat, startT: int, arrivalT: int, from: Vec2, target: Vec2)
    | ShotInFlight(possessing: Side, shooter: nat, keeper: nat, startT: int, arrivalT: int, from: Vec2,
                   goalTarget: Vec3, willGoal: bool, onTarget: bool)
    | Celebrate(resumeT: int, nextKickoffTeam: Side)
    | AwaitRestart(resumeT: int, restartTeam: Side, restartType: Restart)
    | HalftimePaused(resumeT: int)

  /** Who has the ball in each phase. The carrier may have been substituted, in
      which case he plays on off the pitch, so the carrier's place is asked for
      separately. */
  ghost predicate Possession(phase: Phase, ball: Ball, ps: seq<PlayerSim>) {
    && (ball.carrier.Some? ==> ball.carrier.value < |ps| && InBox(ps[ball.carrier.value].pos))
    && match phase
       case Play(side) => ball.carrier.Some? && ps[ball.carrier.value].team == side
       case BallInFlight(side, receiver, _, _, _, _) =>
         ball.carrier.None? && receiver < |ps| && ps[receiver].team == side
       case ShotInFlight(side, shooter, keeper, _, _, _, _, willGoal, onTarget) =>
         && ball.carrier.None?
         && shooter < |ps| && ps[shooter].team == side
         && keeper < |ps| && Keeper(ps[keeper], 1 - side)
         && (willGoal ==> onTarget)
       case Celebrate(_, _) => ball.carrier.None?
       case AwaitRestart(_, _, _) => true
       case HalftimePaused(_) => false
  }

  /** The events of a buffer with time at most `t`, and the others. */
  function Due(evs: seq<Event>, t: int): seq<Event> {
    if evs == [] then []
    else
      var front := Due(evs[..|evs| - 1], t);
      if evs[|evs| - 1].t <= t then front + [evs[|evs| - 1]] else front
  }

  function NotDue(evs: seq<Event>, t: int): seq<Event> {
    if evs == [] then []
    else
      var front := NotDue(evs[..|evs| - 1], t);
      if evs[|evs| - 1].t <= t then front else front + [evs[|evs| - 1]]
  }

  /** One more event of the buffer is looked at. */
  lemma DueOneMore(evs: seq<Event>, k: nat, t: int)
    requires k < |evs|
    ensures Due(evs[..k + 1], t) == if evs[k].t <= t then Due(evs[..k], t) + [evs[k]] else Due(evs[..k], t)
    ensures NotDue(evs[..k + 1], t) == if evs[k].t <= t then NotDue(evs[..k], t) else NotDue(evs[..k], t) + [evs[k]]
  {
    assert evs[..k + 1][..k] == evs[..k];
  }

  lemma {:induction false} AllDue(evs: seq<Event>, t: int)
    requires forall i :: 0 <= i < |evs| ==> evs[i].t <= t
    ensures Due(evs, t) == evs && NotDue(evs, t) == []
  {
    if evs != [] {
      AllDue(evs[..|evs| - 1], t);
      assert evs == evs[..|evs| - 1] + [evs[|evs| - 1]];
    }
  }

  lemma {:induction false} NoneDue(evs: seq<Event>, t: int)
    requires forall i :: 0 <= i < |evs| ==> t < evs[i].t
    ensures Due(evs, t) == [] && NotDue(evs, t) == evs
  {
    if evs != [] {
      NoneDue(evs[..|evs| - 1], t);
      assert evs == evs[..|evs| - 1] + [evs[|evs| - 1]];
    }
  }

  /** What a frame shows of the players on the pitch. */
  function ShownAs(p: PlayerSim, carrierId: Option<string>): PlayerState {
    PlayerState(p.id, p.pos, p.facing, p.anim, carrierId == Some(p.id), Round(p.fatigue * 1000.0) as real / 1000.0)
  }

  function Shown(ps: seq<PlayerSim>, carrierId: Option<string>): seq<PlayerState> {
    if ps == [] then []
    else
      var front := Shown(ps[..|ps| - 1], carrierId);
      var p := ps[|ps| - 1];
      if p.isOnPitch then front + [ShownAs(p, carrierId)] else front
  }

  /** Every shown player is some player on the pitch, shown as he is. */
  lemma {:induction false} ShownFrom(ps: seq<PlayerSim>, carrierId: Option<string>, k: nat) returns (i: nat)
    requires k < |Shown(ps, carrierId)|
    ensures i < |ps| && ps[i].isOnPitch && Shown(ps, carrierId)[k] == ShownAs(ps[i], carrierId)
  {
    var n := |ps| - 1;
    if k < |Shown(ps[..n], carrierId)| {
      i := ShownFrom(ps[..n], carrierId, k);
    } else {
      i := n;
    }
  }

  lemma {:induction false} ShownOnce(ps: seq<PlayerSim>, carrierId: Option<string>)
    requires forall i, j :: 0 <= i < j < |ps| ==> ps[i].id != ps[j].id
    ensures forall j, k :: 0 <= j < k < |Shown(ps, carrierId)| ==>
      Shown(ps, carrierId)[j].id != Shown(ps, carrierId)[k].id
  {
    if ps != [] {
      var n := |ps| - 1;
      var front := Shown(ps[..n], carrierId);
      ShownOnce(ps[..n], carrierId);
      forall k | 0 <= k < |front|
        ensures front[k].id != ps[n].id
      {
        var i := ShownFrom(ps[..n], carrierId, k);
        assert ps[..n][i] == ps[i];
      }
      var r := Shown(ps, carrierId);
      assert r == front || r == front + [ShownAs(ps[n], carrierId)];
      forall j, k | 0 <= j < k < |r|
        ensures r[j].id != r[k].id
      {
        assert r[j] == front[j];
        if k < |front| {
          assert r[k] == front[k];
        }
      }
    }
  }

  lemma ShownLegal(ps: seq<PlayerSim>, carrierId: Option<string>)
    requires AllFit(ps)
    requires forall i, j :: 0 <= i < j < |ps| ==> ps[i].id != ps[j].id
    ensures PlayersLegal(Shown(ps, carrierId)) && MarksAgree(Shown(ps, carrierId), carrierId)
  {
    var r := Shown(ps, carrierId);
    ShownOnce(ps, carrierId);
    forall k | 0 <= k < |r|
      ensures 0.0 <= r[k].fatigue <= 1.0
      ensures r[k].hasBall ==> carrierId == Some(r[k].id)
    {
      var i := ShownFrom(ps, carrierId, k);
      assert Fit(ps[i]);
      RoundedShare(ps[i].fatigue);
    }
  }

  lemma {:induction false} ShownCount(ps: seq<PlayerSim>, carrierId: Option<string>)
    ensures |Shown(ps, carrierId)| == OnPitchCount(ps, 0) + OnPitchCount(ps, 1)
  {
    if ps != [] {
      ShownCount(ps[..|ps| - 1], carrierId);
    }
  }

  function CarrierId(ball: Ball, ps: seq<PlayerSim>): Option<string> {
    if ball.carrier.Some? && ball.carrier.value < |ps| then Some(ps[ball.carrier.value].id) else None
  }

  function FrameOf(t: int, ball: Ball, ps: seq<PlayerSim>, period: int): StateFrame {
    StateFrame(t, ball.pos, ball.vel, CarrierId(ball, ps), Shown(ps, CarrierId(ball, ps)), period)
  }

  lemma {:induction false} ShownTo(ps: seq<PlayerSim>, carrierId: Option<string>, i: nat) returns (k: nat)
    requires i < |ps| && ps[i].isOnPitch
    ensures k < |Shown(ps, carrierId)| && Shown(ps, carrierId)[k] == ShownAs(ps[i], carrierId)
  {
    var n := |ps| - 1;
    if i < n {
      k := ShownTo(ps[..n], carrierId, i);
    } else {
      k := |Shown(ps[..n], carrierId)|;
    }
  }

  /** A frame tells time, ball and carrier, and everybody on the pitch is in it
      where he is, marked exactly when he has the ball. */
  lemma FrameTells(t: int, ball: Ball, ps: seq<PlayerSim>, period: int, i: nat) returns (k: nat)
    requires ball.carrier.Some? ==> ball.carrier.value < |ps|
    requires DistinctIds(ps) && i < |ps| && ps[i].isOnPitch
    ensures var f := FrameOf(t, ball, ps, period);
      && f.t == t && f.ballPos == ball.pos && f.ballVel == ball.vel && f.period == period
      && f.carrier == (if ball.carrier.Some? then Some(ps[ball.carrier.value].id) else None)
      && k < |f.players| && f.players[k].id == ps[i].id && f.players[k].pos == ps[i].pos
      && f.players[k].facing == ps[i].facing && f.players[k].anim == ps[i].anim
      && (f.players[k].hasBall <==> ball.carrier == Some(i))
      && -0.0005 <= f.players[k].fatigue - ps[i].fatigue <= 0.0005
  {
    k := ShownTo(ps, CarrierId(ball, ps), i);
  }

  /** The frame shows `n` players, all inside the box. */
  ghost predicate FrameShows(f: StateFrame, n: nat) {
    |f.players| == n && forall i :: 0 <= i < |f.players| ==> InBox(f.players[i].pos)
  }

  ghost predicate AllFramesShow(messages: seq<Message>, n: nat) {
    forall k :: 0 <= k < |messages| && messages[k].State? ==> FrameShows(messages[k].frame, n)
  }

  lemma RoundedShare(x: real)
    requires 0.0 <= x <= 1.0
    ensures 0.0 <= Round(x * 1000.0) as real / 1000.0 <= 1.0
  {
    assert 0.0 <= x * 1000.0 <= 1000.0;
    var r := Round(x * 1000.0);
    assert 0 <= r <= 1000;
  }

  /** How one player who does not have the ball moves in a tick. */
  function DriftTarget(p: PlayerSim, carrierTeam: Option<Side>, carrierPos: Option<Vec2>): Vec2 {
    match carrierTeam
    case None => p.homeSlot
    case Some(side) =>
      var pushed := Vec2(p.homeSlot.x + if side == 0 then 6.0 else -6.0, p.homeSlot.y);
      if side != p.team && carrierPos.Some? then
        Vec2((pushed.x + carrierPos.value.x * 0.3) / 1.3, (pushed.y + carrierPos.value.y * 0.3) / 1.3)
      else pushed
  }

  function Drifted(m: Maths, p: PlayerSim, target: Vec2, speed: real): PlayerSim
    requires m.Lawful()
  {
    var step := speed * TICK_MS as real / 1000.0;
    var pos := MoveToward(m, p.pos, target, step);
    var moved := Dist(m, p.pos, pos);
    p.(pos := pos,
       facing := if moved > 0.05 then m.atan2(pos.y - p.pos.y, pos.x - p.pos.x) else p.facing,
       anim := if moved < 0.05 then Idle else if speed < 1.5 then Walk else if speed < 4.0 then Run else Sprint,
       fatigue := Clamp(p.fatigue + 0.00005 * step, 0.0, 1.0))
  }

  const STRIDE_SQ := 0.49 // (0.7 m)^2

  ghost predicate Stride(p: PlayerSim, q: PlayerSim) {
    DistSq(p.pos, q.pos) <= STRIDE_SQ
  }

  lemma DriftedFit(m: Maths, p: PlayerSim, target: Vec2, speed: real)
    requires m.Lawful() && Fit(p) && p.isOnPitch && InBox(target) && 0.0 <= speed <= 5.0
    ensures var q := Drifted(m, p, target, speed); Fit(q) && Shape(q) == Shape(p) && Stride(p, q)
  {
    var step := speed * TICK_MS as real / 1000.0;
    assert step == speed / 10.0;
    MoveTowardInBox(m, p.pos, target, step);
    MoveTowardStep(m, p.pos, target, step);
    SquareMonotone(step, 0.5);
  }
}
