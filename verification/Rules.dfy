/** The rules of a tick: how what it finds, the draws it makes, what it leaves
    and the events it tells hang together. Each rule fixes the outcome. */
module Rules {
  import opened Options
  import opened Numerics
  import opened Pitch
  import opened MatchStream
  import opened Squad
  import opened Simulation
  import Sorting

  /** What a run is given: the teams, the library functions and the generator. */
  datatype Setting = Setting(cfg: Config, maths: Maths, oracle: Oracle)

  /** How the match stands, and how many draws and samples have been made. */
  datatype Stand = Stand(phase: Phase, ball: Ball, players: seq<PlayerSim>, home: nat, away: nat,
                         drawn: nat, sampled: nat)

  predicate Carried(a: Stand) {
    a.ball.carrier.Some? && a.ball.carrier.value < |a.players|
  }

  function ClampInt(v: int, lo: int, hi: int): (r: int)
    requires lo <= hi
    ensures lo <= r <= hi
    ensures lo <= v <= hi ==> r == v
    ensures v <= lo ==> r == lo
    ensures hi <= v ==> r == hi
  {
    if v < lo then lo else if hi < v then hi else v
  }

  /** The ball at the feet of player `i`. */
  function HeldBy(ps: seq<PlayerSim>, i: nat): Ball
    requires i < |ps|
  {
    Ball(Vec3(ps[i].pos.x, ps[i].pos.y, 0.3), Vec3(0.0, 0.0, 0.0), Some(i))
  }

  /** Player `i` with another animation. */
  function Acting(ps: seq<PlayerSim>, i: nat, anim: AnimTag): seq<PlayerSim>
    requires i < |ps|
  {
    ps[i := ps[i].(anim := anim)]
  }

  // ---------- who is where ----------

  ghost predicate Ascending(s: seq<nat>) {
    forall i, j :: 0 <= i < j < |s| ==> s[i] < s[j]
  }

  lemma OneMoreAscends(s: seq<nat>, part: seq<nat>)
    requires s != [] && Ascending(s) && Ascending(part)
    requires forall q :: q in part ==> q in s[..|s| - 1]
    ensures Ascending(part + [s[|s| - 1]])
  {
    forall i | 0 <= i < |part|
      ensures part[i] < s[|s| - 1]
    {
      var q := part[i];
      assert q in part;
      assert q in s[..|s| - 1];
    }
  }

  function Without(s: seq<nat>, x: nat): (r: seq<nat>)
    ensures forall q: nat :: q in r <==> q in s && q != x
  {
    if s == [] then []
    else
      var front := Without(s[..|s| - 1], x);
      assert s == s[..|s| - 1] + [s[|s| - 1]];
      if s[|s| - 1] == x then front else front + [s[|s| - 1]]
  }

  lemma {:induction false} WithoutAscends(s: seq<nat>, x: nat)
    requires Ascending(s)
    ensures Ascending(Without(s, x))
  {
    if s != [] {
      WithoutAscends(s[..|s| - 1], x);
      OneMoreAscends(s, Without(s[..|s| - 1], x));
    }
  }

  /** Outfield team-mates of player `c` on the pitch. */
  function TeamMates(ps: seq<PlayerSim>, c: nat): (r: seq<nat>)
    requires c < |ps|
    ensures forall q: nat :: q in r <==> q < |ps| && Outfield(ps[q], ps[c].team) && q != c
    ensures Ascending(r)
  {
    MembersOfSelect(ps, OutfieldOf(ps[c].team));
    WithoutAscends(Select(ps, OutfieldOf(ps[c].team)), c);
    Without(Select(ps, OutfieldOf(ps[c].team)), c)
  }

  /** How far player `q` is from player `c`. */
  function Gap(m: Maths, ps: seq<PlayerSim>, c: nat, q: nat): real {
    if c < |ps| && q < |ps| then Dist(m, ps[c].pos, ps[q].pos) else 0.0
  }

  predicate InPassRange(m: Maths, ps: seq<PlayerSim>, c: nat, q: nat) {
    c < |ps| && q < |ps| && 4.0 < Gap(m, ps, c, q) < 35.0
  }

  /** How far the distance of player `q` to player `c` is from 14 m. */
  function Away14(m: Maths, ps: seq<PlayerSim>, c: nat, q: nat): real {
    var d := Gap(m, ps, c, q) - 14.0;
    if d < 0.0 then -d else d
  }

  function Nearby(m: Maths, ps: seq<PlayerSim>, c: nat, s: seq<nat>): (r: seq<nat>)
    ensures forall q: nat :: q in r <==> q in s && InPassRange(m, ps, c, q)
  {
    if s == [] then []
    else
      var front := Nearby(m, ps, c, s[..|s| - 1]);
      assert s == s[..|s| - 1] + [s[|s| - 1]];
      if InPassRange(m, ps, c, s[|s| - 1]) then front + [s[|s| - 1]] else front
  }

  lemma {:induction false} NearbyAscends(m: Maths, ps: seq<PlayerSim>, c: nat, s: seq<nat>)
    requires Ascending(s)
    ensures Ascending(Nearby(m, ps, c, s))
  {
    hide InPassRange;
    if s != [] {
      NearbyAscends(m, ps, c, s[..|s| - 1]);
      OneMoreAscends(s, Nearby(m, ps, c, s[..|s| - 1]));
    }
  }

  /** Player `a` is the better target: nearer to 14 m away, on ties the earlier. */
  predicate Better(m: Maths, ps: seq<PlayerSim>, c: nat, a: nat, b: nat) {
    || Away14(m, ps, c, a) < Away14(m, ps, c, b)
    || (Away14(m, ps, c, a) == Away14(m, ps, c, b) && a < b)
  }

  /** Passing options of player `c`: outfield team-mates more than 4 m and less
      than 35 m away, the better ones first. */
  function RankedTargets(m: Maths, ps: seq<PlayerSim>, c: nat): (r: seq<nat>)
    requires c < |ps|
    ensures forall q: nat :: q in r <==> q in TeamMates(ps, c) && InPassRange(m, ps, c, q)
    ensures forall i, j :: 0 <= i < j < |r| ==> Better(m, ps, c, r[i], r[j])
  {
    var near := Nearby(m, ps, c, TeamMates(ps, c));
    var nearer := (a: nat, b: nat) => Away14(m, ps, c, a) <= Away14(m, ps, c, b);
    Sorting.MemberOfSort(near, nearer);
    Sorting.StableSortSorted(near, nearer);
    NearbyAscends(m, ps, c, TeamMates(ps, c));
    Sorting.StableSortTies(near, nearer);
    Ranked(m, ps, c, Sorting.StableSort(near, nearer), nearer);
    Sorting.StableSort(near, nearer)
  }

  lemma Ranked(m: Maths, ps: seq<PlayerSim>, c: nat, r: seq<nat>, nearer: (nat, nat) -> bool)
    requires Sorting.Sorted(r, nearer) && Sorting.TiesInOrder(r, nearer)
    requires forall a: nat, b: nat :: nearer(a, b) == (Away14(m, ps, c, a) <= Away14(m, ps, c, b))
    ensures forall i, j :: 0 <= i < j < |r| ==> Better(m, ps, c, r[i], r[j])
  {
    forall i, j | 0 <= i < j < |r|
      ensures Better(m, ps, c, r[i], r[j])
    {
      assert nearer(r[i], r[j]);
      assert nearer(r[j], r[i]) ==> r[i] < r[j];
    }
  }

  /** The outfield opponent nearest to player `c`, the first of them on ties. */
  ghost predicate Nearest(m: Maths, ps: seq<PlayerSim>, c: nat, opp: nat) {
    && c < |ps| && opp < |ps| && Outfield(ps[opp], 1 - ps[c].team)
    && forall k: nat :: k < |ps| && Outfield(ps[k], 1 - ps[c].team) ==>
         if k < opp then Gap(m, ps, c, opp) < Gap(m, ps, c, k) else Gap(m, ps, c, opp) <= Gap(m, ps, c, k)
  }

  /** How far player `c` is from the goal he attacks. */
  function GoalDistance(m: Maths, ps: seq<PlayerSim>, c: nat): real
    requires c < |ps|
  {
    var goal := OppositionGoalCentre(ps[c].team);
    Dist(m, Vec2(goal.x, goal.y), ps[c].pos)
  }

  /** The first striker of the side on the pitch, or else its first outfielder. */
  ghost predicate IsStriker(ps: seq<PlayerSim>, side: Side, i: nat) {
    && i < |ps| && Outfield(ps[i], side)
    && if ps[i].position == "ST" then forall j :: 0 <= j < i && Outfield(ps[j], side) ==> ps[j].position != "ST"
       else forall j :: 0 <= j < |ps| && Outfield(ps[j], side) ==> ps[j].position != "ST" && i <= j
  }

  predicate AttackingThird(side: Side, x: real) {
    if side == 0 then x > FINAL_THIRD_X else x < -FINAL_THIRD_X
  }

  // ---------- moving ----------

  /** The carrier has run at the goal with some swerve and taken the ball along:
      a draw for his speed and a sample for the swerve. */
  function Ran(e: Setting, a: Stand): Stand
    requires Carried(a)
  {
    var c := a.ball.carrier.value;
    var goal := OppositionGoalCentre(a.players[c].team);
    var swerve := 0.24 * e.oracle.gauss(a.sampled);
    var speed := Stretch(4.0, 7.0, e.oracle.uniform(a.drawn));
    Running(e.maths, a, c, AngleTo(e.maths, a.players[c].pos, Vec2(goal.x, goal.y)) + swerve, speed)
  }

  function Running(m: Maths, a: Stand, c: nat, angle: real, speed: real): (b: Stand)
    requires c < |a.players|
    ensures |b.players| == |a.players| && b.ball.carrier == Some(c) && b.phase == a.phase
  {
    var next := CarrierNext(m, a.players[c].pos, angle, speed / 10.0);
    a.(players := a.players[c := a.players[c].(pos := next, facing := angle,
                                               anim := if speed > 5.5 then Sprint else Run)],
       ball := Ball(Vec3(next.x, next.y, 0.3), Vec3(m.cos(angle) * speed, m.sin(angle) * speed, 0.0), Some(c)),
       drawn := a.drawn + 1, sampled := a.sampled + 1)
  }

  /** Without swerve a carrier far enough from the goal gets nearer to it by his
      whole stride of 0.4 to 0.7 m, but for being held in the box. */
  lemma RunsAtGoal(e: Setting, a: Stand)
    requires e.maths.Lawful() && Polar(e.maths) && Carried(a) && e.oracle.gauss(a.sampled) == 0.0
    requires 0.7 <= GoalDistance(e.maths, a.players, a.ball.carrier.value)
    requires InBox(a.players[a.ball.carrier.value].pos)
    ensures
      var c := a.ball.carrier.value;
      var from := a.players[c].pos;
      var goal := OppositionGoalCentre(a.players[c].team);
      var step := Stretch(4.0, 7.0, e.oracle.uniform(a.drawn)) / 10.0;
      exists ahead: Vec2 ::
        && Dist(e.maths, ahead, Vec2(goal.x, goal.y)) == Dist(e.maths, from, Vec2(goal.x, goal.y)) - step
        && Ran(e, a).players[c].pos == IntoBox(ahead)
        && DistSq(from, Ran(e, a).players[c].pos) <= step * step
  {
    hide Dist, DistSq, Polar;
    var c := a.ball.carrier.value;
    var from, goal := a.players[c].pos, OppositionGoalCentre(a.players[c].team);
    var to := Vec2(goal.x, goal.y);
    var step := Stretch(4.0, 7.0, e.oracle.uniform(a.drawn)) / 10.0;
    var angle := AngleTo(e.maths, from, to);
    assert angle + 0.24 * e.oracle.gauss(a.sampled) == angle;
    SameDist(e.maths, from, to);
    RunsAt(e.maths, from, to, step);
    CarrierStep(e.maths, from, angle, step);
    var ahead := Ahead(from, e.maths.cos(angle), e.maths.sin(angle), step);
    assert Ran(e, a).players[c].pos == IntoBox(ahead);
  }

  lemma SameDist(m: Maths, p: Vec2, q: Vec2)
    ensures Dist(m, p, q) == Dist(m, q, p)
  {
    SquareOfNegative(p.x, q.x);
    SquareOfNegative(p.y, q.y);
    assert DistSq(p, q) == DistSq(q, p);
  }

  predicate Drifts(a: Stand, i: nat) {
    i < |a.players| && a.players[i].isOnPitch && a.ball.carrier != Some(i)
  }

  /** How many players drift, and so how many draws that takes. */
  function Drifters(ps: seq<PlayerSim>, carrier: Option<nat>): nat {
    if ps == [] then 0
    else
      var n := |ps| - 1;
      Drifters(ps[..n], carrier) + if ps[n].isOnPitch && carrier != Some(n) then 1 else 0
  }

  lemma DriftersOneMore(ps: seq<PlayerSim>, carrier: Option<nat>, i: nat)
    requires i < |ps|
    ensures Drifters(ps[..i + 1], carrier)
         == Drifters(ps[..i], carrier) + if ps[i].isOnPitch && carrier != Some(i) then 1 else 0
  {
    assert ps[..i + 1][..i] == ps[..i];
  }

  lemma {:induction false} SameDrifters(ps: seq<PlayerSim>, qs: seq<PlayerSim>, carrier: Option<nat>)
    requires |ps| == |qs| && forall i :: 0 <= i < |ps| ==> ps[i].isOnPitch == qs[i].isOnPitch
    ensures Drifters(ps, carrier) == Drifters(qs, carrier)
  {
    if ps != [] {
      SameDrifters(ps[..|ps| - 1], qs[..|ps| - 1], carrier);
    }
  }

  /** The side in possession, when the phase names one. */
  function Possessing(phase: Phase): Option<Side> {
    if phase.Play? || phase.BallInFlight? || phase.ShotInFlight? then Some(phase.possessing) else None
  }

  function CarrierPos(a: Stand): Option<Vec2> {
    if Carried(a) then Some(a.players[a.ball.carrier.value].pos) else None
  }

  /** Where player `i` drifts: towards his place, unsteadily, goalkeepers slowly.
      The draw and the two samples are his, `k` others having come before him. */
  function Drift(e: Setting, a: Stand, i: nat, k: nat): PlayerSim
    requires e.maths.Lawful() && i < |a.players|
  {
    var aim := DriftTarget(a.players[i], Possessing(a.phase), CarrierPos(a));
    var x, y := 0.4 * e.oracle.gauss(a.sampled + 2 * k), 0.4 * e.oracle.gauss(a.sampled + 2 * k + 1);
    var u := e.oracle.uniform(a.drawn + k);
    Drifted(e.maths, a.players[i], IntoBox(Vec2(aim.x + x, aim.y + y)),
            if a.players[i].isGK then Stretch(0.5, 2.0, u) else Stretch(2.0, 5.0, u))
  }

  function DriftedOn(e: Setting, a: Stand, i: nat): PlayerSim
    requires e.maths.Lawful() && i < |a.players|
  {
    if Drifts(a, i) then Drift(e, a, i, Drifters(a.players[..i], a.ball.carrier)) else a.players[i]
  }

  /** Everybody on the pitch but the carrier has drifted, one after the other. */
  function Scattered(e: Setting, a: Stand): (b: Stand)
    requires e.maths.Lawful()
    ensures |b.players| == |a.players| && b.ball == a.ball && b.phase == a.phase
    ensures forall i :: 0 <= i < |a.players| ==> b.players[i] == DriftedOn(e, a, i)
  {
    var n := Drifters(a.players, a.ball.carrier);
    a.(players := seq(|a.players|, i requires 0 <= i < |a.players| => DriftedOn(e, a, i)),
       drawn := a.drawn + n, sampled := a.sampled + 2 * n)
  }

  /** Drifting tires: an outfielder by 10 to 25 millionths of his strength a
      tick, a goalkeeper by 2.5 to 10, until nothing is left. */
  lemma DriftTires(e: Setting, a: Stand, i: nat, k: nat)
    requires e.maths.Lawful() && i < |a.players| && 0.0 <= a.players[i].fatigue
    ensures
      var p, q := a.players[i], Drift(e, a, i, k);
      var least, most := if p.isGK then 0.0000025 else 0.00001, if p.isGK then 0.00001 else 0.000025;
      && q.fatigue <= 1.0
      && (p.fatigue + most <= 1.0 ==> p.fatigue + least <= q.fatigue < p.fatigue + most)
      && (1.0 <= p.fatigue + least ==> q.fatigue == 1.0)
  {
    hide MoveToward, Stretch, IntoBox, Dist, DriftTarget;
  }

  /** Steady nerves take a drifting man straight towards his place, which is
      where his slot is pushed 6 m with the play, and for a man of the other side
      3/13 of the way from there to the carrier. */
  lemma DriftNears(e: Setting, a: Stand, i: nat, k: nat)
    requires e.maths.Lawful() && i < |a.players| && a.phase.Play? && Carried(a)
    requires e.oracle.gauss(a.sampled + 2 * k) == 0.0 && e.oracle.gauss(a.sampled + 2 * k + 1) == 0.0
    ensures
      var p, q, at := a.players[i], Drift(e, a, i, k), a.players[a.ball.carrier.value].pos;
      var pushed := Vec2(p.homeSlot.x + if a.phase.possessing == 0 then 6.0 else -6.0, p.homeSlot.y);
      var aim := if p.team == a.phase.possessing then pushed
                 else Vec2(pushed.x + (at.x - pushed.x) * 3.0 / 13.0, pushed.y + (at.y - pushed.y) * 3.0 / 13.0);
      var u := e.oracle.uniform(a.drawn + k);
      var step := (if p.isGK then Stretch(0.5, 2.0, u) else Stretch(2.0, 5.0, u)) / 10.0;
      && (Dist(e.maths, p.pos, IntoBox(aim)) <= step ==> q.pos == IntoBox(aim))
      && (step < Dist(e.maths, p.pos, IntoBox(aim)) ==>
            Dist(e.maths, q.pos, IntoBox(aim)) == Dist(e.maths, p.pos, IntoBox(aim)) - step)
  {
    hide Dist, MoveToward, Stretch, IntoBox;
    var p, at := a.players[i], a.players[a.ball.carrier.value].pos;
    var aim := DriftTarget(p, Possessing(a.phase), CarrierPos(a));
    var pushed := Vec2(p.homeSlot.x + if a.phase.possessing == 0 then 6.0 else -6.0, p.homeSlot.y);
    assert p.team != a.phase.possessing ==>
      aim == Vec2(pushed.x + (at.x - pushed.x) * 3.0 / 13.0, pushed.y + (at.y - pushed.y) * 3.0 / 13.0);
    var x, y := 0.4 * e.oracle.gauss(a.sampled + 2 * k), 0.4 * e.oracle.gauss(a.sampled + 2 * k + 1);
    assert Vec2(aim.x + x, aim.y + y) == aim;
    var u := e.oracle.uniform(a.drawn + k);
    var speed := if p.isGK then Stretch(0.5, 2.0, u) else Stretch(2.0, 5.0, u);
    assert speed * TICK_MS as real / 1000.0 == speed / 10.0;
    MoveTowardNears(e.maths, p.pos, IntoBox(aim), speed / 10.0);
  }

  // ---------- what is tried in play ----------

  datatype Attempt = Nothing | Shooting | Tackling | Fouling | PuttingOut | Passing

  /** Tackle, foul, out and pass are diced for in this order until a die says yes. */
  function Contest(o: Oracle, n: nat): Attempt {
    if o.uniform(n) < TACKLE_PROB_PER_TICK then Tackling
    else if o.uniform(n + 1) < FOUL_PROB_PER_TICK then Fouling
    else if o.uniform(n + 2) < OUT_OF_BOUNDS_PROB_PER_TICK then PuttingOut
    else if o.uniform(n + 3) < PASS_PROB_PER_TICK then Passing
    else Nothing
  }

  /** A shot comes first, but only from the attacking third. */
  function Tried(o: Oracle, n: nat, final: bool): Attempt {
    if !final then Contest(o, n)
    else if o.uniform(n) < SHOT_PROB_FINAL_THIRD then Shooting
    else Contest(o, n + 1)
  }

  /** How many dice that took. */
  function Dice(attempt: Attempt, final: bool): nat {
    One(final) + match attempt
                 case Shooting => 0
                 case Tackling => 1
                 case Fouling => 2
                 case PuttingOut => 3
                 case _ => 4
  }

  ghost predicate NothingHappened(a: Stand, b: Stand, told: seq<Event>) {
    b == a && told == []
  }

  /** The nearest opponent tackles the carrier if he is within 2.5 m; in 55 of
      100 cases he wins the ball and the other man falls. */
  ghost predicate TackledBy(e: Setting, a: Stand, b: Stand, told: seq<Event>, t: int, opp: nat)
    requires Carried(a)
  {
    var c := a.ball.carrier.value;
    && Nearest(e.maths, a.players, c, opp)
    && if Gap(e.maths, a.players, c, opp) > 2.5 then NothingHappened(a, b, told)
       else
         var won := e.oracle.uniform(a.drawn) < 0.55;
         && told == [Tackle(t, a.players[opp].id, a.players[c].id, won)]
         && b == if won
                 then a.(phase := Play(1 - a.players[c].team), ball := HeldBy(a.players, opp),
                         players := Acting(Acting(a.players, opp, TackleTag), c, Fall), drawn := a.drawn + 1)
                 else a.(players := Acting(a.players, opp, TackleTag), drawn := a.drawn + 1)
  }

  ghost predicate Tackled(e: Setting, a: Stand, b: Stand, told: seq<Event>, t: int)
    requires Carried(a)
  {
    exists opp: nat :: TackledBy(e, a, b, told, t, opp)
  }

  /** How hard a foul was: soft in 70 of 100 cases, red in 3. */
  predicate Judged(u: real, severity: Severity) {
    match severity
    case Soft => u < 0.7
    case Yellow => 0.7 <= u < 0.97
    case Red => 0.97 <= u
  }

  /** A free kick for the carrier, and a card and its line unless the foul was soft. */
  ghost predicate FoulGiven(a: Stand, b: Stand, told: seq<Event>, t: int, opp: nat, severity: Severity)
    requires Carried(a) && opp < |a.players|
  {
    var c := a.ball.carrier.value;
    var stopped := a.(phase := AwaitRestart(t + 1500, a.players[c].team, FreeKick), ball := HeldBy(a.players, c));
    var foul := Foul(t, a.players[opp].id, a.players[c].id, severity);
    if severity == Soft then told == [foul] && b == stopped.(drawn := a.drawn + 1)
    else
      && told == [foul, Commentary(t, YellowCard)]
      && b == stopped.(players := a.players[opp := a.players[opp].(yellowCarded := severity == Yellow)],
                       drawn := a.drawn + 2)
  }

  /** The nearest opponent fouls the carrier if he is within 3 m. */
  ghost predicate FouledBy(e: Setting, a: Stand, b: Stand, told: seq<Event>, t: int, opp: nat, severity: Severity)
    requires Carried(a)
  {
    && Nearest(e.maths, a.players, a.ball.carrier.value, opp) && Judged(e.oracle.uniform(a.drawn), severity)
    && if Gap(e.maths, a.players, a.ball.carrier.value, opp) > 3.0 then NothingHappened(a, b, told)
       else FoulGiven(a, b, told, t, opp, severity)
  }

  ghost predicate Fouled(e: Setting, a: Stand, b: Stand, told: seq<Event>, t: int)
    requires Carried(a)
  {
    exists opp: nat, severity :: FouledBy(e, a, b, told, t, opp, severity)
  }

  /** Out over the side line in 60 of 100 cases, else half and half a corner or
      a goal kick. */
  function WentOutFor(o: Oracle, n: nat): Restart {
    if o.uniform(n) < 0.6 then ThrowIn else if o.uniform(n + 1) < 0.5 then Corner else GoalKick
  }

  function OutLine(restart: Restart): Bank {
    match restart
    case ThrowIn => OutThrow
    case Corner => OutCorner
    case _ => OutGoalKick
  }

  /** The carrier puts the ball out and the other side restarts; the ball stays
      with him until then. */
  ghost predicate PutOut(e: Setting, a: Stand, b: Stand, told: seq<Event>, t: int)
    requires Carried(a)
  {
    var p := a.players[a.ball.carrier.value];
    var restart := WentOutFor(e.oracle, a.drawn);
    && told == [OutOfBounds(t, p.id, restart), Commentary(t, OutLine(restart))]
    && b == a.(phase := AwaitRestart(t + 1500, 1 - p.team, restart),
               drawn := a.drawn + if restart == ThrowIn then 2 else 3)
  }

  /** Whom a pass goes to and how long it flies: by thirds of the draw one of the
      three best targets, or any team-mate when nobody is well placed. */
  ghost predicate PassChosen(m: Maths, ps: seq<PlayerSim>, c: nat, u: Uniform, to: nat, flightMs: int)
    requires c < |ps|
  {
    var ranked := RankedTargets(m, ps, c);
    var mates := TeamMates(ps, c);
    if ranked != [] then
      var k := if u < 1.0 / 3.0 then 0 else if u < 2.0 / 3.0 then 1 else 2;
      && to == ranked[if k < |ranked| then k else |ranked| - 1]
      && flightMs == ClampInt(Round(Gap(m, ps, c, to) * 60.0), 500, 1500)
    else mates != [] && to == mates[Index(|mates|, u)] && flightMs == 600
  }

  /** Those in range who are better placed than `to`. */
  function BetterPlaced(m: Maths, ps: seq<PlayerSim>, c: nat, to: nat): set<nat>
    requires c < |ps|
  {
    set q | q in TeamMates(ps, c) && InPassRange(m, ps, c, q) && Better(m, ps, c, q, to)
  }

  /** Who is passed to is in range if anybody is, and then at most two are better
      placed: none, one or two by thirds of the draw, if there are as many. */
  lemma PassAmongBest(m: Maths, ps: seq<PlayerSim>, c: nat, u: Uniform, to: nat, flightMs: int)
    requires c < |ps| && PassChosen(m, ps, c, u, to, flightMs)
    ensures (exists q: nat :: q in TeamMates(ps, c) && InPassRange(m, ps, c, q)) ==>
      && InPassRange(m, ps, c, to) && |BetterPlaced(m, ps, c, to)| <= 2
      && (u < 1.0 / 3.0 ==> |BetterPlaced(m, ps, c, to)| == 0)
      && (u < 2.0 / 3.0 ==> |BetterPlaced(m, ps, c, to)| <= 1)
  {
    hide RankedTargets, TeamMates, InPassRange, Better;
    var ranked := RankedTargets(m, ps, c);
    if ranked != [] {
      var k := if u < 1.0 / 3.0 then 0 else if u < 2.0 / 3.0 then 1 else 2;
      var i := if k < |ranked| then k else |ranked| - 1;
      assert ranked[i] in ranked;
      BetterAreBefore(m, ps, c, ranked, i);
    } else {
      forall q: nat | q in TeamMates(ps, c)
        ensures !InPassRange(m, ps, c, q)
      {
        assert q !in ranked;
      }
    }
  }

  lemma BetterAreBefore(m: Maths, ps: seq<PlayerSim>, c: nat, ranked: seq<nat>, i: nat)
    requires c < |ps| && ranked == RankedTargets(m, ps, c) && i < |ranked|
    ensures |BetterPlaced(m, ps, c, ranked[i])| <= i
  {
    hide RankedTargets, TeamMates, InPassRange, Away14;
    var before := set k | 0 <= k < i :: ranked[k];
    forall q | q in BetterPlaced(m, ps, c, ranked[i])
      ensures q in before
    {
      assert q in ranked;
      var k :| 0 <= k < |ranked| && ranked[k] == q;
      assert i < k ==> Better(m, ps, c, ranked[i], ranked[k]);
    }
    SizeOfFirst(ranked, i);
    Smaller(BetterPlaced(m, ps, c, ranked[i]), before);
  }

  lemma Smaller(a: set<nat>, b: set<nat>)
    requires a <= b
    ensures |a| <= |b|
  {
    if a != {} {
      var x :| x in a;
      Smaller(a - {x}, b - {x});
    }
  }

  lemma {:induction false} SizeOfFirst(s: seq<nat>, n: nat)
    requires n <= |s|
    ensures |set k | 0 <= k < n :: s[k]| <= n
  {
    if n > 0 {
      SizeOfFirst(s, n - 1);
      assert (set k | 0 <= k < n :: s[k]) == (set k | 0 <= k < n - 1 :: s[k]) + {s[n - 1]};
    }
  }

  ghost predicate PassedTo(e: Setting, a: Stand, b: Stand, told: seq<Event>, t: int, to: nat, flightMs: int)
    requires Carried(a)
  {
    var c := a.ball.carrier.value;
    var p := a.players[c];
    && PassChosen(e.maths, a.players, c, e.oracle.uniform(a.drawn), to, flightMs) && to in TeamMates(a.players, c)
    && told == [Pass(t, p.id, a.players[to].id, a.players[to].pos, true)]
    && b == a.(phase := BallInFlight(p.team, to, t, t + flightMs, p.pos, a.players[to].pos),
               ball := a.ball.(carrier := None), players := Acting(a.players, c, PassTag), drawn := a.drawn + 1)
  }

  /** A pass, when there is a team-mate; the ball is nobody's until it arrives. */
  ghost predicate Passed(e: Setting, a: Stand, b: Stand, told: seq<Event>, t: int)
    requires Carried(a)
  {
    if TeamMates(a.players, a.ball.carrier.value) == [] then NothingHappened(a, b, told)
    else exists to: nat, flightMs :: PassedTo(e, a, b, told, t, to, flightMs)
  }

  /** What the dice from `n` on make of a shot: on target in 55 of 100 cases, and
      of those a goal in 5 of 11. Four draws are made in any case. */
  predicate OnTarget(o: Oracle, n: nat) {
    o.uniform(n) < 0.55
  }

  predicate Scores(o: Oracle, n: nat) {
    OnTarget(o, n) && 11.0 * o.uniform(n + 1) < 5.0
  }

  /** A shot on target goes to within 3 m of the middle of the goal, any other
      6 m wide on either side. */
  function ShotAim(o: Oracle, n: nat, goalX: real): (r: Vec3)
    ensures r.x == goalX && 0.4 <= r.z < 2.4
    ensures if OnTarget(o, n) then -3.0 <= r.y < 3.0 else r.y == 6.0 || r.y == -6.0
  {
    if OnTarget(o, n) then Vec3(goalX, Stretch(-3.0, 3.0, o.uniform(n + 2)), Stretch(0.4, 2.4, o.uniform(n + 3)))
    else Vec3(goalX, if o.uniform(n + 3) < 0.5 then 6.0 else -6.0, Stretch(0.4, 2.4, o.uniform(n + 2)))
  }

  /** The ball is in the air towards the goal and nobody's. */
  function ShotOff(a: Stand, keeper: nat, t: int, flightMs: int, aim: Vec3, scores: bool, onTarget: bool): Stand
    requires Carried(a)
  {
    var c := a.ball.carrier.value;
    a.(phase := ShotInFlight(a.players[c].team, c, keeper, t, t + flightMs, a.players[c].pos, aim, scores, onTarget),
       ball := a.ball.(carrier := None), players := Acting(a.players, c, Shoot))
  }

  /** A shot from at most 35 m, faced by the first goalkeeper of the other side;
      its outcome is fixed when it is taken. */
  ghost predicate Fired(e: Setting, a: Stand, b: Stand, told: seq<Event>, t: int)
    requires Carried(a)
  {
    var c := a.ball.carrier.value;
    var p := a.players[c];
    var away := GoalDistance(e.maths, a.players, c);
    var keepers := Select(a.players, KeeperOf(1 - p.team));
    if away > 35.0 then NothingHappened(a, b, told)
    else
      var onTarget, scores := OnTarget(e.oracle, a.drawn), Scores(e.oracle, a.drawn);
      var aim := ShotAim(e.oracle, a.drawn, OppositionGoalCentre(p.team).x);
      && keepers != []
      && told == [Shot(t, p.id, aim, onTarget, false)]
      && b == ShotOff(a.(drawn := a.drawn + 4), keepers[0], t, ClampInt(Round(away * 30.0), 600, 1500), aim, scores,
                      onTarget)
  }

  /** What became of the one thing tried. */
  ghost predicate Outcome(e: Setting, attempt: Attempt, a: Stand, b: Stand, told: seq<Event>, t: int)
    requires Carried(a)
  {
    match attempt
    case Nothing => NothingHappened(a, b, told)
    case Shooting => Fired(e, a, b, told, t)
    case Tackling => Tackled(e, a, b, told, t)
    case Fouling => Fouled(e, a, b, told, t)
    case PuttingOut => PutOut(e, a, b, told, t)
    case Passing => Passed(e, a, b, told, t)
  }

  /** Everybody having moved, the dice say what is tried. */
  ghost predicate Acted(e: Setting, m: Stand, b: Stand, told: seq<Event>, t: int)
    requires Carried(m)
  {
    var p := m.players[m.ball.carrier.value];
    var final := AttackingThird(p.team, p.pos.x);
    var attempt := Tried(e.oracle, m.drawn, final);
    Outcome(e, attempt, m.(drawn := m.drawn + Dice(attempt, final)), b, told, t)
  }

  // ---------- the other phases ----------

  /** How much of a flight is over, from 0 to 1. */
  function FlightProgress(t: int, startT: int, arrivalT: int): (r: real)
    ensures 0.0 <= r <= 1.0
    ensures arrivalT <= t ==> r == 1.0
  {
    if arrivalT > startT then
      FlightDone(t, startT, arrivalT);
      Clamp((t - startT) as real / (arrivalT - startT) as real, 0.0, 1.0)
    else 1.0
  }

  lemma FlightDone(t: int, startT: int, arrivalT: int)
    requires arrivalT > startT
    ensures arrivalT <= t ==> 1.0 <= (t - startT) as real / (arrivalT - startT) as real
  {
    if arrivalT <= t {
      var whole, part := (arrivalT - startT) as real, (t - startT) as real;
      assert part / whole >= whole / whole;
    }
  }

  /** How high a straight line to this height has got. */
  function Climbed(height: real, progress: real): real {
    height * progress
  }

  /** How much higher than a straight line the ball flies. */
  function Bow(factor: real, progress: real): real {
    factor * progress * (1.0 - progress)
  }

  function FlightPosition(from: Vec2, target: Vec2, progress: real, z: real): Vec3 {
    Vec3(from.x + (target.x - from.x) * progress, from.y + (target.y - from.y) * progress, z)
  }

  /** A pass flies to where the receiver now is, or was when it was played if he
      has gone off; at its highest it is 1.5 m up. */
  function PassPosition(a: Stand, t: int): Vec3
    requires a.phase.BallInFlight? && a.phase.receiver < |a.players|
  {
    var progress := FlightProgress(t, a.phase.startT, a.phase.arrivalT);
    var receiver := a.players[a.phase.receiver];
    FlightPosition(a.phase.from, if receiver.isOnPitch then receiver.pos else a.phase.target, progress,
                   Bow(6.0, progress))
  }

  function ShotPosition(phase: Phase, t: int): Vec3
    requires phase.ShotInFlight?
  {
    var progress := FlightProgress(t, phase.startT, phase.arrivalT);
    FlightPosition(phase.from, Vec2(phase.goalTarget.x, phase.goalTarget.y), progress,
                   Climbed(phase.goalTarget.z, progress) + Bow(10.0, progress))
  }

  /** A pass in the air. On arrival the receiver has the ball, or, when he has
      gone off, the first outfielder of the other side. */
  ghost predicate Landed(a: Stand, b: Stand, told: seq<Event>, t: int)
    requires a.phase.BallInFlight? && a.phase.receiver < |a.players|
  {
    var to, others := a.phase.receiver, Select(a.players, OutfieldOf(1 - a.phase.possessing));
    && told == []
    && if t < a.phase.arrivalT then b == a.(ball := a.ball.(pos := PassPosition(a, t)))
       else if a.players[to].isOnPitch then
         b == a.(phase := Play(a.players[to].team), ball := HeldBy(a.players, to))
       else
         && others != []
         && b == a.(phase := Play(1 - a.phase.possessing), ball := HeldBy(a.players, others[0]))
  }

  /** A shot in the air. On arrival it is a goal, a save or a miss, as was fixed
      when it was taken. */
  ghost predicate Arrived(e: Setting, a: Stand, b: Stand, told: seq<Event>, t: int)
    requires a.phase.ShotInFlight? && a.phase.shooter < |a.players| && a.phase.keeper < |a.players|
  {
    var shooter, keeper := a.players[a.phase.shooter], a.players[a.phase.keeper];
    var flown := a.ball.(pos := ShotPosition(a.phase, t));
    if t < a.phase.arrivalT then b == a.(ball := flown) && told == []
    else if a.phase.willGoal then
      && b == a.(phase := Celebrate(t + 5000, 1 - shooter.team), ball := flown, drawn := a.drawn + 1,
                 home := a.home + One(shooter.team == 0), away := a.away + One(shooter.team == 1))
      && told == GoalTold(e, shooter, t, b.home, b.away)
    else if a.phase.onTarget then
      && b == a.(phase := AwaitRestart(t + 2000, keeper.team, GoalKick), ball := HeldBy(a.players, a.phase.keeper),
                 players := Acting(a.players, a.phase.keeper, Catch), drawn := a.drawn + 1)
      && told == SaveTold(keeper, t)
    else
      && b == a.(phase := AwaitRestart(t + 2000, 1 - shooter.team, GoalKick), ball := flown, drawn := a.drawn + 1)
      && told == MissTold(shooter, t)
  }

  function GoalTold(e: Setting, shooter: PlayerSim, t: int, home: nat, away: nat): seq<Event> {
    [Goal(t, shooter.id, e.cfg.Of(shooter.team).id), Commentary(t, GoalLine), ScoreChange(t, home, away)]
  }

  function SaveTold(keeper: PlayerSim, t: int): seq<Event> {
    [Save(t, keeper.id), Commentary(t, ShotSaved)]
  }

  function MissTold(shooter: PlayerSim, t: int): seq<Event> {
    [OutOfBounds(t, shooter.id, GoalKick), Commentary(t, ShotOffTarget)]
  }

  /** An animation for everybody on the pitch. */
  function Everybody(ps: seq<PlayerSim>, anim: AnimTag): (qs: seq<PlayerSim>)
    ensures |qs| == |ps|
    ensures forall i :: 0 <= i < |ps| ==> qs[i] == if ps[i].isOnPitch then ps[i].(anim := anim) else ps[i]
  {
    seq(|ps|, i requires 0 <= i < |ps| => if ps[i].isOnPitch then ps[i].(anim := anim) else ps[i])
  }

  function InFormation(p: PlayerSim): PlayerSim {
    p.(pos := p.homeSlot, vel := Vec2(0.0, 0.0), anim := Idle, facing := if p.team == 0 then 0.0 else PI)
  }

  /** Everybody on the pitch in his slot but the striker, who is on the centre spot. */
  function Formed(ps: seq<PlayerSim>, striker: nat): (qs: seq<PlayerSim>)
    ensures |qs| == |ps|
    ensures forall i :: 0 <= i < |ps| ==> qs[i] == FormedOne(ps[i], i == striker)
  {
    seq(|ps|, i requires 0 <= i < |ps| => FormedOne(ps[i], i == striker))
  }

  function FormedOne(p: PlayerSim, striker: bool): PlayerSim {
    if !p.isOnPitch then p else if striker then InFormation(p).(pos := Vec2(0.0, 0.0)) else InFormation(p)
  }

  ghost predicate KickedOffBy(a: Stand, b: Stand, side: Side, striker: nat) {
    && IsStriker(a.players, side, striker)
    && b == a.(phase := Play(side), players := Formed(a.players, striker),
               ball := HeldBy(Formed(a.players, striker), striker), drawn := a.drawn + 1)
  }

  /** A kickoff of the side: formation, the ball for the striker, a line. */
  ghost predicate KickedOff(a: Stand, b: Stand, side: Side) {
    exists striker: nat :: KickedOffBy(a, b, side, striker)
  }

  /** The first striker, or else the first outfielder, on the centre spot with
      the ball, everybody else on the pitch in his slot. */
  lemma KickoffSpots(a: Stand, b: Stand, side: Side)
    requires KickedOff(a, b, side)
    ensures b.phase == Play(side) && Carried(b) && |b.players| == |a.players|
    ensures IsStriker(a.players, side, b.ball.carrier.value) && b.ball.pos == Vec3(0.0, 0.0, 0.3)
    ensures b.players[b.ball.carrier.value].pos == Vec2(0.0, 0.0)
    ensures forall i :: 0 <= i < |a.players| && i != b.ball.carrier.value ==>
      b.players[i].pos == if a.players[i].isOnPitch then a.players[i].homeSlot else a.players[i].pos
  {
    var striker: nat :| KickedOffBy(a, b, side, striker);
    assert b.players[striker] == FormedOne(a.players[striker], true);
  }

  function KickoffTold(e: Setting, side: Side, t: int, bank: Bank): seq<Event> {
    [Kickoff(t, e.cfg.Of(side).id), Commentary(t, bank)]
  }

  /** The celebration, until its kickoff is due. */
  ghost predicate Celebrated(e: Setting, a: Stand, b: Stand, told: seq<Event>, t: int)
    requires a.phase.Celebrate?
  {
    var cheering := a.(players := Everybody(a.players, CelebrateTag));
    if t < a.phase.resumeT then b == cheering && told == []
    else
      && KickedOff(cheering, b, a.phase.nextKickoffTeam)
      && told == KickoffTold(e, a.phase.nextKickoffTeam, t, KickoffRestart)
  }

  function GoalKickSpot(side: Side): (spot: Vec2)
    ensures InBox(spot)
  {
    Vec2(if side == 0 then -HALF_LENGTH + 5.0 else HALF_LENGTH - 5.0, 0.0)
  }

  /** Player `i` is put on a spot and given the ball. */
  function Placed(a: Stand, side: Side, i: nat, spot: Vec2): Stand
    requires i < |a.players|
  {
    var ps := a.players[i := a.players[i].(pos := spot)];
    a.(phase := Play(side), players := ps, ball := HeldBy(ps, i), drawn := a.drawn + 1)
  }

  /** A restart, once it is due: the first goalkeeper on his six-yard line for a
      goal kick, else any outfielder of the side where the ball lies. */
  ghost predicate Restarted(e: Setting, a: Stand, b: Stand, told: seq<Event>, t: int)
    requires a.phase.AwaitRestart?
  {
    var side := a.phase.restartTeam;
    var keepers, outfielders := Select(a.players, KeeperOf(side)), Select(a.players, OutfieldOf(side));
    && told == []
    && if t < a.phase.resumeT then b == a.(players := Everybody(a.players, Idle))
       else if a.phase.restartType == GoalKick then
         keepers != [] && b == Placed(a, side, keepers[0], GoalKickSpot(side))
       else
         && outfielders != []
         && b == Placed(a, side, outfielders[Index(|outfielders|, e.oracle.uniform(a.drawn))],
                        IntoBox(Vec2(a.ball.pos.x, a.ball.pos.y)))
  }

  /** A goal kick is the goalkeeper's, 5.5 m from his goal line; any other
      restart is an outfielder's, where the ball lay. */
  lemma RestartSpots(e: Setting, a: Stand, b: Stand, told: seq<Event>, t: int)
    requires a.phase.AwaitRestart? && Restarted(e, a, b, told, t) && a.phase.resumeT <= t
    ensures b.phase == Play(a.phase.restartTeam) && Carried(b) && |b.players| == |a.players|
    ensures
      var p := b.players[b.ball.carrier.value];
      && p.team == a.phase.restartTeam && p.isOnPitch && b.ball.pos == Vec3(p.pos.x, p.pos.y, 0.3)
      && (p.isGK <==> a.phase.restartType == GoalKick)
      && if p.isGK then p.pos == Vec2(if p.team == 0 then -47.5 else 47.5, 0.0)
         else p.pos == IntoBox(Vec2(a.ball.pos.x, a.ball.pos.y))
    ensures forall i :: 0 <= i < |a.players| && i != b.ball.carrier.value ==> b.players[i] == a.players[i]
  {
    hide Select, Index, IntoBox;
    var side := a.phase.restartTeam;
    var keepers, outfielders := Select(a.players, KeeperOf(side)), Select(a.players, OutfieldOf(side));
    if a.phase.restartType == GoalKick {
      assert Passes(a.players[keepers[0]], KeeperOf(side));
    } else {
      assert Passes(a.players[outfielders[Index(|outfielders|, e.oracle.uniform(a.drawn))]], OutfieldOf(side));
    }
  }

  /** A pass comes down where it was flying to: it does not jump on arrival. */
  lemma PassComesDown(a: Stand, b: Stand, told: seq<Event>, t: int)
    requires a.phase.BallInFlight? && a.phase.receiver < |a.players| && Landed(a, b, told, t)
    requires a.phase.arrivalT <= t && a.players[a.phase.receiver].isOnPitch
    ensures b.ball.carrier == Some(a.phase.receiver) && b.phase == Play(a.players[a.phase.receiver].team)
    ensures PassPosition(a, t).x == b.ball.pos.x && PassPosition(a, t).y == b.ball.pos.y && PassPosition(a, t).z == 0.0
  {
    hide Select;
  }

  /** If he has gone off meanwhile, the first outfielder of the other side has it. */
  lemma PassIsLost(a: Stand, b: Stand, told: seq<Event>, t: int)
    requires a.phase.BallInFlight? && a.phase.receiver < |a.players| && Landed(a, b, told, t)
    requires a.phase.arrivalT <= t && !a.players[a.phase.receiver].isOnPitch
    ensures b.phase == Play(1 - a.phase.possessing) && Carried(b) && b.players == a.players
    ensures Outfield(a.players[b.ball.carrier.value], 1 - a.phase.possessing)
    ensures forall i :: 0 <= i < b.ball.carrier.value ==> !Outfield(a.players[i], 1 - a.phase.possessing)
  {
    hide Select, Outfield;
    var others := Select(a.players, OutfieldOf(1 - a.phase.possessing));
    assert Passes(a.players[others[0]], OutfieldOf(1 - a.phase.possessing));
    forall i | 0 <= i < others[0]
      ensures !Outfield(a.players[i], 1 - a.phase.possessing)
    {
      assert Passes(a.players[i], OutfieldOf(1 - a.phase.possessing)) ==> i in others;
    }
  }

  /** What the phase asks for. */
  ghost predicate Dispatched(e: Setting, a: Stand, b: Stand, told: seq<Event>, t: int)
    requires e.maths.Lawful() && Possession(a.phase, a.ball, a.players)
  {
    match a.phase
    case Play(_) => Acted(e, Scattered(e, Ran(e, a)), b, told, t)
    case BallInFlight(_, _, _, _, _, _) => Landed(Scattered(e, a), b, told, t)
    case ShotInFlight(_, _, _, _, _, _, _, _, _) => Arrived(e, Scattered(e, a), b, told, t)
    case Celebrate(_, _) => Celebrated(e, a, b, told, t)
    case AwaitRestart(_, _, _) => Restarted(e, a, b, told, t)
  }

  // ---------- whistles ----------

  function HalfDuration(d: nat): nat {
    if HALF_DURATION_MS < d / 2 then HALF_DURATION_MS else d / 2
  }

  /** The tick at which half-time is called: the first not before the half. */
  predicate HalfTimeAt(d: nat, t: int) {
    t - TICK_MS < HalfDuration(d) <= t
  }

  function PeriodAt(d: nat, t: int): int {
    if t >= HalfDuration(d) then 2 else 1
  }

  const SUB_SCHEDULE: seq<(int, Side)> := [(3_600_000, 0), (4_200_000, 1), (4_800_000, 0)]

  /** How many substitutions are due by time `t`. */
  function SubsDue(t: int): (n: nat)
    ensures n <= |SUB_SCHEDULE|
    ensures forall k :: 0 <= k < n ==> SUB_SCHEDULE[k].0 <= t
    ensures n < |SUB_SCHEDULE| ==> t < SUB_SCHEDULE[n].0
  {
    if t < 3_600_000 then 0 else if t < 4_200_000 then 1 else if t < 4_800_000 then 2 else 3
  }

  /** At most one becomes due in a tick, and none before half-time. */
  lemma OneSubAtATime(d: nat, t: int)
    ensures SubsDue(t - TICK_MS) <= SubsDue(t) <= SubsDue(t - TICK_MS) + 1
    ensures HalfTimeAt(d, t) ==> SubsDue(t) == SubsDue(t - TICK_MS)
  {
  }

  function HalfTimeTold(t: int): seq<Event> {
    [PeriodEnd(t, 1), Commentary(t, PeriodEndLine), PeriodStart(t, 2), Commentary(t, PeriodStartLine)]
  }

  /** `sort((a, b) => b.fatigue - a.fatigue)[0]` over the outfielders on the pitch. */
  function MostTired(ps: seq<PlayerSim>, side: Side): (off: nat)
    requires Select(ps, OutfieldOf(side)) != []
    ensures off < |ps| && Outfield(ps[off], side)
    ensures forall i :: 0 <= i < |ps| && Outfield(ps[i], side) ==>
      ps[i].fatigue < ps[off].fatigue || (ps[i].fatigue == ps[off].fatigue && off <= i)
  {
    var candidates := Select(ps, OutfieldOf(side));
    var fresher := (a: nat, b: nat) => Tiredness(ps, a) >= Tiredness(ps, b);
    var sorted := Sorting.StableSort(candidates, fresher);
    Sorting.MemberOfSort(candidates, fresher);
    Sorting.StableSortSorted(candidates, fresher);
    Sorting.StableSortTies(candidates, fresher);
    assert sorted[0] in candidates;
    FirstIsMostTired(ps, side, sorted, fresher);
    sorted[0]
  }

  function Tiredness(ps: seq<PlayerSim>, i: nat): real {
    if i < |ps| then ps[i].fatigue else 0.0
  }

  lemma FirstIsMostTired(ps: seq<PlayerSim>, side: Side, sorted: seq<nat>, fresher: (nat, nat) -> bool)
    requires forall a: nat, b: nat :: fresher(a, b) == (Tiredness(ps, a) >= Tiredness(ps, b))
    requires Sorting.Sorted(sorted, fresher) && Sorting.TiesInOrder(sorted, fresher) && sorted != []
    requires forall i :: 0 <= i < |ps| && Outfield(ps[i], side) ==> i in sorted
    requires sorted[0] < |ps|
    ensures forall i :: 0 <= i < |ps| && Outfield(ps[i], side) ==>
      ps[i].fatigue < ps[sorted[0]].fatigue || (ps[i].fatigue == ps[sorted[0]].fatigue && sorted[0] <= i)
  {
    forall i | 0 <= i < |ps| && Outfield(ps[i], side)
      ensures ps[i].fatigue < ps[sorted[0]].fatigue || (ps[i].fatigue == ps[sorted[0]].fatigue && sorted[0] <= i)
    {
      var k :| 0 <= k < |sorted| && sorted[k] == i;
      if k > 0 {
        assert fresher(sorted[0], sorted[k]);
        assert fresher(sorted[k], sorted[0]) ==> sorted[0] < sorted[k];
      }
    }
  }

  /** The squads after a substitution: the most tired outfielder goes off for the
      first outfielder of the bench; without a bench nothing happens. */
  function Substituted(ps: seq<PlayerSim>, side: Side): (qs: seq<PlayerSim>)
    requires Select(ps, OutfieldOf(side)) != []
    ensures |qs| == |ps|
  {
    var bench := Select(ps, BenchOf(side));
    if bench == [] then ps else Swap(ps, MostTired(ps, side), bench[0])
  }

  function SubstitutionTold(e: Setting, ps: seq<PlayerSim>, side: Side, t: int): seq<Event>
    requires Select(ps, OutfieldOf(side)) != []
  {
    var bench := Select(ps, BenchOf(side));
    if bench == [] then []
    else [Substitution(t, e.cfg.Of(side).id, ps[bench[0]].id, ps[MostTired(ps, side)].id),
          Commentary(t, SubstitutionLine)]
  }

  ghost predicate SubMade(e: Setting, a: Stand, b: Stand, evs: seq<Event>, t: int, side: Side) {
    && Select(a.players, OutfieldOf(side)) != []
    && evs == SubstitutionTold(e, a.players, side, t)
    && b == a.(players := Substituted(a.players, side), drawn := a.drawn + One(evs != []))
  }

  /** Half-time: the side that did not open the match kicks off. */
  ghost predicate HalfTimeCalled(e: Setting, a: Stand, b: Stand, evs: seq<Event>, t: int, opening: Side) {
    && evs == HalfTimeTold(t) + KickoffTold(e, 1 - opening, t, KickoffRestart)
    && KickedOff(a.(drawn := a.drawn + 2), b, 1 - opening)
  }

  /** What comes before the dispatch: half-time, or a substitution that has
      become due, or nothing. */
  ghost predicate Interrupted(e: Setting, a: Stand, b: Stand, evs: seq<Event>, t: int, opening: Side) {
    if HalfTimeAt(e.cfg.matchDurationMs, t) then HalfTimeCalled(e, a, b, evs, t, opening)
    else if SubsDue(t - TICK_MS) < SubsDue(t) then
      SubMade(e, a, b, evs, t, SUB_SCHEDULE[SubsDue(t - TICK_MS)].1)
    else NothingHappened(a, b, evs)
  }

  /** Which of the three event types the match must show have been told. */
  datatype Seen = Seen(tackle: bool, foul: bool, out: bool)

  function SeenAfter(s: Seen, e: Event): Seen {
    Seen(s.tackle || e.Tackle?, s.foul || e.Foul?, s.out || e.OutOfBounds?)
  }

  function SeenIn(s: Seen, evs: seq<Event>): Seen {
    if evs == [] then s else SeenAfter(SeenIn(s, evs[..|evs| - 1]), evs[|evs| - 1])
  }

  /** In the last minute but for its last five seconds, the first of tackle,
      foul and ball out of play that has not been told is told, though nothing
      happens. */
  ghost predicate Forced(e: Setting, ps: seq<PlayerSim>, seen: Seen, evs: seq<Event>, t: int) {
    var d := e.cfg.matchDurationMs;
    var home, away := Select(ps, OutfieldOf(0)), Select(ps, OutfieldOf(1));
    if !(d - 60_000 < t < d - 5_000) || seen == Seen(true, true, true) then evs == []
    else
      && home != [] && away != []
      && var a, b := ps[home[0]].id, ps[away[0]].id;
         evs == [if !seen.tackle then Tackle(t, a, b, true)
                 else if !seen.foul then Foul(t, a, b, Soft)
                 else OutOfBounds(t, a, ThrowIn)]
  }

  /** The opening of the match. */
  function OpeningTold(e: Setting, opening: Side): seq<Event> {
    [PeriodStart(0, 1), Commentary(0, PeriodStartLine)] + KickoffTold(e, opening, 0, KickoffLine)
  }

  function FinalWhistle(t: int): seq<Event> {
    [PeriodEnd(t, 2), Commentary(t, PeriodEndLine), MatchEnd(t), Commentary(t, MatchEndLine)]
  }

  // ---------- the draws decide ----------

  lemma OneNearest(m: Maths, ps: seq<PlayerSim>, c: nat, a: nat, b: nat)
    requires Nearest(m, ps, c, a) && Nearest(m, ps, c, b)
    ensures a == b
  {
    hide Gap, Outfield;
  }

  lemma OneStriker(ps: seq<PlayerSim>, side: Side, a: nat, b: nat)
    requires IsStriker(ps, side, a) && IsStriker(ps, side, b)
    ensures a == b
  {
  }

  lemma OneKickoff(a: Stand, b: Stand, b': Stand, side: Side)
    requires KickedOff(a, b, side) && KickedOff(a, b', side)
    ensures b == b'
  {
    hide IsStriker, Formed;
    var i: nat :| KickedOffBy(a, b, side, i);
    var j: nat :| KickedOffBy(a, b', side, j);
    OneStriker(a.players, side, i, j);
  }

  lemma OneTackle(e: Setting, a: Stand, b: Stand, b': Stand, told: seq<Event>, told': seq<Event>, t: int)
    requires Carried(a) && Tackled(e, a, b, told, t) && Tackled(e, a, b', told', t)
    ensures b == b' && told == told'
  {
    hide Nearest, Gap;
    var i: nat :| TackledBy(e, a, b, told, t, i);
    var j: nat :| TackledBy(e, a, b', told', t, j);
    OneNearest(e.maths, a.players, a.ball.carrier.value, i, j);
  }

  lemma OneFoul(e: Setting, a: Stand, b: Stand, b': Stand, told: seq<Event>, told': seq<Event>, t: int)
    requires Carried(a) && Fouled(e, a, b, told, t) && Fouled(e, a, b', told', t)
    ensures b == b' && told == told'
  {
    hide Nearest, Gap;
    var i: nat, s :| FouledBy(e, a, b, told, t, i, s);
    var j: nat, s' :| FouledBy(e, a, b', told', t, j, s');
    OneNearest(e.maths, a.players, a.ball.carrier.value, i, j);
  }

  lemma OnePass(e: Setting, a: Stand, b: Stand, b': Stand, told: seq<Event>, told': seq<Event>, t: int)
    requires Carried(a) && Passed(e, a, b, told, t) && Passed(e, a, b', told', t)
    ensures b == b' && told == told'
  {
    hide Gap, TeamMates, RankedTargets;
    if TeamMates(a.players, a.ball.carrier.value) != [] {
      var i: nat, f :| PassedTo(e, a, b, told, t, i, f);
      var j: nat, f' :| PassedTo(e, a, b', told', t, j, f');
    }
  }

  lemma OneAct(e: Setting, m: Stand, b: Stand, b': Stand, told: seq<Event>, told': seq<Event>, t: int)
    requires Carried(m) && Acted(e, m, b, told, t) && Acted(e, m, b', told', t)
    ensures b == b' && told == told'
  {
    hide Tackled, Fouled, Passed, GoalDistance, Select;
    var p := m.players[m.ball.carrier.value];
    var attempt := Tried(e.oracle, m.drawn, AttackingThird(p.team, p.pos.x));
    var a := m.(drawn := m.drawn + Dice(attempt, AttackingThird(p.team, p.pos.x)));
    match attempt
    case Tackling => OneTackle(e, a, b, b', told, told', t);
    case Fouling => OneFoul(e, a, b, b', told, told', t);
    case Passing => OnePass(e, a, b, b', told, told', t);
    case _ =>
  }

  /** The state a tick finds and the draws decide what it leaves and tells. */
  lemma OneOutcome(e: Setting, a: Stand, b: Stand, b': Stand, told: seq<Event>, told': seq<Event>, t: int)
    requires e.maths.Lawful() && Possession(a.phase, a.ball, a.players)
    requires Dispatched(e, a, b, told, t) && Dispatched(e, a, b', told', t)
    ensures b == b' && told == told'
  {
    hide Acted, KickedOff, Select, DriftedOn, Running;
    match a.phase
    case Play(_) => OneAct(e, Scattered(e, Ran(e, a)), b, b', told, told', t);
    case Celebrate(resumeT, side) =>
      if resumeT <= t {
        OneKickoff(a.(players := Everybody(a.players, CelebrateTag)), b, b', side);
      }
    case _ =>
  }

  lemma OneWhistle(e: Setting, a: Stand, b: Stand, b': Stand, evs: seq<Event>, evs': seq<Event>, t: int, opening: Side)
    requires Interrupted(e, a, b, evs, t, opening) && Interrupted(e, a, b', evs', t, opening)
    ensures b == b' && evs == evs'
  {
    hide KickedOff, Select, Substituted, SubstitutionTold, HalfTimeAt, SubsDue;
    if HalfTimeAt(e.cfg.matchDurationMs, t) {
      OneKickoff(a.(drawn := a.drawn + 2), b, b', 1 - opening);
    }
  }
}
