/** The players of a simulated match and what is conserved about them. */
module Squad {
  import opened Options
  import opened Pitch
  import opened MatchStream

  datatype PlayerSim = PlayerSim(
    id: string, number: int, name: string, position: string, team: Side,
    isGK: bool, isOnPitch: bool, pos: Vec2, vel: Vec2, facing: real, anim: AnimTag,
    homeSlot: Vec2, yellowCarded: bool, fatigue: real)

  const PI := 3.141592653589793

  function Starter(p: Player, side: Side, indexInPosition: nat): PlayerSim {
    var slot := MirrorSlotForTeam(SlotForPlayer(p.position, indexInPosition), side);
    PlayerSim(p.id, p.number, p.name, p.position, side, p.position == "GK", true, slot, Vec2(0.0, 0.0),
              if side == 0 then 0.0 else PI, Idle, slot, false, 0.0)
  }

  function Reserve(p: Player, side: Side): PlayerSim {
    var seat := Vec2(0.0, if side == 0 then -40.0 else 40.0);
    PlayerSim(p.id, p.number, p.name, p.position, side, p.position == "GK", false, seat, Vec2(0.0, 0.0),
              0.0, Idle, seat, false, 0.0)
  }

  predicate Outfield(p: PlayerSim, side: Side) {
    p.team == side && p.isOnPitch && !p.isGK
  }

  predicate Keeper(p: PlayerSim, side: Side) {
    p.team == side && p.isOnPitch && p.isGK
  }

  predicate Benched(p: PlayerSim, side: Side) {
    p.team == side && !p.isOnPitch && !p.isGK
  }

  /** Fatigue and place of one player are within bounds. */
  predicate Fit(p: PlayerSim) {
    && 0.0 <= p.fatigue <= 1.0
    && (p.isOnPitch ==> InBox(p.pos) && InBox(p.homeSlot))
  }

  ghost predicate AllFit(ps: seq<PlayerSim>) {
    forall i :: 0 <= i < |ps| ==> Fit(ps[i])
  }

  /** Everything about a player that motion does not change. */
  function Shape(p: PlayerSim): PlayerSim {
    p.(pos := Vec2(0.0, 0.0), vel := Vec2(0.0, 0.0), facing := 0.0, anim := Idle, yellowCarded := false, fatigue := 0.0)
  }

  ghost predicate SameShapes(ps: seq<PlayerSim>, qs: seq<PlayerSim>) {
    |ps| == |qs| && forall i :: 0 <= i < |ps| ==> Shape(ps[i]) == Shape(qs[i])
  }

  /** The same person in the same team; a goalkeeper is also never replaced. */
  predicate SamePerson(p: PlayerSim, q: PlayerSim) {
    && p.id == q.id && p.name == q.name && p.position == q.position && p.team == q.team && p.isGK == q.isGK
    && (p.isGK ==> p.isOnPitch == q.isOnPitch)
  }

  function SlotOf(p: PlayerSim, side: Side): multiset<Vec2> {
    if p.isOnPitch && p.team == side then multiset{p.homeSlot} else multiset{}
  }

  /** The formation slots a side has filled. Its size is the number of players
      the side has on the pitch. */
  function Slots(ps: seq<PlayerSim>, side: Side): multiset<Vec2> {
    if ps == [] then multiset{} else Slots(ps[..|ps| - 1], side) + SlotOf(ps[|ps| - 1], side)
  }

  lemma FrontOfUpdate<T>(s: seq<T>, i: nat, x: T)
    requires i < |s|
    ensures i < |s| - 1 ==> s[i := x][..|s| - 1] == s[..|s| - 1][i := x]
    ensures i == |s| - 1 ==> s[i := x][..|s| - 1] == s[..|s| - 1]
  {
  }

  /** A player who filled no slot of the side comes on. */
  lemma {:induction false} SlotsGain(ps: seq<PlayerSim>, i: nat, p: PlayerSim, side: Side)
    requires i < |ps| && SlotOf(ps[i], side) == multiset{}
    ensures Slots(ps[i := p], side) == Slots(ps, side) + SlotOf(p, side)
  {
    var n := |ps| - 1;
    var front := Slots(ps[..n], side);
    FrontOfUpdate(ps, i, p);
    if i < n {
      SlotsGain(ps[..n], i, p, side);
      SumSwap(front, SlotOf(p, side), SlotOf(ps[n], side));
    } else {
      SumNothing(front);
    }
  }

  lemma SumNothing(a: multiset<Vec2>)
    ensures a + multiset{} == a
  {
  }

  lemma SumSwap(a: multiset<Vec2>, b: multiset<Vec2>, c: multiset<Vec2>)
    ensures a + b + c == a + c + b
  {
  }

  lemma {:induction false} SlotsOfSameShapes(ps: seq<PlayerSim>, qs: seq<PlayerSim>, side: Side)
    requires SameShapes(ps, qs)
    ensures Slots(ps, side) == Slots(qs, side)
  {
    if ps != [] {
      var n := |ps| - 1;
      SlotsOfSameShapes(ps[..n], qs[..n], side);
      assert Shape(ps[n]) == Shape(qs[n]);
      assert ps[n].isOnPitch == Shape(ps[n]).isOnPitch && ps[n].team == Shape(ps[n]).team &&
        ps[n].homeSlot == Shape(ps[n]).homeSlot;
      assert qs[n].isOnPitch == Shape(qs[n]).isOnPitch && qs[n].team == Shape(qs[n]).team &&
        qs[n].homeSlot == Shape(qs[n]).homeSlot;
    }
  }

  ghost predicate SameCast(start: seq<PlayerSim>, ps: seq<PlayerSim>) {
    |start| == |ps| && forall i :: 0 <= i < |ps| ==> SamePerson(start[i], ps[i])
  }

  ghost predicate HasBothRoles(ps: seq<PlayerSim>, side: Side) {
    && (exists i :: 0 <= i < |ps| && Outfield(ps[i], side))
    && (exists i :: 0 <= i < |ps| && Keeper(ps[i], side))
  }

  /** The squads are those of the line-up: the same people, the starting
      goalkeepers still on, the same formation slots filled. */
  ghost predicate Conserved(start: seq<PlayerSim>, ps: seq<PlayerSim>) {
    && SameCast(start, ps)
    && (forall side: Side :: Slots(ps, side) == Slots(start, side))
    && (forall side: Side :: HasBothRoles(ps, side))
  }

  lemma SameShapeMeans(p: PlayerSim, q: PlayerSim)
    requires Shape(p) == Shape(q)
    ensures p.id == q.id && p.number == q.number && p.name == q.name && p.position == q.position && p.team == q.team
    ensures p.isGK == q.isGK && p.isOnPitch == q.isOnPitch && p.homeSlot == q.homeSlot
  {
    assert Shape(p).id == Shape(q).id && Shape(p).name == Shape(q).name;
  }

  /** Motion conserves the squads. */
  lemma MotionConserves(start: seq<PlayerSim>, ps: seq<PlayerSim>, qs: seq<PlayerSim>)
    requires Conserved(start, ps) && SameShapes(ps, qs)
    ensures Conserved(start, qs)
  {
    forall side: Side
      ensures Slots(qs, side) == Slots(start, side)
    {
      SlotsOfSameShapes(ps, qs, side);
    }
    forall i | 0 <= i < |ps|
      ensures SamePerson(start[i], qs[i])
    {
      SameShapeMeans(ps[i], qs[i]);
    }
    forall side: Side
      ensures HasBothRoles(qs, side)
    {
      RolesOfSameShapes(ps, qs, side);
    }
  }

  lemma RolesOfSameShapes(ps: seq<PlayerSim>, qs: seq<PlayerSim>, side: Side)
    requires SameShapes(ps, qs) && HasBothRoles(ps, side)
    ensures HasBothRoles(qs, side)
  {
    var o :| 0 <= o < |ps| && Outfield(ps[o], side);
    var k :| 0 <= k < |ps| && Keeper(ps[k], side);
    SameShapeMeans(ps[o], qs[o]);
    SameShapeMeans(ps[k], qs[k]);
    assert Outfield(qs[o], side) && Keeper(qs[k], side);
  }

  /** A substitution: the man coming on takes place and slot of the man going off. */
  function Swap(ps: seq<PlayerSim>, goingOff: nat, comingOn: nat): (qs: seq<PlayerSim>)
    requires goingOff < |ps| && comingOn < |ps|
  {
    var off := ps[goingOff].(isOnPitch := false);
    var on := ps[comingOn].(isOnPitch := true, pos := ps[goingOff].pos, homeSlot := ps[goingOff].homeSlot);
    ps[goingOff := off][comingOn := on]
  }

  lemma SubstitutionConserves(start: seq<PlayerSim>, ps: seq<PlayerSim>, goingOff: nat, comingOn: nat, side: Side)
    requires Conserved(start, ps) && AllFit(ps)
    requires goingOff < |ps| && Outfield(ps[goingOff], side)
    requires comingOn < |ps| && Benched(ps[comingOn], side)
    ensures Conserved(start, Swap(ps, goingOff, comingOn)) && AllFit(Swap(ps, goingOff, comingOn))
  {
    SwapKeepsPeople(start, ps, goingOff, comingOn, side);
    forall s: Side
      ensures Slots(Swap(ps, goingOff, comingOn), s) == Slots(start, s)
    {
      SwapKeepsSlots(ps, goingOff, comingOn, side, s);
    }
    forall s: Side
      ensures HasBothRoles(Swap(ps, goingOff, comingOn), s)
    {
      SwapKeepsRoles(ps, goingOff, comingOn, side, s);
    }
  }

  lemma SwapKeepsPeople(start: seq<PlayerSim>, ps: seq<PlayerSim>, goingOff: nat, comingOn: nat, side: Side)
    requires SameCast(start, ps) && AllFit(ps)
    requires goingOff < |ps| && Outfield(ps[goingOff], side)
    requires comingOn < |ps| && Benched(ps[comingOn], side)
    ensures SameCast(start, Swap(ps, goingOff, comingOn)) && AllFit(Swap(ps, goingOff, comingOn))
  {
    assert Fit(ps[goingOff]) && Fit(ps[comingOn]);
    assert SamePerson(start[goingOff], ps[goingOff]) && SamePerson(start[comingOn], ps[comingOn]);
  }

  lemma SwapKeepsSlots(ps: seq<PlayerSim>, goingOff: nat, comingOn: nat, side: Side, s: Side)
    requires goingOff < |ps| && Outfield(ps[goingOff], side)
    requires comingOn < |ps| && Benched(ps[comingOn], side)
    ensures Slots(Swap(ps, goingOff, comingOn), s) == Slots(ps, s)
  {
    var off := ps[goingOff].(isOnPitch := false);
    var on := ps[comingOn].(isOnPitch := true, pos := ps[goingOff].pos, homeSlot := ps[goingOff].homeSlot);
    var qs := ps[goingOff := off];
    assert qs[goingOff := ps[goingOff]] == ps;
    assert qs[comingOn] == ps[comingOn];
    assert SlotOf(on, s) == SlotOf(ps[goingOff], s);
    SlotsGain(qs, goingOff, ps[goingOff], s);
    SlotsGain(qs, comingOn, on, s);
  }

  lemma SwapKeepsRoles(ps: seq<PlayerSim>, goingOff: nat, comingOn: nat, side: Side, s: Side)
    requires HasBothRoles(ps, s)
    requires goingOff < |ps| && Outfield(ps[goingOff], side)
    requires comingOn < |ps| && Benched(ps[comingOn], side)
    ensures HasBothRoles(Swap(ps, goingOff, comingOn), s)
  {
    var qs := Swap(ps, goingOff, comingOn);
    var k :| 0 <= k < |ps| && Keeper(ps[k], s);
    assert Keeper(qs[k], s);
    if s == side {
      assert Outfield(qs[comingOn], s);
    } else {
      var o :| 0 <= o < |ps| && Outfield(ps[o], s);
      assert Outfield(qs[o], s);
    }
  }

  ghost predicate DistinctIds(ps: seq<PlayerSim>) {
    forall i, j :: 0 <= i < j < |ps| ==> ps[i].id != ps[j].id
  }

  /** Indices, in order, of the players that satisfy one of the filters. */
  datatype Filter = OutfieldOf(side: Side) | KeeperOf(side: Side) | BenchOf(side: Side)

  predicate Passes(p: PlayerSim, f: Filter) {
    match f
    case OutfieldOf(side) => Outfield(p, side)
    case KeeperOf(side) => Keeper(p, side)
    case BenchOf(side) => Benched(p, side)
  }

  function Select(ps: seq<PlayerSim>, f: Filter): (r: seq<nat>)
    ensures forall k :: 0 <= k < |r| ==> r[k] < |ps| && Passes(ps[r[k]], f)
    ensures forall i :: 0 <= i < |ps| && Passes(ps[i], f) ==> i in r
    ensures forall j, k :: 0 <= j < k < |r| ==> r[j] < r[k]
  {
    if ps == [] then []
    else
      var n := |ps| - 1;
      var front := Select(ps[..n], f);
      if Passes(ps[n], f) then front + [n] else front
  }

  lemma MembersOfSelect(ps: seq<PlayerSim>, f: Filter)
    ensures forall i: nat :: i in Select(ps, f) <==> i < |ps| && Passes(ps[i], f)
  {
    hide Select, Passes;
  }

  function OnPitchCount(ps: seq<PlayerSim>, side: Side): nat {
    if ps == [] then 0
    else
      var p := ps[|ps| - 1];
      OnPitchCount(ps[..|ps| - 1], side) + if p.isOnPitch && p.team == side then 1 else 0
  }

  lemma {:induction false} SlotPerPlayer(ps: seq<PlayerSim>, side: Side)
    ensures |Slots(ps, side)| == OnPitchCount(ps, side)
  {
    if ps != [] {
      SlotPerPlayer(ps[..|ps| - 1], side);
    }
  }

  /** Conserved squads are complete: as many players of each side on the pitch
      as lined up, among them the goalkeepers who lined up. */
  lemma SquadsComplete(start: seq<PlayerSim>, ps: seq<PlayerSim>, side: Side)
    requires Conserved(start, ps)
    ensures OnPitchCount(ps, side) == OnPitchCount(start, side)
    ensures forall i :: 0 <= i < |ps| && Keeper(start[i], side) ==> Keeper(ps[i], side)
  {
    SlotPerPlayer(start, side);
    SlotPerPlayer(ps, side);
    assert Slots(ps, side) == Slots(start, side);
    forall i | 0 <= i < |ps| && Keeper(start[i], side)
      ensures Keeper(ps[i], side)
    {
      assert SamePerson(start[i], ps[i]);
    }
  }

  lemma OneMoreCounted(ps: seq<PlayerSim>, p: PlayerSim, side: Side)
    ensures OnPitchCount(ps + [p], side) == OnPitchCount(ps, side) + if p.isOnPitch && p.team == side then 1 else 0
  {
    assert (ps + [p])[..|ps|] == ps;
  }

  lemma {:induction false} CountOfBoth(ps: seq<PlayerSim>, qs: seq<PlayerSim>, side: Side)
    ensures OnPitchCount(ps + qs, side) == OnPitchCount(ps, side) + OnPitchCount(qs, side)
  {
    if qs == [] {
      assert ps + qs == ps;
    } else {
      var n := |qs| - 1;
      CountOfBoth(ps, qs[..n], side);
      assert (ps + qs)[..|ps| + n] == ps + qs[..n];
    }
  }

  /** How many of the first `n` players have the role. */
  function InRole(players: seq<Player>, n: nat, role: string): (r: nat)
    requires n <= |players|
    ensures r <= n
  {
    if n == 0 then 0 else InRole(players, n - 1, role) + if players[n - 1].position == role then 1 else 0
  }

  /** The i-th man of a team at the start: the first eleven in the slots of
      their roles, the rest on the bench. */
  function LinedUp(team: Team, side: Side, i: nat): PlayerSim
    requires i < |team.players|
  {
    var p := team.players[i];
    if i < 11 then Starter(p, side, InRole(team.players, i, p.position)) else Reserve(p, side)
  }

  function LineUpOf(team: Team, side: Side): (ps: seq<PlayerSim>)
    ensures |ps| == |team.players|
    ensures forall i :: 0 <= i < |ps| ==> ps[i] == LinedUp(team, side, i)
  {
    seq(|team.players|, i requires 0 <= i < |team.players| => LinedUp(team, side, i))
  }

  /** What a team's part of the line-up looks like. */
  ghost predicate LinesUp(team: Team, side: Side, ps: seq<PlayerSim>) {
    && |ps| <= |team.players|
    && (forall i :: 0 <= i < |ps| ==>
          && ps[i].id == team.players[i].id && ps[i].team == side && Fit(ps[i])
          && ps[i].isGK == (team.players[i].position == "GK")
          && ps[i].isOnPitch == (i < 11))
    && OnPitchCount(ps, side) == (if |ps| < 11 then |ps| else 11)
    && OnPitchCount(ps, 1 - side) == 0
  }

  lemma OneMoreLinesUp(team: Team, side: Side, ps: seq<PlayerSim>, p: PlayerSim)
    requires LinesUp(team, side, ps) && |ps| < |team.players|
    requires p.id == team.players[|ps|].id && p.team == side && Fit(p)
    requires p.isGK == (team.players[|ps|].position == "GK") && p.isOnPitch == (|ps| < 11)
    ensures LinesUp(team, side, ps + [p])
  {
    OneMoreCounted(ps, p, side);
    OneMoreCounted(ps, p, 1 - side);
  }

  lemma OneMoreLinedUp(team: Team, side: Side, n: nat)
    requires n < |team.players|
    ensures LineUpOf(team, side)[..n + 1] == LineUpOf(team, side)[..n] + [LinedUp(team, side, n)]
  {
    hide LinedUp;
  }

  lemma NobodyLinesUp(team: Team, side: Side)
    ensures LinesUp(team, side, [])
  {
  }

  lemma StarterFits(p: Player, side: Side, index: nat)
    requires index < 11
    ensures var q := Starter(p, side, index);
      q.id == p.id && q.team == side && Fit(q) && q.isGK == (p.position == "GK") && q.isOnPitch
  {
  }

  lemma ReserveFits(p: Player, side: Side)
    ensures var q := Reserve(p, side);
      q.id == p.id && q.team == side && Fit(q) && q.isGK == (p.position == "GK") && !q.isOnPitch
  {
  }

  /** The first eleven take their slots, counting who came before them in the
      same role; the others sit on the bench. */
  method LineUpTeam(team: Team, side: Side) returns (ps: seq<PlayerSim>)
    ensures ps == LineUpOf(team, side) && LinesUp(team, side, ps)
  {
    hide LinesUp, Starter, Reserve, LineUpOf;
    NobodyLinesUp(team, side);
    ps := [];
    var inPosition: map<string, nat> := map[];
    while |ps| < |team.players| && |ps| < 11
      invariant |ps| <= 11 && |ps| <= |team.players| && LinesUp(team, side, ps)
      invariant ps == LineUpOf(team, side)[..|ps|]
      invariant forall role ::
        InRole(team.players, |ps|, role) == if role in inPosition then inPosition[role] else 0
      decreases |team.players| - |ps|
    {
      var p := team.players[|ps|];
      var index := if p.position in inPosition then inPosition[p.position] else 0;
      inPosition := inPosition[p.position := index + 1];
      StarterFits(p, side, index);
      OneMoreLinesUp(team, side, ps, Starter(p, side, index));
      OneMoreLinedUp(team, side, |ps|);
      ps := ps + [Starter(p, side, index)];
    }
    while |ps| < |team.players|
      invariant |ps| <= |team.players| && LinesUp(team, side, ps)
      invariant ps == LineUpOf(team, side)[..|ps|]
      invariant |ps| < |team.players| ==> 11 <= |ps|
      decreases |team.players| - |ps|
    {
      var p := team.players[|ps|];
      ReserveFits(p, side);
      OneMoreLinesUp(team, side, ps, Reserve(p, side));
      OneMoreLinedUp(team, side, |ps|);
      ps := ps + [Reserve(p, side)];
    }
  }

  lemma {:induction false} InRoleGrows(players: seq<Player>, i: nat, j: nat, role: string)
    requires i <= j <= |players|
    ensures InRole(players, i, role) <= InRole(players, j, role)
  {
    if i < j {
      InRoleGrows(players, i, j - 1, role);
    }
  }

  /** Starters stand in their slots, facing the other goal, and of two men in the
      same known role the later one stands across the pitch from the first. */
  lemma StartersStand(team: Team, side: Side, i: nat, j: nat)
    requires i < j < |team.players| && j < 11 && team.players[i].position == team.players[j].position
    requires forall k :: 0 <= k < i ==> team.players[k].position != team.players[i].position
    requires FormationSlot(team.players[i].position).Some?
    ensures
      var p, q := LineUpOf(team, side)[i], LineUpOf(team, side)[j];
      && p.isOnPitch && q.isOnPitch && p.pos == p.homeSlot && q.pos == q.homeSlot
      && q.homeSlot == Vec2(p.homeSlot.x, -p.homeSlot.y)
      && p.homeSlot == MirrorSlotForTeam(FormationSlot(team.players[i].position).value, side)
      && p.facing == (if side == 0 then 0.0 else PI) && p.fatigue == 0.0 && !p.yellowCarded
  {
    var role := team.players[i].position;
    NoneInRole(team.players, i, role);
    InRoleGrows(team.players, i + 1, j, role);
  }

  lemma {:induction false} NoneInRole(players: seq<Player>, n: nat, role: string)
    requires n <= |players| && forall k :: 0 <= k < n ==> players[k].position != role
    ensures InRole(players, n, role) == 0
  {
    if n > 0 {
      NoneInRole(players, n - 1, role);
    }
  }
}
