/** The stream validator on untyped values, and the typed messages of the
    simulator written as such values. */
module Validator {
  import opened Options
  import opened Pitch
  import opened MatchStream

  /** A JavaScript value; Unreal stands for NaN and the infinities. */
  datatype Value =
    | Undefined | Null | Bool(b: bool) | Num(x: real) | Unreal | Str(s: string) | Arr(items: seq<Value>)
    | Obj(fields: map<string, Value>)

  /** Accepted, refused with a validation error, or a type error from reading a
      property of null or undefined. */
  datatype Verdict = Accepted | Refused | Crashed

  /** Property access. The lengths of strings and arrays are not asked for. */
  function Get(v: Value, key: string): Value {
    if v.Obj? && key in v.fields then v.fields[key] else Undefined
  }

  predicate NoObject(v: Value) {
    v.Undefined? || v.Null?
  }

  predicate Falsy(v: Value) {
    v.Undefined? || v.Null? || v.Unreal? || v == Bool(false) || v == Num(0.0) || v == Str("")
  }

  predicate IsVec(v: Value, n: nat) {
    v.Arr? && |v.items| == n && forall i :: 0 <= i < n ==> v.items[i].Num?
  }

  predicate IsCount(v: Value) {
    v.Num? && v.x.Floor as real == v.x && 0.0 <= v.x
  }

  const ANIM_TAGS := {
    "idle", "walk", "run", "sprint", "kick", "pass", "header", "shoot", "tackle", "fall", "celebrate", "throw",
    "catch", "dribble", "jump"}

  const SPORTS := {
    "soccer", "rugby_union", "rugby_league", "basketball", "american_football", "australian_rules", "field_hockey"}

  // ---------- state frames ----------

  predicate FrameHeadOk(m: Value) {
    && IsCount(Get(m, "t"))
    && !Falsy(Get(m, "ball"))
    && IsVec(Get(Get(m, "ball"), "pos"), 3)
    && (Get(Get(m, "ball"), "vel").Undefined? || IsVec(Get(Get(m, "ball"), "vel"), 3))
    && (Get(Get(m, "ball"), "carrier").Undefined? || Get(Get(m, "ball"), "carrier").Str?)
    && Get(m, "players").Arr?
  }

  predicate FatigueOk(v: Value) {
    v.Undefined? || (v.Num? && 0.0 <= v.x <= 1.0)
  }

  predicate PlayerOk(p: Value) {
    && Get(p, "id").Str?
    && IsVec(Get(p, "pos"), 2)
    && Get(p, "facing").Num?
    && Get(p, "anim").Str? && Get(p, "anim").s in ANIM_TAGS
    && FatigueOk(Get(p, "fatigue"))
  }

  predicate HasBall(p: Value) {
    Get(p, "has_ball") == Bool(true)
  }

  predicate AtMostOneBall(ps: seq<Value>) {
    forall i, j :: 0 <= i < j < |ps| ==> !(HasBall(ps[i]) && HasBall(ps[j]))
  }

  /** What a state frame has to satisfy. */
  predicate FrameOk(m: Value) {
    && FrameHeadOk(m)
    && (forall i :: 0 <= i < |Get(m, "players").items| ==> PlayerOk(Get(m, "players").items[i]))
    && AtMostOneBall(Get(m, "players").items)
  }

  /** A null player stands before the first faulty one. */
  predicate NullPlayerFirst(ps: seq<Value>) {
    exists k :: 0 <= k < |ps| && NoObject(ps[k]) && forall j :: 0 <= j < k ==> PlayerOk(ps[j])
  }

  method ValidateStateFrame(m: Value) returns (verdict: Verdict)
    ensures verdict == Accepted <==> FrameOk(m)
    ensures verdict == Crashed <==> FrameHeadOk(m) && NullPlayerFirst(Get(m, "players").items)
  {
    hide PlayerOk;
    if !FrameHeadOk(m) {
      return Refused;
    }
    var ps := Get(m, "players").items;
    var hasBallCount := 0;
    for i := 0 to |ps|
      invariant forall j :: 0 <= j < i ==> PlayerOk(ps[j])
      invariant hasBallCount >= 0
      invariant hasBallCount == 0 <==> forall j :: 0 <= j < i ==> !HasBall(ps[j])
      invariant hasBallCount <= 1 <==> AtMostOneBall(ps[..i])
    {
      var p := ps[i];
      NullIsNotOk(p);
      if NoObject(p) {
        return Crashed;
      }
      var ok := ValidatePlayer(p);
      if !ok {
        NoNullBefore(ps, i);
        return Refused;
      }
      OneMoreBall(ps[..i], p);
      assert ps[..i + 1] == ps[..i] + [p];
      if HasBall(p) {
        hasBallCount := hasBallCount + 1;
      }
    }
    assert ps[..|ps|] == ps;
    NoNullBefore(ps, |ps|);
    verdict := if hasBallCount > 1 then Refused else Accepted;
  }

  /** The checks on one player, in the order of the loop body. */
  method ValidatePlayer(p: Value) returns (ok: bool)
    ensures ok <==> PlayerOk(p)
  {
    if !Get(p, "id").Str? || !IsVec(Get(p, "pos"), 2) || !Get(p, "facing").Num? {
      return false;
    }
    if !Get(p, "anim").Str? || Get(p, "anim").s !in ANIM_TAGS {
      return false;
    }
    ok := FatigueOk(Get(p, "fatigue"));
  }

  lemma NoNullBefore(ps: seq<Value>, n: nat)
    requires n <= |ps| && forall j :: 0 <= j < n ==> PlayerOk(ps[j])
    requires n < |ps| ==> !PlayerOk(ps[n]) && !NoObject(ps[n])
    ensures !NullPlayerFirst(ps)
  {
    hide PlayerOk;
    forall k | 0 <= k < |ps| && forall j :: 0 <= j < k ==> PlayerOk(ps[j])
      ensures !NoObject(ps[k])
    {
      NullIsNotOk(ps[k]);
    }
  }

  lemma NullIsNotOk(p: Value)
    ensures PlayerOk(p) ==> !NoObject(p)
  {
  }

  lemma OneMoreBall(ps: seq<Value>, p: Value)
    ensures AtMostOneBall(ps + [p]) <==>
              AtMostOneBall(ps) && (HasBall(p) ==> forall j :: 0 <= j < |ps| ==> !HasBall(ps[j]))
  {
    var all := ps + [p];
    if AtMostOneBall(all) {
      forall i, j | 0 <= i < j < |ps|
        ensures !(HasBall(ps[i]) && HasBall(ps[j]))
      {
        assert all[i] == ps[i] && all[j] == ps[j];
      }
      forall j | 0 <= j < |ps| && HasBall(p)
        ensures !HasBall(ps[j])
      {
        assert all[j] == ps[j] && all[|ps|] == p;
      }
    }
  }

  // ---------- init ----------

  predicate InitHeadOk(m: Value) {
    && Get(m, "spec_version").Str? && Get(m, "match_id").Str?
    && Get(m, "sport").Str? && Get(m, "sport").s in SPORTS
    && !Falsy(Get(m, "field"))
    && Get(Get(m, "field"), "length").Num? && Get(Get(m, "field"), "width").Num?
    && (Get(Get(m, "field"), "units") == Str("m") || Get(Get(m, "field"), "units") == Str("ft"))
    && Get(m, "teams").Arr? && |Get(m, "teams").items| == 2
  }

  predicate TeamHeadOk(t: Value) {
    && Get(t, "id").Str? && Get(t, "name").Str?
    && !Falsy(Get(t, "kit")) && Get(Get(t, "kit"), "primary").Str? && Get(Get(t, "kit"), "secondary").Str?
    && Get(t, "players").Arr? && Get(t, "players").items != []
  }

  predicate ListedOk(p: Value) {
    Get(p, "id").Str? && Get(p, "name").Str? && Get(p, "number").Num? && Get(p, "position").Str?
  }

  predicate TeamOk(t: Value) {
    TeamHeadOk(t) && forall j :: 0 <= j < |Get(t, "players").items| ==> ListedOk(Get(t, "players").items[j])
  }

  predicate InitOk(m: Value) {
    InitHeadOk(m) && TeamOk(Get(m, "teams").items[0]) && TeamOk(Get(m, "teams").items[1]) && Get(m, "start_time").Str?
  }

  method ValidateMatchInit(m: Value) returns (verdict: Verdict)
    ensures verdict == Accepted <==> InitOk(m)
  {
    hide TeamHeadOk, ListedOk;
    if !InitHeadOk(m) {
      return Refused;
    }
    var teams := Get(m, "teams").items;
    for i := 0 to 2
      invariant forall k :: 0 <= k < i ==> TeamOk(teams[k])
    {
      var t := teams[i];
      NullTeamIsNotOk(t);
      if NoObject(t) {
        return Crashed;
      }
      if !TeamHeadOk(t) {
        return Refused;
      }
      PlayersListed(t);
      var players := Get(t, "players").items;
      for j := 0 to |players|
        invariant forall k :: 0 <= k < j ==> ListedOk(players[k])
      {
        var p := players[j];
        NullIsNotListed(p);
        if NoObject(p) {
          return Crashed;
        }
        if !ListedOk(p) {
          return Refused;
        }
      }
    }
    verdict := if Get(m, "start_time").Str? then Accepted else Refused;
  }

  lemma PlayersListed(t: Value)
    ensures TeamHeadOk(t) ==> Get(t, "players").Arr?
  {
  }

  lemma NullTeamIsNotOk(t: Value)
    ensures TeamHeadOk(t) ==> !NoObject(t)
  {
  }

  lemma NullIsNotListed(p: Value)
    ensures ListedOk(p) ==> !NoObject(p)
  {
  }

  // ---------- events ----------

  datatype EventType =
    | TKickoff | TPass | TShot | TGoal | TTackle | TFoul | TSave | TOutOfBounds | TSubstitution | TScoreChange
    | TPeriodStart | TPeriodEnd | TMatchEnd | TShootoutStart | TPenaltyAttempt | TShootoutEnd | TCommentary

  function TypeText(k: EventType): string {
    match k
    case TKickoff => "event.kickoff"
    case TPass => "event.pass"
    case TShot => "event.shot"
    case TGoal => "event.goal"
    case TTackle => "event.tackle"
    case TFoul => "event.foul"
    case TSave => "event.save"
    case TOutOfBounds => "event.out_of_bounds"
    case TSubstitution => "event.substitution"
    case TScoreChange => "event.score_change"
    case TPeriodStart => "event.period_start"
    case TPeriodEnd => "event.period_end"
    case TMatchEnd => "event.match_end"
    case TShootoutStart => "event.penalty_shootout_start"
    case TPenaltyAttempt => "event.penalty_attempt"
    case TShootoutEnd => "event.penalty_shootout_end"
    case TCommentary => "event.commentary"
  }

  /** Length and two letters tell the types apart. */
  function Mark(k: EventType): (int, char, char) {
    match k
    case TKickoff => (13, 'k', 'i')
    case TPass => (10, 'p', 'a')
    case TShot => (10, 's', 'h')
    case TGoal => (10, 'g', 'o')
    case TTackle => (12, 't', 'a')
    case TFoul => (10, 'f', 'o')
    case TSave => (10, 's', 'a')
    case TOutOfBounds => (19, 'o', 'u')
    case TSubstitution => (18, 's', 'u')
    case TScoreChange => (18, 's', 'c')
    case TPeriodStart => (18, 'p', 'e')
    case TPeriodEnd => (16, 'p', 'e')
    case TMatchEnd => (15, 'm', 'a')
    case TShootoutStart => (28, 'p', 'e')
    case TPenaltyAttempt => (21, 'p', 'e')
    case TShootoutEnd => (26, 'p', 'e')
    case TCommentary => (16, 'c', 'o')
  }

  lemma TextMarked(k: EventType)
    ensures |TypeText(k)| > 7 && Mark(k) == (|TypeText(k)|, TypeText(k)[6], TypeText(k)[7])
    ensures "event." <= TypeText(k)
  {
  }

  lemma TextsDiffer(k: EventType, l: EventType)
    ensures TypeText(k) == TypeText(l) <==> k == l
  {
    hide TypeText;
    TextMarked(k);
    TextMarked(l);
  }

  const WORDS_RESTART := {"throw_in", "corner", "goal_kick", "free_kick", "penalty"}
  const WORDS_OUTCOME := {"scored", "missed", "saved"}

  /** `String(v)` as far as a comparison with one word goes: an array of one
      element reads like the element. */
  function Word(v: Value): string {
    match v
    case Str(s) => s
    case Arr(items) => if |items| == 1 then (if NoObject(items[0]) then "" else Word(items[0])) else ","
    case _ => "?"
  }

  predicate EventFieldsOk(k: EventType, m: Value) {
    match k
    case TKickoff => Get(m, "team").Str?
    case TPass => Get(m, "from").Str? && (Get(m, "to").Undefined? || Get(m, "to").Str?) && IsVec(Get(m, "target"), 2)
    case TShot => Get(m, "player").Str? && IsVec(Get(m, "target"), 3) && Get(m, "on_target").Bool?
    case TGoal => Get(m, "player").Str? && Get(m, "team").Str?
    case TTackle => Get(m, "player").Str? && Get(m, "victim").Str? && Get(m, "success").Bool?
    case TFoul => Get(m, "player").Str? && Get(m, "severity") in {Str("soft"), Str("yellow"), Str("red")}
    case TSave => Get(m, "keeper").Str?
    case TOutOfBounds => Word(Get(m, "restart")) in WORDS_RESTART
    case TSubstitution => Get(m, "team").Str? && Get(m, "player_in").Str? && Get(m, "player_out").Str?
    case TScoreChange => IsCount(Get(m, "home")) && IsCount(Get(m, "away"))
    case TPeriodStart => Get(m, "period").Num? && 1.0 <= Get(m, "period").x
    case TPeriodEnd => Get(m, "period").Num? && 1.0 <= Get(m, "period").x
    case TMatchEnd => true
    case TShootoutStart => true
    case TPenaltyAttempt => Get(m, "player").Str? && Get(m, "team").Str? && Word(Get(m, "outcome")) in WORDS_OUTCOME
    case TShootoutEnd => Get(m, "winner").Str?
    case TCommentary => Get(m, "text").Str?
  }

  ghost predicate EventOk(m: Value) {
    IsCount(Get(m, "t")) && exists k :: Get(m, "type") == Str(TypeText(k)) && EventFieldsOk(k, m)
  }

  const ALL_TYPES := [
    TKickoff, TPass, TShot, TGoal, TTackle, TFoul, TSave, TOutOfBounds, TSubstitution, TScoreChange, TPeriodStart,
    TPeriodEnd, TMatchEnd, TShootoutStart, TPenaltyAttempt, TShootoutEnd, TCommentary]

  /** The switch: the case whose text is the type, or the default error. */
  method ValidateEvent(m: Value) returns (verdict: Verdict)
    requires Get(m, "type").Str?
    ensures verdict == Accepted <==> EventOk(m)
    ensures verdict != Crashed
  {
    hide TypeText, EventFieldsOk;
    if !IsCount(Get(m, "t")) {
      return Refused;
    }
    for i := 0 to |ALL_TYPES|
      invariant forall j :: 0 <= j < i ==> Get(m, "type").s != TypeText(ALL_TYPES[j])
    {
      if Get(m, "type").s == TypeText(ALL_TYPES[i]) {
        OneTypeOnly(m, ALL_TYPES[i]);
        return if EventFieldsOk(ALL_TYPES[i], m) then Accepted else Refused;
      }
    }
    AllTypesListed(Get(m, "type").s);
    verdict := Refused;
  }

  lemma AllTypesListed(t: string)
    requires forall j :: 0 <= j < |ALL_TYPES| ==> t != TypeText(ALL_TYPES[j])
    ensures forall k: EventType :: t != TypeText(k)
  {
    hide TypeText;
    forall k: EventType
      ensures t != TypeText(k)
    {
      assert ALL_TYPES[Place(k)] == k;
    }
  }

  function Place(k: EventType): nat {
    match k
    case TKickoff => 0
    case TPass => 1
    case TShot => 2
    case TGoal => 3
    case TTackle => 4
    case TFoul => 5
    case TSave => 6
    case TOutOfBounds => 7
    case TSubstitution => 8
    case TScoreChange => 9
    case TPeriodStart => 10
    case TPeriodEnd => 11
    case TMatchEnd => 12
    case TShootoutStart => 13
    case TPenaltyAttempt => 14
    case TShootoutEnd => 15
    case TCommentary => 16
  }

  lemma OneTypeOnly(m: Value, k: EventType)
    requires Get(m, "type") == Str(TypeText(k)) && IsCount(Get(m, "t"))
    ensures EventOk(m) <==> EventFieldsOk(k, m)
  {
    hide TypeText, EventFieldsOk;
    forall l: EventType
      ensures Get(m, "type") == Str(TypeText(l)) <==> l == k
    {
      TextsDiffer(k, l);
    }
  }

  // ---------- messages ----------

  ghost predicate MessageOk(m: Value) {
    && Get(m, "type").Str?
    && if Get(m, "type").s == "match.init" then InitOk(m)
       else if Get(m, "type").s == "state" then FrameOk(m)
       else EventOk(m)
  }

  method ValidateMessage(m: Value) returns (verdict: Verdict)
    ensures verdict == Accepted <==> MessageOk(m)
  {
    hide InitOk, FrameOk, EventOk;
    if Falsy(m) || !(m.Obj? || m.Arr?) {
      return Refused;
    }
    if !Get(m, "type").Str? {
      return Refused;
    }
    var t := Get(m, "type").s;
    if t == "match.init" {
      verdict := ValidateMatchInit(m);
    } else if t == "state" {
      verdict := ValidateStateFrame(m);
    } else if "event." <= t {
      verdict := ValidateEvent(m);
    } else {
      NoSuchEvent(m);
      verdict := Refused;
    }
  }

  lemma NoSuchEvent(m: Value)
    requires Get(m, "type").Str? && !("event." <= Get(m, "type").s)
    ensures !EventOk(m)
  {
    hide TypeText, EventFieldsOk;
    forall k: EventType
      ensures "event." <= TypeText(k)
    {
      TextMarked(k);
    }
  }

  // ---------- the simulator's messages ----------

  function VecValue2(v: Vec2): Value {
    Arr([Num(v.x), Num(v.y)])
  }

  function VecValue3(v: Vec3): Value {
    Arr([Num(v.x), Num(v.y), Num(v.z)])
  }

  function Count(n: int): Value {
    Num(n as real)
  }

  function AnimText(tag: AnimTag): string {
    match tag
    case Idle => "idle"
    case Walk => "walk"
    case Run => "run"
    case Sprint => "sprint"
    case Kick => "kick"
    case PassTag => "pass"
    case Header => "header"
    case Shoot => "shoot"
    case TackleTag => "tackle"
    case Fall => "fall"
    case CelebrateTag => "celebrate"
    case Throw => "throw"
    case Catch => "catch"
    case Dribble => "dribble"
    case Jump => "jump"
  }

  function PlayerFields(p: PlayerState): map<string, Value> {
    map["id" := Str(p.id), "pos" := VecValue2(p.pos), "facing" := Num(p.facing), "anim" := Str(AnimText(p.anim)),
        "fatigue" := Num(p.fatigue)]
  }

  /** has_ball is written only for the player who has it. */
  function PlayerValue(p: PlayerState): Value {
    Obj(if p.hasBall then PlayerFields(p)["has_ball" := Bool(true)] else PlayerFields(p))
  }

  function PlayerValues(ps: seq<PlayerState>): (r: seq<Value>)
    ensures |r| == |ps| && forall i :: 0 <= i < |ps| ==> r[i] == PlayerValue(ps[i])
  {
    seq(|ps|, i requires 0 <= i < |ps| => PlayerValue(ps[i]))
  }

  function BallFields(f: StateFrame): map<string, Value> {
    map["pos" := VecValue3(f.ballPos), "vel" := VecValue3(f.ballVel)]
  }

  /** carrier is written only when there is one. */
  function BallValue(f: StateFrame): Value {
    Obj(if f.carrier.Some? then BallFields(f)["carrier" := Str(f.carrier.value)] else BallFields(f))
  }

  function FrameValue(f: StateFrame, clock: string): Value {
    Obj(map["type" := Str("state"), "t" := Count(f.t), "ball" := BallValue(f),
      "players" := Arr(PlayerValues(f.players)),
            "period" := Count(f.period), "clock_display" := Str(clock)])
  }

  lemma CountIsCount(n: int)
    ensures IsCount(Count(n)) <==> 0 <= n
  {
  }

  lemma AnimTagsValid(tag: AnimTag)
    ensures AnimText(tag) in ANIM_TAGS
  {
  }

  lemma PlayerAccepted(p: PlayerState)
    ensures PlayerOk(PlayerValue(p)) <==> 0.0 <= p.fatigue <= 1.0
    ensures HasBall(PlayerValue(p)) <==> p.hasBall
  {
    hide AnimText;
    AnimTagsValid(p.anim);
    var v := PlayerValue(p);
    assert Get(v, "id") == Str(p.id) && Get(v, "pos") == VecValue2(p.pos) && Get(v, "facing") == Num(p.facing);
    assert Get(v, "anim") == Str(AnimText(p.anim)) && Get(v, "fatigue") == Num(p.fatigue);
  }

  lemma HeadAccepted(f: StateFrame, clock: string)
    ensures FrameHeadOk(FrameValue(f, clock)) <==> 0 <= f.t
    ensures Get(FrameValue(f, clock), "players") == Arr(PlayerValues(f.players))
    ensures Get(FrameValue(f, clock), "type") == Str("state")
  {
    CountIsCount(f.t);
    var b := BallValue(f);
    assert Get(b, "pos") == VecValue3(f.ballPos) && Get(b, "vel") == VecValue3(f.ballVel);
    assert Get(b, "carrier") == if f.carrier.Some? then Str(f.carrier.value) else Undefined;
    var v := FrameValue(f, clock);
    assert Get(v, "t") == Count(f.t) && Get(v, "ball") == b;
  }

  /** A frame is accepted exactly when it is legal in the typed sense the
      simulator is proved to keep. */
  lemma FrameAcceptedExactly(f: StateFrame, clock: string)
    ensures MessageOk(FrameValue(f, clock)) <==> FrameLegal(f)
  {
    hide PlayerOk, HasBall, FrameHeadOk, PlayerValue, FrameValue, EventOk, InitOk;
    HeadAccepted(f, clock);
    var ps := PlayerValues(f.players);
    forall i | 0 <= i < |ps|
      ensures PlayerOk(ps[i]) <==> 0.0 <= f.players[i].fatigue <= 1.0
      ensures HasBall(ps[i]) <==> f.players[i].hasBall
    {
      PlayerAccepted(f.players[i]);
    }
  }

  function RestartText(r: Restart): string {
    match r
    case ThrowIn => "throw_in"
    case Corner => "corner"
    case GoalKick => "goal_kick"
    case FreeKick => "free_kick"
    case Penalty => "penalty"
  }

  function SeverityText(s: Severity): string {
    match s
    case Soft => "soft"
    case Yellow => "yellow"
    case Red => "red"
  }

  function TypeOf(e: Event): EventType {
    match e
    case Kickoff(_, _) => TKickoff
    case Pass(_, _, _, _, _) => TPass
    case Shot(_, _, _, _, _) => TShot
    case Goal(_, _, _) => TGoal
    case Tackle(_, _, _, _) => TTackle
    case Foul(_, _, _, _) => TFoul
    case Save(_, _) => TSave
    case OutOfBounds(_, _, _) => TOutOfBounds
    case Substitution(_, _, _, _) => TSubstitution
    case ScoreChange(_, _, _) => TScoreChange
    case PeriodStart(_, _) => TPeriodStart
    case PeriodEnd(_, _) => TPeriodEnd
    case MatchEnd(_) => TMatchEnd
    case Commentary(_, _) => TCommentary
  }

  /** The fields an event is written with, besides its type and time. */
  function EventFields(e: Event, text: string): map<string, Value> {
    match e
    case Kickoff(_, team) => map["team" := Str(team)]
    case Pass(_, from, to, target, success) =>
      map["from" := Str(from), "to" := Str(to), "target" := VecValue2(target), "success" := Bool(success)]
    case Shot(_, player, target, onTarget, saved) =>
      map["player" := Str(player), "target" := VecValue3(target), "on_target" := Bool(onTarget), "saved" := Bool(saved)]
    case Goal(_, player, team) => map["player" := Str(player), "team" := Str(team)]
    case Tackle(_, player, victim, success) => map["player" := Str(player), "victim" := Str(victim),
      "success" := Bool(success)]
    case Foul(_, player, victim, severity) =>
      map["player" := Str(player), "victim" := Str(victim), "severity" := Str(SeverityText(severity))]
    case Save(_, keeper) => map["keeper" := Str(keeper)]
    case OutOfBounds(_, toucher, restart) => map["touched_by" := Str(toucher), "restart" := Str(RestartText(restart))]
    case Substitution(_, team, playerIn, playerOut) =>
      map["team" := Str(team), "player_in" := Str(playerIn), "player_out" := Str(playerOut)]
    case ScoreChange(_, home, away) => map["home" := Count(home), "away" := Count(away)]
    case PeriodStart(_, period) => map["period" := Count(period)]
    case PeriodEnd(_, period) => map["period" := Count(period)]
    case MatchEnd(_) => map[]
    case Commentary(_, _) => map["text" := Str(text), "voice_id" := Str("play-by-play")]
  }

  function EventValue(e: Event, text: string): Value {
    Obj(EventFields(e, text)["type" := Str(TypeText(TypeOf(e)))]["t" := Count(e.t)])
  }

  lemma BallEventAccepted(e: Event, text: string)
    requires e.Kickoff? || e.Pass? || e.Shot? || e.Goal? || e.Tackle? || e.Save?
    ensures EventFieldsOk(TypeOf(e), EventValue(e, text))
  {
    hide TypeText;
  }

  lemma WordEventAccepted(e: Event, text: string)
    requires e.Foul? || e.OutOfBounds?
    ensures EventFieldsOk(TypeOf(e), EventValue(e, text))
  {
    hide TypeText;
  }

  lemma OtherEventAccepted(e: Event, text: string)
    requires e.Substitution? || e.ScoreChange? || e.PeriodStart? || e.PeriodEnd? || e.MatchEnd? || e.Commentary?
    ensures EventFieldsOk(TypeOf(e), EventValue(e, text))
       <==> (e.ScoreChange? ==> 0 <= e.home && 0 <= e.away) && (e.PeriodStart? || e.PeriodEnd? ==> 1 <= e.period)
  {
    hide TypeText;
  }

  lemma EventFieldsAccepted(e: Event, text: string)
    ensures EventFieldsOk(TypeOf(e), EventValue(e, text))
       <==> (e.ScoreChange? ==> 0 <= e.home && 0 <= e.away) && (e.PeriodStart? || e.PeriodEnd? ==> 1 <= e.period)
  {
    hide EventFieldsOk, EventValue, TypeOf;
    if e.Foul? || e.OutOfBounds? {
      WordEventAccepted(e, text);
    } else if e.Kickoff? || e.Pass? || e.Shot? || e.Goal? || e.Tackle? || e.Save? {
      BallEventAccepted(e, text);
    } else {
      OtherEventAccepted(e, text);
    }
  }

  /** So is an event, whatever its commentary text. */
  lemma EventAcceptedExactly(e: Event, text: string)
    ensures MessageOk(EventValue(e, text)) <==> EventLegal(e)
  {
    hide EventFieldsOk, EventFields, InitOk, FrameOk, TypeText;
    var v := EventValue(e, text);
    TextMarked(TypeOf(e));
    assert Get(v, "type") == Str(TypeText(TypeOf(e))) && Get(v, "t") == Count(e.t);
    NotAnEvent(TypeText(TypeOf(e)));
    CountIsCount(e.t);
    EventFieldsAccepted(e, text);
    if 0 <= e.t {
      OneTypeOnly(v, TypeOf(e));
    }
  }

  lemma NotAnEvent(t: string)
    requires "event." <= t
    ensures t != "match.init" && t != "state"
  {
    assert t[0] == 'e' && t[1] == 'v';
  }

  function ListedValue(p: Player): Value {
    Obj(map["id" := Str(p.id), "name" := Str(p.name), "number" := Count(p.number), "position" := Str(p.position)])
  }

  function ListedValues(ps: seq<Player>): (r: seq<Value>)
    ensures |r| == |ps| && forall i :: 0 <= i < |ps| ==> r[i] == ListedValue(ps[i])
  {
    seq(|ps|, i requires 0 <= i < |ps| => ListedValue(ps[i]))
  }

  function TeamValue(t: Team): Value {
    Obj(map["id" := Str(t.id), "name" := Str(t.name),
            "kit" := Obj(map["primary" := Str(t.primaryKit), "secondary" := Str(t.secondaryKit)]),
            "players" := Arr(ListedValues(t.players))])
  }

  function InitValue(m: MatchInit, specVersion: string): Value {
    Obj(map["type" := Str("match.init"), "spec_version" := Str(specVersion), "match_id" := Str(m.matchId),
            "sport" := Str("soccer"),
            "field" := Obj(map["length" := Num(105.0), "width" := Num(68.0), "units" := Str("m"),
              "surface" := Str("grass")]),
            "teams" := Arr([TeamValue(m.home), TeamValue(m.away)]),
            "start_time" := Str(m.startTime)])
  }

  lemma TeamAccepted(t: Team)
    ensures TeamOk(TeamValue(t)) <==> t.players != []
  {
    var v := TeamValue(t);
    assert Get(v, "players") == Arr(ListedValues(t.players));
    forall i | 0 <= i < |t.players|
      ensures ListedOk(ListedValues(t.players)[i])
    {
      assert Get(ListedValue(t.players[i]), "number") == Count(t.players[i].number);
    }
  }

  /** The opening message is accepted exactly when both rosters have players. */
  lemma InitAcceptedExactly(m: MatchInit, specVersion: string)
    ensures MessageOk(InitValue(m, specVersion)) <==> m.home.players != [] && m.away.players != []
  {
    hide TeamOk, TeamValue, EventOk, FrameOk;
    TeamAccepted(m.home);
    TeamAccepted(m.away);
    var v := InitValue(m, specVersion);
    var field := Get(v, "field");
    assert Get(field, "length") == Num(105.0) && Get(field, "width") == Num(68.0) && Get(field, "units") == Str("m");
    assert Get(v, "teams").items == [TeamValue(m.home), TeamValue(m.away)];
  }

  function MessageValue(m: Message, text: string): Value {
    match m
    case Init(init) => InitValue(init, text)
    case State(frame) => FrameValue(frame, text)
    case Ev(event) => EventValue(event, text)
  }

  /** Every message of a stream that reads as legal is accepted; the simulator's
      stream reads as legal. */
  lemma LegalStreamAccepted(log: seq<Message>, homeId: string, i: nat, text: string)
    requires Read(log, homeId).flow.legal && i < |log|
    requires log[i].Init? ==> log[i].init.home.players != [] && log[i].init.away.players != []
    ensures MessageOk(MessageValue(log[i], text))
  {
    hide Read, MessageOk, FrameLegal, EventLegal, InitValue, FrameValue, EventValue;
    LegalMeansAllLegal(log, homeId, i);
    match log[i]
    case Init(init) => InitAcceptedExactly(init, text);
    case State(frame) => FrameAcceptedExactly(frame, text);
    case Ev(event) => EventAcceptedExactly(event, text);
  }
}
