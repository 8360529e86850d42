/** The message format as a table of shapes, and what the validator has to do
    with it. */
module Schema {
  import opened Options
  import opened Validator

  /** What a value may look like. `Said` reads a value the way a comparison with
      a word does; `Record` asks for its fields and ignores others. */
  datatype Shape =
    | Text | Flag | Number | Whole | Min(least: real) | Share | Vector(size: nat)
    | Word(words: seq<string>) | Said(words: seq<string>) | Optional(shape: Shape)
    | List(item: Shape, atLeast: nat) | Pair(item: Shape) | Record(fields: seq<Part>)

  datatype Part = Part(key: string, shape: Shape)

  predicate Finite(v: Value) {
    v.Num?
  }

  ghost predicate Fits(v: Value, shape: Shape)
    decreases shape
  {
    match shape
    case Text => v.Str?
    case Flag => v.Bool?
    case Number => Finite(v)
    case Whole => Finite(v) && 0.0 <= v.x && v.x == v.x.Floor as real
    case Min(least) => Finite(v) && v.x >= least
    case Share => Finite(v) && 0.0 <= v.x <= 1.0
    case Vector(size) => v.Arr? && |v.items| == size && forall i :: 0 <= i < size ==> Finite(v.items[i])
    case Word(words) => v.Str? && v.s in words
    case Said(words) => Validator.Word(v) in words
    case Optional(inner) => v == Undefined || Fits(v, inner)
    case List(item, atLeast) =>
      v.Arr? && |v.items| >= atLeast && forall i :: 0 <= i < |v.items| ==> Fits(v.items[i], item)
    case Pair(item) => v.Arr? && |v.items| == 2 && forall i :: 0 <= i < 2 ==> Fits(v.items[i], item)
    case Record(fields) => forall i :: 0 <= i < |fields| ==> Fits(Get(v, fields[i].key), fields[i].shape)
  }

  const ANIMATIONS := [
    "idle", "walk", "run", "sprint", "kick", "pass", "header", "shoot", "tackle", "fall", "celebrate", "throw",
    "catch", "dribble", "jump"]

  const GAMES := [
    "soccer", "rugby_union", "rugby_league", "basketball", "american_football", "australian_rules", "field_hockey"]

  const FRAME := Record([
    Part("t", Whole),
    Part("ball", Record([Part("pos", Vector(3)), Part("vel", Optional(Vector(3))), Part("carrier", Optional(Text))])),
    Part("players", List(PLAYER, 0))])

  const PLAYER := Record([
    Part("id", Text), Part("pos", Vector(2)), Part("facing", Number), Part("anim", Word(ANIMATIONS)),
      Part("fatigue", Optional(Share))])

  const INIT := Record([
    Part("spec_version", Text), Part("match_id", Text),
    Part("sport", Word(GAMES)),
    Part("field", Record([Part("length", Number), Part("width", Number), Part("units", Word(["m", "ft"]))])),
    Part("teams", Pair(TEAM)), Part("start_time", Text)])

  const TEAM := Record([
    Part("id", Text), Part("name", Text), Part("kit", Record([Part("primary", Text), Part("secondary", Text)])),
      Part("players", List(MEMBER, 1))])

  const MEMBER := Record([Part("id", Text), Part("name", Text), Part("number", Number), Part("position", Text)])

  /** The fields of an event besides its time, by its type. */
  function EventShape(name: string): Option<Shape> {
    if name == "event.kickoff" then Some(Record([Part("team", Text)]))
    else if name == "event.pass" then Some(Record([Part("from", Text), Part("to", Optional(Text)),
      Part("target", Vector(2))]))
    else if name == "event.shot" then Some(Record([Part("player", Text), Part("target", Vector(3)),
      Part("on_target", Flag)]))
    else if name == "event.goal" then Some(Record([Part("player", Text), Part("team", Text)]))
    else if name == "event.tackle" then Some(Record([Part("player", Text), Part("victim", Text),
      Part("success", Flag)]))
    else if name == "event.foul" then
      Some(Record([Part("player", Text), Part("severity", Word(["soft", "yellow", "red"]))]))
    else if name == "event.save" then Some(Record([Part("keeper", Text)]))
    else if name == "event.out_of_bounds" then
      Some(Record([Part("restart", Said(["throw_in", "corner", "goal_kick", "free_kick", "penalty"]))]))
    else if name == "event.substitution" then
      Some(Record([Part("team", Text), Part("player_in", Text), Part("player_out", Text)]))
    else if name == "event.score_change" then Some(Record([Part("home", Whole), Part("away", Whole)]))
    else if name == "event.period_start" || name == "event.period_end" then Some(Record([Part("period", Min(1.0))]))
    else if name == "event.match_end" || name == "event.penalty_shootout_start" then Some(Record([]))
    else if name == "event.penalty_attempt" then
      Some(Record([Part("player", Text), Part("team", Text), Part("outcome", Said(["scored", "missed", "saved"]))]))
    else if name == "event.penalty_shootout_end" then Some(Record([Part("winner", Text)]))
    else if name == "event.commentary" then Some(Record([Part("text", Text)]))
    else None
  }

  function Items(v: Value): seq<Value> {
    if v.Arr? then v.items else []
  }

  predicate Holds(p: Value) {
    Get(p, "has_ball") == Bool(true)
  }

  /** A message of the format: a known type, the shape of that type, and in a
      frame at most one player with the ball. */
  ghost predicate InFormat(m: Value) {
    Get(m, "type").Str?
    && var name := Get(m, "type").s;
       if name == "match.init" then Fits(m, INIT)
       else if name == "state" then
         var players := Items(Get(m, "players"));
         Fits(m, FRAME) && forall i, j :: 0 <= i < j < |players| ==> !(Holds(players[i]) && Holds(players[j]))
       else EventShape(name).Some? && Fits(Get(m, "t"), Whole) && Fits(m, EventShape(name).value)
  }

  // ---------- records, field by field ----------

  lemma NoFields(v: Value)
    ensures Fits(v, Record([]))
  {
  }

  lemma FieldByField(v: Value, p: Part, rest: seq<Part>)
    ensures Fits(v, Record([p] + rest)) <==> Fits(Get(v, p.key), p.shape) && Fits(v, Record(rest))
  {
    var all := [p] + rest;
    if Fits(v, Record(all)) {
      assert all[0] == p;
      forall i | 0 <= i < |rest|
        ensures Fits(Get(v, rest[i].key), rest[i].shape)
      {
        assert all[i + 1] == rest[i];
      }
    }
  }

  lemma OneField(v: Value, a: Part)
    ensures Fits(v, Record([a])) <==> Fits(Get(v, a.key), a.shape)
  {
    hide Fits;
    assert [a] == [a] + [];
    FieldByField(v, a, []);
    NoFields(v);
  }

  lemma TwoFields(v: Value, a: Part, b: Part)
    ensures Fits(v, Record([a, b])) <==> Fits(Get(v, a.key), a.shape) && Fits(Get(v, b.key), b.shape)
  {
    hide Fits;
    assert [a, b] == [a] + [b];
    FieldByField(v, a, [b]);
    OneField(v, b);
  }

  lemma ThreeFields(v: Value, a: Part, b: Part, c: Part)
    ensures Fits(v, Record([a, b, c]))
       <==> Fits(Get(v, a.key), a.shape) && Fits(Get(v, b.key), b.shape) && Fits(Get(v, c.key), c.shape)
  {
    hide Fits;
    assert [a, b, c] == [a] + [b, c];
    FieldByField(v, a, [b, c]);
    TwoFields(v, b, c);
  }

  lemma ThreeAndMore(v: Value, a: Part, b: Part, c: Part, rest: seq<Part>)
    ensures Fits(v, Record([a, b, c] + rest))
       <==> && Fits(Get(v, a.key), a.shape) && Fits(Get(v, b.key), b.shape) && Fits(Get(v, c.key), c.shape)
            && Fits(v, Record(rest))
  {
    hide Fits;
    assert [a, b, c] + rest == [a] + ([b] + ([c] + rest));
    FieldByField(v, a, [b] + ([c] + rest));
    FieldByField(v, b, [c] + rest);
    FieldByField(v, c, rest);
  }

  // ---------- single values ----------

  lemma FitsText(v: Value)
    ensures Fits(v, Text) <==> v.Str?
    ensures Fits(v, Optional(Text)) <==> v.Undefined? || v.Str?
  {
  }

  lemma FitsFlag(v: Value)
    ensures Fits(v, Flag) <==> v.Bool?
  {
  }

  lemma FitsNumber(v: Value)
    ensures Fits(v, Number) <==> v.Num?
    ensures Fits(v, Whole) <==> IsCount(v)
    ensures Fits(v, Min(1.0)) <==> v.Num? && 1.0 <= v.x
    ensures Fits(v, Optional(Share)) <==> FatigueOk(v)
  {
  }

  lemma FitsVector(v: Value, n: nat)
    ensures Fits(v, Vector(n)) <==> IsVec(v, n)
    ensures Fits(v, Optional(Vector(n))) <==> v.Undefined? || IsVec(v, n)
  {
  }

  lemma FitsWord(v: Value, words: seq<string>)
    ensures Fits(v, Word(words)) <==> v.Str? && v.s in words
    ensures Fits(v, Said(words)) <==> Validator.Word(v) in words
  {
  }

  // ---------- events ----------

  lemma BallEventShaped(k: EventType, m: Value)
    requires k in {TKickoff, TPass, TShot, TGoal, TTackle, TSave}
    ensures EventShape(TypeText(k)).Some?
    ensures EventFieldsOk(k, m) <==> Fits(m, EventShape(TypeText(k)).value)
  {
    hide Fits, IsVec;
    FitsText(Get(m, "team"));
    FitsText(Get(m, "from"));
    FitsText(Get(m, "to"));
    FitsText(Get(m, "player"));
    FitsText(Get(m, "victim"));
    FitsText(Get(m, "keeper"));
    FitsFlag(Get(m, "on_target"));
    FitsFlag(Get(m, "success"));
    FitsVector(Get(m, "target"), 2);
    FitsVector(Get(m, "target"), 3);
    OneField(m, Part("team", Text));
    ThreeFields(m, Part("from", Text), Part("to", Optional(Text)), Part("target", Vector(2)));
    ThreeFields(m, Part("player", Text), Part("target", Vector(3)), Part("on_target", Flag));
    TwoFields(m, Part("player", Text), Part("team", Text));
    ThreeFields(m, Part("player", Text), Part("victim", Text), Part("success", Flag));
    OneField(m, Part("keeper", Text));
  }

  lemma WordEventShaped(k: EventType, m: Value)
    requires k in {TFoul, TOutOfBounds, TPenaltyAttempt}
    ensures EventShape(TypeText(k)).Some?
    ensures EventFieldsOk(k, m) <==> Fits(m, EventShape(TypeText(k)).value)
  {
    hide Fits, Validator.Word;
    FitsText(Get(m, "team"));
    FitsText(Get(m, "player"));
    var severities := ["soft", "yellow", "red"];
    var restarts := ["throw_in", "corner", "goal_kick", "free_kick", "penalty"];
    var outcomes := ["scored", "missed", "saved"];
    FitsWord(Get(m, "severity"), severities);
    FitsWord(Get(m, "restart"), restarts);
    FitsWord(Get(m, "outcome"), outcomes);
    TwoFields(m, Part("player", Text), Part("severity", Word(severities)));
    OneField(m, Part("restart", Said(restarts)));
    ThreeFields(m, Part("player", Text), Part("team", Text), Part("outcome", Said(outcomes)));
  }

  lemma OtherEventShaped(k: EventType, m: Value)
    requires k in {TSubstitution, TScoreChange, TPeriodStart, TPeriodEnd, TMatchEnd, TShootoutStart, TShootoutEnd,
                   TCommentary}
    ensures EventShape(TypeText(k)).Some?
    ensures EventFieldsOk(k, m) <==> Fits(m, EventShape(TypeText(k)).value)
  {
    hide Fits, IsCount;
    FitsText(Get(m, "team"));
    FitsText(Get(m, "player_in"));
    FitsText(Get(m, "player_out"));
    FitsText(Get(m, "winner"));
    FitsText(Get(m, "text"));
    FitsNumber(Get(m, "home"));
    FitsNumber(Get(m, "away"));
    FitsNumber(Get(m, "period"));
    NoFields(m);
    ThreeFields(m, Part("team", Text), Part("player_in", Text), Part("player_out", Text));
    TwoFields(m, Part("home", Whole), Part("away", Whole));
    OneField(m, Part("period", Min(1.0)));
    OneField(m, Part("winner", Text));
    OneField(m, Part("text", Text));
  }

  /** Of each type, the fields checked are those of the table. */
  lemma EventShaped(k: EventType, m: Value)
    ensures EventShape(TypeText(k)).Some?
    ensures EventFieldsOk(k, m) <==> Fits(m, EventShape(TypeText(k)).value)
  {
    hide Fits, EventFieldsOk, EventShape, TypeText;
    if k in {TKickoff, TPass, TShot, TGoal, TTackle, TSave} {
      BallEventShaped(k, m);
    } else if k in {TFoul, TOutOfBounds, TPenaltyAttempt} {
      WordEventShaped(k, m);
    } else {
      OtherEventShaped(k, m);
    }
  }

  /** The types the table knows are those the validator knows. */
  lemma TypesKnown(name: string)
    ensures EventShape(name).Some? <==> exists k: EventType :: name == TypeText(k)
  {
    hide TypeText;
    if EventShape(name).Some? {
      KnownType(name);
    }
    forall k: EventType | name == TypeText(k)
      ensures EventShape(name).Some?
    {
      EventShaped(k, Null);
    }
  }

  lemma KnownType(name: string)
    requires EventShape(name).Some?
    ensures exists k: EventType :: name == TypeText(k)
  {
    var k :=
      if name == "event.kickoff" then TKickoff else if name == "event.pass" then TPass
      else if name == "event.shot" then TShot else if name == "event.goal" then TGoal
      else if name == "event.tackle" then TTackle else if name == "event.foul" then TFoul
      else if name == "event.save" then TSave else if name == "event.out_of_bounds" then TOutOfBounds
      else if name == "event.substitution" then TSubstitution else if name == "event.score_change" then TScoreChange
      else if name == "event.period_start" then TPeriodStart else if name == "event.period_end" then TPeriodEnd
      else if name == "event.match_end" then TMatchEnd
      else if name == "event.penalty_shootout_start" then TShootoutStart
      else if name == "event.penalty_attempt" then TPenaltyAttempt
      else if name == "event.penalty_shootout_end" then TShootoutEnd else TCommentary;
    assert name == TypeText(k);
  }

  lemma EventInFormat(m: Value)
    requires Get(m, "type").Str?
    ensures
      var shape := EventShape(Get(m, "type").s);
      EventOk(m) <==> shape.Some? && Fits(Get(m, "t"), Whole) && Fits(m, shape.value)
  {
    hide Fits, EventFieldsOk, EventShape, TypeText, IsCount;
    TypesKnown(Get(m, "type").s);
    FitsNumber(Get(m, "t"));
    forall k: EventType
      ensures EventShape(TypeText(k)).Some? && (EventFieldsOk(k, m) <==> Fits(m, EventShape(TypeText(k)).value))
    {
      EventShaped(k, m);
    }
  }

  // ---------- frames ----------

  lemma PlayerShaped(p: Value)
    ensures PlayerOk(p) <==> Fits(p, PLAYER)
  {
    hide Fits, IsVec, FatigueOk;
    var a, b, c := Part("id", Text), Part("pos", Vector(2)), Part("facing", Number);
    var d, e := Part("anim", Word(ANIMATIONS)), Part("fatigue", Optional(Share));
    assert PLAYER == Record([a, b, c] + [d, e]);
    ThreeAndMore(p, a, b, c, [d, e]);
    TwoFields(p, d, e);
    FitsText(Get(p, "id"));
    FitsVector(Get(p, "pos"), 2);
    FitsNumber(Get(p, "facing"));
    FitsWord(Get(p, "anim"), ANIMATIONS);
    FitsNumber(Get(p, "fatigue"));
  }

  lemma BallShaped(b: Value)
    ensures Fits(b, Record([Part("pos", Vector(3)), Part("vel", Optional(Vector(3))), Part("carrier", Optional(Text))]))
       <==> && IsVec(Get(b, "pos"), 3)
            && (Get(b, "vel").Undefined? || IsVec(Get(b, "vel"), 3))
            && (Get(b, "carrier").Undefined? || Get(b, "carrier").Str?)
  {
    hide Fits, IsVec;
    ThreeFields(b, Part("pos", Vector(3)), Part("vel", Optional(Vector(3))), Part("carrier", Optional(Text)));
    FitsVector(Get(b, "pos"), 3);
    FitsVector(Get(b, "vel"), 3);
    FitsText(Get(b, "carrier"));
  }

  lemma FitsPlayers(v: Value)
    ensures Fits(v, List(PLAYER, 0)) <==> v.Arr? && forall i :: 0 <= i < |v.items| ==> PlayerOk(v.items[i])
  {
    hide PlayerOk;
    if v.Arr? {
      forall i | 0 <= i < |v.items|
        ensures PlayerOk(v.items[i]) <==> Fits(v.items[i], PLAYER)
      {
        PlayerShaped(v.items[i]);
      }
    }
  }

  lemma FrameInFormat(m: Value)
    ensures
      var players := Items(Get(m, "players"));
      FrameOk(m)
      <==> Fits(m, FRAME) && forall i, j :: 0 <= i < j < |players| ==> !(Holds(players[i]) && Holds(players[j]))
  {
    hide Fits, PlayerOk, FrameHeadOk;
    HeadShaped(m);
    if FrameHeadOk(m) {
      FitsPlayers(Get(m, "players"));
      HeadHasPlayers(m);
      var players := Get(m, "players").items;
      assert AtMostOneBall(players)
        <==> forall i, j :: 0 <= i < j < |players| ==> !(Holds(players[i]) && Holds(players[j]));
    } else {
      FitsPlayers(Get(m, "players"));
    }
  }

  lemma HeadHasPlayers(m: Value)
    requires FrameHeadOk(m)
    ensures Get(m, "players").Arr?
  {
  }

  lemma HeadShaped(m: Value)
    ensures Fits(m, FRAME) <==> FrameHeadOk(m) && Fits(Get(m, "players"), List(PLAYER, 0))
  {
    hide Fits, IsVec, IsCount;
    var ball := Record([Part("pos", Vector(3)), Part("vel", Optional(Vector(3))), Part("carrier", Optional(Text))]);
    ThreeFields(m, Part("t", Whole), Part("ball", ball), Part("players", List(PLAYER, 0)));
    FitsNumber(Get(m, "t"));
    BallShaped(Get(m, "ball"));
    FitsPlayers(Get(m, "players"));
    FalsyHasNothing(Get(m, "ball"));
    assert Falsy(Get(m, "ball")) ==> Get(Get(m, "ball"), "pos") == Undefined;
  }

  lemma FalsyHasNothing(v: Value)
    ensures Falsy(v) ==> forall key :: Get(v, key) == Undefined
    ensures !IsVec(Undefined, 3)
  {
  }

  // ---------- the opening message ----------

  lemma MemberShaped(p: Value)
    ensures ListedOk(p) <==> Fits(p, MEMBER)
  {
    hide Fits;
    var a, b, c, d := Part("id", Text), Part("name", Text), Part("number", Number), Part("position", Text);
    assert MEMBER == Record([a, b, c] + [d]);
    ThreeAndMore(p, a, b, c, [d]);
    OneField(p, d);
    FitsText(Get(p, "id"));
    FitsText(Get(p, "name"));
    FitsNumber(Get(p, "number"));
    FitsText(Get(p, "position"));
  }

  lemma FitsMembers(v: Value)
    ensures Fits(v, List(MEMBER, 1))
       <==> v.Arr? && v.items != [] && forall i :: 0 <= i < |v.items| ==> ListedOk(v.items[i])
  {
    hide ListedOk;
    if v.Arr? {
      forall i | 0 <= i < |v.items|
        ensures ListedOk(v.items[i]) <==> Fits(v.items[i], MEMBER)
      {
        MemberShaped(v.items[i]);
      }
    }
  }

  lemma TeamShaped(t: Value)
    ensures TeamOk(t) <==> Fits(t, TEAM)
  {
    hide Fits, ListedOk;
    var kit := Record([Part("primary", Text), Part("secondary", Text)]);
    var a, b, c, d := Part("id", Text), Part("name", Text), Part("kit", kit), Part("players", List(MEMBER, 1));
    assert TEAM == Record([a, b, c] + [d]);
    ThreeAndMore(t, a, b, c, [d]);
    OneField(t, d);
    TwoFields(Get(t, "kit"), Part("primary", Text), Part("secondary", Text));
    FitsText(Get(t, "id"));
    FitsText(Get(t, "name"));
    FitsText(Get(Get(t, "kit"), "primary"));
    FitsText(Get(Get(t, "kit"), "secondary"));
    FitsMembers(Get(t, "players"));
    FalsyHasNothing(Get(t, "kit"));
  }

  lemma FitsTeams(v: Value)
    ensures Fits(v, Pair(TEAM)) <==> v.Arr? && |v.items| == 2 && TeamOk(v.items[0]) && TeamOk(v.items[1])
  {
    hide TeamOk;
    if v.Arr? && |v.items| == 2 {
      TeamShaped(v.items[0]);
      TeamShaped(v.items[1]);
    }
  }

  lemma FieldShaped(f: Value)
    ensures Fits(f, Record([Part("length", Number), Part("width", Number), Part("units", Word(["m", "ft"]))]))
       <==> && Get(f, "length").Num? && Get(f, "width").Num?
            && (Get(f, "units") == Str("m") || Get(f, "units") == Str("ft"))
  {
    hide Fits;
    ThreeFields(f, Part("length", Number), Part("width", Number), Part("units", Word(["m", "ft"])));
    FitsNumber(Get(f, "length"));
    FitsNumber(Get(f, "width"));
    FitsWord(Get(f, "units"), ["m", "ft"]);
  }

  lemma InitInFormat(m: Value)
    ensures InitOk(m) <==> Fits(m, INIT)
  {
    hide Fits, TeamOk;
    var field := Record([Part("length", Number), Part("width", Number), Part("units", Word(["m", "ft"]))]);
    var a, b, c := Part("spec_version", Text), Part("match_id", Text), Part("sport", Word(GAMES));
    var d, e, f := Part("field", field), Part("teams", Pair(TEAM)), Part("start_time", Text);
    assert INIT == Record([a, b, c] + [d, e, f]);
    ThreeAndMore(m, a, b, c, [d, e, f]);
    ThreeFields(m, d, e, f);
    FitsText(Get(m, "spec_version"));
    FitsText(Get(m, "match_id"));
    FitsWord(Get(m, "sport"), GAMES);
    FieldShaped(Get(m, "field"));
    FitsTeams(Get(m, "teams"));
    FitsText(Get(m, "start_time"));
    FalsyHasNothing(Get(m, "field"));
  }

  // ---------- every message ----------

  /** The validator's rules and the format are the same: what it accepts has a
      known type and the shape of that type, and nothing else is asked. */
  lemma RulesAreTheFormat(m: Value)
    ensures MessageOk(m) <==> InFormat(m)
  {
    hide Fits, InitOk, FrameOk, EventOk, EventShape;
    if Get(m, "type").Str? {
      InitInFormat(m);
      FrameInFormat(m);
      EventInFormat(m);
    }
  }
}
