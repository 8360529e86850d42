/** Geometry of the pitch: formation slots, the playing box and the steps that
    players take. Distances are in metres, the origin is the centre spot. */
module Pitch {
  import opened Options
  import opened Numerics

  datatype Vec2 = Vec2(x: real, y: real)
  datatype Vec3 = Vec3(x: real, y: real, z: real)

  /** Team index: side 0 defends -x, side 1 defends +x. */
  type Side = s: int | 0 <= s <= 1

  const HALF_LENGTH := 52.5
  const MAX_X := 51.5
  const MAX_Y := 33.0

  /** The part of the pitch that players never leave. */
  predicate InBox(p: Vec2) {
    -MAX_X <= p.x <= MAX_X && -MAX_Y <= p.y <= MAX_Y
  }

  function IntoBox(p: Vec2): (r: Vec2)
    ensures InBox(r)
    ensures InBox(p) ==> r == p
  {
    Vec2(Clamp(p.x, -MAX_X, MAX_X), Clamp(p.y, -MAX_Y, MAX_Y))
  }

  function DistSq(a: Vec2, b: Vec2): (d: real)
    ensures 0.0 <= d
  {
    (a.x - b.x) * (a.x - b.x) + (a.y - b.y) * (a.y - b.y)
  }

  function Dist(m: Maths, a: Vec2, b: Vec2): real {
    m.sqrt(DistSq(a, b))
  }

  function AngleTo(m: Maths, from: Vec2, to: Vec2): real {
    m.atan2(to.y - from.y, to.x - from.x)
  }

  function FormationSlot(position: string): Option<Vec2> {
    match position
    case "GK" => Some(Vec2(-48.0, 0.0))
    case "RB" => Some(Vec2(-30.0, -22.0))
    case "CB" => Some(Vec2(-32.0, -8.0))
    case "LB" => Some(Vec2(-30.0, 22.0))
    case "DM" => Some(Vec2(-18.0, 0.0))
    case "CM" => Some(Vec2(-8.0, -10.0))
    case "AM" => Some(Vec2(4.0, 8.0))
    case "RW" => Some(Vec2(10.0, -22.0))
    case "LW" => Some(Vec2(10.0, 22.0))
    case "ST" => Some(Vec2(22.0, 0.0))
    case _ => None
  }

  /** The slot of the `index`-th player of a role. Any eleven players fit in the
      box, also when all of them have a role the table does not know. */
  function SlotForPlayer(position: string, index: nat): (slot: Vec2)
    ensures index < 11 ==> InBox(slot)
  {
    match FormationSlot(position)
    case None => Vec2(0.0, (index * 4 - 10) as real)
    case Some(base) => if index == 0 then base else Vec2(base.x, -base.y)
  }

  function MirrorSlotForTeam(slot: Vec2, side: Side): (r: Vec2)
    ensures InBox(slot) <==> InBox(r)
  {
    if side == 0 then slot else Vec2(-slot.x, -slot.y)
  }

  function OppositionGoalCentre(side: Side): Vec3 {
    if side == 0 then Vec3(HALF_LENGTH, 0.0, 1.2) else Vec3(-HALF_LENGTH, 0.0, 1.2)
  }

  function MoveToward(m: Maths, from: Vec2, to: Vec2, maxStep: real): Vec2
    requires m.Lawful()
  {
    var d := Dist(m, from, to);
    if d <= maxStep || d == 0.0 then to
    else Vec2(from.x + (to.x - from.x) / d * maxStep, from.y + (to.y - from.y) / d * maxStep)
  }

  /** A point between `a` and `b` stays in any interval that holds both. */
  lemma Between(a: real, b: real, share: real, lo: real, hi: real)
    requires lo <= a <= hi && lo <= b <= hi
    requires 0.0 <= share <= 1.0
    ensures lo <= a + (b - a) * share <= hi
  {
    if a <= b {
      var part := Part(b - a, share);
      assert (b - a) * share == part;
    } else {
      var part := Part(a - b, share);
      assert (b - a) * share == -part;
    }
  }

  lemma QuotientTimes(a: real, d: real, step: real)
    requires d != 0.0
    ensures a / d * step == a * (step / d)
  {
  }

  lemma SquareScale(a: real, b: real, share: real)
    ensures a * share * (a * share) + b * share * (b * share) == (a * a + b * b) * (share * share)
  {
  }

  /** A step towards a point of the box stays in the box and is no longer than
      the allowed step. */
  lemma MoveTowardInBox(m: Maths, from: Vec2, to: Vec2, maxStep: real)
    requires m.Lawful() && 0.0 <= maxStep
    requires InBox(from) && InBox(to)
    ensures InBox(MoveToward(m, from, to, maxStep))
  {
    var d := Dist(m, from, to);
    if !(d <= maxStep || d == 0.0) {
      var share := maxStep / d;
      assert 0.0 <= share <= 1.0;
      QuotientTimes(to.x - from.x, d, maxStep);
      QuotientTimes(to.y - from.y, d, maxStep);
      Between(from.x, to.x, share, -MAX_X, MAX_X);
      Between(from.y, to.y, share, -MAX_Y, MAX_Y);
    }
  }

  lemma MoveTowardStep(m: Maths, from: Vec2, to: Vec2, maxStep: real)
    requires m.Lawful() && 0.0 <= maxStep
    ensures DistSq(from, MoveToward(m, from, to, maxStep)) <= maxStep * maxStep
  {
    var d := Dist(m, from, to);
    assert d * d == DistSq(from, to);
    if d <= maxStep || d == 0.0 {
      if d <= maxStep {
        SquareMonotone(d, maxStep);
      }
    } else {
      var share := maxStep / d;
      QuotientTimes(to.x - from.x, d, maxStep);
      QuotientTimes(to.y - from.y, d, maxStep);
      SquareScale(to.x - from.x, to.y - from.y, share);
      assert d * d * (share * share) == d * share * (d * share);
      assert d * share == maxStep;
    }
  }

  lemma RootOf(m: Maths, x: real, r: real)
    requires m.Lawful() && 0.0 <= r && x == r * r
    ensures m.sqrt(x) == r
  {
    var s := m.sqrt(x);
    if s < r {
      SquareGap(s, r);
    }
    if r < s {
      SquareGap(r, s);
    }
  }

  lemma SquareGap(a: real, b: real)
    requires 0.0 <= a < b
    ensures a * a < b * b
  {
    ProductSign(b - a, b + a);
    DifferenceOfSquares(a, b);
  }

  lemma Remaining(x: real, share: real)
    ensures x - x * share == x * (1.0 - share)
  {
  }

  lemma StepTaken(x: real, to: real, d: real, step: real)
    requires d != 0.0
    ensures to - (x + (to - x) / d * step) == (to - x) * (1.0 - step / d)
  {
    QuotientTimes(to - x, d, step);
    Remaining(to - x, step / d);
  }

  lemma DistIs(m: Maths, from: Vec2, to: Vec2)
    requires m.Lawful()
    ensures 0.0 <= Dist(m, from, to)
    ensures Dist(m, from, to) * Dist(m, from, to) == DistSq(from, to)
    ensures Dist(m, from, to) == m.sqrt((to.x - from.x) * (to.x - from.x) + (to.y - from.y) * (to.y - from.y))
  {
    hide DistSq;
    SameSquares(from, to, to.x - from.x, to.y - from.y);
    var sq := DistSq(from, to);
    assert 0.0 <= m.sqrt(sq) && m.sqrt(sq) * m.sqrt(sq) == sq;
    var squares := (to.x - from.x) * (to.x - from.x) + (to.y - from.y) * (to.y - from.y);
    assert sq == squares;
    assert m.sqrt(sq) == m.sqrt(squares);
  }

  /** A step towards a point gets nearer by exactly its length, and there when
      it is long enough. */
  lemma MoveTowardNears(m: Maths, from: Vec2, to: Vec2, maxStep: real)
    requires m.Lawful() && 0.0 <= maxStep
    ensures Dist(m, from, to) <= maxStep ==> MoveToward(m, from, to, maxStep) == to
    ensures maxStep < Dist(m, from, to) ==>
              Dist(m, MoveToward(m, from, to, maxStep), to) == Dist(m, from, to) - maxStep
  {
    hide DistSq, Dist;
    var d := Dist(m, from, to);
    DistIs(m, from, to);
    if maxStep < d {
      StepTaken(from.x, to.x, d, maxStep);
      StepTaken(from.y, to.y, d, maxStep);
      RestOfWay(m, from, to, MoveToward(m, from, to, maxStep), d, maxStep);
    }
  }

  lemma RestOfWay(m: Maths, from: Vec2, to: Vec2, next: Vec2, d: real, step: real)
    requires m.Lawful() && 0.0 <= step < d && d * d == DistSq(from, to)
    requires to.x - next.x == (to.x - from.x) * (1.0 - step / d)
    requires to.y - next.y == (to.y - from.y) * (1.0 - step / d)
    ensures Dist(m, next, to) == d - step
  {
    var rest := 1.0 - step / d;
    var a, b := to.x - from.x, to.y - from.y;
    SquareScale(a, b, rest);
    SameSquares(from, to, a, b);
    SameSquares(next, to, a * rest, b * rest);
    assert d * rest == d - step by {
      Remaining(d, step / d);
      assert d * (step / d) == step;
    }
    SquareOfProduct(d, rest);
    RootOf(m, DistSq(next, to), d - step);
  }

  lemma SameSquares(p: Vec2, q: Vec2, a: real, b: real)
    requires q.x - p.x == a && q.y - p.y == b
    ensures DistSq(p, q) == a * a + b * b
  {
    SquareOfNegative(p.x, q.x);
    SquareOfNegative(p.y, q.y);
  }

  lemma SquareOfProduct(d: real, rest: real)
    ensures d * rest * (d * rest) == d * d * (rest * rest)
  {
  }

  function Ahead(from: Vec2, c: real, s: real, step: real): Vec2 {
    Vec2(from.x + c * step, from.y + s * step)
  }

  /** Where the carrier runs to: `step` metres along his heading, pushed back
      into the box. */
  function CarrierNext(m: Maths, from: Vec2, angle: real, step: real): (next: Vec2)
    ensures InBox(next)
  {
    IntoBox(Ahead(from, m.cos(angle), m.sin(angle), step))
  }

  /** He gets no further than his step. */
  lemma CarrierStep(m: Maths, from: Vec2, angle: real, step: real)
    requires m.Lawful() && InBox(from)
    ensures DistSq(from, CarrierNext(m, from, angle, step)) <= step * step
  {
    UnitStep(from, m.cos(angle), m.sin(angle), step);
  }

  lemma UnitStep(from: Vec2, c: real, s: real, step: real)
    requires InBox(from) && c * c + s * s == 1.0
    ensures DistSq(from, IntoBox(Ahead(from, c, s, step))) <= step * step
  {
    ClampNonExpansive(from.x, from.x + c * step, -MAX_X, MAX_X);
    ClampNonExpansive(from.y, from.y + s * step, -MAX_Y, MAX_Y);
    SquareScale(c, s, step);
  }

  /** Cosine and sine of the angle of a vector are its coordinates over its length. */
  ghost predicate Polar(m: Maths) {
    forall x: real, y: real ::
      m.cos(m.atan2(y, x)) * m.sqrt(x * x + y * y) == x && m.sin(m.atan2(y, x)) * m.sqrt(x * x + y * y) == y
  }

  lemma WayLeft(c: real, d: real, a: real, step: real)
    requires d != 0.0 && c * d == a
    ensures a - c * step == a * (1.0 - step / d)
  {
    assert c == a / d;
    QuotientTimes(a, d, step);
    Remaining(a, step / d);
  }

  lemma PolarOf(m: Maths, x: real, y: real)
    requires Polar(m)
    ensures m.cos(m.atan2(y, x)) * m.sqrt(x * x + y * y) == x && m.sin(m.atan2(y, x)) * m.sqrt(x * x + y * y) == y
  {
  }

  /** Running at a point gets nearer to it by exactly the step. */
  lemma RunsAt(m: Maths, from: Vec2, to: Vec2, step: real)
    requires m.Lawful() && Polar(m) && 0.0 <= step < Dist(m, from, to)
    ensures
      var angle := AngleTo(m, from, to);
      Dist(m, Ahead(from, m.cos(angle), m.sin(angle), step), to) == Dist(m, from, to) - step
  {
    hide Dist, DistSq, Polar;
    DistIs(m, from, to);
    PolarOf(m, to.x - from.x, to.y - from.y);
    RunsAlong(m, from, to, m.cos(AngleTo(m, from, to)), m.sin(AngleTo(m, from, to)), Dist(m, from, to), step);
  }

  lemma RunsAlong(m: Maths, from: Vec2, to: Vec2, c: real, s: real, d: real, step: real)
    requires m.Lawful() && 0.0 <= step < d && d * d == DistSq(from, to)
    requires c * d == to.x - from.x && s * d == to.y - from.y
    ensures Dist(m, Ahead(from, c, s, step), to) == d - step
  {
    hide Dist, DistSq;
    WayLeft(c, d, to.x - from.x, step);
    WayLeft(s, d, to.y - from.y, step);
    RestOfWay(m, from, to, Ahead(from, c, s, step), d, step);
  }

  /** The slots stand in lines from the goalkeeper up to the striker, and the
      wings mirror each other; the other side's slots are seen from its own goal. */
  lemma SlotsInLines(index: nat)
    ensures
      var x := (role: string) => SlotForPlayer(role, index).x;
      && x("GK") < x("CB") < x("RB") == x("LB") < x("DM") < x("CM") < x("AM") < x("RW") == x("LW") < x("ST")
      && (forall role :: SlotForPlayer(role, 0).y == -SlotForPlayer(role, 1).y || FormationSlot(role).None?)
      && SlotForPlayer("RB", 0).y == -SlotForPlayer("LB", 0).y && SlotForPlayer("RW", 0).y == -SlotForPlayer("LW", 0).y
    ensures forall slot: Vec2 ::
              var away := MirrorSlotForTeam(slot, 1);
              away.x - OppositionGoalCentre(0).x == -(slot.x - OppositionGoalCentre(1).x) && away.y == -slot.y
              && MirrorSlotForTeam(slot, 0) == slot
  {
  }
}
