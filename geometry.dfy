/**
 * The aim line of `Geometry` (classes/class_geometry.js, and its copy in
 * game.js): a segment from the touch point to the player, its length and the
 * fraction of its length by which its start advances along it each frame.
 *
 * `Math.sqrt` and the `atan2`/`cos`/`sin` pair cannot be evaluated over the
 * reals, so their results come in as parameters, pinned down by IsDistance
 * and IsHeading; DistanceUnique and HeadingUnique show that each admits
 * exactly one value, the one the JavaScript computes (up to rounding).
 */
module Aiming {
  import opened Options
  import opened Coords
  import opened Players

  /** The line's speed is its length times this factor. */
  const SpeedFactor: real := 0.0005

  /** The speed before the first resnap. */
  const InitialSpeed: real := 0.01

  /** The fields `startX/startY`, `endX/endY`, `lineLength` and `speed`. */
  datatype Line = Line(start: Point, end: Point, length: real, speed: real)

  /** The values the constructor gives the fields. */
  const InitialLine: Line := Line(Point(0.0, 0.0), Point(0.0, 0.0), 0.0, InitialSpeed)

  /**
   * (c, s) is `(cos(angle), sin(angle))` for `angle = atan2(to.y - from.y, to.x - from.x)`:
   * the unit vector pointing from `from` to `to`, and (1, 0) when the two
   * coincide, since `atan2(0, 0)` is 0.
   */
  predicate IsHeading(c: real, s: real, from: Point, to: Point)
  {
    if from == to then
      c == 1.0 && s == 0.0
    else
      var dx := to.x - from.x;
      var dy := to.y - from.y;
      Sq(c) + Sq(s) == 1.0 && dy * c == dx * s && dx * c + dy * s > 0.0
  }

  /** `calculateMovingLineStartAndEndPoints`, given the distance as `length`. */
  function Resnap(l: Line, touch: Point, player: Point, length: real): Line
  {
    Line(touch, player, length, l.speed)
  }

  /** `calculateMovingLineSpeed`. */
  function WithSpeed(l: Line): Line
  {
    l.(speed := l.length * SpeedFactor)
  }

  /** `calculateMovingLineEndPoint`, given the heading (c, s) of the line. */
  function ProjectEnd(l: Line, c: real, s: real): Line
  {
    l.(end := Point(l.start.x + l.length * c, l.start.y + l.length * s))
  }

  /** `calculateMovingLineStartPoint`, given the heading (c, s) of the line. */
  function AdvanceStart(l: Line, c: real, s: real): Line
  {
    l.(start := Point(l.start.x + l.speed * l.length * c, l.start.y + l.speed * l.length * s))
  }

  /**
   * The guarded block of `updateMovingLine`: resnap and recompute the speed
   * while a hold is on; otherwise leave the line as it is.
   */
  function Guard(l: Line, holding: bool, touch: Option<Point>, player: Point, length: real): Line
    requires holding ==> touch.Some?
  {
    if holding then WithSpeed(Resnap(l, touch.value, player, length)) else l
  }

  /** Without a hold, the guarded block touches nothing; with one, it resnaps and sets the speed. */
  lemma GuardOnlyWhileHolding(l: Line, holding: bool, touch: Option<Point>, player: Point, length: real)
    requires holding ==> touch.Some? && IsDistance(length, touch.value, player)
    ensures var r := Guard(l, holding, touch, player, length);
      && (!holding ==> r == l)
      && (holding ==>
            r.start == touch.value && r.end == player
            && IsDistance(r.length, r.start, r.end) && r.speed == r.length * SpeedFactor)
  {
  }

  /** The invariant the class keeps: length and speed are never negative. */
  predicate WellFormed(l: Line)
  {
    l.length >= 0.0 && l.speed >= 0.0
  }

  /**
   * A resnap puts the start on the touch point and the end on the player,
   * measures the distance between them, and keeps the speed.
   */
  lemma ResnapMeasures(l: Line, touch: Point, player: Point, length: real)
    requires IsDistance(length, touch, player)
    ensures var r := Resnap(l, touch, player, length);
      && r.start == touch && r.end == player && r.speed == l.speed
      && r.length >= 0.0 && Sq(r.length) == SqDist(r.start, r.end)
  {
  }

  /** The length is zero exactly when the touch point is the player's position. */
  lemma ResnapOnPlayer(l: Line, touch: Point, player: Point, length: real)
    requires IsDistance(length, touch, player)
    ensures Resnap(l, touch, player, length).length == 0.0 <==> touch == player
  {
    DistanceZero(length, touch, player);
  }

  /** A longer line never gets a smaller speed. */
  lemma SpeedMonotone(l1: Line, l2: Line)
    requires l1.length <= l2.length
    ensures WithSpeed(l1).speed <= WithSpeed(l2).speed
  {
  }

  /** Recomputing the speed leaves the points and the length alone. */
  lemma SpeedKeepsPoints(l: Line)
    ensures WithSpeed(l).start == l.start && WithSpeed(l).end == l.end && WithSpeed(l).length == l.length
    ensures WithSpeed(l).speed == l.length * SpeedFactor
  {
  }

  lemma PreserveWellFormed(l: Line, touch: Point, player: Point, length: real, c: real, s: real)
    requires WellFormed(l)
    ensures IsDistance(length, touch, player) ==> WellFormed(Resnap(l, touch, player, length))
    ensures WellFormed(WithSpeed(l))
    ensures WellFormed(ProjectEnd(l, c, s)) && WellFormed(AdvanceStart(l, c, s))
  {
  }

  lemma InitialWellFormed()
    ensures WellFormed(InitialLine)
  {
  }

  /** A heading is a unit vector. */
  lemma HeadingIsUnit(c: real, s: real, from: Point, to: Point)
    requires IsHeading(c, s, from, to)
    ensures Sq(c) + Sq(s) == 1.0
  {
    if from == to {
      assert Sq(1.0) == 1.0;
      SqOfZero(s);
    }
  }

  /** Moving the end along the heading puts it at distance `length` from the start. */
  lemma ProjectedEndAtLength(l: Line, c: real, s: real)
    requires l.length >= 0.0 && IsHeading(c, s, l.start, l.end)
    ensures var r := ProjectEnd(l, c, s);
      r.start == l.start && IsDistance(r.length, r.start, r.end)
  {
    HeadingIsUnit(c, s, l.start, l.end);
    var r := ProjectEnd(l, c, s);
    var L := l.length;
    assert r.end.x - r.start.x == L * c;
    assert r.end.y - r.start.y == L * s;
    SqScale(L, c);
    SqScale(L, s);
    assert SqDist(r.start, r.end) == Sq(L) * Sq(c) + Sq(L) * Sq(s);
    Distribute(Sq(L), Sq(c), Sq(s), 1.0);
  }

  lemma Distribute(a: real, b: real, c: real, u: real)
    requires b + c == u
    ensures a * b + a * c == a * u
  {
  }

  /**
   * For a line of positive length, the projected end lies in the same
   * direction from the start, so the second `atan2` sees the same angle.
   */
  lemma ProjectedEndKeepsHeading(l: Line, c: real, s: real)
    requires l.length > 0.0 && IsHeading(c, s, l.start, l.end)
    ensures IsHeading(c, s, l.start, ProjectEnd(l, c, s).end)
  {
    HeadingIsUnit(c, s, l.start, l.end);
    var e := ProjectEnd(l, c, s).end;
    var L := l.length;
    var dx := e.x - l.start.x;
    var dy := e.y - l.start.y;
    assert dx == L * c && dy == L * s;
    MulAssoc(L, c, c, Sq(c));
    MulAssoc(L, s, s, Sq(s));
    assert dx * c + dy * s == L * Sq(c) + L * Sq(s);
    Distribute(L, Sq(c), Sq(s), 1.0);
    assert dx * c + dy * s == L;
    MulAssoc(L, s, c, s * c);
    MulAssoc(L, c, s, c * s);
    assert dy * c == dx * s;
    assert dx != 0.0 || dy != 0.0;
  }

  lemma MulAssoc(a: real, b: real, c: real, bc: real)
    requires bc == b * c
    ensures (a * b) * c == a * bc
  {
  }

  /**
   * The heading of a segment is unique: two pairs that both satisfy
   * IsHeading for the same endpoints are equal.
   */
  lemma HeadingUnique(c1: real, s1: real, c2: real, s2: real, from: Point, to: Point)
    requires IsHeading(c1, s1, from, to) && IsHeading(c2, s2, from, to)
    ensures c1 == c2 && s1 == s2
  {
    if from != to {
      var dx := to.x - from.x;
      var dy := to.y - from.y;
      // (c1, s1) and (c2, s2) are both parallel to (dx, dy), hence to each other.
      Parallel(c1, s1, c2, s2, dx, dy);
      // Two parallel unit vectors are equal or opposite; only one points along (dx, dy).
      ParallelUnit(c1, s1, c2, s2);
      assert c1 == -c2 && s1 == -s2 ==> dx * c1 + dy * s1 == -(dx * c2 + dy * s2);
    }
  }

  /** Two vectors parallel to the same non-zero vector are parallel to each other. */
  lemma Parallel(c1: real, s1: real, c2: real, s2: real, dx: real, dy: real)
    requires dy * c1 == dx * s1 && dy * c2 == dx * s2
    requires dx * c1 + dy * s1 > 0.0 && dx * c2 + dy * s2 > 0.0
    ensures c1 * s2 == s1 * c2
  {
    if dx != 0.0 {
      MulCancel(dx, c1 * s2, s1 * c2);
    } else {
      assert dy != 0.0;
      MulCancel(dy, c1 * s2, s1 * c2);
    }
  }

  lemma MulCancel(k: real, a: real, b: real)
    requires k != 0.0 && k * a == k * b
    ensures a == b
  {
  }

  /** Two parallel unit vectors are equal or opposite. */
  lemma ParallelUnit(c1: real, s1: real, c2: real, s2: real)
    requires Sq(c1) + Sq(s1) == 1.0 && Sq(c2) + Sq(s2) == 1.0
    requires c1 * s2 == s1 * c2
    ensures (c1 == c2 && s1 == s2) || (c1 == -c2 && s1 == -s2)
  {
    // Lagrange: (c1 c2 + s1 s2)^2 + (c1 s2 - s1 c2)^2 = |v1|^2 |v2|^2 = 1.
    var d := c1 * c2 + s1 * s2;
    Lagrange(c1, s1, c2, s2);
    assert Sq(d) == 1.0;
    UnitSquare(d);
    // |v1 - d v2|^2 = 1 - 2 d^2 + d^2 = 0, so v1 = d v2.
    var ex := c1 - d * c2;
    var ey := s1 - d * s2;
    Residual(c1, s1, c2, s2, d);
    assert Sq(ex) + Sq(ey) == 0.0;
    SqNonNegative(ex);
    SqNonNegative(ey);
    if ex != 0.0 { SqPositive(ex); }
    if ey != 0.0 { SqPositive(ey); }
  }

  lemma UnitSquare(d: real)
    requires Sq(d) == 1.0
    ensures d == 1.0 || d == -1.0
  {
    assert Sq(1.0) == 1.0;
    assert Sq(-d) == Sq(d);
    if d > 1.0 {
      SqMonotone(1.0, d);
    } else if 0.0 <= d < 1.0 {
      SqMonotone(d, 1.0);
    } else if -1.0 < d < 0.0 {
      SqMonotone(-d, 1.0);
    } else if d < -1.0 {
      SqMonotone(1.0, -d);
    }
  }

  lemma Lagrange(c1: real, s1: real, c2: real, s2: real)
    ensures Sq(c1 * c2 + s1 * s2) + Sq(c1 * s2 - s1 * c2) == (Sq(c1) + Sq(s1)) * (Sq(c2) + Sq(s2))
  {
  }

  lemma Residual(c1: real, s1: real, c2: real, s2: real, d: real)
    requires Sq(c1) + Sq(s1) == 1.0 && Sq(c2) + Sq(s2) == 1.0
    requires d == c1 * c2 + s1 * s2 && Sq(d) == 1.0
    ensures Sq(c1 - d * c2) + Sq(s1 - d * s2) == 0.0
  {
    assert Sq(c1 - d * c2) + Sq(s1 - d * s2)
        == (Sq(c1) + Sq(s1)) - 2.0 * d * (c1 * c2 + s1 * s2) + Sq(d) * (Sq(c2) + Sq(s2));
  }

  /**
   * The second `atan2` in an update does not matter: for a line of positive
   * length it yields the first heading again, and for a line of length zero
   * the start point does not move whatever the heading.
   */
  lemma SecondHeadingAgrees(l: Line, c1: real, s1: real, c2: real, s2: real)
    requires l.length >= 0.0 && IsHeading(c1, s1, l.start, l.end)
    requires IsHeading(c2, s2, l.start, ProjectEnd(l, c1, s1).end)
    ensures AdvanceStart(ProjectEnd(l, c1, s1), c2, s2) == AdvanceStart(ProjectEnd(l, c1, s1), c1, s1)
  {
    if l.length > 0.0 {
      ProjectedEndKeepsHeading(l, c1, s1);
      HeadingUnique(c1, s1, c2, s2, l.start, ProjectEnd(l, c1, s1).end);
    }
  }

  /** The start advances along the heading by `speed * length`, and nothing else changes. */
  lemma AdvanceDistance(l: Line, c: real, s: real)
    requires WellFormed(l) && IsHeading(c, s, l.start, l.end)
    ensures var r := AdvanceStart(l, c, s);
      r.end == l.end && r.length == l.length && r.speed == l.speed
      && IsDistance(l.speed * l.length, l.start, r.start)
  {
    HeadingIsUnit(c, s, l.start, l.end);
    var r := AdvanceStart(l, c, s);
    var k := l.speed * l.length;
    assert r.start.x - l.start.x == k * c;
    assert r.start.y - l.start.y == k * s;
    SqScale(k, c);
    SqScale(k, s);
    Distribute(Sq(k), Sq(c), Sq(s), 1.0);
    MulNonNegative(l.speed, l.length, k);
  }

  class Geometry {
    const player: Player
    var startX: real
    var startY: real
    var endX: real
    var endY: real
    var lineLength: real
    var speed: real

    /** The line the fields describe. */
    ghost function State(): Line
      reads this
    {
      Line(Point(startX, startY), Point(endX, endY), lineLength, speed)
    }

    ghost predicate Valid()
      reads this
    {
      WellFormed(State())
    }

    constructor(player: Player)
      ensures this.player == player
      ensures State() == InitialLine && Valid()
    {
      this.player := player;
      startX := 0.0;
      startY := 0.0;
      endX := 0.0;
      endY := 0.0;
      lineLength := 0.0;
      speed := InitialSpeed;
    }

    /** Snaps the start to the touch point and the end to the player; `length` is their distance. */
    method CalculateMovingLineStartAndEndPoints(touch: Point, length: real)
      requires Valid() && IsDistance(length, touch, player.Position())
      modifies this
      ensures State() == Resnap(old(State()), touch, player.Position(), length)
      ensures Valid()
    {
      startX := touch.x;
      startY := touch.y;
      endX := player.x;
      endY := player.y;
      lineLength := length;
    }

    method CalculateMovingLineSpeed()
      requires Valid()
      modifies this
      ensures State() == WithSpeed(old(State()))
      ensures Valid()
    {
      speed := lineLength * SpeedFactor;
    }

    /** (c, s) is the cosine and sine of the line's angle. */
    method CalculateMovingLineEndPoint(c: real, s: real)
      requires Valid() && IsHeading(c, s, State().start, State().end)
      modifies this
      ensures State() == ProjectEnd(old(State()), c, s)
      ensures Valid()
    {
      endX := startX + lineLength * c;
      endY := startY + lineLength * s;
    }

    /** (c, s) is the cosine and sine of the line's angle. */
    method CalculateMovingLineStartPoint(c: real, s: real)
      requires Valid() && IsHeading(c, s, State().start, State().end)
      modifies this
      ensures State() == AdvanceStart(old(State()), c, s)
      ensures Valid()
    {
      startX := startX + speed * lineLength * c;
      startY := startY + speed * lineLength * s;
    }
  }
}
