/**
 * The player movement controller of `Game.updatePlayerMovement` (game.js) as
 * a function on a value: the player's position and the move command.
 */
module Movement {
  import opened Options
  import opened Coords

  /** `Game.movementSpeed`: each tick covers 1/100 of the remaining offset. */
  const MovementSpeed: real := 100.0

  /** The command is done once the player is within this distance of the target. */
  const ArrivalRadius: real := 10.0

  /** The fraction of the offset that is left after one step. */
  const Retain: real := 0.99

  /** The player's position together with `isMoving` and `moveTarget`. */
  datatype Motion = Motion(pos: Point, isMoving: bool, moveTarget: Option<Point>)

  /** `dist > 10`, compared on squares: the distance is never formed. */
  predicate Far(pos: Point, target: Point)
  {
    SqDist(pos, target) > Sq(ArrivalRadius)
  }

  /** A move command is active, as the guard `isMoving && moveTarget` demands. */
  predicate Active(m: Motion)
  {
    m.isMoving && m.moveTarget.Some?
  }

  /** One call of `updatePlayerMovement`. */
  function Tick(m: Motion): Motion
  {
    if Active(m) then
      var t := m.moveTarget.value;
      if Far(m.pos, t) then
        m.(pos := Point(m.pos.x + (t.x - m.pos.x) / MovementSpeed, m.pos.y + (t.y - m.pos.y) / MovementSpeed))
      else
        m.(isMoving := false, moveTarget := None)
    else
      m
  }

  /** The offset from the player to the point t. */
  function Offset(pos: Point, t: Point): Point
  {
    Point(t.x - pos.x, t.y - pos.y)
  }

  /** The point p scaled by k. */
  function Scale(k: real, p: Point): Point
  {
    Point(k * p.x, k * p.y)
  }

  /** n calls of `updatePlayerMovement`, one per animation frame. */
  function Run(m: Motion, n: nat): Motion
    decreases n
  {
    if n == 0 then m else Run(Tick(m), n - 1)
  }

  function Pow(k: real, n: nat): real
  {
    if n == 0 then 1.0 else k * Pow(k, n - 1)
  }

  /** Without an active command a tick changes nothing. */
  lemma IdleTick(m: Motion)
    requires !Active(m)
    ensures Tick(m) == m
  {
  }

  /**
   * Far from the target a tick keeps the command and moves the player by
   * 1/100 of the offset, so 99/100 of the offset and 0.9801 of its square remain.
   */
  lemma StepShrinks(m: Motion)
    requires Active(m) && Far(m.pos, m.moveTarget.value)
    ensures Tick(m).isMoving && Tick(m).moveTarget == m.moveTarget
    ensures Offset(Tick(m).pos, m.moveTarget.value) == Scale(Retain, Offset(m.pos, m.moveTarget.value))
    ensures SqDist(Tick(m).pos, m.moveTarget.value) == 0.9801 * SqDist(m.pos, m.moveTarget.value)
  {
    var t := m.moveTarget.value;
    var p := m.pos;
    var q := Tick(m).pos;
    assert q.x == p.x + (t.x - p.x) / MovementSpeed;
    assert t.x - q.x == Retain * (t.x - p.x);
    assert t.y - q.y == Retain * (t.y - p.y);
    SqScale(Retain, t.x - p.x);
    SqScale(Retain, t.y - p.y);
    assert Sq(Retain) == 0.9801;
  }

  /** Within the radius a tick clears the command and leaves the player where it is. */
  lemma ArrivalClears(m: Motion)
    requires Active(m) && !Far(m.pos, m.moveTarget.value)
    ensures Tick(m) == Motion(m.pos, false, None)
  {
  }

  /** A tick with an active command far from the target gets closer by more than 1 in squared distance. */
  lemma StepDecreases(m: Motion)
    requires Active(m) && Far(m.pos, m.moveTarget.value)
    ensures SqDist(Tick(m).pos, m.moveTarget.value) < SqDist(m.pos, m.moveTarget.value) - 1.0
    ensures SqDist(Tick(m).pos, m.moveTarget.value).Floor < SqDist(m.pos, m.moveTarget.value).Floor
  {
    StepShrinks(m);
    assert Sq(ArrivalRadius) == 100.0;
  }

  /** The number of ticks after which an active command is cleared. */
  function TicksToArrive(m: Motion): (n: nat)
    requires Active(m)
    ensures n >= 1
    decreases SqDist(m.pos, m.moveTarget.value).Floor
  {
    if Far(m.pos, m.moveTarget.value) then
      StepDecreases(m);
      StepShrinks(m);
      1 + TicksToArrive(Tick(m))
    else
      1
  }

  /**
   * Every command is eventually cleared: after TicksToArrive(m) ticks the
   * player is within the arrival radius of the target and the command is gone.
   */
  lemma {:induction false} Arrives(m: Motion)
    requires Active(m)
    ensures var r := Run(m, TicksToArrive(m));
      !r.isMoving && r.moveTarget == None && !Far(r.pos, m.moveTarget.value)
    decreases SqDist(m.pos, m.moveTarget.value).Floor
  {
    if Far(m.pos, m.moveTarget.value) {
      StepDecreases(m);
      StepShrinks(m);
      Arrives(Tick(m));
    } else {
      ArrivalClears(m);
    }
  }

  /**
   * Before then the command is still on, and after k ticks the remaining
   * offset is 0.99^k times the offset at the start.
   */
  lemma {:induction false} StillMoving(m: Motion, k: nat)
    requires Active(m) && k < TicksToArrive(m)
    ensures Run(m, k).isMoving && Run(m, k).moveTarget == m.moveTarget
    ensures Offset(Run(m, k).pos, m.moveTarget.value) == Scale(Pow(Retain, k), Offset(m.pos, m.moveTarget.value))
    decreases k
  {
    if k > 0 {
      assert Far(m.pos, m.moveTarget.value);
      StepShrinks(m);
      StillMoving(Tick(m), k - 1);
      var t := m.moveTarget.value;
      var o := Offset(m.pos, t);
      var o1 := Offset(Tick(m).pos, t);
      assert o1 == Scale(Retain, o);
      ScaleTwice(Pow(Retain, k - 1), Retain, o);
    }
  }

  lemma ScaleTwice(a: real, b: real, p: Point)
    ensures Scale(a, Scale(b, p)) == Scale(b * a, p)
  {
    assert a * (b * p.x) == (b * a) * p.x;
    assert a * (b * p.y) == (b * a) * p.y;
  }

  /** Once the command is cleared, further ticks change nothing. */
  lemma {:induction false} IdleStays(m: Motion, n: nat)
    requires !Active(m)
    ensures Run(m, n) == m
    decreases n
  {
    if n > 0 {
      IdleTick(m);
      IdleStays(m, n - 1);
    }
  }
}
