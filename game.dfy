/**
 * The `Game` class of game.js: the touch handlers, the movement controller
 * and the aim-line update, over the player and the geometry it owns.
 */
module Games {
  import opened Options
  import opened Coords
  import opened Gestures
  import opened Movement
  import opened Players
  import opened Aiming

  class Game {
    const player: Player
    const geometry: Geometry
    const movementSpeed: real
    var isMoving: bool
    var moveTarget: Option<Point>
    var tapStart: Option<int>
    var isHolding: bool
    var touch: Option<Point>

    /** The fields the touch handlers read and write. */
    ghost function GestureState(): Gesture
      reads this
    {
      Gesture(tapStart, touch, isHolding, isMoving, moveTarget)
    }

    /** The fields the movement controller reads and writes. */
    ghost function MotionState(): Motion
      reads this, player
    {
      Motion(player.Position(), isMoving, moveTarget)
    }

    ghost predicate Valid()
      reads this, player, geometry
    {
      && geometry.player == player
      && movementSpeed == MovementSpeed
      && geometry.Valid()
      && Consistent(GestureState())
    }

    /**
     * The constructor followed by `start`: the player is placed at the centre
     * of a canvas of the given size and the geometry is created for it.
     */
    constructor(canvasWidth: int, canvasHeight: int)
      ensures player.Position() == Point(canvasWidth as real / 2.0, canvasHeight as real / 2.0)
      ensures GestureState() == Initial
      ensures geometry.State() == InitialLine
      ensures fresh(player) && fresh(geometry)
      ensures Valid()
    {
      movementSpeed := MovementSpeed;
      isMoving := false;
      moveTarget := None;
      tapStart := None;
      isHolding := false;
      touch := None;
      var pl := new Player(canvasWidth as real / 2.0, canvasHeight as real / 2.0);
      player := pl;
      geometry := new Geometry(pl);
    }

    /** touchstart at time `now` and canvas point p. */
    method HandleTouchStart(now: int, p: Point)
      modifies this
      ensures GestureState() == OnTouchStart(old(GestureState()), now, p)
      ensures old(Valid()) ==> Valid()
    {
      tapStart := Some(now);
      touch := Some(p);
    }

    /** touchend at time `now` and canvas point p. */
    method HandleTouchEnd(now: int, p: Point)
      modifies this
      ensures GestureState() == OnTouchEnd(old(GestureState()), now, p)
      ensures old(Valid()) ==> Valid()
    {
      var tapEnd := now;
      if Elapsed(tapStart, tapEnd) < HoldThreshold {
        isMoving := true;
        moveTarget := Some(p);
      }
      isHolding := false;
    }

    /** touchmove at time `now` and canvas point p. */
    method HandleTouchMove(now: int, p: Point)
      modifies this
      ensures GestureState() == OnTouchMove(old(GestureState()), now, p)
      ensures old(Valid()) ==> Valid()
    {
      var tapEnd := now;
      touch := Some(p);
      if Elapsed(tapStart, tapEnd) >= HoldThreshold {
        isHolding := true;
      }
    }

    /** One step of the movement controller. */
    method UpdatePlayerMovement()
      requires Valid()
      modifies this, player
      ensures MotionState() == Tick(old(MotionState()))
      ensures tapStart == old(tapStart) && touch == old(touch) && isHolding == old(isHolding)
      ensures Valid()
    {
      if isMoving && moveTarget.Some? {
        var dx := moveTarget.value.x - player.x;
        var dy := moveTarget.value.y - player.y;
        if SqDist(player.Position(), moveTarget.value) > Sq(ArrivalRadius) {
          player.Move(dx / movementSpeed, dy / movementSpeed);
        } else {
          isMoving := false;
          moveTarget := None;
        }
      }
    }

    /** The line after the guarded block of `updateMovingLine`. */
    ghost function Guarded(length: real): Line
      requires Valid()
      reads this, player, geometry
    {
      Guard(geometry.State(), isHolding, touch, player.Position(), length)
    }

    /**
     * `updateMovingLine`. `length` is the distance from the touch point to
     * the player, needed only while a hold is on; (c1, s1) and (c2, s2) are the
     * cosine and sine of the angles the two `atan2` calls compute.
     */
    method UpdateMovingLine(length: real, c1: real, s1: real, c2: real, s2: real)
      requires Valid()
      requires isHolding ==> IsDistance(length, touch.value, player.Position())
      requires IsHeading(c1, s1, Guarded(length).start, Guarded(length).end)
      requires IsHeading(c2, s2, Guarded(length).start, ProjectEnd(Guarded(length), c1, s1).end)
      modifies geometry
      ensures geometry.State() == AdvanceStart(ProjectEnd(old(Guarded(length)), c1, s1), c2, s2)
      ensures geometry.State() == AdvanceStart(ProjectEnd(old(Guarded(length)), c1, s1), c1, s1)
      ensures Valid()
    {
      ghost var l := Guarded(length);
      if isHolding {
        geometry.CalculateMovingLineStartAndEndPoints(touch.value, length);
        geometry.CalculateMovingLineSpeed();
      }
      assert geometry.State() == l;
      geometry.CalculateMovingLineEndPoint(c1, s1);
      geometry.CalculateMovingLineStartPoint(c2, s2);
      SecondHeadingAgrees(l, c1, s1, c2, s2);
    }
    /** The line after the guarded block, once the player has taken this frame's step. */
    ghost function GuardedAfterStep(length: real): Line
      requires Valid()
      reads this, player, geometry
    {
      Guard(geometry.State(), isHolding, touch, Tick(MotionState()).pos, length)
    }

    /** `update`: one movement step, then the aim-line update from the player's new position. */
    method Update(length: real, c1: real, s1: real, c2: real, s2: real)
      requires Valid()
      requires isHolding ==> IsDistance(length, touch.value, Tick(MotionState()).pos)
      requires IsHeading(c1, s1, GuardedAfterStep(length).start, GuardedAfterStep(length).end)
      requires IsHeading(c2, s2, GuardedAfterStep(length).start, ProjectEnd(GuardedAfterStep(length), c1, s1).end)
      modifies this, player, geometry
      ensures MotionState() == Tick(old(MotionState()))
      ensures tapStart == old(tapStart) && touch == old(touch) && isHolding == old(isHolding)
      ensures geometry.State() == AdvanceStart(ProjectEnd(old(GuardedAfterStep(length)), c1, s1), c1, s1)
      ensures Valid()
    {
      UpdatePlayerMovement();
      assert Guarded(length) == old(GuardedAfterStep(length));
      UpdateMovingLine(length, c1, s1, c2, s2);
    }
  }
}
