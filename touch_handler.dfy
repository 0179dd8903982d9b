/**
 * `TouchHandler` (classes/class_touchHandler.js): the same tap/hold
 * classifier, keeping the press time and the touch point itself and writing
 * the hold and the move command into the game it belongs to.
 */
module Touch {
  import opened Options
  import opened Coords
  import opened Gestures
  import opened Games

  class TouchHandler {
    const game: Game
    var tapStart: Option<int>
    var touch: Option<Point>

    /** The handler's own fields together with the game fields it writes. */
    ghost function GestureState(): Gesture
      reads this, game
    {
      Gesture(tapStart, touch, game.isHolding, game.isMoving, game.moveTarget)
    }

    ghost predicate Valid()
      reads this, game
    {
      Consistent(GestureState())
    }

    constructor(game: Game)
      ensures this.game == game && tapStart == None && touch == None
      ensures !game.isHolding && (game.isMoving <==> game.moveTarget.Some?) ==> Valid()
    {
      this.game := game;
      tapStart := None;
      touch := None;
    }

    /** touchstart at time `now` and canvas point p; no field of the game changes. */
    method HandleTouchStart(now: int, p: Point)
      modifies this`tapStart, this`touch
      ensures GestureState() == OnTouchStart(old(GestureState()), now, p)
      ensures old(Valid()) ==> Valid()
    {
      tapStart := Some(now);
      touch := Some(p);
    }

    /** touchend at time `now` and canvas point p; the handler's own fields do not change. */
    method HandleTouchEnd(now: int, p: Point)
      modifies game`isMoving, game`moveTarget, game`isHolding
      ensures GestureState() == OnTouchEnd(old(GestureState()), now, p)
      ensures old(Valid()) ==> Valid()
    {
      var tapEnd := now;
      if Elapsed(tapStart, tapEnd) < HoldThreshold {
        game.isMoving := true;
        game.moveTarget := Some(p);
      }
      game.isHolding := false;
    }

    /** touchmove at time `now` and canvas point p. */
    method HandleTouchMove(now: int, p: Point)
      modifies this`touch, game`isHolding
      ensures GestureState() == OnTouchMove(old(GestureState()), now, p)
      ensures old(Valid()) ==> Valid()
    {
      var tapEnd := now;
      touch := Some(p);
      if Elapsed(tapStart, tapEnd) >= HoldThreshold {
        game.isHolding := true;
      }
    }
  }
}
