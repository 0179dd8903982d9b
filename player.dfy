/** The `Player` class (classes/class_player.js, and its copy in game.js): a position moved by deltas. */
module Players {
  import opened Coords

  /** Where a move by (dx, dy) from p ends. */
  function Moved(p: Point, dx: real, dy: real): Point
  {
    Point(p.x + dx, p.y + dy)
  }

  class Player {
    var x: real
    var y: real

    /** The player's position as a point. */
    function Position(): Point
      reads this
    {
      Point(x, y)
    }

    constructor(x0: real, y0: real)
      ensures x == x0 && y == y0
    {
      x := x0;
      y := y0;
    }

    /** Moves the player by (dx, dy). */
    method Move(dx: real, dy: real)
      modifies this
      ensures x == old(x) + dx && y == old(y) + dy
      ensures Position() == Moved(old(Position()), dx, dy)
    {
      x := x + dx;
      y := y + dy;
    }
  }

  /** A move by (0, 0) leaves the position unchanged. */
  lemma MoveByZero(p: Point)
    ensures Moved(p, 0.0, 0.0) == p
  {
  }

  /** A move by (a, b) and then by (c, d) ends where one move by (a + c, b + d) does. */
  lemma MovesCompose(p: Point, a: real, b: real, c: real, d: real)
    ensures Moved(Moved(p, a, b), c, d) == Moved(p, a + c, b + d)
  {
  }

  /** The same on the class: two calls of Move compose. */
  method MoveTwice(pl: Player, a: real, b: real, c: real, d: real)
    modifies pl
    ensures pl.Position() == Moved(old(pl.Position()), a + c, b + d)
  {
    ghost var p := pl.Position();
    pl.Move(a, b);
    pl.Move(c, d);
    MovesCompose(p, a, b, c, d);
  }
}
