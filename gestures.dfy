/**
 * The tap/hold classifier shared by `Game.handleTouch*` (game.js) and
 * `TouchHandler` (classes/class_touchHandler.js), as functions on a value.
 * Both classes are proved to update their fields exactly as these functions say.
 */
module Gestures {
  import opened Options
  import opened Coords

  /** A release sooner than this many milliseconds after the press is a tap. */
  const HoldThreshold: int := 200

  /**
   * The fields the handlers read and write: `tapStart`, the touch point
   * (`touchX`/`touchY`), `isHolding`, `isMoving` and `moveTarget`.
   */
  datatype Gesture = Gesture(
    tapStart: Option<int>,
    touch: Option<Point>,
    isHolding: bool,
    isMoving: bool,
    moveTarget: Option<Point>)

  /** The values the constructors give these fields: all null or false. */
  const Initial: Gesture := Gesture(None, None, false, false, None)

  /**
   * `now - tapStart` in milliseconds. Before the first press `tapStart` is
   * null, which JavaScript's `-` converts to 0.
   */
  function Elapsed(tapStart: Option<int>, now: int): int
  {
    match tapStart
    case None => now
    case Some(t) => now - t
  }

  /** touchstart: remember the time and the point of the press. */
  function OnTouchStart(g: Gesture, now: int, p: Point): Gesture
  {
    g.(tapStart := Some(now), touch := Some(p))
  }

  /** touchend: a short press issues a move command to the release point; every release ends a hold. */
  function OnTouchEnd(g: Gesture, now: int, p: Point): Gesture
  {
    if Elapsed(g.tapStart, now) < HoldThreshold then
      g.(isMoving := true, moveTarget := Some(p), isHolding := false)
    else
      g.(isHolding := false)
  }

  /** touchmove: follow the finger; once the press is old enough it becomes a hold. */
  function OnTouchMove(g: Gesture, now: int, p: Point): Gesture
  {
    if Elapsed(g.tapStart, now) >= HoldThreshold then
      g.(touch := Some(p), isHolding := true)
    else
      g.(touch := Some(p))
  }

  /** A press records its time and point and leaves the hold and the move command alone. */
  lemma TouchStartRecords(g: Gesture, now: int, p: Point)
    ensures var r := OnTouchStart(g, now, p);
      && r.tapStart == Some(now) && r.touch == Some(p)
      && r.isHolding == g.isHolding && r.isMoving == g.isMoving && r.moveTarget == g.moveTarget
  {
  }

  /**
   * A release sooner than HoldThreshold after the press moves the player to the
   * release point; a later one leaves the command as it was. Either way the
   * hold ends, and the press time and touch point stay.
   */
  lemma TouchEndClassifies(g: Gesture, now: int, p: Point)
    ensures var r := OnTouchEnd(g, now, p);
      && (Elapsed(g.tapStart, now) < HoldThreshold ==> r.isMoving && r.moveTarget == Some(p))
      && (Elapsed(g.tapStart, now) >= HoldThreshold ==> r.isMoving == g.isMoving && r.moveTarget == g.moveTarget)
      && !r.isHolding
      && r.tapStart == g.tapStart && r.touch == g.touch
  {
  }

  /**
   * A move always updates the touch point; it turns the hold on exactly when
   * HoldThreshold has passed since the press, and never turns it off.
   */
  lemma TouchMoveClassifies(g: Gesture, now: int, p: Point)
    ensures var r := OnTouchMove(g, now, p);
      && r.touch == Some(p)
      && (r.isHolding <==> g.isHolding || Elapsed(g.tapStart, now) >= HoldThreshold)
      && r.tapStart == g.tapStart && r.isMoving == g.isMoving && r.moveTarget == g.moveTarget
  {
  }

  /** A touch event as the browser delivers it, with its clock reading and canvas point. */
  datatype TouchEvent =
    | TouchStart(time: int, point: Point)
    | TouchEnd(time: int, point: Point)
    | TouchMove(time: int, point: Point)

  function Apply(g: Gesture, e: TouchEvent): Gesture
  {
    match e
    case TouchStart(t, p) => OnTouchStart(g, t, p)
    case TouchEnd(t, p) => OnTouchEnd(g, t, p)
    case TouchMove(t, p) => OnTouchMove(g, t, p)
  }

  /** The state after the events of evs, delivered in order, starting from g. */
  function Replay(g: Gesture, evs: seq<TouchEvent>): Gesture
    decreases |evs|
  {
    if evs == [] then g else Apply(Replay(g, evs[..|evs| - 1]), evs[|evs| - 1])
  }

  /**
   * The invariant the handlers keep: a hold always has a touch point to aim
   * from, and a move command is active exactly when it has a target.
   */
  predicate Consistent(g: Gesture)
  {
    (g.isHolding ==> g.touch.Some?) && (g.isMoving <==> g.moveTarget.Some?)
  }

  lemma InitialConsistent()
    ensures Consistent(Initial)
  {
  }

  lemma ApplyConsistent(g: Gesture, e: TouchEvent)
    requires Consistent(g)
    ensures Consistent(Apply(g, e))
  {
  }

  lemma {:induction false} ReplayConsistent(g: Gesture, evs: seq<TouchEvent>)
    requires Consistent(g)
    ensures Consistent(Replay(g, evs))
    decreases |evs|
  {
    if evs != [] {
      ReplayConsistent(g, evs[..|evs| - 1]);
      ApplyConsistent(Replay(g, evs[..|evs| - 1]), evs[|evs| - 1]);
    }
  }

  /** Event i of evs is a release that came less than HoldThreshold after its press. */
  predicate ShortReleaseAt(g: Gesture, evs: seq<TouchEvent>, i: int)
    requires 0 <= i < |evs|
  {
    evs[i].TouchEnd? && Elapsed(Replay(g, evs[..i]).tapStart, evs[i].time) < HoldThreshold
  }

  /** Event i of evs is a move that came HoldThreshold or more after its press. */
  predicate LongMoveAt(g: Gesture, evs: seq<TouchEvent>, i: int)
    requires 0 <= i < |evs|
  {
    evs[i].TouchMove? && Elapsed(Replay(g, evs[..i]).tapStart, evs[i].time) >= HoldThreshold
  }

  /** No release comes after position i of evs (i = -1: none at all). */
  predicate NoReleaseAfter(evs: seq<TouchEvent>, i: int)
  {
    forall j :: 0 <= j < |evs| && i < j ==> !evs[j].TouchEnd?
  }

  /** Dropping the last event does not change what happened before it. */
  lemma PrefixOfPrefix(evs: seq<TouchEvent>, i: int)
    requires 0 <= i < |evs|
    ensures evs[..|evs| - 1][..i] == evs[..i]
  {
  }

  /** Without a short release, the move command is what it was. */
  lemma {:induction false} NoShortReleaseKeepsCommand(g: Gesture, evs: seq<TouchEvent>)
    requires forall i :: 0 <= i < |evs| ==> !ShortReleaseAt(g, evs, i)
    ensures Replay(g, evs).isMoving == g.isMoving
    ensures Replay(g, evs).moveTarget == g.moveTarget
    decreases |evs|
  {
    if evs != [] {
      var n := |evs| - 1;
      var pre := evs[..n];
      forall i | 0 <= i < |pre|
        ensures !ShortReleaseAt(g, pre, i)
      {
        PrefixOfPrefix(evs, i);
        assert !ShortReleaseAt(g, evs, i);
      }
      NoShortReleaseKeepsCommand(g, pre);
      assert !ShortReleaseAt(g, evs, n);
    }
  }

  /** The move command targets the release point of the last short release. */
  lemma {:induction false} LastShortReleaseSetsCommand(g: Gesture, evs: seq<TouchEvent>, i: int)
    requires 0 <= i < |evs| && ShortReleaseAt(g, evs, i)
    requires forall j :: i < j < |evs| ==> !ShortReleaseAt(g, evs, j)
    ensures Replay(g, evs).isMoving
    ensures Replay(g, evs).moveTarget == Some(evs[i].point)
    decreases |evs|
  {
    var n := |evs| - 1;
    if i < n {
      var pre := evs[..n];
      PrefixOfPrefix(evs, i);
      assert pre[i] == evs[i];
      assert ShortReleaseAt(g, pre, i);
      forall j | i < j < |pre|
        ensures !ShortReleaseAt(g, pre, j)
      {
        PrefixOfPrefix(evs, j);
        assert !ShortReleaseAt(g, evs, j);
      }
      LastShortReleaseSetsCommand(g, pre, i);
      assert !ShortReleaseAt(g, evs, n);
    }
  }

  /** A hold is on after a long move with no release after it. */
  lemma {:induction false} LongMoveStartsHold(g: Gesture, evs: seq<TouchEvent>, i: int)
    requires 0 <= i < |evs| && LongMoveAt(g, evs, i) && NoReleaseAfter(evs, i)
    ensures Replay(g, evs).isHolding
    decreases |evs|
  {
    var n := |evs| - 1;
    if i < n {
      var pre := evs[..n];
      PrefixOfPrefix(evs, i);
      assert pre[i] == evs[i];
      assert LongMoveAt(g, pre, i);
      assert NoReleaseAfter(pre, i) by {
        forall j | 0 <= j < |pre| && i < j
          ensures !pre[j].TouchEnd?
        {
          assert pre[j] == evs[j];
        }
      }
      LongMoveStartsHold(g, pre, i);
      assert !evs[n].TouchEnd?;
    }
  }

  /** A hold already on stays on while no release arrives. */
  lemma {:induction false} HoldPersists(g: Gesture, evs: seq<TouchEvent>)
    requires g.isHolding && NoReleaseAfter(evs, -1)
    ensures Replay(g, evs).isHolding
    decreases |evs|
  {
    if evs != [] {
      var pre := evs[..|evs| - 1];
      assert NoReleaseAfter(pre, -1) by {
        forall j | 0 <= j < |pre|
          ensures !pre[j].TouchEnd?
        {
          assert pre[j] == evs[j];
        }
      }
      HoldPersists(g, pre);
      assert !evs[|evs| - 1].TouchEnd?;
    }
  }

  /** A hold is on only because of a long move (or an earlier hold) that no release has ended. */
  lemma {:induction false} HoldHasCause(g: Gesture, evs: seq<TouchEvent>)
    requires Replay(g, evs).isHolding
    ensures (g.isHolding && NoReleaseAfter(evs, -1))
         || exists i :: 0 <= i < |evs| && LongMoveAt(g, evs, i) && NoReleaseAfter(evs, i)
    decreases |evs|
  {
    if evs != [] {
      var n := |evs| - 1;
      var pre := evs[..n];
      var last := evs[n];
      if LongMoveAt(g, evs, n) {
        assert NoReleaseAfter(evs, n);
      } else {
        assert !last.TouchEnd?;
        assert Replay(g, pre).isHolding;
        HoldHasCause(g, pre);
        if g.isHolding && NoReleaseAfter(pre, -1) {
          assert NoReleaseAfter(evs, -1) by {
            forall j | 0 <= j < |evs|
              ensures !evs[j].TouchEnd?
            {
              if j < n {
                assert pre[j] == evs[j];
              }
            }
          }
        } else {
          var i :| 0 <= i < |pre| && LongMoveAt(g, pre, i) && NoReleaseAfter(pre, i);
          PrefixOfPrefix(evs, i);
          assert pre[i] == evs[i];
          assert LongMoveAt(g, evs, i);
          assert NoReleaseAfter(evs, i) by {
            forall j | 0 <= j < |evs| && i < j
              ensures !evs[j].TouchEnd?
            {
              if j < n {
                assert pre[j] == evs[j];
              }
            }
          }
        }
      }
    }
  }

  /** A release always ends the hold, whatever came before. */
  lemma ReleaseEndsHold(g: Gesture, evs: seq<TouchEvent>)
    requires evs != [] && evs[|evs| - 1].TouchEnd?
    ensures !Replay(g, evs).isHolding
  {
  }

  /**
   * A quick tap: a press at t0 and a release at t0 + 150 at (50, 60) queues a
   * move to (50, 60), and no hold starts at any point.
   */
  lemma TapScenario(g: Gesture, t0: int, p0: Point)
    requires !g.isHolding
    ensures var evs := [TouchStart(t0, p0), TouchEnd(t0 + 150, Point(50.0, 60.0))];
      && Replay(g, evs).isMoving
      && Replay(g, evs).moveTarget == Some(Point(50.0, 60.0))
      && (forall k :: 0 <= k <= |evs| ==> !Replay(g, evs[..k]).isHolding)
  {
    var evs := [TouchStart(t0, p0), TouchEnd(t0 + 150, Point(50.0, 60.0))];
    assert evs[..0] == [] && evs[..1][..0] == [];
    assert evs[..2] == evs && evs[..2][..1] == evs[..1];
    assert Replay(g, []) == g;
    var g1 := OnTouchStart(g, t0, p0);
    assert evs[..1][0] == TouchStart(t0, p0);
    assert Replay(g, evs[..1]) == Apply(Replay(g, evs[..1][..0]), evs[..1][0]) == g1;
    assert Replay(g, evs) == Apply(Replay(g, evs[..1]), evs[1]) == OnTouchEnd(g1, t0 + 150, Point(50.0, 60.0));
  }

  /**
   * A hold: a press at t0, a move at t0 + 250 and a release at t0 + 400 start a
   * hold at the move, end it at the release, and queue no move command.
   */
  lemma HoldScenario(g: Gesture, t0: int, p0: Point, p1: Point, p2: Point)
    ensures var evs := [TouchStart(t0, p0), TouchMove(t0 + 250, p1), TouchEnd(t0 + 400, p2)];
      && Replay(g, evs[..2]).isHolding
      && Replay(g, evs[..2]).touch == Some(p1)
      && !Replay(g, evs).isHolding
      && Replay(g, evs).isMoving == g.isMoving
      && Replay(g, evs).moveTarget == g.moveTarget
  {
    var evs := [TouchStart(t0, p0), TouchMove(t0 + 250, p1), TouchEnd(t0 + 400, p2)];
    assert evs[..2][..1][..0] == [] && evs[..1][..0] == [];
    assert evs[..2][..1] == evs[..1] == [TouchStart(t0, p0)];
    assert evs[..3] == evs;
    assert evs[..2] == [TouchStart(t0, p0), TouchMove(t0 + 250, p1)];
    assert Replay(g, []) == g;
    var g1 := OnTouchStart(g, t0, p0);
    assert evs[..1][0] == TouchStart(t0, p0);
    assert Replay(g, evs[..1]) == Apply(Replay(g, evs[..1][..0]), evs[..1][0]) == g1;
    var g2 := OnTouchMove(g1, t0 + 250, p1);
    assert Replay(g, evs[..2]) == Apply(Replay(g, evs[..2][..1]), evs[..2][1]) == g2;
    assert Replay(g, evs) == Apply(Replay(g, evs[..2]), evs[2]) == OnTouchEnd(g2, t0 + 400, p2);
  }
}
