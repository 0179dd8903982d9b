# Archer's Journey: the touch-aiming core in Dafny

Archer's Journey is a small browser game played by touch. The player is a dot on a canvas:

- A **tap** (a release less than 200 ms after the press) sends the player toward the release point. Each animation frame it covers 1/100 of the remaining offset, until it is within 10 units.
- A **hold** (a touchmove 200 ms or more after the press) keeps an *aim line* pinned between the finger and the player.
- Every release ends the hold.
- The aim line's speed is proportional to its length. Each frame its end is re-projected at the line's length along its heading, and its start advances along that heading.

This project models that core:

- **`Gestures`** (`gestures.dfy`) is the tap/hold classifier. It works on a value made of `tapStart`, the touch point, `isHolding`, `isMoving` and `moveTarget`. It also has `Replay`, which runs a sequence of touch events.
- **`Movement`** (`movement.dfy`) is one frame of `updatePlayerMovement`, written as `Tick`. It also has `Run`, which is `n` frames, and the number of frames after which a command is done.
- **`Players`** (`player.dfy`) is the `Player` class and its `move`.
- **`Aiming`** (`geometry.dfy`) is the `Geometry` class, with pure functions for each of its four updates and the guard of `updateMovingLine`.
- **`Games`** (`game.js` → `game.dfy`) is the `Game` class: the three touch handlers, `updatePlayerMovement`, `updateMovingLine` and `update`.
- **`Touch`** (`touch_handler.dfy`) is the `TouchHandler` class of the `classes/` revision. It writes the hold and the move command into its game through field frames (`game\`isHolding` and so on).

Both handler classes are proved to change exactly the fields named in their frames: `Games.Game` its own gesture fields, `Touch.TouchHandler` its `tapStart` and touch point and the game's `isMoving`, `moveTarget` and `isHolding`. The change is the one the `Gestures` functions describe. The lemmas about those functions are the classifier's properties:

- invariant preservation;
- the last short release determines the command;
- a hold is on if and only if a long move has happened with no release after it, or the hold was already on at the start and no release has come at all; from the initial state, where no hold is on, only the first case remains;
- two concrete scenarios.

The following choices were made in modelling:

- **Time** is an `int` number of milliseconds, passed to each handler.
- **Touch points** are passed in as points on the canvas. `touchX`/`touchY` are one optional point, `None` standing for JavaScript `null`.
- **Coordinates** are `real`.
- **Square roots.** `Math.sqrt(dx*dx + dy*dy) > 10` is compared on squares (`dx² + dy² > 100`). The `Math.sqrt` in the resnap becomes a `length` parameter. It must satisfy `IsDistance`: it is non-negative and its square is the squared distance. `DistanceUnique` proves that this fixes it.
- **Angles.** `atan2` followed by `cos`/`sin` becomes a heading parameter `(c, s)`. It must satisfy `IsHeading`: the unit vector pointing from the start to the end, or `(1, 0)` when the two coincide, because `atan2(0, 0)` is `0`. `HeadingUnique` proves that this fixes it too.

Two behaviours of the code are kept as written:

- A touchend or touchmove with no earlier touchstart is not ignored. It computes `tapEnd - null`, which JavaScript evaluates with `null` as `0`, so the elapsed time is the raw clock value (`Elapsed`).
- The `Game` of the `classes/` revision, which owns a `TouchHandler`, is not part of this model. `Touch.TouchHandler` is attached to `Games.Game`, whose `isMoving`, `moveTarget` and `isHolding` fields it writes.

## Model

| member | source | states |
|---|---|---|
| Gestures.TouchStartRecords | game.js:29-36 | a press records its time and point and leaves `isHolding`, `isMoving` and `moveTarget` unchanged |
| Gestures.TouchEndClassifies | game.js:38-49 | a release less than 200 ms after the press sets `isMoving` and targets the release point; a later one leaves the command unchanged; every release turns `isHolding` off; the press time and touch point stay |
| Gestures.TouchMoveClassifies | game.js:51-60 | a move always overwrites the touch point; afterwards `isHolding` holds iff it held before or 200 ms or more have passed since the press, so a move never turns it off |
| Gestures.ReplayConsistent | classes/class_touchHandler.js:8-39 | every sequence of events keeps the invariant "a hold has a touch point; a command is active iff it has a target" |
| Gestures.ApplyConsistent | classes/class_touchHandler.js:8-39 | each single handler keeps that invariant |
| Gestures.InitialConsistent | game.js:7-13 | the initial null/false gesture fields satisfy the invariant: the game's `isMoving`, `moveTarget`, `tapStart`, `isHolding` and touch point, which a `TouchHandler` pairs with its own null `tapStart` and touch point (classes/class_touchHandler.js:4-6) |
| Gestures.NoShortReleaseKeepsCommand | classes/class_touchHandler.js:20-26 | a sequence with no release under 200 ms leaves `isMoving` and `moveTarget` as they were |
| Gestures.LastShortReleaseSetsCommand | classes/class_touchHandler.js:20-26 | after a sequence, the command is active and targets the point of the last release under 200 ms |
| Gestures.LongMoveStartsHold | classes/class_touchHandler.js:36-38 | a move 200 ms or more after its press, with no release after it, leaves the hold on |
| Gestures.HoldPersists | classes/class_touchHandler.js:30-39 | a hold already on stays on through any sequence without a release |
| Gestures.HoldHasCause | classes/class_touchHandler.js:27-38 | conversely, a hold is on only if such a long move (or an earlier hold) happened with no release after it |
| Gestures.ReleaseEndsHold | classes/class_touchHandler.js:27 | a sequence ending in a release ends with the hold off |
| Gestures.TapScenario | classes/class_touchHandler.js:8-28 | a press at t0 and a release at t0+150 at (50, 60) target (50, 60), and no prefix of the sequence has the hold on |
| Gestures.HoldScenario | classes/class_touchHandler.js:20-38 | a press at t0, a move at t0+250 and a release at t0+400: the hold is on after the move and off after the release, and no command is queued |
| Movement.IdleTick | game.js:76 | without an active command (`!isMoving` or no target) a frame changes nothing |
| Movement.StepShrinks | game.js:77-81 | farther than 10 from the target, a frame keeps the command and moves the player by offset/100, so the offset becomes 0.99 times the old one and its square 0.9801 times |
| Movement.ArrivalClears | game.js:82-85 | within 10 of the target, a frame clears `isMoving` and `moveTarget` and does not move the player |
| Movement.StepDecreases | game.js:77-81 | a step far from the target lowers the squared distance by more than 1, so its floor drops too |
| Movement.TicksToArrive | game.js:75-87 | the number of frames until an active command is cleared, at least one |
| Movement.Arrives | game.js:75-87 | every command is cleared after `TicksToArrive` frames, with the player within 10 of the target |
| Movement.StillMoving | game.js:75-87 | before then, after k frames the command is still on and the offset is 0.99^k times the original |
| Movement.IdleStays | game.js:76 | once the command is cleared, any number of further frames change nothing |
| Players.Player.constructor | classes/class_player.js:3-6 | the player starts at the given coordinates |
| Players.Player.Move | classes/class_player.js:10-15 | `x` and `y` become their old values plus the deltas |
| Players.MoveByZero | classes/class_player.js:13-14 | a move by (0, 0) leaves the position unchanged |
| Players.MovesCompose | classes/class_player.js:13-14 | a move by (a, b) then by (c, d) ends where a move by (a+c, b+d) does |
| Players.MoveTwice | game.js:192-197 | two calls of `move` on a player compose into one move by the summed deltas |
| Coords.SqDist | game.js:77-79 | the squared distance is non-negative and zero exactly when the points coincide |
| Coords.DistanceUnique | classes/class_geometry.js:21-24 | at most one length satisfies `IsDistance`, so the parameter is the value `Math.sqrt` computes |
| Coords.DistanceZero | classes/class_geometry.js:21-24 | a distance is zero exactly when the points coincide |
| Aiming.Geometry.constructor | classes/class_geometry.js:2-12 | all four coordinates and `lineLength` start at 0 and `speed` at 0.01; the invariant holds |
| Aiming.Geometry.CalculateMovingLineStartAndEndPoints | classes/class_geometry.js:16-25 | the start becomes the touch point, the end the player's position, `lineLength` their distance; `speed` is unchanged |
| Aiming.Geometry.CalculateMovingLineSpeed | classes/class_geometry.js:30-32 | `speed` becomes `lineLength * 0.0005`; points and length are unchanged |
| Aiming.Geometry.CalculateMovingLineEndPoint | classes/class_geometry.js:37-44 | the end becomes the start plus `lineLength` times the heading |
| Aiming.Geometry.CalculateMovingLineStartPoint | classes/class_geometry.js:49-58 | the start advances by `speed * lineLength` times the heading |
| Aiming.ResnapMeasures | classes/class_geometry.js:16-25 | after a resnap the start is the touch point, the end is the player, `lineLength >= 0`, `lineLength²` is the squared distance between them, and `speed` is unchanged |
| Aiming.ResnapOnPlayer | classes/class_geometry.js:21-24 | a resnap gives `lineLength == 0` exactly when the touch point is the player's position |
| Aiming.SpeedMonotone | classes/class_geometry.js:31 | a longer line never gets a smaller speed |
| Aiming.SpeedKeepsPoints | classes/class_geometry.js:30-32 | recomputing the speed sets it to `lineLength * 0.0005` and leaves the points and length alone |
| Aiming.PreserveWellFormed | classes/class_geometry.js:16-58 | each of the four updates keeps `lineLength >= 0` and `speed >= 0` |
| Aiming.InitialWellFormed | classes/class_geometry.js:6-11 | the initial line satisfies that invariant |
| Aiming.HeadingIsUnit | classes/class_geometry.js:38-43 | a heading `(cos, sin)` is a unit vector |
| Aiming.HeadingUnique | classes/class_geometry.js:38-41 | at most one pair satisfies `IsHeading`, so the parameter is the direction `atan2` describes |
| Aiming.ProjectedEndAtLength | classes/class_geometry.js:37-44 | after the end is re-projected, the start is unchanged and the line's length from start to end is `lineLength` |
| Aiming.ProjectedEndKeepsHeading | classes/class_geometry.js:37-53 | for a positive length the re-projected end lies in the same direction, so the second `atan2` sees the same heading |
| Aiming.SecondHeadingAgrees | classes/class_geometry.js:49-58 | the start update computes the same result with the second heading as with the first |
| Aiming.AdvanceDistance | classes/class_geometry.js:49-58 | the start moves exactly `speed * lineLength` along the line; end, length and speed stay |
| Aiming.GuardOnlyWhileHolding | game.js:92-96 | the guarded block leaves the line untouched without a hold, and resnaps it and sets its speed during one |
| Games.Game.constructor | game.js:2-27 | the player starts at the centre of the canvas, all gesture fields are null/false, and the geometry holds its initial line |
| Games.Game.HandleTouchStart | game.js:29-36 | the gesture fields change as `OnTouchStart` says; the invariant is kept |
| Games.Game.HandleTouchEnd | game.js:38-49 | the gesture fields change as `OnTouchEnd` says; the invariant is kept |
| Games.Game.HandleTouchMove | game.js:51-60 | the gesture fields change as `OnTouchMove` says; the invariant is kept |
| Games.Game.UpdatePlayerMovement | game.js:75-87 | the player and command change as one `Tick`; the gesture fields stay |
| Games.Game.UpdateMovingLine | game.js:92-100 | the line is guarded, then re-projected and advanced; the result depends on the first heading only |
| Games.Game.Update | game.js:67-70 | one movement step, then the aim-line update from the player's new position |
| Touch.TouchHandler.constructor | classes/class_touchHandler.js:2-7 | `tapStart` and the touch point start null; the invariant holds for a game with no hold and a consistent command |
| Touch.TouchHandler.HandleTouchStart | classes/class_touchHandler.js:8-15 | records the time and point; it may change only its own `tapStart` and touch point, so no game field changes |
| Touch.TouchHandler.HandleTouchEnd | classes/class_touchHandler.js:17-28 | changes the game's command and hold as `OnTouchEnd` says; it may change only `game.isMoving`, `game.moveTarget` and `game.isHolding`, so `tapStart` and the touch point stay |
| Touch.TouchHandler.HandleTouchMove | classes/class_touchHandler.js:30-39 | overwrites the touch point and turns the game's hold on as `OnTouchMove` says; nothing else changes |

## Left out

- DOM plumbing is not modelled: canvas, `getContext`, `addEventListener`, `render`, `gameLoop` and `requestAnimationFrame` (game.js:16-27, 102-124). The model has no display. `Games.Game.constructor` takes the canvas size in place of `window.innerWidth`/`innerHeight`.
- `event.preventDefault` and the `pageX - offsetLeft` translation are not modelled. Points arrive already in canvas coordinates.
- The `Player` image (`document.getElementById('bow')`, classes/class_player.js:7) is not modelled. It is not game state.
- The script-level `new Game(); game.start()` is not modelled. It is bootstrapping only.
- The clock `new Date().getTime()` is replaced by the handlers' `now` parameter.
- JavaScript numbers are IEEE-754 doubles, but coordinates here are exact `real`s. Rounding is not modelled, nor are signed zeros: `atan2(-0, -0)` is `-π`, and `IsHeading` assumes `(1, 0)` for every zero vector.
- `Math.sqrt`, `Math.atan2`, `Math.cos` and `Math.sin` cannot be evaluated over the reals. Callers supply their results, and the requires `IsDistance`/`IsHeading` pins them down. The numeric path the aim line takes over many frames is not modelled.
- Aiming.Geometry.CalculateMovingLineStartAndEndPoints takes the touch point as a parameter. It does not read it through a `game` or `touchHandler` reference. In game.js the point comes from `game.touchX/touchY`, and in classes/class_geometry.js from `touchHandler.touchX/touchY`. A `null` touch point is not modelled, because the only caller resnaps during a hold, and the invariant guarantees a touch point then.
- The `game` and `touchHandler` references held by `Geometry` are not modelled. Only the touch point is read through them.
- A `Touch.TouchHandler` writes `game.isHolding` but keeps the touch point in its own fields, so a hold it starts leaves `Games.Game.Valid()` false (the game's own touch point is still `None`). The update step (`UpdatePlayerMovement`, `UpdateMovingLine`, `Update`) requires `Valid()`, so a game driven by a `TouchHandler` has no update step in this model.
