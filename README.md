# Forest Apple Collector — gameplay model

A Dafny model of the gameplay rules of the "Forest Apple Collector" game
(`game.py`). It leaves out pygame. A boy walks left and right along the
ground line while apples fall from the top of the screen. Catching a good
apple scores a point and sends the apple flying to the basket. Catching a
damaged apple costs one of three lives. When no life is left the game ends,
and SPACE starts a new round.

Modules, one per class of the source:

- `Geometry` (geometry.dfy): the screen constants and integer rectangles,
  with `collide_rect` as a strict-overlap test.
- `Player` (player.dfy): the `Boy` class. It clamps movement to
  `rect.x ∈ [50, WIDTH - 50]` and runs the idle / walking / picking
  animation machine with its 400 ms pick timer. `StepBoy` and `Pick` state
  what one update does to a `BoyState` value.
- `Apples` (apples.dfy): an apple's gameplay fields, set at spawn from the
  random draws. Each frame every apple falls, and an apple whose rect top
  passes `HEIGHT` leaves the group. `UpdateApples` is the loop that
  pygame's `Group.update` runs.
- `Sequences` (sequences.dfy): `FlatMap`, which replaces each element of a
  sequence by a run and joins the runs in order. It is the reference
  definition that the group updates are proved equal to.
- `Effects` (effects.dfy): the lifetime of the flight to the basket. Its
  clock accumulates and the effect leaves its group at 600 ms.
- `Session` (session.dfy): the `Game` class, whose fields are updated in
  place, and the `World` value that specifies it. `Resolve` handles
  collisions, `Spawn` and `PlayingFrame` cover one playing frame, and
  `Frame` is one pass of the run loop. `Inv` is the invariant that every
  pass keeps.

Time is measured in whole milliseconds, because `clock.tick` returns
milliseconds. The thresholds are therefore 1500 ms (spawn), 400 ms (pick)
and 600 ms (effect).

The pixel distances that `speed * dt` and `fall_speed * dt` move a rect are
inputs. For the boy this is `boyStep`. For the apples it is
`fallStep: Apple -> nat`, which gives the pixels each apple drops this
frame. It may depend on the apple's speed and on its position, so two apples
with the same speed need not drop by the same amount. The random draws made at spawn are inputs too: the x position,
the quality, the speed jitter and the radius. They are restricted to the
ranges the source draws from (`ValidRoll`). The classifier is a parameter
`classify` of `Game.HandleCollisions`. The method calls it and drops its
verdict, and its postcondition ties the new state to `Resolve` of the old
state. `Resolve` has no classifier argument, so the verdict cannot affect
gameplay.

The model follows one detail of the run loop as written. When SPACE is
pressed in an ended game, `reset` runs during event handling. The same pass
of the loop then plays a full frame, because the state is `playing` again
(`Session.EndedWaitsForRestart`).

## Model

| member | source | states |
|---|---|---|
| Geometry.CollideRectIffSharedPixel | game.py:485 | two non-empty rects pass `collide_rect` exactly when some pixel lies in both |
| Player.ClampX | game.py:306 | the clamped x is always in [50, WIDTH-50]; it is x itself when x is in range, and the nearer bound otherwise |
| Player.StepBoy | game.py:288-316 | after an update with a key held, x is in [50, WIDTH-50]; with no key held, x and direction are unchanged; left sets direction -1 and lands exactly on `ClampX(x - step)`, and right (without left) sets +1 and lands exactly on `ClampX(x + step)`, so a step that would overshoot stops on the nearer bound; picking survives exactly while the pick timer is ≤ 400 ms and is reset to 0 on expiry; otherwise the animation is walking exactly when a key is held |
| Player.Pick | game.py:321-324 | play_pick_animation sets picking with timer 0 and leaves position, direction and animation clock unchanged |
| Player.PickLastsFourHundredMs | game.py:295-324 | a pick just started survives the next update exactly when that update lasts at most 400 ms |
| Player.BoyStaysInBounds | game.py:300-316 | from x in [50, WIDTH-50], any run of updates keeps x in [50, WIDTH-50], whatever time, keys and step each frame has |
| Player.Boy.constructor | game.py:197-205 | a new boy is idle, faces right, has both timers at 0 and stands with midbottom (WIDTH/2, GROUND_Y) |
| Player.Boy.Update | game.py:288-316 | the in-place update leaves the boy's fields equal to `StepBoy` of the old fields |
| Player.Boy.PlayPickAnimation | game.py:321-324 | the in-place update leaves the boy's fields equal to `Pick` of the old fields |
| Apples.NewApple | game.py:330-337 | a spawned apple is uncollected, keeps the drawn quality, falls at 170..230 px/s, has a non-empty rect centred at (x, -50) that lies within the screen's width, and starts above the screen |
| Apples.Fallen | game.py:383-385 | a falling apple only moves down; quality, speed, collected flag, x and size are unchanged |
| Apples.AdvanceApples | game.py:383-388 | after the group update no apple is off screen; every remaining apple is some input apple after its fall; every apple whose fall leaves it on screen remains; the group never grows |
| Apples.AdvanceKeepsAllOnScreen | game.py:383-388 | when no apple falls off screen, the group keeps every apple, fallen, in spawn order |
| Apples.AdvanceApplesIsEachKept | game.py:383-388 | the group update is, apple by apple in spawn order, the fallen apple if it is still on screen and nothing otherwise, so it keeps order and multiplicity |
| Apples.AdvanceApplesInOrder | game.py:383-388 | updating two runs of apples back to back equals updating each run and concatenating the results, so the update keeps spawn order and multiplicity |
| Apples.AdvanceOneApple | game.py:383-388 | a single apple's update keeps it, fallen, exactly when it is still on screen, and removes it otherwise |
| Apples.UpdateApples | game.py:462 | the loop over the group gives exactly `AdvanceApples` |
| Effects.NewEffect | game.py:171-179 | a new flight starts with elapsed time 0 between the given start and end centres |
| Effects.Aged | game.py:181-182 | an update adds dt to the effect's clock and changes nothing else |
| Effects.AdvanceEffects | game.py:181-185 | after the update every remaining effect has elapsed < 600 ms; each is an input effect aged by dt; every effect still under 600 ms remains; the group never grows |
| Effects.AdvanceEffectsIsEachKept | game.py:181-185 | the group update is, effect by effect in order, the aged effect if its clock is still below 600 ms and nothing otherwise, so it keeps order and multiplicity |
| Effects.AdvanceEffectsInOrder | game.py:181-185 | updating two runs of effects back to back equals updating each run and concatenating the results, so the update keeps order and multiplicity |
| Effects.AdvanceOneEffect | game.py:181-185 | a single effect's update keeps it, aged, exactly when its clock is still below 600 ms, and removes it otherwise |
| Effects.SurvivesIffTotalBelow | game.py:178-185 | an effect with time left survives a run of updates exactly when its clock plus their total stays below 600 ms |
| Effects.UpdateEffects | game.py:465 | the loop over the effects gives exactly `AdvanceEffects` |
| Session.FirstHit | game.py:480-485 | the index found is the first uncollected apple, in spawn order, that collides with the boy; no earlier one does; when there is none, no apple is hit |
| Session.Resolve | game.py:478-518 | with no hit the state is unchanged; otherwise exactly the first hit apple is removed and the boy picks; a good apple adds 1 to score and to good_collected and adds one fresh effect at the end, leaving lives and rotten count alone; a damaged one sets lives to max(0, lives-1) and adds 1 to rotten_collected, leaving score, good count and effects alone; clock, spawn time and state never change |
| Session.Spawn | game.py:454-459 | exactly one apple, `NewApple(roll)`, is appended and the spawn time is set to elapsed when `elapsed - last_apple_spawn >= 1500`; otherwise nothing changes; existing apples are untouched |
| Session.InitialInv | game.py:413-430 | the reset state satisfies the invariant |
| Session.ResolveKeepsSound | game.py:498-514 | collision resolution keeps lives in [0,3] and equal to max(0, 3 - rotten), score equal to good_collected, and all apples and effects alive |
| Session.SpawnKeepsSound | game.py:454-459 | spawning keeps every apple in the group alive and the spawn time no later than the clock |
| Session.MovedKeepsSound | game.py:461-465 | updating the apples and effects keeps every remaining apple and effect alive |
| Session.PlayingFrameKeepsInv | game.py:447-472 | a playing frame keeps the invariant, including "ended exactly when lives are 0" |
| Session.FrameKeepsInv | game.py:437-472 | every pass of the run loop keeps the invariant (lives in [0,3], score == good_collected, ended iff no lives, boy in bounds) |
| Session.RunKeepsInv | game.py:432-472 | the invariant holds after any run of passes, in particular from reset |
| Session.EndedWaitsForRestart | game.py:440-447 | while ended, a pass without SPACE changes nothing (no time, boy, apple, effect or collision update); with SPACE the pass plays the first frame of a reset game |
| Session.PlayingFrameBounds | game.py:447-472 | a playing frame resolves at most one apple, adds at most one apple, raises the score by at most one and never lowers it, lowers lives by at most one and never raises them, and ends the game exactly when lives reach 0 |
| Session.SpawnSpacing | game.py:454-459 | a frame either keeps the last spawn time or moves it forward by at least 1500 ms |
| Session.RunWithoutRestartIsMonotone | game.py:432-472 | over any run without SPACE the score never falls, the lives never rise, and an ended game stays exactly as it is |
| Session.Game.constructor | game.py:396-411 | a new game is in the reset state and satisfies the invariant |
| Session.Game.Reset | game.py:413-430 | reset empties apples and effects, zeroes score, good_collected, rotten_collected, elapsed and last_apple_spawn, sets lives to 3 and state to playing, with a fresh boy |
| Session.Game.HandleCollisions | game.py:478-518 | the scan with `continue`/`break` leaves the game equal to `Resolve` of the old state, whatever the classifier answers |
| Session.Game.SpawnApple | game.py:454-459 | the in-place spawn step leaves the game equal to `Spawn` of the old state |
| Session.Game.UpdateGroups | game.py:461-465 | the in-place group updates leave the game's apples and effects equal to `AdvanceApples` / `AdvanceEffects` of the old groups |
| Session.Game.PlayFrame | game.py:447-472 | the in-place playing block leaves the game equal to `PlayingFrame` of the old state |
| Session.Game.Tick | game.py:434-472 | one pass of the loop leaves the game equal to `Frame` of the old state and keeps the invariant |

## Left out

- Rendering: `draw` and `draw_game_over`, every `_create_sprite` / `_create_surface`, `ForestBackground`, the `Basket` and `Dustbin` drawing, and `Basket.update_apples`, which only mirrors `good_collected` into the picture. None of them affects gameplay.
- The arc and the lerp position in `AppleFlyEffect.update`. They are floating-point trigonometry with no gameplay effect. Only the lifetime is modelled, and the effect keeps its start and end centres.
- `model.py` (the CNN classifier) and `train_model.py` (training). The game drops the classifier's verdict, so it appears only as the `classify` parameter.
- `load_classifier`'s check that the model file exists, the pygame event queue, the QUIT / ESC / Q exits, `pygame.quit` and `sys.exit`. These are I/O plumbing. A pass's events are reduced to "SPACE went down" (`FrameInput.restart`).
- Floating-point time. The source accumulates `dt / 1000.0` in seconds. The model accumulates integer milliseconds, so float rounding at the 1.5 s, 0.4 s and 0.6 s thresholds is not modelled.
- Pixel rounding. `rect.x -= speed * dt` and `rect.y += fall_speed * dt` pass through pygame's float-to-int conversion of rect coordinates, which is not part of this model. The resulting steps are inputs (`boyStep`, `fallStep`), so the model does not tie them to BOY_SPEED = 300 or to an apple's fall speed; the fall step is chosen per apple.
- Random number generation. The model does not cover the 0.65 probability of a good apple. The spawn draws are inputs restricted to their ranges.
- Apples and effects are values in sequences, not sprite objects shared with `all_sprites`. The aliasing between the groups is left out. `apple.collected = True` just before `kill()` is not written, because the apple leaves the group at once.
