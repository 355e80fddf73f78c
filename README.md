# Dodge the falling objects — a Dafny model of the game core

The game is a single browser page (`script.js`): a player sprite moves left and right along the
bottom of the screen, objects of three size bands fall from the top, the score grows by ten every
second, and the first overlap between the player and an object ends the run.

This project models the simulation left once the page's rendering is removed:

- `reals.dfy` (`Reals`): maximum and minimum of two reals.
- `difficulty.dfy` (`Difficulty`): the speed factor `1 + score/1000` and the spawn period `max(200, 1000 - score)`.
- `sizes.dfy` (`Sizes`): the three size bands chosen by one random draw and filled by a second.
- `movement.dfy` (`Movement`): one step of player motion, 0.5 percent per step, clamped to [0, 100].
- `collision.dfy` (`Collision`): bounding rectangles and the strict overlap test.
- `keys.dfy` (`Keys`): which keys steer left and right.
- `object_list.dfy` (`ObjectList`): the identity filter that drops an object from the list of falling objects.
- `game.dfy` (`Arcade`): the page's mutable state as class `Game`, and each falling object as class
  `FallingObject`. Every callback is one method: the start/restart button (`StartGame`), a firing of
  the countdown, score, spawn, per-object fall or player-motion timer, and a key press or release.
  Which timers are running is part of the state (`countdownRunning`, `scoreLoopRunning`, `spawnTimer`,
  and `falling` on each object). A firing requires its timer to be running, since a cleared interval
  never fires. `Game.Valid()` is kept by every method: the score is a non-negative multiple of ten,
  the speed factor equals `Multiplier(score)`, the player is within [0, 100], and the list holds no
  object twice.

Browser values are parameters. The viewport height (`window.innerHeight`) and the two bounding
rectangles (`getBoundingClientRect()`) are passed to `FallTick`. The three `Math.random()` draws that fix
an object's size and column are `real`s in [0, 1) passed to `SpawnFire`. Positions and sizes are `real`, so float rounding is not modelled.

The model follows what the code does, also where its own comments suggest otherwise:

- The spawn period is computed once, at the first spawn firing, from the score at that moment.
  The re-armed interval keeps that period for the rest of the run (`SpawnFire`, `spawnTimer == Rearmed(p)`).
  The comments at script.js:82-83 ("Adjust spawn rate based on score", "Decrease spawn rate as
  score increases") suggest a period that follows the score; the code computes it once.
- The collision test runs on the same firing that removed an object for leaving the screen
  (`FallTick` calls `DetectCollision` in every case), so an object that has just left the screen
  is still tested. The element has already been removed, and a removed element's bounding
  rectangle is all zeros, so in the page that test fires only if the player's rectangle has a
  negative left and top. `FallTick` takes the rectangle as a parameter, so the model lets the
  caller pass any rectangle there.
- A collision detaches the object and stops its timer, but does not filter it out of `fallingObjects`.
- `EndGame` stops only the score and spawn timers. The fall timers of other objects and a running
  countdown keep going, so another object can still collide and end the game a second time.
- `StartGame` empties the list but does not stop the objects of an earlier run. They keep falling.
- The spawn handler's `baseSpeed` variable is assigned but never read, so it is not modelled.

## Model

| member | source | states |
|---|---|---|
| Reals.RMax | script.js:161 | the result is at least both arguments and equals one of them |
| Reals.RMin | script.js:165 | the result is at most both arguments and equals one of them |
| Difficulty.Multiplier | script.js:71 | the speed factor is at least 1 for a non-negative score |
| Difficulty.MultiplierStep | script.js:69-71 | every ten points add exactly 0.01 to the speed factor |
| Difficulty.MultiplierMonotone | script.js:69-71 | a higher score gives a speed factor at least as large, strictly larger when the score is strictly larger |
| Difficulty.SpawnRate | script.js:83 | the period is at least 200 and at least `1000 - score`, and equals one of the two, so it is their maximum |
| Difficulty.SpawnRateBounds | script.js:83 | for every score ≥ 0 the period lies in [200, 1000] |
| Difficulty.SpawnRateFloor | script.js:83 | for every score ≥ 800 the period is exactly 200 |
| Difficulty.SpawnRateAntitone | script.js:83 | a higher score never gives a longer period |
| Sizes.TierOf | script.js:106-108 | below 0.7 the band is small, from 0.9 on it is large, in between medium |
| Sizes.Size | script.js:100-112 | given draws in [0,1): size in [50,80) when r1 < 0.7, in [80,140) when 0.7 ≤ r1 < 0.9, in [140,230) otherwise; so always in [50,230) |
| Sizes.TierRecoverable | script.js:104-112 | the bands are disjoint: the band a size falls in is the band the first draw chose |
| Sizes.SizeMonotoneInOffset | script.js:106-112 | within a band, a larger second draw gives a strictly larger size |
| Sizes.SizeOnto | script.js:104-112 | every size in [50,230) is produced by some pair of draws, so [50,230) is exactly the range |
| Movement.Move | script.js:157-168 | a step that starts in [0,100] ends in [0,100] |
| Movement.MoveIdle | script.js:160-167 | with neither flag set the position is unchanged |
| Movement.MoveLeftOnly | script.js:160-163 | with only the left flag the position becomes `max(0, p - 0.5)` |
| Movement.MoveRightOnly | script.js:164-167 | with only the right flag the position becomes `min(100, p + 0.5)` |
| Movement.MoveBoth | script.js:160-167 | with both flags set the position returns to p when p is in [0.5,100], and becomes 0.5 when p is below 0.5 |
| Movement.MoveStepBounded | script.js:158-167 | from the playfield, one step moves the player by at most 0.5 |
| Collision.Overlaps | script.js:173-178 | the page's four strict inequalities, player rectangle against object rectangle; a hit needs positive combined width and height |
| Collision.OverlapsIffSharedPoint | script.js:173-178 | for rectangles of positive size, the four strict inequalities hold exactly when the two interiors share a point |
| Collision.OverlapsSymmetric | script.js:173-178 | the test gives the same answer with the two rectangles swapped |
| Collision.EdgeContactIsNoCollision | script.js:173-178 | rectangles that only touch along an edge do not collide |
| Collision.SampleCollision | script.js:173-178 | a player on [10,90]×[80,100] and an object on [50,60]×[95,110] collide |
| Keys.IntentOf | script.js:203-225 | only "a" and "ArrowLeft" steer left, only "d" and "ArrowRight" steer right, every other key is ignored |
| Keys.IntentIsCaseSensitive | script.js:204-209 | upper-case "A" and "D" do not steer |
| ObjectList.Without | script.js:135 | the result holds exactly the elements of the list that are not the removed object |
| ObjectList.WithoutAbsent | script.js:135 | filtering out an object that is not listed leaves the list unchanged |
| ObjectList.WithoutMultiset | script.js:135 | only the removed object's occurrences go; every other element keeps its multiplicity |
| ObjectList.WithoutKeepsOrder | script.js:135 | the remaining objects keep their relative order |
| ObjectList.WithoutDistinct | script.js:135 | a list without duplicates stays without duplicates |
| ObjectList.WithoutDistinctLength | script.js:135 | in a list without duplicates, removing a listed object shortens it by exactly one |
| Arcade.FallingObject.constructor | script.js:117-127 | a new object has its size and column, sits at top −50, is attached and its fall timer runs |
| Arcade.Game.constructor | script.js:11-22 | on page load: score 0, factor 1, position 50, no flags, empty list, no game timer running |
| Arcade.Game.StartGame | script.js:24-38 | resets score 0, factor 1, position 50, both flags false, empty list, and starts a countdown at 3 |
| Arcade.Game.EndGame | script.js:41-49 | stops the score and spawn timers and changes nothing else |
| Arcade.Game.CountdownFire | script.js:51-64 | while the counter is positive it shows it and decrements it; at zero it stops, shows score 0 and starts the score and spawn timers |
| Arcade.Game.ScoreTick | script.js:67-72 | the score grows by exactly 10, the factor becomes `1 + score/1000` and strictly grows, and the new score is shown |
| Arcade.Game.CreateFallingObject | script.js:96-124 | appends one fresh object with size `Size(r1, r2)` in [50,230), column `100·r3` in [0,100), top −50, falling |
| Arcade.Game.SpawnFire | script.js:75-93 | every firing appends one fresh object; the first also re-arms the timer with `SpawnRate(score)`, later ones keep that period |
| Arcade.Game.DetectCollision | script.js:170-183 | reports exactly `Overlaps(player, object)`; on a hit the object stops and detaches and the score and spawn timers stop; else nothing changes |
| Arcade.Game.FallTick | script.js:126-139 | the object falls by `1.5·factor` (strictly down); past the viewport height it stops, detaches and only it leaves the list, others in order; then the collision test runs |
| Arcade.Game.MovePlayer | script.js:157-168 | the position becomes `Move(p, left, right)` and stays within [0,100] |
| Arcade.Game.KeyDown | script.js:203-215 | a press sets the flag of the direction its key steers and leaves the other flag |
| Arcade.Game.KeyUp | script.js:217-225 | a release clears the flag of the direction its key steers and leaves the other flag |
| Arcade.OpeningScenario | script.js:51-92 | after a start the display reads 3, 2, 1, score 0, score 10, and the spawn period fixed at the first spawn is 990 |
| Arcade.CollisionScenario | script.js:126-183 | a collision stops the score and spawn timers and leaves the object listed; a restart gives score 0, position 50, empty list |

## Left out

- Rendering: element creation and styling, the score text beyond the `Display` value, and the start and end screens.
- Audio (theme music and explosion sound): calls into the browser's media API with no effect on the game state.
- The idle and walk sprite animations (script.js:185-201) and the three image variants of an object (script.js:116): cosmetic. The draw for the image variant is therefore not a parameter.
- The growth effect near the bottom (script.js:141-153): cosmetic, driven by its own nested timer. `FallTick` takes the object's rectangle as a parameter, so the grown size is covered by whatever rectangle is passed.
- Timer scheduling: when each interval fires and in what order is not modelled. Each firing is a method call that any caller may order.
- Game.StartGame: the model keeps one countdown. A restart while a countdown is running replaces it, whereas the page would then run two countdowns and later two score and two spawn intervals.
- Game.CountdownFire: the model keeps one score timer and one spawn timer. On this reachable path
  the page runs more: an object left over from an earlier run hits the player during a new
  countdown, so `endGame` runs while the countdown goes on; at zero the countdown starts the score
  and spawn intervals behind the end screen; a restart does not clear them; at the next zero the
  page starts a second score interval (twenty points a second) and a new spawn interval that
  orphans the old one, and `endGame`, which clears only the newest of each, can no longer stop the
  older ones. The model instead keeps `scoreLoopRunning` true and sets `spawnTimer` to
  `FirstPending`, so its score grows ten per firing and its end of game stops everything.
- Game.FallTick: the object's rectangle and the player's rectangle are parameters and are not derived from `topPosition`, `left` and `size`, because the page's layout is not modelled.
- Floating-point rounding: positions, sizes and the speed factor are exact reals.
