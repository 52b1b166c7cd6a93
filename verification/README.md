# Firefighter side-scroller: the per-tick update, modelled and proved in Dafny

The game is a small side-scroller. A fire truck at a fixed x position moves
up and down and shoots water drops to the right. Fires enter from the right
edge and drift left. The background scrolls and wraps. A drop that overlaps
a fire puts it out: both disappear, a sound plays and the score rises by one.

This project models the game's per-tick update, `Game.Update`, with the two
mover methods it calls, `Bullet.Update` and `Enemy.Update`. It has two layers:

- **A value model.** A tick is the function `Tick.Step` on a `World`. A
  `World` holds the background offset, the truck position, the drop and fire
  positions in slice order, the score, and a count of collision sounds. What
  a tick promises is proved about `Step` and the functions it is built from:
  `Scroll`, `MoveTruck`, `FirstHit`, `Pass`, `Retreated`. What a run of ticks
  promises is proved about `Run`.
- **An imperative model.** `SideScrolling.Game` is a class. Like the Go
  struct, it holds its drops and fires as references in two slices, and it
  moves them in place through `Actors.Bullet.Update` and
  `Actors.Enemy.Update`. `Game.Update` runs the same steps in the same order
  as the Go `Update`:
  1. scroll the background;
  2. steer the truck;
  3. fire;
  4. run the collision pass;
  5. maybe spawn a fire;
  6. move every fire.

  Its contract is `State() == Step(old(State()), input, sprites)`. That ties
  every property proved of `Step` to the object model.

  The collision pass walks the drop slice with an index and splices objects
  out while it walks. Its proof has four layers:
  - a loop invariant, `Actors.Walking`;
  - one method per turn of the outer loop, `Round`;
  - one method per handled drop, `HandleBullet`;
  - the inner scan, `FirstOverlap`, and the splice, `RemovePair`.

The engine's inputs are explicit parameters of a tick, in an `Input` value:
- whether Up and Down are held;
- whether Space was just pressed;
- the uniform draw in [0, 1) that decides whether a fire spawns (it spawns
  when the draw is below 0.02);
- the draw that places a spawned fire at height draw × 600.

The drop and fire sprite sizes, which the Go code reads from `Bounds()` of the
loaded images, are a `Sprites` value fixed when the game is built.

Two consequences of the Go `Update`'s step order are worth stating:
- **A drop is moved in the tick it is fired.** It is appended at
  (truckX + 50, truckY + 25) and then moved by the collision loop in the
  same tick, so it ends that tick at x = truckX + 54. See
  `Tick.StepFiredBullet` and `Tick.FireIntoClearSky`.
- **Fires are tested where the previous tick left them.** Only the drops
  have moved when the collision loop runs. Fires move after the spawn, the
  new fire included. See `Tick.Step` and `Tick.StepEnemies`.

## Model

| member | source | states |
|---|---|---|
| Actors.Bullet.Update | SideScrolling.go:37-39 | a drop moves right by 4 and keeps its height |
| Actors.Enemy.Update | SideScrolling.go:51-53 | a fire moves left by 2 and keeps its height |
| Geometry.OverlapsIffShareInterior | SideScrolling.go:125-128 | for sprites of positive size, the four strict comparisons hold exactly when some point lies strictly inside both boxes |
| Geometry.TouchingBoxesDoNotOverlap | SideScrolling.go:125-128 | boxes that only touch along an edge, on either axis and from either side, do not collide |
| Geometry.Overlaps | SideScrolling.go:125-128 | the collision test: the drop's box and the fire's box overlap strictly on both axes; its meaning is given by `Geometry.OverlapsIffShareInterior` |
| Sequences.RemoveAt | SideScrolling.go:132-133 | splicing slot i out of a slice leaves one element fewer: the elements before i are unchanged, and those after it move down one slot |
| Sequences.RemoveAtIsSubseq | SideScrolling.go:132-133 | a splice keeps every other element, in its order |
| Collision.Advance | SideScrolling.go:37-39 | where one drop stands after its `Update`: 4 to the right at the same height; `Actors.Bullet.Update` is proved to reach it |
| Collision.Retreat | SideScrolling.go:51-53 | where one fire stands after its `Update`: 2 to the left at the same height; `Actors.Enemy.Update` is proved to reach it |
| Collision.Advanced | SideScrolling.go:37-39 | moving every drop once keeps their number and moves each one right by 4 |
| Collision.Retreated | SideScrolling.go:143-145 | moving every fire once keeps their number and moves each one left by 2 |
| Collision.FirstHit | SideScrolling.go:123-137 | the fire a drop hits is the first in slice order whose box overlaps the drop's; there is none exactly when no fire overlaps it |
| Collision.Pass | SideScrolling.go:119-138 | each drop is either kept or removed together with exactly one fire: survivors plus hits equal the drops, and fires left plus hits equal the fires |
| Collision.PassKeepsOrder | SideScrolling.go:119-138 | the surviving drops are a selection, in order, of the drops each moved once, and the surviving fires a selection, in order, of the fires; that the index loop skips no drop and handles none twice follows from `SideScrolling.Game.ResolveCollisions` being proved equal to `Collision.Pass`, together with `Pass`'s counts |
| Collision.PassLeavesNoOverlap | SideScrolling.go:119-138 | after the pass no surviving drop overlaps a surviving fire |
| Collision.PassWithoutEnemies | SideScrolling.go:119-122 | with no fires the pass moves every drop once, removes none and scores nothing |
| Collision.PassLast | SideScrolling.go:115-138 | a drop appended last is handled last, against the fires the earlier drops left alive |
| Collision.TallyHit | SideScrolling.go:130-134 | after a hit the same slot holds the next unhandled drop, and one more fire and one more hit are accounted for |
| Collision.TallyMiss | SideScrolling.go:119-121 | after a miss the moved drop joins the survivors and the index moves on |
| Tick.Scroll | SideScrolling.go:103-106 | the offset stays in (-800, 0]; it is 0 exactly when the step of 2 would reach -800 or below, and otherwise it is 2 less |
| Tick.ScrollPeriod | SideScrolling.go:103-106 | from 0, after n ticks the offset is -2 × (n mod 400): the background repeats every 400 ticks |
| Tick.MoveTruck | SideScrolling.go:108-113 | Up alone takes 2 from truckY (up the screen), Down alone adds 2, and both or neither leave it unchanged |
| Tick.Muzzle | SideScrolling.go:116 | where a fired drop appears: 50 right of and 25 below the truck's corner |
| Tick.Shoot | SideScrolling.go:115-117 | the drop list after the fire step: one drop longer exactly when Space was just pressed, the old drops unchanged in front, the new one last at the muzzle |
| Tick.SpawnPoint | SideScrolling.go:141 | a spawned fire appears at the right edge, x = 800, and a draw in [0, 1) puts it at a height in [0, 600) |
| Tick.Spawned | SideScrolling.go:140-142 | the fire list after the spawn step: one fire longer exactly when the draw is below 0.02, the old fires unchanged in front, the new one last at the spawn point |
| Tick.Step | SideScrolling.go:102-148 | one whole tick, in the Go `Update`'s order; it never moves the truck sideways, raises score and sound count by the same amount and never lowers them, and keeps the offset in (-800, 0]; `SideScrolling.Game.Update` is proved to compute it |
| Tick.StepCounts | SideScrolling.go:102-148 | score and sound count rise by the same number of hits and never fall; drops = old drops + fired − hits; fires = old fires + spawned − hits; truckX is unchanged; truckY changes by −2, 0 or +2 |
| Tick.StepKeepsOrder | SideScrolling.go:115-145 | surviving drops and fires keep their relative order, the new drop and the new fire coming last |
| Tick.StepFiredBullet | SideScrolling.go:115-138 | the fired drop starts at (truckX + 50, truckY' + 25) with the moved truckY', is moved in the same tick, and survives exactly when it overlaps none of the fires the older drops left |
| Tick.StepEnemies | SideScrolling.go:140-145 | every fire left by the pass ends 2 to the left at the same height; a spawned fire is last, at x = 798 and a height in [0, 600) |
| Tick.FireIntoClearSky | SideScrolling.go:115-121 | firing with no drops and no fires about leaves one drop, at (truckX + 54, truckY' + 25) |
| Tick.DirectHit | SideScrolling.go:119-136 | a lone drop that overlaps a lone fire once moved removes both, and score and sound count rise by one |
| Tick.Run | SideScrolling.go:102-148 | the state after the engine calls `Update` once per input; over any run the score never falls, the truck never moves sideways, and an offset that starts in (-800, 0] stays there |
| Tick.BulletsFlyFreely | SideScrolling.go:119-121 | with no fires, no firing and no spawning, every drop moves right by 4 per tick and none ever disappears |
| SideScrolling.Game.constructor | SideScrolling.go:200-207 | the game starts with the truck at (50, 250), offset 0, no drops, no fires, score 0 |
| SideScrolling.Game.Update | SideScrolling.go:102-148 | one tick changes the game's state exactly as `Tick.Step` does, and no drop or fire is ever held twice |
| SideScrolling.Game.PlayerPhase | SideScrolling.go:103-117 | scroll, steer and fire: the drops entering the collision pass are the old ones, then the fired one, and every old object stays in its slot |
| SideScrolling.Game.ScrollBackground | SideScrolling.go:103-106 | only the offset changes, as `Tick.Scroll` says |
| SideScrolling.Game.Steer | SideScrolling.go:108-113 | only truckY changes, as `Tick.MoveTruck` says |
| SideScrolling.Game.Fire | SideScrolling.go:115-117 | when Space was just pressed a new drop object is appended at the muzzle, and nothing else changes |
| SideScrolling.Game.ResolveCollisions | SideScrolling.go:119-138 | the slices, score and sound count end as `Collision.Pass` says for the drops and fires at the start of the pass; every drop and every fire left is one that was there at the start |
| SideScrolling.Game.Round | SideScrolling.go:119-137 | one turn of the outer loop keeps the walk invariant; the index moves on after a miss and stays put after a hit |
| SideScrolling.Game.HandleBullet | SideScrolling.go:120-137 | drop i is moved; on a hit it and the first overlapping fire are spliced out and the score rises by one; on a miss both slices stay as they were |
| SideScrolling.Game.MoveBullet | SideScrolling.go:120-121 | moving drop i through its reference moves no other drop |
| SideScrolling.Game.FirstOverlap | SideScrolling.go:123-137 | the scan finds the first fire, in slice order, whose box overlaps the drop's, or reports that none does |
| SideScrolling.Game.RemovePair | SideScrolling.go:130-133 | a hit triggers the sound once, adds one to the score and splices exactly slot i and slot j out |
| SideScrolling.Game.EnemyPhase | SideScrolling.go:140-145 | spawning, then moving: the fires end as the spawned list with every fire moved left by 2 |
| SideScrolling.Game.Spawn | SideScrolling.go:140-142 | when the draw is below 0.02 a new fire object is appended at (800, yDraw × 600), and nothing else changes |
| SideScrolling.Game.MoveEnemies | SideScrolling.go:143-145 | every fire, the one just spawned included, moves left by 2, and nothing else changes |

## Left out

- Drawing (`Draw` on the game, the drops and the fires), `Layout`, and the window setup and image loading in `main`. These are rendering and engine plumbing and hold no game state.
- Audio. `loadSoundEffect` and `playSoundEffect` do file and audio I/O. Each call to `playSoundEffect` is counted in the `sounds` field instead.
- Keyboard polling and `rand.Float64`. Their results are the fields of `Input`. Deciding that Space was *just* pressed is the engine's job.
- The return value of `Update`, which is always nil.
- `Bounds()` of the images. The sprite sizes are the `Sprites` value held by the game.
- float64 arithmetic. Coordinates are exact reals. Every movement in a tick is a small whole number, but the rounding of `rand.Float64() * 600` and of comparisons on such heights is not modelled.
- The `int` score is unbounded here. Overflow after 2^63 hits is not modelled.
- Slice aliasing. `append(s[:i], s[i+1:]...)` reuses the slice's backing array. No other slice shares that array, so the model treats the result as the spliced value.
- The inner loop's removal followed by `break` is modelled as a scan (`FirstOverlap`) followed by the splice (`RemovePair`). Nothing runs between the removal and the `break`, so the effect is the same.
- `Game.Valid`, which says no object is held twice in a slice, is a requirement of the methods. It holds after the constructor and every method keeps it. The Go code never appends an existing object, so the requirement asks nothing the Go code does not already guarantee.
