# Space Invaders game rules in Dafny

A model of the game rules of a p5.js arcade shooter (`script.js`). The player's
ship moves along the bottom of the screen and fires bullets upwards. Enemies
drift, drop bullets, take damage and die. Big enemies split in two, and killed
enemies may leave weapon pickups. Bosses spawn small enemies. A level director
sends twenty waves. Drawing, sound and the page are left out. What remains is
the state each frame changes, and the lists it prunes in place.

Modules, one per part of the program:

- `Lists`: order-preserving removal, the `splice(i, 1); i -= 1` idiom the game
  uses everywhere. `Remaining` is its specification and `RemoveWhere` the loop.
- `Polygon`: the even-odd point-in-polygon test shared by the ship, enemies
  and pickups, and the outlines each entity records when shown.
- `Random`: p5's `random()`, made a fixed stream of draws in [0, 1) (class
  `Rng`). Every call site of `random` in the rules takes the next draw.
- `Projectile`: bullets, as values inside their owner's list.
- `Ship`: the `SpaceShip` class: health, god mode, weapon colour, fire cooldown,
  movement and its bullets.
- `Enemies`: the `Enemy` class; a boss is an `Enemy` built by the `Boss`
  constructor (the source's `Boss extends Enemy`).
- `Effects`: explosions (fading particles) and pickups (falling, spinning tokens).
- `Levels`: the spawn table of `incrementLevel`.
- `Game`: the globals of the sketch as one class, with `draw` split into its
  phases, the kill rule, the level guard and timer, and `resetGame`.

Where the documented behaviour and the code differ, the model follows the code:

- A pickup's angle is kept in [0, 360] with 360 itself included: the test that
  starts it over at 0 is strictly greater than 360 (`Effects.FullTurnIsKept`).
- `resetGame` keeps the pickups and does not cancel a level timer already
  set. It is never called from within the file. A reset while a timer is
  pending can therefore lead to two pending timers.
- In the bullet-enemy loop, a hit splices the bullet out and steps the bullet
  index back one place, or keeps it at 0. The enemy index goes on, so the
  bullet now under the index meets only the remaining enemies. When the first
  bullet hits, the next bullet is tested only against the enemies after the one
  hit. `Game.Game.AimAt` models the loop as written.

## Model

| member | source | states |
|---|---|---|
| Lists.RemoveWhere | script.js:112-121 | the splice-and-step-back loop leaves exactly the elements `drop` does not select, in their original order |
| Lists.RemainingCount | script.js:112-121 | removal never grows a list; an unselected element keeps every occurrence, a selected one has none left |
| Lists.RemainingMember | script.js:254-261 | an element survives removal iff it was in the list and is not selected |
| Lists.RemainingAppend | script.js:527-532 | removal preserves order: removing from a concatenation removes from each part |
| Lists.RemainingNoneDropped | script.js:791-799 | when nothing is selected, the list is left exactly as it was |
| Lists.RemainingAllDropped | script.js:791-799 | when everything is selected, nothing remains |
| Lists.RemainingIdempotent | script.js:801-809 | a second pass with the same test removes nothing more |
| Lists.RemainingDistinct | script.js:801-809 | a list of distinct objects stays without repeats after removal |
| Polygon.PointIsInside | script.js:368-385 | the loop over edges (i, j = previous vertex) returns true iff the rightward ray from the point crosses an odd number of edges |
| Polygon.ParityIsOddCrossings | script.js:373-382 | the flag, toggled once per crossing edge, is set after k edges iff an odd number of them crossed |
| Polygon.EmptyOutlineContainsNothing | script.js:535-552 | an outline with no points (an enemy not yet shown) contains no point |
| Polygon.BossSquareInside | script.js:577-582 | the boss square of side w contains exactly the points of the half-open box [x - w/2, x + w/2) x [y - w/2, y + w/2) |
| Polygon.OutsideBoundingBox | script.js:535-552 | a point left, right, above or below all vertices is never inside |
| Polygon.ShipContainsItsPosition | script.js:222-235 | the ship's 12-point outline contains the ship's own position |
| Polygon.EnemyContainsItsPosition | script.js:431-448 | an enemy's 16-point outline contains its own position, for every positive width |
| Random.Rng.Next | script.js:843-844 | `random()` takes the next draw of the stream, a value in [0, 1) |
| Random.Rng.Between | script.js:394 | `random(a, b)` takes the next draw, scaled into the half-open range between a and b |
| Random.ScaleInRange | script.js:394 | a unit draw scaled onto a range lies at or above the lower bound and below the upper one |
| Projectile.NewBullet | script.js:42-59 | a bullet keeps its position, size, direction, colour and rotation; an unrotated one moves straight at speed -10 (up) or 10 (down) |
| Projectile.AdvanceAll | script.js:250-253 | every bullet moves one step along its own velocity; count and order are kept |
| Ship.BatchShape | script.js:285-332 | colour 0 fires 1 bullet at x, colour 120 fires 2 at x -/+ 7, any other colour 8 at x rotated -40, -30, ..., 30 in order; all go up from the muzzle with the colour |
| Ship.SteadyFireEveryEighthFrame | script.js:334-340 | holding fire at 60 fps from a rested counter fires exactly on frames 0, 8, 16, ... |
| Ship.ClampKeepsShipInside | script.js:264-270 | on a screen wider than the ship, the clamp brings the ship within half its width of either edge and leaves a ship already inside where it was |
| Ship.MoveStaysNearScreen | script.js:264-279 | one move never leaves the ship more than one step (15) outside those margins |
| Ship.SpaceShip.constructor | script.js:190-213 | centred, 10 above the bottom; health 100, no god mode, colour 0, counter 7, no bullets |
| Ship.SpaceShip.Show | script.js:215-235 | records the 12-point outline around the current position |
| Ship.SpaceShip.Update | script.js:243-262 | the counter returns to 7 when fire is up or it went negative; every bullet moves, and exactly those off the top or sides are dropped, in order |
| Ship.SpaceShip.MoveShip | script.js:264-279 | clamp (left test first), then one step of 15 in the direction |
| Ship.SpaceShip.SetBulletType | script.js:281-283 | the weapon colour becomes the given one |
| Ship.SpaceShip.GetBulletType | script.js:285-332 | the batch for the current colour; the loop builds the same fan as `BulletBatch` |
| Ship.SpaceShip.ShootBullets | script.js:334-340 | a batch is appended iff the counter is exactly 7, then the counter drops by the decrement; with a positive decrement a second call before `update` fires nothing |
| Ship.SpaceShip.DecreaseHealth | script.js:342-345 | health drops by exactly the amount, or is unchanged in god mode |
| Ship.SpaceShip.ActivateGodMode | script.js:347-349 | god mode is set |
| Ship.SpaceShip.IsDestroyed | script.js:351-358 | destroyed iff health is at most 0, and then health is pinned to 0; otherwise health is unchanged |
| Ship.SpaceShip.Reset | script.js:360-366 | no bullets, counter 7, health 100, no god mode, colour 0; position untouched |
| Ship.SpaceShip.PointIsInside | script.js:368-385 | the even-odd test against the last recorded outline |
| Enemies.BossSpawnRhythm | script.js:590-598 | after n updates from timer t the timer reads (t + n) mod 100, and 5 * ((t + n) div 100) small enemies have been spawned |
| Enemies.HealthAfterHitsIs | script.js:501-507 | n hits of d take exactly n * d off the health |
| Enemies.EnemyHitsToKill | script.js:501-507 | an enemy of width w (health 100w/45) dies on hit n iff 9n > w, so a 45-wide one dies on the 6th hit |
| Enemies.BossHitsToKill | script.js:612-618 | a boss (500, 10 per hit) survives 50 hits and dies on the 51st |
| Enemies.Enemy.constructor | script.js:389-416 | full health 100w/45, rested gun (7), no bullets or outline, and a first target drawn from the upper half of the screen |
| Enemies.Enemy.Boss | script.js:556-562 | a boss is 200 wide with health 500 and its spawn timer at 0 |
| Enemies.Enemy.Show | script.js:418-454 | records the 16-point enemy outline, or the boss square, around the current position |
| Enemies.Enemy.ShootBullets | script.js:471-485 | only with a rested gun, one draw decides with odds one half whether a bullet drops from the old x, one width below |
| Enemies.Enemy.CheckPlayerDistance | script.js:487-499 | a negative counter is rearmed; within 200 of the player the enemy may shoot, otherwise the gun rests; then the counter drops by the decrement |
| Enemies.Enemy.TakeDamageAndCheckDeath | script.js:501-507 | health drops by 20 (a boss: 10) and death is reported iff health is then below 0 |
| Enemies.Enemy.Update | script.js:509-533 | the old x is remembered, the enemy moves, a new target is drawn when barely moving, bullets below the screen are dropped in order; a boss ticks its timer in [0, 99] and spawns 5 enemies exactly when it wraps |
| Enemies.Enemy.Move | script.js:509-521 | the move alone: old x kept, position shifted by the velocity, target redrawn iff the speed is at most 1 |
| Enemies.Enemy.SpawnSmallEnemies | script.js:600-610 | five new distinct 20-wide enemies, each within 50 of the boss on both axes |
| Enemies.Enemy.PointIsInside | script.js:535-552 | the even-odd test against the last recorded outline |
| Effects.FadeOut | script.js:106-121 | particles of alpha a keep their places for a - 1 frames, losing one step per frame, and all vanish together in frame a |
| Effects.ExplosionLifetime | script.js:99-126 | a fresh explosion of 200 opaque particles is complete exactly after its 20th frame |
| Effects.Explosion.constructor | script.js:87-104 | a hue in [0, 358] and exactly 200 opaque particles, each with a speed drawn from [0, 70) |
| Effects.Explosion.Show | script.js:106-110 | every particle fades by one step; count and order kept |
| Effects.Explosion.Update | script.js:112-122 | exactly the invisible particles are dropped, the others kept in order |
| Effects.SpinStaysInTurn | script.js:157-158 | the spin keeps the angle in [0, 360]: it grows, or starts over at 0 |
| Effects.FullTurnIsKept | script.js:157-158 | 360 itself is kept; only the step after it returns to 0 |
| Effects.Pickup.constructor | script.js:130-142 | a pickup at its position with angle 0, falling 2 per frame (downwards on a screen of positive height) |
| Effects.Pickup.Show | script.js:144-159 | the angle spins by 2 * 60 / frame rate (2 at frame rate 0) and stays in [0, 360] |
| Effects.Pickup.Update | script.js:161-163 | the pickup falls by its fixed velocity |
| Levels.LevelsThatSpawn | script.js:942-1136 | levels 1 to 20, and no others, spawn something; only levels 10 and 20 bring a boss |
| Levels.DrawnRangesAreProper | script.js:942-1136 | every drawn width range is a proper positive range |
| Levels.LateLevelsGrow | script.js:1038-1126 | levels 11 to 19 spawn 30, 40, ..., 110 enemies |
| Levels.WholeGameSpawns | script.js:942-1136 | the twenty waves together spawn 763 enemies |
| Game.VolleyDamageBounds | script.js:877-887 | enemy bullets never add health, and cost nothing when none is inside the ship |
| Game.ColorIndex | script.js:849 | `floor(random() * 3)` always indexes the three-colour palette |
| Game.Game.constructor | script.js:621-636 | a new ship, empty lists, score 0, level 1, no timer, not started, not paused |
| Game.Game.CheckShipDeath | script.js:736-760 | when the ship is destroyed it explodes once (on the first such frame) and every enemy is removed, each leaving an explosion where it was; otherwise nothing changes |
| Game.Game.BlastAll | script.js:749-760 | the removal loop empties the list and appends one explosion per enemy, in order, at its position and of stroke weight 7w/45 |
| Game.Game.Turn | script.js:784-789 | one enemy's turn: outline at the old position, move, boss timer ticked, bullets moved and pruned; a slow enemy's target redrawn from the next two draws, otherwise kept; the counter rearmed when below 0, reset to 7 out of range, and counted down; a new bullet iff within 200 of the ship, the counter stood at 7, and the draw after the target and spawn draws is below one half; 5 spawned iff the boss timer wraps |
| Game.Game.TurnNext | script.js:784-789 | one pass of the enemy loop keeps every earlier enemy turned (position, outline, boss timer, counter, target kept unless slow, pruned bullets plus at most one, fired only within range with the counter at 7) and every later one untouched, and appends what the boss spawned |
| Game.Game.TurnAll | script.js:784-789 | every enemy listed at the start has taken its turn, as the one-pass row states, from its state before the loop; spawned enemies are appended, 5 per boss whose timer wraps, all small and fresh |
| Game.Game.StepEnemies | script.js:784-789 | the enemy list only grows at its end, by 5 fresh small enemies per boss whose timer wraps; every listed enemy was listed before or is new |
| Game.Game.Burn | script.js:791-794 | an explosion's frame: fade, then drop the invisible particles |
| Game.Game.BurnNext | script.js:791-799 | one pass of the explosion loop keeps the splice invariant and burns exactly one more explosion |
| Game.Game.BurnAll | script.js:791-799 | every explosion burns once; exactly those left without particles are removed, in order |
| Game.Game.BurnLoop | script.js:791-799 | the loop itself: from every explosion holding its old particles, to every one burnt once and exactly the emptied ones removed, in order |
| Game.Game.StepExplosions | script.js:791-799 | the explosion loop on the game's list |
| Game.Game.Fall | script.js:801-804 | a pickup's frame: spin, then fall |
| Game.Game.FallNext | script.js:801-809 | one pass of the pickup loop keeps the splice invariant and moves exactly one more pickup |
| Game.Game.FallAll | script.js:801-809 | every pickup spins and falls once; exactly those then below the screen are removed, in order |
| Game.Game.StepPickups | script.js:801-809 | the pickup loop on the game's list |
| Game.Game.CollectPickups | script.js:866-875 | exactly the pickups inside the ship's outline are removed, in order, and the last one touched sets the weapon colour |
| Game.Game.CollectAll | script.js:866-875 | the collection loop over a copy of the list |
| Game.Game.DamageShip | script.js:877-887 | from every enemy, exactly the bullets inside the ship are removed, in order; the ship loses the total of 2 * size / 10 over them, nothing in god mode |
| Game.Game.HitBullets | script.js:878-886 | one enemy's bullets: the same for a single list |
| Game.Game.HitNext | script.js:879-885 | one pass keeps the splice invariant, and the ship loses exactly this bullet's damage if it is inside |
| Game.Game.ResolveBulletHits | script.js:811-864 | 10 points per kill; one explosion per kill, at most one pickup per kill; two enemies per split; the surviving bullets keep their order, at least one fewer per kill; hit enemies only lose health and leave the list iff it drops below 0; with no enemy no kill happens and the bullets stay as they were |
| Game.Game.AimAt | script.js:812-862 | one pass of the inner loop: the bullet under the index is tested against enemy j's outline; on a hit it is spliced out, the bullet index steps back one place (staying at 0) and the enemy loses 20 (a boss 10); without a hit the bullets, the index and the health stay; unless the enemy is killed, the enemy list, explosions, pickups, score and stream position stay; the enemy index stays on a kill and moves on otherwise; the running totals are kept and the loop measure decreases |
| Game.Game.Strike | script.js:814-859 | the enemy loses 20 (a boss 10); below 0 it is killed, otherwise nothing else changes |
| Game.Game.Kill | script.js:816-859 | the dead enemy leaves an explosion, two half-width children iff wider than 100, and a pickup with odds one half; it leaves the list, the others keep their order, and the score grows by 10 |
| Game.Game.Aftermath | script.js:817-853 | the explosion, the split and the pickup, in that order and with the draws in that order |
| Game.Game.BlastAt | script.js:817-824 | one explosion at the enemy's position, of stroke weight 7w/45 |
| Game.Game.SplitInTwo | script.js:825-841 | two new enemies of half the width, at the dead one's position, at the end of the list |
| Game.Game.MaybeDrop | script.js:843-853 | a pickup at the dead enemy's position iff the draw is below one half; its colour comes from the next draw |
| Game.Game.LevelGuard | script.js:895-920 | with no enemy, a live ship and a started game, one timer is set iff the level is at most 20 and none is set yet; past level 20, one firework explosion iff the next draw is below 0.1, at the next three draws' position and weight, and otherwise one draw is used; in every other case no draw is used and no explosion added |
| Game.Game.FireLevelTimer | script.js:902 | a pending timer fires `incrementLevel` and is used up; when at most one timer was pending (`OneTimer`), that still holds afterwards. `Draw` and `LevelGuard` keep it too, and `ResetGame` keeps it from a state with no timer pending; a reset while a timer is pending can lead to two |
| Game.Game.IncrementLevel | script.js:942-1141 | the current level's wave is appended (count, widths, spawn line); only while the level is at most 20, the guard is cleared and the level advances |
| Game.Game.SpawnRow | script.js:954-961 | n new enemies on the spawn line, with the wave's width, at the end of the list |
| Game.Game.Draw | script.js:718-921 | nothing changes while paused: the game, the ship, the stream and every listed enemy, explosion and pickup keep every field; the score only grows, by multiples of 10; the level changes only by the timer; a destroyed ship empties the enemy list; the G-O-D keys set god mode |
| Game.Game.ShipPhase | script.js:733-781 | god mode is on afterwards iff it was or the G-O-D keys are held; the death check; a living ship then takes exactly its own step (outline, move, counter, bullets and batch, as the next row states) while the enemies, explosions, destroyed flag, health and stream stay; a destroyed ship's health drops to 0, its own blast (first time only) and one blast per enemy are appended in order, and the ship is otherwise untouched |
| Game.Game.ShipTurn | script.js:767-781 | outline recorded, counter rearmed, bullets moved and pruned, moved unless both arrows are held, a batch fired iff the counter was at 7 |
| Game.Game.WorldAndGuard | script.js:784-920 | the world phase then the level guard: the score grows by exactly 10 per kill; with no enemy, none appears, nothing is killed and the ship is not hurt; at most one level timer stays pending |
| Game.Game.WorldPhase | script.js:784-887 | returns the kills: the score grows by exactly 10 per kill and there are at most as many kills as ship bullets; with no enemy, none appears, nothing is killed and the ship is not hurt |
| Game.Game.MovePhase | script.js:784-809 | the enemy list grows only at its end, by 5 fresh small enemies per boss whose timer wraps, and with no enemy none appears; every explosion has burnt once and exactly the emptied ones are gone, in order; every pickup has spun and fallen once and exactly those below the screen are gone, in order |
| Game.Game.StepEffects | script.js:791-809 | the explosion and pickup loops: every explosion burns once and exactly the emptied ones go; every pickup spins and falls once and exactly those below the screen go; both in order |
| Game.Game.HitPhase | script.js:811-887 | returns the kills: the score grows by exactly 10 per kill, one explosion is added per kill, at most one kill per ship bullet; with no enemy nothing is killed and the ship is not hurt |
| Game.Game.ContactPhase | script.js:866-887 | exactly the pickups inside the ship's outline go, in order, and the last of them sets the weapon colour; from every enemy exactly the bullets inside the outline go, and the ship loses their total damage, nothing in god mode; with no enemy the ship is not hurt |
| Game.Game.ResetGame | script.js:1143-1157 | a new game from level 1 with score 0; enemies and explosions cleared, pickups and pending timers kept; the ship reset in place; with no timer pending, at most one is pending afterwards |
| Game.Game.TogglePause | script.js:1159-1166 | the pause flag flips |
| Game.Game.StartGame | script.js:1168-1172 | the game is started |

## Left out

- Drawing: every `show` body, colours, the HUD, the CRT effect and the title. The `show` methods are kept only for the outline they record and the fading or spinning they do.
- Sound: the sound setup and every `play()` call.
- The page: `setup`'s listeners, `enterFullScreen`, `windowResized`, the pause and start screens. Keys held during a frame are the `Keys` parameter of `Draw`.
- The starfield (script.js:723-731) and the title hue (script.js:927) call `random()`. The `Rng` stream serves only the rules' own draws, so a stream position in the model is not the same as a call count in the browser.
- Vector arithmetic that needs square roots: a rotated bullet's velocity is the `spread` parameter, and each enemy's velocity for the frame (the result of `checkArrival` and `limit`) is `steer(k)`. Particle motion, gravity and `random2D` are not modelled; particles keep only their alpha and drawn speed.
- `frameRate()`: the cooldowns take a `decrement` parameter (60 / frame rate), and the pickup spin takes a `frameRate` parameter.
- Particle alpha is counted as an integer number of 0.05 steps from 20. Rounding of the source's floating-point subtraction is not modelled, and neither is rounding of any other number: positions are exact reals.
- The 3000 ms delay of `setTimeout`: a set timer is the `pendingTimers` counter, and `FireLevelTimer` is the event of it going off, at whatever frame the caller chooses.
- `Pickup.pointIsInside` (script.js:169-186) is not modelled separately. It is never called, and its `shapePoints` are four numbers, not points. The shared test is `Polygon.PointIsInside`.
- The arrays are `seq` fields reassigned after each splice, so the model does not capture aliasing of the arrays themselves. The objects in them (enemies, explosions, pickups) are class instances, as in the source.
- Game.Game.StepEnemies: states how the list grows, not what each enemy's turn does; that is stated by `TurnAll`, which it calls.
- Game.Game.TurnAll: states each enemy's new state except which stream draws redrew a slow enemy's target and decided its bullet; those positions depend on the turns before it, and `Turn` states them for one enemy.
- Game.Game.TurnNext: the same gap as `TurnAll`: the target of a slow enemy and the stream draw behind a bullet are stated by `Turn`, not carried through the loop.
- Game.Game.MovePhase: does not restate each enemy's turn; that is stated by `TurnAll` on the enemy loop it calls.
- Game.Game.ResolveBulletHits: states the totals (score, explosions, pickups, splits, surviving bullets, which enemies left), not which bullet hit which enemy.
- Game.Game.Draw: states the frame-wide invariants, not the whole new state. `ShipPhase`, `MovePhase`, `ContactPhase` and `ResolveBulletHits` state their own steps on the states between them, which `Draw` does not name.
- Game.Game.WorldAndGuard: states the kills, the score, the no-enemy case and the timer bound; the results of the loops and of the level guard are stated by `MovePhase`, `HitPhase` and `LevelGuard` on states it does not name.
- Game.Game.WorldPhase: states the kills, the score and the no-enemy case, not the loop results, which `MovePhase` and `HitPhase` state on the state between them.
- Game.Game.HitPhase: states the kills, the score, the explosions and the no-enemy case; the pickup collection and the hits on the ship are stated by `ContactPhase` on the state the bullet-enemy loop leaves.
