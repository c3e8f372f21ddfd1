# A verified model of the platformer's game loop

This project models the game core of `mini-app/components/game.tsx`: a small
side-scrolling platformer. A player sprite falls under gravity and can jump.
Enemies and power-ups scroll in from the right, the player fires fireballs,
and a flag pole marks the end of the level. The model covers one tick of the
update (gravity, scrolling, the three collision filters, the flag latch and
the two spawn timers), the keyboard handler, and the two spawners.

Layout:

- `geometry.dfy` (module `Geometry`): the constants, the `Sprite` record and the strict overlap test `RectIntersect`.
- `motion.dfy` (module `Motion`): gravity with the ground clamp, and scrolling.
- `collisions.dfy` (module `Collisions`): the enemy, power-up and fireball filters as functions on values.
  Each one threads the player, or the enemy list, through the elements in order.
- `subsequences.dfy` (module `Subsequences`): the "survivors keep their order" relation.
- `world.dfy` (module `World`): the game state as a value `State`, the key handler `KeyDown`, one tick `Tick`, and runs of events `Run`.
  It also holds the invariant of every reachable state.
- `game.dfy` (module `Platformer`): the class `Game`, with the component's mutable state as fields.
  Its methods update the fields in the order `game.tsx` does: in-place `x += vx` loops, and filter loops that change the player mid-iteration.
  Each method is proved equal to the value-level model.

Inputs from the host are parameters. `dt` is the elapsed time given to the update.
Each `Math.random()` draw is a parameter `r` with `0 <= r < 1`. The `alert` becomes the `levelComplete` result of `Update`.

A consequence of the code as written is proved in `World.ReachableRunsNeverComplete`.
The player's `x` is 50 at the start and is only ever set back to 50. The player is 30 wide, and the flag pole never moves from `x = 2000`.
So from the initial state, no sequence of key presses and frames ever raises the level-complete signal.
The latch itself is still modelled and proved one-shot for arbitrary states (`World.SignalsAtMostOnce`).

Two details of `game.tsx` that the model keeps as they are:

- The enemy filter tests each enemy against the player as the earlier enemies left it (game.tsx:127-137): a stomp or a side hit changes the player before the next enemy is tested. `Collisions.EnemyPass` threads the player in the same way. No claim is made about whether this changes the outcome for the enemies the game actually spawns, which all sit at ground level.
- One fireball removes every enemy it overlaps, not just the first (game.tsx:157-163).

## Model

| member | source | states |
|---|---|---|
| Geometry.RectIntersect | mini-app/components/game.tsx:209-216 | defines the overlap test: on both axes each box starts strictly before the other ends; its properties are the three lemmas below |
| Geometry.RectIntersectSymmetric | mini-app/components/game.tsx:209-216 | the overlap test is symmetric in its two sprites |
| Geometry.TouchingEdgesDoNotIntersect | mini-app/components/game.tsx:209-216 | boxes that only share an edge (right edge = other's left edge, or bottom = other's top) do not intersect, in either order |
| Geometry.RectIntersectIffCommonPoint | mini-app/components/game.tsx:209-216 | for boxes of positive size, the test holds exactly when the two open boxes have a common point |
| Motion.Fall | mini-app/components/game.tsx:112-117 | after gravity the player is never below the ground, only y and vy change, and y is either the ground or the integrated position |
| Motion.FallLandsOnGround | mini-app/components/game.tsx:114-117 | when gravity overshoots the ground the player ends exactly on it with vy = 0 |
| Motion.FallInAir | mini-app/components/game.tsx:112-113 | otherwise vy grows by 0.6 and y moves by the new vy |
| Motion.Scroll | mini-app/components/game.tsx:120-122 | defines the per-sprite step `x += vx`, with no dt |
| Motion.ScrollAll | mini-app/components/game.tsx:120-122 | every sprite moves by its own vx once per tick, whatever dt is; none is added, dropped or reordered |
| Collisions.ClassifyEnemy | mini-app/components/game.tsx:126-139 | defines how one enemy meets the player as it is at that moment: off the left edge, stomp (bottom above enemy top + 10), side hit, or no contact |
| Collisions.MeetEnemy | mini-app/components/game.tsx:130-137 | defines the player after one contact: a stomp sets vy = jumpStrength / 2, a side hit resets to x = 50, y = ground, vy = 0 |
| Collisions.EnemyPass | mini-app/components/game.tsx:125-141 | defines the enemy filter in order, threading the player through the contacts; its properties are the EnemyPass lemmas below |
| Collisions.EnemyPassKeepsOrder | mini-app/components/game.tsx:125-141 | the surviving enemies are a subsequence of the scrolled enemies |
| Collisions.EnemyPassCulls | mini-app/components/game.tsx:126 | no enemy with x + width < 0 survives the enemy pass |
| Collisions.EnemyPassMovesPlayer | mini-app/components/game.tsx:128-138 | the enemy pass keeps the player's size and vx, and leaves x either unchanged or 50 and y either unchanged or on the ground |
| Collisions.EnemyPassMissed | mini-app/components/game.tsx:125-141 | an on-screen enemy that does not overlap the current player is kept and changes nothing |
| Collisions.EnemyPassOffLeft | mini-app/components/game.tsx:126 | an enemy with x + width < 0 is dropped before any overlap test and leaves the player unchanged |
| Collisions.EnemyPassStomp | mini-app/components/game.tsx:127-131 | an overlap with the player's bottom above the enemy's top + 10 removes the enemy and sets vy to -6 (jumpStrength / 2) |
| Collisions.EnemyPassSideHit | mini-app/components/game.tsx:132-140 | any other overlap keeps the enemy and resets the player to x = 50, y = ground, vy = 0, as seen by later enemies |
| Collisions.PowerUpPass | mini-app/components/game.tsx:143-152 | defines the power-up filter in order, threading the player; PowerUpPassIsOrderFree characterises it |
| Collisions.UncollectedIsFilter | mini-app/components/game.tsx:143-152 | the reference filter's result is a subsequence of the power-ups, and a power-up is in it iff it is on screen and does not overlap the player |
| Collisions.PowerUpPassIsOrderFree | mini-app/components/game.tsx:143-152 | the power-up pass keeps exactly the reference filter's result; the player gets vy = -18 (jumpStrength * 1.5) iff some on-screen power-up overlapped, and is otherwise unchanged |
| Collisions.HitsAny | mini-app/components/game.tsx:156-161 | defines the `hit` flag, accumulated left to right over the enemies |
| Collisions.Unhit | mini-app/components/game.tsx:157-163 | defines the inner enemy filter for one fireball |
| Collisions.FireballPass | mini-app/components/game.tsx:154-165 | defines the fireball filter, reassigning the enemy list once per on-screen fireball |
| Collisions.HitsAnyIffSomeOverlap | mini-app/components/game.tsx:156-161 | the `hit` flag ends true exactly when the fireball overlaps some enemy of the list |
| Collisions.UnhitRemovesTouched | mini-app/components/game.tsx:157-163 | the inner filter's result is a subsequence of the enemies; an enemy is in it iff it is in the list and the fireball misses it; at least one is removed when the fireball touches any, and the list is intact otherwise |
| Collisions.FireballPassShrinks | mini-app/components/game.tsx:154-165 | the surviving enemies are a subsequence of the incoming ones (so never more); the surviving fireballs are a subsequence of the input and none is past the right edge |
| Collisions.FireballPassClearsTargets | mini-app/components/game.tsx:154-165 | every fireball still on screen, whether it survived or not, overlaps no enemy that survives the pass |
| Collisions.FireballPassSparesUntouched | mini-app/components/game.tsx:157-163 | an incoming enemy that no on-screen fireball touches survives the pass |
| Collisions.FireballPassKeepsMisses | mini-app/components/game.tsx:155-164 | an on-screen fireball that touches none of the incoming enemies survives the pass |
| Collisions.FireballPassDropsHitters | mini-app/components/game.tsx:156-164 | an on-screen fireball that hits an enemy no other on-screen fireball reaches is removed from the fireballs |
| Collisions.FireballPassNoOverlap | mini-app/components/game.tsx:154-165 | after the fireball pass no surviving fireball overlaps any surviving enemy |
| World.NewEnemy | mini-app/components/game.tsx:59-70 | a spawned enemy has x in [800, 1100), y = ground, size 30x30, vx = -2, vy = 0 |
| World.NewPowerUp | mini-app/components/game.tsx:72-83 | a spawned power-up has x in [800, 1100), y = ground - 60, size 20x20, vx = -2, vy = 0 |
| World.Accumulate | mini-app/components/game.tsx:174-183 | a spawn timer stays at or below its threshold, fires iff the accumulated time exceeds the threshold, and resets to 0 exactly then |
| World.FlagLatch | mini-app/components/game.tsx:167-171 | the latch signals only when not yet reached and the player overlaps the flag pole; reached afterwards iff reached before or signalled |
| World.IsJumpKey | mini-app/components/game.tsx:87 | defines the jump keys: exactly the codes "Space" and "ArrowUp" |
| World.FireballFrom | mini-app/components/game.tsx:94-103 | defines the fireball fired from the player's right edge at mid height, 20x20, vx = 5 |
| World.KeyDown | mini-app/components/game.tsx:85-105 | a key press changes only the player and the fireballs; enemies, power-ups, timers and the latch are untouched |
| World.JumpOnlyFromGround | mini-app/components/game.tsx:87-91 | Space or ArrowUp sets vy = -12 when y >= ground and otherwise changes nothing (no mid-air jump) |
| World.FireAppendsOneFireball | mini-app/components/game.tsx:92-104 | KeyF appends exactly one 20x20 fireball at (x + width, y + height/2) with vx = 5 and changes nothing else |
| World.OtherKeysIgnored | mini-app/components/game.tsx:85-105 | any other key code leaves the state unchanged |
| World.Advance | mini-app/components/game.tsx:110-165 | defines gravity, scrolling and the three collision passes, in order |
| World.Tick | mini-app/components/game.tsx:109-184 | defines one update: Advance, then the flag latch, then the two spawn timers with their spawns |
| World.Run | mini-app/components/game.tsx:85-184 | defines a run of key-down events and frames, counting level-complete signals |
| World.TickKeepsPlayerAboveGround | mini-app/components/game.tsx:109-184 | after any tick, from any state, player.y <= ground |
| World.TickTimers | mini-app/components/game.tsx:173-183 | after any tick enemyTimer <= 2000 and powerUpTimer <= 3000, each reset to 0 exactly when it exceeded its threshold |
| World.TickSpawnsAtMostOne | mini-app/components/game.tsx:173-183 | a tick adds at most one enemy and one power-up and never adds a fireball |
| World.TickCulls | mini-app/components/game.tsx:124-183 | after a tick no enemy or power-up is fully past the left edge and no fireball is past the right edge |
| World.InitialInvariant | mini-app/components/game.tsx:28-57 | the initial state satisfies the reachable-state invariant |
| World.KeyDownPreservesInvariant | mini-app/components/game.tsx:85-105 | key presses preserve the invariant |
| World.TickPreservesInvariant | mini-app/components/game.tsx:109-184 | ticks preserve the invariant (player on or above ground at x = 50, static flag pole, bounded timers, everything on screen), and from such a state a tick never signals completion |
| World.SignalsAtMostOnce | mini-app/components/game.tsx:167-171 | over any run of key presses and frames the level-complete signal fires at most once, and never once the flag was reached |
| World.ReachableRunsNeverComplete | mini-app/components/game.tsx:28-46 | from any state satisfying the invariant (the initial state among them) no run ever signals level completion |
| Platformer.Game.constructor | mini-app/components/game.tsx:28-57 | the component starts with the player at (50, ground) at rest, no sprites, timers at 0 and the latch open |
| Platformer.Game.SpawnEnemy | mini-app/components/game.tsx:59-70 | appends exactly one freshly spawned enemy |
| Platformer.Game.SpawnPowerUp | mini-app/components/game.tsx:72-83 | appends exactly one freshly spawned power-up |
| Platformer.Game.HandleKeyDown | mini-app/components/game.tsx:85-105 | the new state is KeyDown of the old one, and the invariant is preserved |
| Platformer.Game.ApplyGravity | mini-app/components/game.tsx:110-117 | the in-place gravity step computes Fall of the old player |
| Platformer.Game.ScrollEach | mini-app/components/game.tsx:120-122 | the in-place forEach loop computes ScrollAll |
| Platformer.Game.CollideEnemies | mini-app/components/game.tsx:125-141 | the filter loop, mutating the player mid-iteration, yields EnemyPass of the old player and enemies |
| Platformer.Game.CollectPowerUps | mini-app/components/game.tsx:143-152 | the filter loop yields PowerUpPass of the old player and power-ups |
| Platformer.Game.Unscathed | mini-app/components/game.tsx:156-163 | the inner loop with its hit flag yields Unhit and whether the fireball touched any enemy |
| Platformer.Game.ResolveFireballs | mini-app/components/game.tsx:154-165 | the nested filter loops, reassigning the enemy list per fireball, yield FireballPass |
| Platformer.Game.Advance | mini-app/components/game.tsx:110-165 | gravity, the three in-place scroll loops and the three filters, run in order, compute World.Advance of the old state |
| Platformer.Game.RunSpawnTimers | mini-app/components/game.tsx:173-183 | each timer accumulates dt; past its threshold it spawns exactly one sprite and resets to 0, otherwise nothing is spawned |
| Platformer.Game.CheckFlag | mini-app/components/game.tsx:167-171 | the latch update and the returned signal agree with FlagLatch |
| Platformer.Game.Update | mini-app/components/game.tsx:109-184 | one update equals Tick of the old state; afterwards the player is on or above ground, the timers are bounded, nothing off screen remains, and a game in a reachable state stays in one without signalling |

## Left out

- Drawing (`draw`, `drawSprite`, fonts, glyphs, the canvas element): rendering has no state to verify.
- The animation-frame loop, the listener registration and the component lifecycle are host scheduling. `dt` is a parameter of `Update`, and each key event is a call of `HandleKeyDown` or an event of `World.Run`.
- `alert("Level Complete!")` is I/O. It is the boolean result of `Update`.
- `Math.random()` is a foreign nondeterministic call. It is a parameter in `[0, 1)`.
- IEEE-754 double arithmetic: positions and velocities are exact `real`s, so 0.6, -12 * 1.5 and -12 / 2 are exact and rounding is not modelled.
- The sprites' `emoji` and their `isEnemy` / `isPowerUp` / `isFireball` tags are never read by the modelled code. `Sprite` leaves them out.
- The flag pole has no velocity in `game.tsx`; the model gives it `vx = vy = 0`. Nothing reads them.
- Sprites are values in sequences, not shared objects. This is safe because every sprite in `game.tsx` is created fresh and held by exactly one array.
- The score, game-over and restart features of a second copy of the component are not part of this model.
