# Survivor: player movement, gun and collision bookkeeping in Dafny

A model of the simulation core of a small top-down survival game written
with pygame. The player walks with the W, A, S and D keys and slides along
walls: its hitbox is moved along x and pushed back out of every obstacle it
overlaps, then moved along y and pushed back again. After that the visual
rectangle is centred on the hitbox. The player's facing and animation
frame follow the direction of motion. A gun fires a volley of eight bullets
whenever a 500 ms cooldown has run out. A timer event spawns enemies at
positions read from the level. Bullets that hit an enemy destroy it and
disappear. The main loop ticks until a QUIT event clears `running`.

Files:

- `geometry.dfy`: module `Wrappers` holds the `Option` type. Module
  `Geometry` holds rectangles with pygame's FRect conventions and exact real
  coordinates (top-left corner, y grows downward, edges as assignable properties,
  `inflate`) and the `colliderect` overlap test. That test ignores
  zero-sized rectangles and requires strict overlap, so shared edges do not
  collide.
- `player.dfy`: module `PlayerModel`. It holds the key sampling, the
  displacement, the collision passes as specification functions (`Clamp`,
  `Resolve`, `MoveHitbox`) with their lemmas, and the facing and frame rules.
  It also holds class `Player`, whose methods update `hitbox`, `rect`,
  `direction`, `state`, `frameIndex` and `image` in place. `Collision` is a
  loop over the obstacle sequence.
- `game.dfy`: module `GameModel`. It holds the gun state machine, the volley,
  the Entities partition, enemy spawning, the bullet/enemy pass, and class
  `Game`. `Game` has the bookkeeping fields of the source's `Game` (the
  running flag, the gun fields, the spawn positions, the player and the
  bullet and enemy groups) and methods
  `GunTimer`, `GunShoot`, `Setup`, `ProcessEvents`, `BulletCollision`,
  `PlayerCollision`, `Tick` and `Run`.

Modelling choices:

- Coordinates and sizes are `real`, so they are exact. A direction is the
  integer sign pair `(int(right - left), int(down - up))`.
  `Vector2.normalize()` keeps these signs, and every later test of the
  direction (`> 0`, `< 0`, `!= 0`, truthiness) looks only at the sign. The
  step length `speed * dt` is computed exactly. The diagonal step
  `speed * dt / sqrt(2)` is the caller's input `diagonalStep`.
- `int(frame_index + dt * 5)` is modelled exactly, as truncation toward zero
  (`Trunc`). Python's `%` with a positive divisor agrees with Dafny's.
- The pixel-mask tests (`collide_mask`) are function parameters. `hits(i, j)`
  decides the i-th bullet of the group against the j-th enemy. It is keyed
  by place in the groups, so two sprites with equal data still get their
  own verdicts. `hitsPlayer` decides enemy against player.
  `random.choice` becomes the indices carried by an `EnemyTimer` event. The
  clock reading `pygame.time.get_ticks()` is the parameter `now`.
- `Enemy.destroy` belongs to a source file that is not part of this model.
  Here it marks the enemy's index in `destroyed`, and the enemy stays in the
  group.

Behaviours of the code worth knowing:

- Facing: `animate` tests the vertical component after the horizontal one,
  so any vertical motion decides the facing, even on a diagonal
  (`NextFacing`).
- Obstacle overlap: each collision pass visits each obstacle once, so a
  push-back from a later obstacle can leave the hitbox inside an earlier one
  (`HorizontalPassCanEndInOverlap`). With one obstacle the pass always ends
  clear of it (`ResolveClearsSingleObstacle`).
- Frame counter: `animate` truncates `frame_index + 5 * dt` to a whole
  number on every call, so the fraction is lost each frame. While moving at
  more than five frames per second (dt < 0.2 s), the counter never advances
  and the walk cycle shows its first frame only (`SlowFramesNeverAdvance`).
- Player death: the call to `player_collision` in the main loop is
  commented out, so `Tick` does not call it. `PlayerCollision` is modelled
  on its own.

## Model

| member | source | states |
|---|---|---|
| `PlayerModel.KeyDirection` | code/player.py:40-47 | each component is -1, 0 or 1; it is 0 exactly when both or neither of its keys are held, and 1 exactly when only the right/down key is held |
| `PlayerModel.Displacement` | code/player.py:49-56 | an axis without motion is not displaced; with positive step lengths each displacement component has the sign of the direction component |
| `PlayerModel.DisplacementHasStepLength` | code/player.py:49-53 | when the diagonal step is exactly speed*dt/sqrt(2), every non-zero direction moves by exactly speed*dt, so diagonal moves are no faster than axial ones |
| `PlayerModel.Clamp` | code/player.py:63-73 | against an overlapping obstacle: moving right sets hitbox.right = obstacle.left; moving left sets hitbox.left = obstacle.right; moving up sets top = bottom; moving down sets bottom = top; the hitbox then touches the obstacle without overlapping it and has moved against its motion; the other axis and the size are unchanged; a non-overlapping obstacle or an axis without motion changes nothing |
| `PlayerModel.Resolve` | code/player.py:61-73 | a whole pass changes only x (horizontal) or only y (vertical), never the size, and is a no-op when its axis has no motion |
| `PlayerModel.ResolveLeavesClearHitbox` | code/player.py:62-63 | a hitbox overlapping no obstacle is left where it is, so re-running a pass that ended clear moves nothing |
| `PlayerModel.ResolveNeverAdvances` | code/player.py:64-73 | a pass never moves the hitbox further in the direction of motion, only back against it |
| `PlayerModel.ResolveClearsSingleObstacle` | code/player.py:62-73 | against a single obstacle, a pass along a moving axis always ends clear of it |
| `PlayerModel.HorizontalPassCanEndInOverlap` | code/player.py:62-68 | a concrete two-obstacle case in which a horizontal pass ends overlapping an obstacle the hitbox did not overlap before |
| `PlayerModel.MoveHitbox` | code/player.py:53-57 | the hitbox keeps its size; an axis without motion is displaced by exactly its step |
| `PlayerModel.WallStopsRightwardMove` | code/player.py:53-57 | moving right towards a wall, without passing through it in one step, leaves the hitbox's right edge at or before the wall's left edge and its height unchanged |
| `PlayerModel.NextFacing` | code/player.py:76-85 | any vertical motion sets the facing to down or up whatever x is; horizontal motion alone sets right or left; no motion keeps the facing |
| `PlayerModel.Trunc` | code/player.py:89 | `int(v)` truncates toward zero: the result is the whole part of v, from below for v >= 0 and from above for v < 0 |
| `PlayerModel.NextFrameIndex` | code/player.py:88-91 | idle resets the counter to 0; while moving it does not decrease and is the whole part of frame_index + 5*dt |
| `PlayerModel.SlowFramesNeverAdvance` | code/player.py:88-89 | while moving with 5*dt < 1 (frames shorter than 0.2 s) the counter stays where it is, because the fraction is dropped on every call |
| `PlayerModel.SelectFrame` | code/player.py:93 | no frame exactly when the facing has no frames (the zero-divisor case); otherwise a frame of the current facing, namely the one at the counter when the counter is in range |
| `PlayerModel.SelectFrameCycles` | code/player.py:93 | the selected frame repeats with the length of the frame list |
| `PlayerModel.InitialFrames` | code/player.py:7-12 | the frame table has an entry for each of the four facings: four frames for 'left' and none for 'right', 'up' and 'down' |
| `PlayerModel.InitialFramesCannotAnimate` | code/player.py:7-16 | with the frame table the constructor builds, only the 'left' facing has a frame, so the starting facing 'down' cannot be drawn |
| `PlayerModel.LoadedFramesAlwaysAnimate` | code/player.py:25-34 | once every facing has loaded frames, a frame is found for every facing and counter |
| `PlayerModel.Player.constructor` | code/player.py:4-23 | the visual rectangle is centred on the spawn position; the hitbox shares its centre and is 60 narrower and 90 shorter; the player starts still, facing down, at frame 0 |
| `PlayerModel.Player.Collision` | code/player.py:61-73 | the loop over the obstacles leaves the hitbox equal to `Resolve` of the old hitbox |
| `PlayerModel.Player.Move` | code/player.py:36-59 | the direction is sampled from the keys; the hitbox is moved and resolved horizontally, then vertically; afterwards rect.center == hitbox.center and the visual size is unchanged |
| `PlayerModel.Player.Animate` | code/player.py:75-93 | the facing and counter follow `NextFacing` and `NextFrameIndex`, and the shown image is the frame `SelectFrame` picks for them |
| `PlayerModel.Player.Update` | code/player.py:95-97 | move and then animate, with the effects of both |
| `GameModel.CooldownStep` | code/main.py:73-77 | the gun is armed afterwards exactly when it was armed before or the cooldown of 500 ms has passed since the last shot; it is never disarmed and the shot time never changes |
| `GameModel.ShootStep` | code/main.py:59-71 | it fires exactly when armed; firing disarms the gun and records the shot time; a disarmed gun is unchanged |
| `GameModel.GunTick` | code/main.py:124-125 | since the timer runs before the shot, a tick fires exactly when the gun was armed or the cooldown has elapsed; the gun is disarmed afterwards; firing records `now` as the shot time, and a tick that does not fire leaves the gun unchanged |
| `GameModel.GunAfter` | code/main.py:124-125 | after at least one tick the gun is disarmed |
| `GameModel.Volleys` | code/main.py:59-77 | the ticks at which the gun fires: at most one volley per tick, each at one of the ticks' clock readings; without a volley the gun ends as it started, otherwise its shot time is the last volley's time |
| `GameModel.VolleysAreSpaced` | code/main.py:59-77 | over any sequence of ticks, successive volleys are at least 500 ms apart, and a disarmed gun's first volley comes at least 500 ms after its last shot |
| `GameModel.FirstTickFires` | code/main.py:25-26 | a new game, armed at time 0, fires in its first tick |
| `GameModel.VolleyDirections` | code/main.py:62-65 | eight pairwise distinct directions, exactly the non-zero pairs with components in {-1, 0, 1}, each a 45-degree turn from the one before |
| `GameModel.Volley` | code/main.py:66-68 | one bullet per volley direction, in order, all starting at the given centre |
| `GameModel.NonPlayerPositions` | code/main.py:91-95 | at most one position per object, and every position is that of an object not named 'Player' |
| `GameModel.NonPlayerPositionsAppend` | code/main.py:91-95 | the partition distributes over concatenation, so positions are appended in layer order |
| `GameModel.NonPlayerCount` | code/main.py:91-95 | the number of appended positions equals the number of objects not named 'Player' |
| `GameModel.LastPlayerPosition` | code/main.py:91-93 | there is no player position exactly when no object is named 'Player'; otherwise it is the position of an object named 'Player' after which no object is named 'Player', so the last one wins |
| `GameModel.LastPlayerIndex` | code/main.py:91-93 | none exactly when no object is named 'Player'; otherwise the index of an object named 'Player' with no such object after it |
| `GameModel.TimerCountCountsTimerEvents` | code/main.py:117-121 | `TimerCount(events)`, the length `Spawned` is given, is the number of positions in the event queue that hold an enemy timer event |
| `GameModel.Spawned` | code/main.py:120-121 | exactly one enemy per enemy timer event; each timer event's enemy stands on the spawn position and has the kind that event picked; every spawned enemy stands on a spawn position and has a registered kind |
| `GameModel.SpawnedInTimerOrder` | code/main.py:117-121 | the enemy of a timer event sits at the index equal to the number of timer events before it, so the k-th enemy spawned is the one the k-th timer event picked |
| `GameModel.Survivors` | code/main.py:97-105 | no more bullets are kept than the group had, and each kept bullet is one of the group |
| `GameModel.SurvivorsCount` | code/main.py:97-105 | the number of bullets kept is the number of bullet indices that hit no enemy |
| `GameModel.SurvivorsKeepMisses` | code/main.py:97-105 | the i-th bullet, when it hits no enemy, is kept at the place right after the earlier bullets that hit nothing; with `SurvivorsCount`, the kept bullets are exactly those that hit nothing, in group order |
| `GameModel.HitEnemies` | code/main.py:99-104 | the destroyed indices are enemy indices, and every enemy some bullet hits is among them |
| `GameModel.OnlyHitEnemiesDestroyed` | code/main.py:99-104 | an enemy is destroyed only when some bullet hits it |
| `GameModel.HitEnemiesSnoc` | code/main.py:99-104 | handling one more bullet adds exactly the enemies that bullet hits |
| `GameModel.LookAlikesGetOwnVerdicts` | code/main.py:99-104 | with a mask test that matches only bullet 0 against enemy 0, only enemy 0 of two equal enemies is destroyed, and only the second of two equal bullets is kept |
| `GameModel.TouchesPlayer` | code/main.py:108 | the enemy group touches the player exactly when one of its enemies passes the player mask test |
| `GameModel.Game.constructor` | code/main.py:10-44 | the game starts running and armed with shot time 0, with empty bullet and enemy groups, and is set up from the level's entity objects |
| `GameModel.Game.Setup` | code/main.py:79-95 | the spawn positions grow by exactly the non-player positions, in order; a fresh player is centred on the last 'Player' object, or the player is unchanged when there is none |
| `GameModel.Game.GunTimer` | code/main.py:73-77 | the gun fields become `CooldownStep` of the old ones |
| `GameModel.Game.GunShoot` | code/main.py:59-71 | the gun fields become `ShootStep` of the old ones; an armed gun appends the eight-bullet volley from the player's centre, and a disarmed one appends nothing |
| `GameModel.Game.ProcessEvents` | code/main.py:117-121 | `running` is cleared exactly when a QUIT event is queued and never set; the enemy group grows by `Spawned`, one enemy per timer event, in event order |
| `GameModel.Game.BulletCollision` | code/main.py:97-105 | the bullet group becomes `Survivors` of the old one; the destroyed enemies grow by exactly those that some bullet hits |
| `GameModel.Game.PlayerCollision` | code/main.py:107-109 | `running` is cleared exactly when some enemy touches the player, and never set |
| `GameModel.Game.Tick` | code/main.py:111-128 | events, then gun timer, then gun, then the player's update, then bullet collision, with the combined effect of each: the gun becomes `GunTick` of the old gun; the volley starts from the player's centre before the move; the player is moved, keeps its size, turns and advances its frame counter as `NextFacing` and `NextFrameIndex` say, and shows the frame `SelectFrame` picks |
| `GameModel.QuitWithinMeansSomeTickQuit` | code/main.py:112-119 | `QuitWithin(inputs, n)` holds exactly when one of the first n ticks carried a QUIT event |
| `GameModel.QuitWithinGrows` | code/main.py:112-119 | once a QUIT has been seen among the first ticks, it stays seen over any longer prefix |
| `GameModel.StopTickIsFirstQuit` | code/main.py:112-119 | two tick counts that each end on a QUIT with no QUIT before them are equal: the loop's stopping tick is that of the first QUIT |
| `GameModel.Game.Run` | code/main.py:111-128 | ticks while `running` holds; `running` ends true exactly when it started true and no processed tick had a QUIT; a stop before the inputs end means `running` is false, and the last tick run carried the QUIT; no tick before the last one carried a QUIT, so the loop stops right after the first QUIT (with `StopTickIsFirstQuit`, the tick count is determined); the spawn positions are unchanged; the gun ends as `GunAfter` of the processed ticks' clock readings, so unchanged without a volley and otherwise disarmed with the last `Volleys` time as shot time; the enemy group grows by the enemies of the processed ticks in tick order; destroyed marks are only added |

## Findings

| source | as written | input that shows it | evidently intended | confidence | as-written member | corrected member |
|---|---|---|---|---|---|---|
| code/player.py:7-16 | the constructor fills `frames` with four image paths for 'left' and empty lists for 'right', 'up' and 'down', and never calls `load_images`; `animate` then divides by `len(frames[state])` | a first `update` with no key held: the state stays 'down', `frames['down']` is empty, and `frame_index % 0` raises ZeroDivisionError | the constructor calls `load_images`, so every facing has at least one frame and `animate` always shows one (`LoadedFramesAlwaysAnimate`) | high, not executed | `PlayerModel.InitialFramesCannotAnimate` | `PlayerModel.Player.constructor` |

## Left out

- Window, display, frame clock, drawing and `pygame.quit`: these are I/O. The camera is in `groups.py`, which is not part of this model.
- Audio: loading and playing the shoot and impact sounds and the music.
- Asset loading: image files, directory walks and the TMX map. The ground tiles are render-only. The obstacle rectangles and the Entities objects are inputs to the `Game` constructor.
- Floating-point arithmetic: positions are exact reals. The square root in the player's `normalize()` is replaced by the caller's `diagonalStep`.
- `GameModel.Volley`: the normalisation of each bullet direction (code/main.py:67) is dropped. `Bullet.dir` is the unnormalised integer pair, since bullet motion belongs to a source file outside this model.
- Pixel masks, `random.choice` and the OS timer behind the enemy event are inputs, as described above.
- `Bullet`, `Enemy` and `AllSprites` live in `sprites.py` and `groups.py`, which are not part of this model. So bullet and enemy movement, bullet lifetime, enemy homing and the eventual removal of destroyed enemies are not modelled. Neither is membership of the drawing group `all_sprites`.
- `GameModel.Game.BulletCollision`: `hits` gives one verdict per bullet and enemy for the whole pass. If `destroy` changed an enemy's mask during the pass, later bullets of the same pass could see a different result.
- `GameModel.Game.Tick`: of `all_sprites.update(dt)`, only the player's update is modelled. Both `get_ticks()` readings of one tick are the single value `now`.
- `PlayerModel.Player.constructor`: requires the player image to be at least 60 by 90. pygame would give a smaller image a hitbox with a negative size, which this model's sizes cannot represent.
- `GameModel.Game.GunShoot`, `GameModel.Game.Tick` and `GameModel.Game.Run` require a player. Without an object named 'Player' in the level, `self.player` is never assigned, and the first tick raises AttributeError: at code/main.py:121 if an enemy timer event is queued, otherwise at code/main.py:68 in the volley of the armed gun. That crash is not modelled.
- `GameModel.Game.Run`: the bullet group, the destroyed marks and the player's hitbox, rect, state, frame counter and image are specified one tick at a time only, by `Tick`. Over the whole run, `Run` says only that destroyed marks are added, never removed.
- `GameModel.Game.Run`: the source loop has no bound. The model runs over a finite sequence of tick inputs and stops when they run out.
