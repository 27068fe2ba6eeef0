# Twini Xmas: the per-frame simulation, in Dafny

This project models the simulation core of the Twini Xmas canvas platformer. The player collects falling gifts and avoids falling gremlins. A boss descends for the last fifteen seconds of a timed session, and the player can stomp it.

The model covers:

- the rectangle overlap test (`src/game/utils.ts`);
- the player's input handling, gravity integration, arena clamps, one-way platform landing and fall-death check (`src/game/player.ts`);
- the boss's dormant, intro and patrol behaviour and its stomp-or-kill contact test (`src/game/boss.ts`);
- particle bursts and score pops, with their frame-counted lifetimes (`src/game/particles.ts`);
- the session in `src/game/engine.ts`:
  - the boot, intro, play and end states;
  - `startGame` and `endGame`;
  - the bodies of the countdown, gift-spawner and gremlin-spawner intervals;
  - the per-frame `update`, with its `onHit` and `onPlayerKilled` callbacks;
  - gift pickup and gremlin contact;
  - the anecdote counter and the ranked five-entry leaderboard.

Layout, one module per source file:

| file | module | source |
|---|---|---|
| `constants.dfy` | `Constants` | the arena size, physics constants and platform list of `src/game/constants.ts` |
| `geometry.dfy` | `Geometry` | `rectsOverlap` |
| `seqs.dfy` | `Seqs` | array `map` and `filter`, as functions on sequences |
| `player.dfy` | `Players` | the player |
| `boss.dfy` | `Bosses` | the boss |
| `particles.dfy` | `Particles` | the particles |
| `engine_rules.dfy` | `EngineRules` | the pure rules of the engine: the leaderboard order, the anecdote count, falling gifts and gremlins, and the arithmetic of a stomp |
| `engine.dfy` | `Engine` | the session |

Each object that the source updates in place is a Dafny class with the same fields: `Player`, `Flags`, `Boss`, `ParticlesState` and `Game`. Each class has a function giving its state as a value: `State()` on the entities, `Model()` on the game. Each method is proved to change that state exactly as a pure function of the old state says:

- `Steer` and `Step` for the player;
- `Started`, `Spawned` and `Advance` for the boss;
- `Booted`, `Begin`, `Ended`, `Countdown` and `Frame` for the session.

The properties the game relies on are lemmas about those functions. Among them:

- the leaderboard stays ranked and capped;
- every gift is either caught, kept or lost;
- a boss is worth 45 points;
- the countdown runs out;
- every frame keeps the session invariant.

Some behaviours of the code are easy to misread as bugs or to assume away. The model keeps each of them as the code has it:

- **A defeated boss respawns.** Defeat is not terminal. The killing stomp only sets `active = false`. On the next play frame, `maybeSpawnBoss` restarts the intro at full hp, because the time left is still at most 15 (`Bosses.DefeatedBossRespawns`). So the 30-point bonus is paid once per boss instance, not once per session (`EngineRules.StompsOnOneBoss`).
- **The countdown never shows 0.** The code ends the session when the countdown fires with at most one unit left, so the clock stops at 1 (`Engine.CountdownRuns`, `Engine.TimeOutWithoutPoints`).
- **The boss moves last.** A play frame runs the boss spawn check, then the player, then the gifts, then the gremlins, then the boss's own update, and only then the death check (`Engine.PlayStep`).
- **Slow motion is narrow.** It scales only the player's frame time. The slow-motion timer counts down in every state, not only in play (`Engine.PlayFrameEffect`, `Engine.IdleFrames`).
- **Gremlins are never removed.** They only fall (`Engine.PlayStepEffect`).
- **The stored leaderboard is taken as it is.** `loadLeaderboard` neither sorts nor caps what it reads, and takes the first entry's score as the best score. A stored value that is missing or not an array leaves the board and the best score unchanged rather than emptying them (`Engine.BootedEffect`). The next insert still yields a ranked board of at most five entries (`EngineRules.LeaderboardInsert`).
- **The boss is replaced, not reset.** `resetEntities` builds a new boss and a new particle state with `createBoss` and `createParticlesState`, while the player is reset in place. Nothing else holds the old objects, so the model re-initialises them in place (`Bosses.Boss.Recreate`, `Particles.ParticlesState.Clear`).

## Model

| member | source | states |
|---|---|---|
| Geometry.IntervalsMeetIff | src/game/utils.ts:9 | two open intervals share a point iff each starts before the other ends (both intervals non-empty) |
| Geometry.OverlapIffIntervalsMeet | src/game/utils.ts:9 | for positive sizes, overlap holds iff the open x-intervals meet and the open y-intervals meet |
| Geometry.OverlapIffCommonInteriorPoint | src/game/utils.ts:1-10 | for positive sizes, overlap holds iff some point lies strictly inside both rectangles |
| Geometry.OverlapSymmetric | src/game/utils.ts:9 | swapping the two rectangles, with their sizes, gives the same answer |
| Geometry.EdgeContactIsNotOverlap | src/game/utils.ts:9 | rectangles that only share an edge do not overlap |
| Geometry.SeparatedIsNotOverlap | src/game/utils.ts:9 | a rectangle wholly left of or wholly above the other does not overlap it |
| Geometry.OverlapReflexive | src/game/utils.ts:9 | a rectangle of positive size overlaps itself |
| Geometry.OverlapTranslationInvariant | src/game/utils.ts:9 | moving both rectangles by the same offset does not change the answer |
| Seqs.FilterOfMap | src/game/particles.ts:64-79 | mapping then filtering equals filtering by the pulled-back test then mapping: survivors keep their order |
| Players.SteerVelocity | src/game/player.ts:69-74 | after input, vx is one of -4.4, 0 and 4.4; it is +4.4 iff only right is held, -4.4 iff only left is held, and 0 when both are held |
| Players.SteerFacing | src/game/player.ts:76 | facing changes only to a non-zero move, any non-zero move sets it, and it stays +1 or -1 |
| Players.SteerJump | src/game/player.ts:78-83 | a jump fires iff jump is held on the ground, setting vy to -13 and clearing onGround; otherwise vy and onGround stay; input never moves the player |
| Players.SteerKeepsValid | src/game/player.ts:68-84 | input keeps the player's size, its ±1 facing and its position inside the arena |
| Players.LandAllEffect | src/game/player.ts:108-118 | the platform loop keeps x, size, vx and facing; it never moves the player down; it lands the player on the top of a platform it crossed, or changes nothing; any crossing leaves onGround set |
| Players.StepStaysInArena | src/game/player.ts:97-99 | after an update the player lies inside the arena horizontally, and vx and the size are unchanged |
| Players.StepKeepsValid | src/game/player.ts:86-126 | an update keeps a valid player valid |
| Players.StepLanding | src/game/player.ts:92-118 | after an update, onGround holds iff the clamped player crossed some platform top within the inset; landing leaves vy 0 with the bottom on that top; without a landing the player is exactly as integrated and clamped |
| Players.PlatformsBelowTop | src/game/constants.ts:8-27 | no platform top lies above y = 180 |
| Players.StepCeiling | src/game/player.ts:101-105 | rising through the ceiling leaves y 0, clears an upward vy, and lands nothing |
| Players.StepSemiImplicit | src/game/player.ts:92-95 | in free flight, vy grows by G·dt first and the position then moves by the new velocity, so y gains G·dt² on top of vy·dt |
| Players.CollisionIsCommonInteriorPoint | src/game/player.ts:171-180 | for boxes of positive size, the player collides with an object iff their boxes share an interior point; gift pickup and gremlin contact (`EngineRules.Touches`) are this test |
| Players.Flags.constructor | src/game/engine.ts:129 | the death flag starts lowered |
| Players.Player.constructor | src/game/player.ts:46-57 | `createPlayer`: the start state (260, 780), size 28 × 36, at rest, facing right |
| Players.Player.Reset | src/game/player.ts:59-66 | every field but the size returns to the start state, and the player stays valid |
| Players.Player.HandleInput | src/game/player.ts:68-84 | the new state is `Steer` of the old one (see the three `Steer` lemmas), and the player stays valid |
| Players.Player.LandOnPlatforms | src/game/player.ts:107-118 | the loop leaves the player as `LandAll` over the platforms in list order |
| Players.Player.Update | src/game/player.ts:86-126 | the new state is `Step` of the old; the death flag is raised iff the player fell past 940 (876 on mobile) and is never cleared |
| Bosses.FreshIsDormant | src/game/boss.ts:39-54 | `createBoss` gives an inactive boss, not in intro, with hp 3 |
| Bosses.StartedShape | src/game/boss.ts:56-66 | the intro start: active and in intro for 90 frames, hp 3, y = -120, horizontally centred, vx 2.4, size kept |
| Bosses.SpawnGate | src/game/boss.ts:68-72 | the intro starts iff the boss is neither active nor in intro and at most 15 units are left; otherwise nothing changes |
| Bosses.DefeatedBossRespawns | src/game/boss.ts:69 | a defeated boss restarts its intro at full hp on the next spawn check while time left is at most 15 |
| Bosses.IntroStep | src/game/boss.ts:82-94 | during the intro a call counts the timer down by one and fires no callback; a continuing intro descends by 2.2·dt with the shake at 6 |
| Bosses.IntroEnd | src/game/boss.ts:87-91 | the intro ends iff y reaches 260 or the timer runs out; the boss then rests at y = 260, stays active, and the shake is 0 |
| Bosses.DormantIdle | src/game/boss.ts:96 | a dormant boss is left unchanged and fires nothing |
| Bosses.PatrolBounce | src/game/boss.ts:100-104 | in patrol x moves by vx·dt and vx is negated iff the moved boss is past a 20-unit wall margin; its speed never changes |
| Bosses.PatrolBob | src/game/boss.ts:98-99 | with a sine in [-1, 1], a patrolling boss stays within 60 units of y = 260 |
| Bosses.ContactClassification | src/game/boss.ts:106-127 | the boss's update never changes hp; a callback fires only in patrol and only on overlap; it is `onHit` iff the player moves down with its bottom at most 16 below the boss top, and `onPlayerKilled` otherwise |
| Bosses.AdvanceKeepsValid | src/game/boss.ts:74-128 | the boss's update keeps hp within 0..3, positive while active, and the intro timer within 1..90 on an active boss |
| Bosses.IntroEndsWithin | src/game/boss.ts:82-94 | an intro with n frames on its timer is over after max(n, 1) calls, whatever the frame times |
| Bosses.IntroStaysOver | src/game/boss.ts:82-128 | the boss's update never restarts an intro |
| Bosses.IntroLastsAtMost90 | src/game/boss.ts:64-91 | the intro that `startBossIntro` begins is over within 90 calls |
| Bosses.Boss.constructor | src/game/boss.ts:39-54 | `createBoss`: the dormant state with hp 3 |
| Bosses.Boss.Recreate | src/game/engine.ts:198 | the boss of `resetEntities` is back in the `createBoss` state |
| Bosses.Boss.StartIntro | src/game/boss.ts:56-66 | the new boss is `Started` of the old (see `StartedShape`) and the shake becomes 6 |
| Bosses.Boss.MaybeSpawn | src/game/boss.ts:68-72 | the new boss is `Spawned` of the old (see `SpawnGate`); the shake becomes 6 iff the intro started, else stays |
| Bosses.Boss.Update | src/game/boss.ts:74-128 | the new boss, the shake and the callback fired are `Advance` of the old state (see the intro, patrol and contact lemmas) |
| Particles.Burst | src/game/particles.ts:36-45 | one particle per pair of random draws, each at the given point with life 20 and the given colour |
| Particles.TickParticlesSurvivors | src/game/particles.ts:64-71 | the particles left after an update are exactly those whose life was above 1, in their old order, each moved by (vx·dt, vy·dt) with one life less; all are alive and the list does not grow |
| Particles.TickPopsSurvivors | src/game/particles.ts:73-79 | the same for score pops, which move up by 0.6·dt with x unchanged |
| Particles.TickOne | src/game/particles.ts:64-71 | one particle survives an update iff its life was above 1 |
| Particles.Lifetime | src/game/particles.ts:64-71 | a particle with life L has life L - n after n < L updates and is gone after L updates |
| Particles.SparkLifetime | src/game/particles.ts:36-71 | a freshly spawned particle survives exactly 19 updates and the 20th removes it |
| Particles.ParticlesState.constructor | src/game/particles.ts:22-27 | both lists start empty |
| Particles.ParticlesState.Clear | src/game/engine.ts:197 | the particle state of `resetEntities` has both lists empty |
| Particles.ParticlesState.Spawn | src/game/particles.ts:29-46 | exactly `count` particles (the `Burst`) are appended, and the existing particles and the pops are untouched |
| Particles.ParticlesState.AddScorePop | src/game/particles.ts:48-61 | exactly one pop, with the given value and life, is appended and the particles are untouched |
| Particles.ParticlesState.Update | src/game/particles.ts:63-80 | both lists are aged and pruned (see the two survivor lemmas) |
| EngineRules.InsertRankedPermutes | src/game/engine.ts:170 | inserting into a list adds the entry and loses nothing |
| EngineRules.InsertKeepsRanked | src/game/engine.ts:170 | inserting into a ranked list keeps it ranked: score descending, then timestamp ascending |
| EngineRules.ConsRanked | src/game/engine.ts:170 | an entry ranking before every entry of a ranked list can head it |
| EngineRules.SortRanksAndPermutes | src/game/engine.ts:170 | the sort ranks its input and keeps exactly its entries |
| EngineRules.RankedUnique | src/game/engine.ts:170 | the comparator ties only equal entries, so any correct sort gives the same list as this one |
| EngineRules.RankedHeadsAgree | src/game/engine.ts:170 | two ranked orderings of one multiset start with the same entry |
| EngineRules.LeaderboardInsert | src/game/engine.ts:166-176 | after an insert the board is ranked and holds min(old + 1, 5) entries taken from the old board and the new entry; every entry dropped ranks after every entry kept; this holds for any old board |
| EngineRules.RankedPrefix | src/game/engine.ts:171-173 | keeping the first five of a ranked list keeps it ranked and keeps the best entries |
| EngineRules.LeaderboardExample | src/game/engine.ts:166-176 | inserting scores 5, 20, 5 (the first 5 earlier) gives 20, the earlier 5, the later 5 |
| EngineRules.UnlockedClosedForm | src/game/engine.ts:178-185 | the anecdote count is 0 below 10, 6 from 60 on, and score / 10 in between |
| EngineRules.UnlockedMonotone | src/game/engine.ts:178-185 | the anecdote count lies within 0..6 and never decreases as the score grows |
| EngineRules.NewGift | src/game/engine.ts:254-262 | a new gift appears above the arena, inside its width, falling at a speed in [2, 3) |
| EngineRules.NewGremlin | src/game/engine.ts:264-272 | a new gremlin appears above the arena, inside its width, falling at a speed in [3.4, 5.2) |
| EngineRules.GiftsAccounted | src/game/engine.ts:299-314 | every gift is either picked up, kept or lost, and none is counted twice |
| EngineRules.KeptGiftsMembers | src/game/engine.ts:299-314 | a gift stays iff the player does not touch it and it is still on screen; no point is scored iff no gift touches the player |
| EngineRules.KillingStomp | src/game/engine.ts:351-372 | the stomp that takes hp from 1 to 0 defeats the boss and is worth 35 |
| EngineRules.StompsOnOneBoss | src/game/engine.ts:351-372 | each stomp costs exactly one hp, never going below 0; n < h stomps earn 5n; from the h-th stomp on, the boss is defeated and has earned 5h + 30 |
| EngineRules.FreshBossWorth45 | src/game/engine.ts:351-372 | a fresh boss (hp 3) yields 45 points in all |
| Engine.BeginFreshSession | src/game/engine.ts:194-217 | `startGame` gives a valid play session: no score, the full duration, no win and no boss defeat, no gifts or gremlins, not dead, a dormant boss, the player at its start, and the board and best score kept |
| Engine.EndedKeepsValid | src/game/engine.ts:234-252 | `endGame` keeps the session invariant |
| Engine.EndedOnce | src/game/engine.ts:234-243 | `endGame` acts only in play: it ends the session, wins iff time ran out with a positive score, raises the best score to the score, inserts one entry into a board of at most 5; a second call changes nothing |
| Engine.CountdownRuns | src/game/engine.ts:219-223 | with T units left, the first T - 1 ticks count down to 1 and the T-th ends the session as a time-out with the clock at 1 |
| Engine.TimeOutWithoutPoints | src/game/engine.ts:219-223 | a 45-unit session without points ends after 45 ticks and is not won |
| Engine.CountdownEffect | src/game/engine.ts:219-223 | the countdown acts only in play; it decrements when more than 1 is left and otherwise ends the session, won iff the score is positive; it keeps the invariant |
| Engine.DroppedEffect | src/game/engine.ts:225-231 | each spawner appends one entity of its kind, only in play, keeping the old list as a prefix and every other field of the session |
| Engine.DroppedKeepsValid | src/game/engine.ts:225-231 | both spawners keep the session invariant |
| Engine.IdleFrames | src/game/engine.ts:274-291 | outside boot and play a frame counts slow motion down and leaves every other field as it was; in boot it also counts the boot timer down, and when that timer reaches 0 it moves to the intro and clears the first-boot flag, changing nothing else |
| Engine.SpawnBossSound | src/game/engine.ts:293 | the boss spawn check keeps the entity invariants |
| Engine.MovePlayerSound | src/game/engine.ts:294-295 | moving the player keeps the entity invariants |
| Engine.BossTurnEffect | src/game/engine.ts:334-377 | a stomp costs the boss one hp (never below 0), pays 5 plus 30 on the killing hit (which deactivates the boss and records the defeat), starts 12 frames of slow motion and bounces the player; a kill raises the death flag; otherwise score, hp and flag stay |
| Engine.PlayStepKeepsValid | src/game/engine.ts:291-381 | a play frame restores the session invariant, including "not dead while in play" |
| Engine.PlayStepEffect | src/game/engine.ts:293-381 | in a play frame the score rises by the gifts caught plus the stomp reward; caught gifts go and the others stay iff on screen; gremlins only fall and are never removed; the clock is untouched; the session ends, lost and recorded, exactly when the player fell out, touched a gremlin or was killed by the boss |
| Engine.PlayFrameEffect | src/game/engine.ts:274-295 | in play the slow-motion timer counts down first, and only the player's frame time is scaled by 0.35 while it runs |
| Engine.FrameAssembled | src/game/engine.ts:274-383 | a frame put together from the slow-motion countdown and its branch is `update`, and keeps the invariant |
| Engine.FrameKeepsValid | src/game/engine.ts:274-383 | every frame keeps the session invariant |
| Engine.BootedKeepsValid | src/game/engine.ts:612-621 | `boot` keeps the session invariant |
| Engine.BootedEffect | src/game/engine.ts:147-158 | `boot` enters the boot animation iff this is the first boot, and the intro otherwise; a stored board replaces the board unsorted and uncapped, and its head's score becomes the best score; with nothing stored, both stay |
| Engine.Game.constructor | src/game/engine.ts:112-136 | the session `createGameEngine` builds, with empty particle lists and a fresh boss, player, death flag and particle system |
| Engine.Game.Boot | src/game/engine.ts:612-621 | the new session is `Booted` of the old one (see `BootedEffect`) and stays valid |
| Engine.Game.EnterFirstPhase | src/game/engine.ts:615-620 | boot with a 260-frame timer on the first boot, otherwise the intro |
| Engine.Game.LoadLeaderboard | src/game/engine.ts:147-158 | a parsed list replaces the board as it is and its head sets the best score; nothing parsed changes nothing |
| Engine.Game.ComputeAnecdotes | src/game/engine.ts:178-185 | the counting loop sets the count to `Unlocked(score)`, the number of thresholds reached (see `UnlockedClosedForm`) |
| Engine.Game.UpdateLeaderboard | src/game/engine.ts:166-176 | the board becomes `Inserted` of the old board and the new entry (see `LeaderboardInsert`) |
| Engine.Game.ResetEntities | src/game/engine.ts:194-203 | no gifts or gremlins, empty particle lists, a dormant fresh boss, no shake, no slow motion, not dead, no boss defeat |
| Engine.Game.StartGame | src/game/engine.ts:205-217 | the new session is `Begin` of the old one (see `BeginFreshSession`) with empty particle lists, and stays valid |
| Engine.Game.ResetRound | src/game/engine.ts:206-210 | score 0, time back to the selected duration, no win, no boss defeat, no anecdotes |
| Engine.Game.EndGame | src/game/engine.ts:234-252 | on a well-formed session, the new session is `Ended` of the old one (see `EndedOnce`) and is well formed |
| Engine.Game.Finish | src/game/engine.ts:234-252 | the same body, run from `update` where the player may already be dead: the new session is `Ended` of the old one |
| Engine.Game.Conclude | src/game/engine.ts:237-249 | the verdict, the end state, the best score as a maximum, the anecdote count, the inserted board, and no shake |
| Engine.Game.CountdownTick | src/game/engine.ts:219-223 | the new session is `Countdown` of the old one (see `CountdownEffect`) and stays valid |
| Engine.Game.SpawnGift | src/game/engine.ts:254-262 | exactly one `NewGift` is appended |
| Engine.Game.SpawnGremlin | src/game/engine.ts:264-272 | exactly one `NewGremlin` is appended |
| Engine.Game.GiftTick | src/game/engine.ts:225-227 | on a well-formed session, the new session is `GiftDropped` of the old one (see `DroppedEffect`) and is well formed |
| Engine.Game.GremlinTick | src/game/engine.ts:229-231 | on a well-formed session, the new session is `GremlinDropped` of the old one (see `DroppedEffect`) and is well formed |
| Engine.Game.SpawnBossPass | src/game/engine.ts:293 | the boss spawn check as `SpawnBoss` on the session |
| Engine.Game.MovePlayerPass | src/game/engine.ts:294-295 | input then physics on the player's frame time, as `MovePlayer` on the session |
| Engine.Game.CollectGiftsPass | src/game/engine.ts:297-314 | the gifts fall and are collected as `CollectGifts` says; each gift caught adds 14 particles and one pop |
| Engine.Game.CatchGifts | src/game/engine.ts:299-314 | the filter loop keeps exactly `KeptGifts`, adds `CaughtCount` to the score, and adds 14 particles and one pop per gift caught |
| Engine.Game.CheckGremlinsPass | src/game/engine.ts:316-332 | the gremlins fall; the loop raises the death flag iff some fallen gremlin touches the player, and removes none |
| Engine.Game.OnBossHit | src/game/engine.ts:339-373 | the `onHit` callback as `OnHit` on the session (see `BossTurnEffect`), adding 20 particles and one score pop, two when the hit defeats the boss |
| Engine.Game.ApplyHit | src/game/engine.ts:341-369 | the session changes of `onHit`; the result tells whether the boss fell to hp 0 |
| Engine.Game.Impact | src/game/engine.ts:341-345 | a shake of 10, 12 frames of slow motion and an upward bounce of 18, and nothing else |
| Engine.Game.DamageBoss | src/game/engine.ts:351-369 | one hp less and the points of `Hit`; at hp 0 the boss is inactive and the defeat recorded |
| Engine.Game.BossPass | src/game/engine.ts:334-377 | the boss's update with its two callbacks, as `BossTurn` |
| Engine.Game.EntityPasses | src/game/engine.ts:293-332 | the passes before the boss moves, as `Entities` |
| Engine.Game.BossPhase | src/game/engine.ts:334-379 | the boss's turn and the death check, as `BossAndDeath` |
| Engine.Game.EndIfDead | src/game/engine.ts:379 | a raised death flag ends the session as a loss; otherwise nothing changes |
| Engine.Game.PlayFrame | src/game/engine.ts:293-381 | the play branch as `PlayStep` (see `PlayStepEffect`) |
| Engine.Game.SlowMotionPass | src/game/engine.ts:275-280 | slow motion counts down by one while it runs, and the player's frame time is dt·0.35 then and dt otherwise |
| Engine.Game.BootPass | src/game/engine.ts:282-288 | the boot branch as `BootTick`: the boot timer counts down, and at 0 the intro starts and the first-boot flag clears |
| Engine.Game.StateBranch | src/game/engine.ts:282-381 | after the slow-motion countdown, the boot, play or idle branch; the particles are untouched outside play |
| Engine.Game.Update | src/game/engine.ts:274-383 | the new session and the callback fired are `Frame` of the old session (see `FrameKeepsValid`, `PlayStepEffect`, `IdleFrames`), the session stays valid, and outside play the particles are untouched |

## Left out

- Audio: the music loop, the jingles, the gift sound and mute (`src/game/audio.ts`, `toggleMute`). They only have side effects.
- The snow backdrop (`src/game/snow.ts`) and `updateSnow`. They do not affect the game state.
- All drawing: `render`, `drawBoss`, `drawPlayer`, `drawParticles` and `drawScorePops`.
- Persistence. `Game.Boot` takes the result of reading and parsing the stored board as a parameter: `None` when the key is missing, the JSON is malformed or the value is not an array. It does not check that the parsed array holds well-formed entries. `saveLeaderboard` is not modelled.
- Timing plumbing: `requestAnimationFrame`, the dt computation, `startLoop` and `stopLoop`, and the interval handles with `clearIntervals`. The frame time is a parameter of `Game.Update`. Each interval body is its own method, and the model does not limit how often it is called.
- Input plumbing: the key and touch handlers. A frame receives the key map and the touch pad as a snapshot.
- `Math.sin` in the boss's bob is a function parameter. Only `Bosses.PatrolBob` assumes it lies in [-1, 1].
- `Math.random` draws are parameters: two per gift or gremlin, and two per particle of a burst. A play frame receives one burst of draws for each gift, used if that gift is caught, so two gifts caught in one frame get independent bursts.
- `Date.now` is a parameter `now`.
- Numbers are exact reals and unbounded integers, not IEEE doubles.
- Engine.Game.Update: the particle lists after a play frame are stated only by `Particles.ParticlesState.Update` and the particle counts of the gift and hit passes. The session model (`Model()`) leaves them out.
- The `onEnd` and `onMuteChange` callbacks are not modelled.
- The re-entry from end to intro happens outside `engine.ts` and is not modelled. `startGame` is modelled from any state, as in the source.
- The `agencyAnecdotes` texts are not modelled; only their count is.
- Engine.Game.CheckGremlinsPass: its contract does not state that the loop stops at the first touching gremlin. The flag it raises is the same either way.
- Bosses.Boss.Recreate and Particles.ParticlesState.Clear: `resetEntities` replaces the boss and particle objects with new ones. The model re-initialises them in place, so object identity is not modelled.
