# Santa's sleigh runner — a verified model of the game core

The game is a side-scrolling browser runner. Each frame, Santa's sleigh moves up or down while
obstacles scroll in from the right: chimneys, snowmen, trees, clouds and wind gusts. Gifts and
power-ups drift in too. Several systems act on the rules of the run:

- a **route manager** opens a left/right decision window at intervals, and a left detour is riskier but pays more;
- a **moment manager** triggers timed pacing events: snowstorm, speed burst and gift rush;
- an **ability manager** runs a single active ability on a cooldown (dash);
- a **goals manager** tracks progress goals and the cosmetic items they unlock;
- the **session state** holds the run state, the score, the high score, the frame counter and the power-up timers;
- the **game** object wires all of them into one frame update, resolves collisions and applies pickups.

The Dafny project follows that structure, one module per source file:

| module | file | source |
|---|---|---|
| `Config` | config.dfy | constants.js |
| `Geometry` | geometry.dfy | axis-aligned box overlap, from obstacles.js and game.js |
| `Route` | route.dfy | routeManager.js |
| `Moment` | moment.dfy | momentManager.js |
| `Ability` | ability.dfy | abilityManager.js |
| `Session` | session.dfy | gameState.js |
| `Obstacles` | obstacles.dfy | obstacles.js |
| `Collectibles` | collectibles.dfy | collectibles.js |
| `Sleigh` | sleigh.dfy | player.js |
| `Goals` | goals.dfy | goalsManager.js |
| `Game` | game.dfy | game.js |

Every JavaScript class whose methods update its fields is a Dafny `class` with the same fields.
Its `State()` function packs those fields into a value datatype. Each method is proved to
move `State()` exactly as a pure specification function says. For example:

- `RouteManager.Update` ensures `State() == RouteUpdate(old(State()), frameCount)`;
- `Game.Update` ensures `Snapshot() == WorldStep(old(Snapshot()), input)` over the states of all eight components.

The properties of the game are lemmas about those specification functions:

- timers count up or down and expire after exactly their duration;
- a route window left unanswered resolves to the right-hand route;
- a shield absorbs hits;
- no frame lowers the score or the high score;
- the spawned entities start in their documented places.

Frame-valued quantities are integers. Positions, speeds and multipliers are mathematical reals.
`Math.random`, `Math.sin` and the wall-clock time score are inputs of each frame.
`FairDice`/`FairInput` record that every random draw lies in [0, 1).

Behaviours of the code worth noting (the model follows the code in each):

- `nextMomentFrame` is set to `momentTimer + interval` right after `momentTimer` is reset to 0,
  so it is an absolute frame in [900, 1800).
  Past frame 1800 only the cooldown gates a new moment (`Moment.LateFramesAlwaysPassFrameGate`).
- The slow-motion power-up halves nothing: `getSpeedMultiplier` is never called from the frame update.
  Only its timer is modelled.
- The double-score power-up doubles the points passed to `updateScore`.
  The time-based score is not doubled (`Session.ScoreMultiplier`).
- The obstacle speed multiplier reaches the obstacle engine twice: once as `speedMultiplier` and once inside the modifiers.
  So it acts squared (`Game.ObstacleSpeedAppliedTwice`).
- The ability is always the dash, because `abilityType` is never changed.
  The ability-shield branch of the collision loop is modelled but unreachable in the shipped game.

Power-up durations are the one place where the model departs from the code.
As written, a power-up never expires (see "## Findings"); the model uses the corrected 300/600/900-frame durations.

## Model

| member | source | states |
|---|---|---|
| Geometry.OverlapsSymmetric | game.js:509-514 | the AABB collision test does not depend on which box is the player |
| Geometry.SharedEdgeIsNoOverlap | obstacles.js:397-402 | the overlap test is strict: boxes that only touch along an edge do not collide |
| Route.RouteUpdateKeepsInv | routeManager.js:16-51 | a frame update keeps the route invariant (a window opens only on the neutral route and its prompt has slid 3 pixels per elapsed frame; the neutral route has no detour timer; a detour timer stays below its 480-frame duration) |
| Route.RouteSelectKeepsInv | routeManager.js:65-73 | selecting a route keeps the route invariant |
| Route.WindowOpensExactlyOnGuard | routeManager.js:20-32 | a closed decision window opens on this frame if and only if the frame is a positive multiple of 600 and no detour is running; on opening, its timer is 1 and the prompt has slid once |
| Route.SelectRouteSemantics | routeManager.js:65-73 | selecting outside a window changes nothing; inside one it starts the chosen route with a fresh 480-frame timer and closes the window |
| Route.RouteRunSplit | routeManager.js:16-51 | running a + b frames is running a frames, then b more from the later frame counter |
| Route.OpenWindowCountsUp | routeManager.js:26-32 | while an open window has not expired, each frame only adds one to its timer and slides the prompt 3 pixels left (also routeManager.js:44-50) |
| Route.UnansweredWindowResolvesRight | routeManager.js:26-32 | a window that is never answered is still open after 179 updates and on the 180th has started the right-hand (safe) route with its timer at 1 |
| Route.PromptNeverLeavesScreen | routeManager.js:44-50 | while a window is open the prompt never slides past its left limit of -100 |
| Route.DetourCountsUp | routeManager.js:35-41 | during a detour that has not expired, each frame only adds one to its timer |
| Route.DetourReturnsToNeutral | routeManager.js:35-41 | a detour stays in force until its duration runs out and then returns to the neutral route with its timer reset |
| Route.RouteRiskOrdering | routeManager.js:78-100 | the left route spawns more, runs faster and pays more than neutral; the right route spawns less and runs slower at neutral pay; neutral is all 1.0 |
| Route.RouteManager.constructor | routeManager.js:3-11 | starts on the neutral route with no window open and the prompt at its start position |
| Route.RouteManager.Update | routeManager.js:16-51 | moves the manager's fields exactly as the route update function, keeping the invariant |
| Route.RouteManager.ShowDecision | routeManager.js:56-60 | opens the decision window with a fresh timer and the prompt at its start position |
| Route.RouteManager.SelectRoute | routeManager.js:65-73 | moves the fields exactly as route selection and preserves the invariant |
| Route.RouteManager.GetRouteModifiers | routeManager.js:78-100 | returns the modifier table entry of the current route |
| Moment.KindOf | momentManager.js:41-42 | a random draw below 1/3 picks the snowstorm and one at 2/3 or above picks the gift rush |
| Moment.MomentUpdateKeepsInv | momentManager.js:15-35 | a frame update keeps the moment invariant (cooldown in [0, 300] and 0 while a moment runs, next-moment frame in [900, 1800), an active timer below its kind's duration) |
| Moment.TriggerExactlyOnGuard | momentManager.js:27-29 | with no moment active, one starts on this frame if and only if the frame has reached the next-moment frame and the cooldown is over |
| Moment.TriggerSemantics | momentManager.js:40-63 | a triggered moment starts with timer 0 and the duration of its kind (300, 360 or 420), and the next-moment frame lands in [900, 1800) |
| Moment.LateFramesAlwaysPassFrameGate | momentManager.js:60-62 | the next-moment frame never exceeds 1800, so from frame 1800 on only the cooldown holds moments back |
| Moment.EndSemantics | momentManager.js:68-80 | ending a moment clears it, resets its timer, starts a 300-frame cooldown and records a survived snowstorm |
| Moment.ActiveMomentCountsUp | momentManager.js:19-24 | while an active moment has not run out, each frame only adds one to its timer |
| Moment.MomentLastsItsDuration | momentManager.js:15-35 | a freshly triggered moment is still active after duration - 1 frames and is over on the next one, with the cooldown already counted down once (also momentManager.js:68-80) |
| Moment.CooldownBlocksTrigger | momentManager.js:27-34 | during a cooldown no moment starts and each frame only lowers the cooldown by one |
| Moment.NoMomentDuringCooldown | momentManager.js:15-35 | after a moment ends, no new moment starts for the whole cooldown, and the cooldown then reaches 0 (also momentManager.js:79) |
| Moment.EffectsTable | momentManager.js:85-126 | with no moment every effect is neutral; only the snowstorm lowers visibility; every multiplier stays positive |
| Moment.MomentManager.constructor | momentManager.js:3-10 | no moment, the first one possible from frame 900, no cooldown |
| Moment.MomentManager.Update | momentManager.js:15-35 | moves the fields exactly as the moment update function, keeps the invariant, and reports when a snowstorm ended (the survive-snowstorm goal signal) |
| Moment.MomentManager.TriggerRandomMoment | momentManager.js:40-63 | moves the fields exactly as a trigger with the given random draws |
| Moment.MomentManager.EndMoment | momentManager.js:68-80 | moves the fields exactly as ending a moment and reports whether it was a snowstorm |
| Moment.MomentManager.GetMomentEffects | momentManager.js:85-126 | returns the effects of the active moment |
| Ability.AbilityUpdateKeepsInv | abilityManager.js:27-40 | a frame update keeps the ability invariant (timers within their durations, no cooldown while active) |
| Ability.ActivatedKeepsInv | abilityManager.js:45-66 | activation keeps the invariant |
| Ability.DeactivatedKeepsInv | abilityManager.js:71-75 | deactivation keeps the invariant |
| Ability.ActivationSemantics | abilityManager.js:45-66 | activation does nothing unless the ability is idle and cooled down; otherwise it starts the kind's duration (dash 30, shield 180, slow time 300) (also constants.js:78-81) |
| Ability.ReadyIffCanActivate | abilityManager.js:114-116 | under the invariant the readiness query agrees with the activation guard (also abilityManager.js:46) |
| Ability.ActivePhase | abilityManager.js:34-39 | while the ability is active and has time left, each frame only lowers its timer |
| Ability.CoolingPhase | abilityManager.js:29-31 | while idle, each frame only lowers the cooldown |
| Ability.AbilityRunSplit | abilityManager.js:27-40 | running a + b frames is running a frames, then b more |
| Ability.ReadyAgainAfterCooldown | abilityManager.js:27-66 | after activation the ability is ready again after exactly duration + 600 frames and not one frame earlier (also constants.js:77) |
| Ability.DashReadyAfter630 | abilityManager.js:27-66 | a dash is usable again after exactly 630 frames (also constants.js:77-78) |
| Ability.EffectsTable | abilityManager.js:80-109 | an idle ability has neutral effects; when active, dash doubles speed, shield protects and slow time factors time by 0.4, each exclusively |
| Ability.AbilityManager.constructor | abilityManager.js:3-9 | a dash ability, idle, with no cooldown |
| Ability.AbilityManager.Update | abilityManager.js:27-40 | moves the fields exactly as the ability update function, keeping the invariant |
| Ability.AbilityManager.ActivateAbility | abilityManager.js:45-66 | moves the fields exactly as activation and reports whether the activation guard held (the use-ability goal signal) |
| Ability.AbilityManager.DeactivateAbility | abilityManager.js:71-75 | ends the ability now and starts the full cooldown |
| Ability.AbilityManager.GetAbilityEffects | abilityManager.js:80-109 | returns the effects of the current ability state |
| Ability.AbilityManager.IsReadyNow | abilityManager.js:114-116 | true exactly when the ability is idle and cooled down |
| Session.PerKind.Set | gameState.js:13-22 | writing one power-up's entry leaves the other two unchanged |
| Session.Ticked | gameState.js:172-182 | every power-up's entry is ticked independently by the same per-entry rule |
| Session.TickedKeepsInv | gameState.js:172-182 | ticking keeps the power-up invariant (an inactive power-up has timer 0, an active one a positive timer) |
| Session.ActivatedKeepsInv | gameState.js:163-167 | activation with the intended durations keeps the invariant |
| Session.ShieldClearedKeepsInv | game.js:486-487 | clearing the shield keeps the invariant |
| Session.NoPowerUpsInv | gameState.js:187-198 | the reset power-up table satisfies the invariant |
| Session.TickSemantics | gameState.js:172-182 | an inactive power-up is untouched; an active one loses a frame and switches off with timer 0 when it reaches 0 |
| Session.ActivationTouchesOnlyItsKind | gameState.js:163-167 | activation switches on only its own kind, with duration 300, 600 or 900 (also constants.js:60-62) |
| Session.TimersAreIndependent | gameState.js:163-182 | activating one power-up does not change how the others tick |
| Session.ActiveKindCountsDown | gameState.js:172-182 | an active power-up with more than n frames left has exactly n fewer after n ticks and is still active |
| Session.TickedTimesSplit | gameState.js:172-182 | ticking a + b times is ticking a times, then b times |
| Session.PowerUpLastsItsDuration | gameState.js:163-182 | a power-up activated with its intended duration is on for duration - 1 ticks and off, with timer 0, after the duration (also constants.js:60-62) |
| Session.StartIsFresh | gameState.js:78-91 | starting or restarting plays from score 0 and frame 0 with no power-up on and the high score kept (also gameState.js:118-131) |
| Session.PauseResumeSemantics | gameState.js:96-113 | pause acts only while playing and resume only while paused; resume undoes pause; a paused game is not playing |
| Session.GameOverKeepsBest | gameState.js:136-143 | game over keeps the score and raises the high score to the better of the two |
| Session.ScoredSemantics | gameState.js:148-158 | scoring adds the points (doubled under double score); while playing the new score is exactly the larger of that sum and the time score, otherwise exactly the sum; it never lowers the score for non-negative points |
| Session.FrameIncrementedSemantics | gameState.js:436-440 | the frame counter advances only while playing |
| Session.FramesIncrementedCount | gameState.js:436-440 | n calls advance the counter by exactly n during play and leave it unchanged otherwise; no other field changes |
| Session.Upper | gameState.js:165 | upper-casing keeps the length and upper-cases every lower-case letter |
| Session.Underscored | gameState.js:165 | inserting `_` before each capital turns a leading capital into a leading `_` |
| Session.AsWrittenKeyIsMissing | gameState.js:165 | the configuration key the code builds starts with `_`, is not a configuration entry, and so the timer read is NaN (also constants.js:60-62) |
| Session.NoEntryStartsWithUnderscore | constants.js:60-62 | no duration entry of the configuration starts with `_` |
| Session.AsWrittenPowerUpNeverExpires | gameState.js:163-182 | as written, an activated power-up stays on with a NaN timer for any number of frames |
| Session.NotANumberStaysOn | gameState.js:172-182 | a NaN timer never satisfies the expiry test, so it stays on for ever |
| Session.GameState.constructor | gameState.js:3-25 | on the start screen, score 0, frame 0, no power-ups, with the saved high score (also gameState.js:421-424) |
| Session.GameState.StartGame | gameState.js:78-91 | moves the state exactly as starting a run |
| Session.GameState.RestartGame | gameState.js:118-131 | moves the state exactly as starting a run |
| Session.GameState.PauseGame | gameState.js:96-102 | moves the state exactly as pausing |
| Session.GameState.ResumeGame | gameState.js:107-113 | moves the state exactly as resuming |
| Session.GameState.GameOver | gameState.js:136-143 | moves the state exactly as game over |
| Session.GameState.UpdateScore | gameState.js:148-158 | moves the state exactly as scoring, with the time score given |
| Session.GameState.ActivatePowerUp | gameState.js:163-167 | switches on the power-up with its intended duration, touching nothing else |
| Session.GameState.UpdatePowerUps | gameState.js:172-182 | the loop over the three entries ticks every power-up, keeping the invariant |
| Session.GameState.ResetPowerUps | gameState.js:187-198 | every power-up off with timer 0 |
| Session.GameState.ClearShield | game.js:486-487 | switches off the shield power-up and zeroes its timer, touching nothing else |
| Session.GameState.GetSpeedMultiplier | gameState.js:203-205 | 0.5 exactly under slow motion and 1.0 exactly otherwise |
| Session.GameState.HasShield | gameState.js:210-212 | true exactly when the shield power-up is on |
| Session.GameState.IncrementFrame | gameState.js:436-440 | advances the frame counter only while playing |
| Session.GameState.GetFrameCount | gameState.js:445-447 | the current frame counter |
| Obstacles.Difficulty | obstacles.js:423-426 | the difficulty multiplier lies in [1, 2.5] |
| Obstacles.DifficultyRamp | obstacles.js:423-426 | difficulty starts at 1, never falls, grows by 0.0001 a frame and is capped at 2.5 from frame 15000 |
| Obstacles.MovementShift | obstacles.js:47-93 | every obstacle but the snowman shifts left by the current speed; the snowman sways around its anchor; size, kind and force never change (also the move in obstacles.js:18-31) |
| Obstacles.ChimneySwayBounded | obstacles.js:64-79 | a chimney bobs at most 15 pixels from its anchored height |
| Obstacles.SnowmanNeverLeaves | obstacles.js:84-93 | a snowman anchored at the right edge is never culled at speeds up to 700, because its x is reset from the anchor each frame (also obstacles.js:18-27) |
| Obstacles.Survivors | obstacles.js:18-31 | the move-and-cull pass never grows the list and leaves only on-screen obstacles |
| Obstacles.SurvivorsAppend | obstacles.js:18-31 | the pass treats each obstacle independently, so it distributes over concatenation |
| Obstacles.SurvivorsStep | obstacles.js:18-31 | the pass on a suffix is the moved head, if still visible, before the pass on the rest |
| Obstacles.SurvivorsMembership | obstacles.js:18-31 | an obstacle survives exactly when it is the move of an input obstacle and is on screen |
| Obstacles.NoneDroppedWhenAllVisible | obstacles.js:18-31 | when every moved obstacle is on screen none is dropped |
| Obstacles.CreateChimney | obstacles.js:128-136 | a chimney enters at the right edge standing on the ground line |
| Obstacles.CreateSnowman | obstacles.js:141-149 | a snowman enters at the right edge standing on the ground line |
| Obstacles.CreateTree | obstacles.js:154-162 | a tree enters at the right edge standing on the ground line |
| Obstacles.CreateCloud | obstacles.js:167-180 | a cloud enters at the right edge at a height in [50, 450) |
| Obstacles.CreateWindGust | obstacles.js:185-199 | a gust enters at the right edge, 100 by 150, at a height in [100, 400), pushing up (-2) exactly when its draw exceeds 0.5 and down (+2) otherwise |
| Obstacles.KindOf | obstacles.js:98-123 | each kind owns a fifth of the draw's range: below 0.2 a chimney, [0.2, 0.4) a snowman, [0.4, 0.6) a tree, [0.6, 0.8) a cloud, 0.8 or more a wind gust |
| Obstacles.UpdateSpawnSemantics | obstacles.js:12-42 | an update is the move-and-cull pass followed, exactly when the spawn gate opens, by one new obstacle of the drawn kind at the right edge and a new last-spawn frame |
| Obstacles.SpawnPlacement | obstacles.js:98-199 | every spawned obstacle starts where its creator promises |
| Obstacles.SurvivorsKeepGustForces | obstacles.js:18-31 | the pass keeps every gust's force in {-2, 2} |
| Obstacles.UpdateKeepsGustForces | obstacles.js:12-42 | a whole update keeps every gust's force in {-2, 2} |
| Obstacles.WindForceCases | obstacles.js:383-392 | the wind is 0 exactly when no gust overlaps the player, and otherwise is -2 or 2 (the first overlapping gust wins) |
| Obstacles.ObstacleManager.constructor | obstacles.js:3-7 | no obstacles and no spawn yet |
| Obstacles.ObstacleManager.Update | obstacles.js:12-42 | moves the fields exactly as the obstacle update function and keeps gust forces valid |
| Obstacles.ObstacleManager.MoveObstacles | obstacles.js:18-31 | the in-place loop leaves exactly the move-and-cull pass of the old list |
| Obstacles.ObstacleManager.SpawnObstacle | obstacles.js:98-123 | appends exactly the obstacle the draws select |
| Obstacles.ObstacleManager.ApplyWindForce | obstacles.js:383-392 | returns the wind force on the player's box, one of -2, 0 and 2 |
| Obstacles.ObstacleManager.Clear | obstacles.js:414-418 | no obstacles and the spawn frame reset |
| Collectibles.PickMatchesIntervals | collectibles.js:43-56 | the cumulative-weight loop picks gift below 0.6, slow motion below 0.75, shield below 0.9 and double score otherwise |
| Collectibles.DriftBounds | collectibles.js:18-21 | a collectible shifts left by the speed and drifts at most 0.5 pixels vertically, keeping its kind, size and id |
| Collectibles.Survivors | collectibles.js:16-27 | the move-and-cull pass never grows the list and leaves only on-screen collectibles |
| Collectibles.SurvivorsAppend | collectibles.js:16-27 | the pass distributes over concatenation |
| Collectibles.SurvivorsStep | collectibles.js:16-27 | the pass on a suffix is the moved head, if still visible, before the pass on the rest |
| Collectibles.UpdateSpawnSemantics | collectibles.js:11-72 | an update is the pass followed, exactly when the spawn gate opens, by one new 30 by 30 collectible at the right edge, at a height in [50, 520), of the drawn kind |
| Collectibles.IndexOf | collectibles.js:175 | the index is -1 exactly when the item is absent, and otherwise is its first occurrence |
| Collectibles.RemoveFirstSemantics | collectibles.js:174-179 | removal of an absent item changes nothing; otherwise exactly its first occurrence is removed |
| Collectibles.RemoveDistinct | collectibles.js:174-179 | in a list without duplicates the removed item is gone afterwards |
| Collectibles.IndexOfFirst | collectibles.js:175 | a position holding the first occurrence is the index found |
| Collectibles.PickType | collectibles.js:43-56 | the weight loop returns the kind of the draw's interval |
| Collectibles.CollectibleManager.constructor | collectibles.js:3-6 | no collectibles and no spawn yet |
| Collectibles.CollectibleManager.Update | collectibles.js:11-37 | moves the fields exactly as the collectible update function |
| Collectibles.CollectibleManager.MoveCollectibles | collectibles.js:16-27 | the in-place loop leaves exactly the move-and-cull pass of the old list |
| Collectibles.CollectibleManager.SpawnCollectible | collectibles.js:42-72 | appends exactly the collectible the draws select |
| Collectibles.CollectibleManager.RemoveCollectible | collectibles.js:174-179 | removes the first equal collectible, if any |
| Collectibles.CollectibleManager.Clear | collectibles.js:184-187 | no collectibles and the spawn frame reset |
| Sleigh.Faded | player.js:114-121 | the trail never grows and only living particles remain |
| Sleigh.FadedLivesBelow | player.js:114-121 | fading never raises a particle's life |
| Sleigh.SleighUpdateKeepsInv | player.js:49-122 | an update keeps the sleigh on the canvas, its lean in [-0.3, 0.3] and every trail particle alive with life at most 1 |
| Sleigh.ClampSemantics | player.js:89-102 | the new height is the moved height clamped to [0, 560], and hitting either edge stops the sleigh |
| Sleigh.HeldKeyBoundsVelocity | player.js:59-72 | with up held the sleigh never climbs faster than the target speed (4 × the multiplier); with only down held it never falls faster than that |
| Sleigh.CoastingTowardZero | player.js:73-86 | with no key held the velocity decays toward 0 by the acceleration and never overshoots |
| Sleigh.WindComesFirst | player.js:54-56 | the wind raises the velocity by 0.3 times the force before the keys act |
| Sleigh.LeanSemantics | player.js:59-86 | the lean stays in [-0.3, 0.3], tilts 0.1 toward the held key and relaxes toward 0 otherwise |
| Sleigh.FadedAppend | player.js:114-121 | fading distributes over concatenation |
| Sleigh.FadedStep | player.js:114-121 | the particle loop on a suffix is the aged head, if still alive, before the loop on the rest |
| Sleigh.DashLeavesParticle | player.js:105-121 | a dashing frame appends one fresh particle behind the sleigh after fading the old ones; a normal frame only fades |
| Sleigh.FadeTimesSingle | player.js:114-121 | a particle with life left shifts 3 pixels left and loses 0.1 life per frame |
| Sleigh.ParticleLifetime | player.js:105-121 | a dash particle is alive after 9 fades, counting the one in its own update, and is gone after 10 |
| Sleigh.FadeTimesSplit | player.js:114-121 | fading a + b times is fading a times, then b more |
| Sleigh.ResetSemantics | player.js:223-229 | reset puts the sleigh at its start point, at rest with no key held, keeping lean and trail |
| Sleigh.Player.constructor | player.js:3-19 | the sleigh at its start point, at rest, with no key held and no trail |
| Sleigh.Player.SetKeys | player.js:24-43 | records which keys are held and nothing else |
| Sleigh.Player.Update | player.js:49-122 | moves the fields exactly as the sleigh update function and keeps the invariant |
| Sleigh.Player.Steer | player.js:50-86 | applies the wind and then the key or coasting rule to velocity and lean |
| Sleigh.Player.ClampToCanvas | player.js:89-102 | applies the move and the canvas clamp |
| Sleigh.Player.FadeTrail | player.js:114-121 | the in-place loop leaves exactly the faded trail |
| Sleigh.Player.GetBounds | player.js:211-218 | the sleigh's box, inside the canvas vertically |
| Sleigh.Player.Reset | player.js:223-229 | moves the fields exactly as reset and keeps the invariant |
| Goals.PerCategory.Set | goalsManager.js:18-29 | writing one category leaves the other two unchanged |
| Goals.FindGoal | goalsManager.js:39 | the index is -1 exactly when no goal has the id, and otherwise is the first goal with it |
| Goals.CountCompleted | goalsManager.js:99-101 | the completed count never exceeds the number of goals |
| Goals.UnlockSemantics | goalsManager.js:77-82 | unlocking puts the item in its category only, appends it when new, and is idempotent |
| Goals.UnlockKeepsNoDuplicates | goalsManager.js:77-82 | unlocking never creates a duplicate and never loses an item |
| Goals.CompleteGoalKeepsInv | goalsManager.js:53-72 | completing a goal keeps the goals invariant (progress within target, no item unlocked twice, "default" always unlocked, every equipped item unlocked) |
| Goals.GoalUpdatedKeepsInv | goalsManager.js:38-48 | a progress update keeps the invariant |
| Goals.GoalUpdateSemantics | goalsManager.js:38-48 | an unknown or completed goal is untouched; otherwise only that goal's progress rises, capped at its target, completing it and granting its reward exactly when the target is reached (also goalsManager.js:53-72) |
| Goals.RewardTable | goalsManager.js:53-72 | each of the five goals unlocks its documented cosmetic item |
| Goals.CountCompletedUpdate | goalsManager.js:99-101 | replacing one goal changes the count by the change in its completed flag |
| Goals.CompletedCountStep | goalsManager.js:38-48 | a progress update raises the completed count by one exactly when it completes a goal (also goalsManager.js:99-101) |
| Goals.EquipSemantics | goalsManager.js:106-115 | equipping succeeds exactly when the item is unlocked, and then changes only that category's equipped item; otherwise nothing changes |
| Goals.ValidatedSemantics | goalsManager.js:168-177 | every equipped item that is not unlocked falls back to "default", which is unlocked, and validation is idempotent |
| Goals.InitialGoalsInv | goalsManager.js:3-33 | the initial goals satisfy the invariant with none completed |
| Goals.GoalsManager.constructor | goalsManager.js:3-33 | the five goals at zero progress, the default items unlocked and equipped |
| Goals.GoalsManager.UpdateGoal | goalsManager.js:38-48 | moves the fields exactly as a progress update and keeps the invariant |
| Goals.GoalsManager.CompleteGoalNow | goalsManager.js:53-72 | unlocks the goal's reward, if any |
| Goals.GoalsManager.Unlock | goalsManager.js:77-82 | moves the unlocked lists exactly as unlocking |
| Goals.GoalsManager.GetCompletedCount | goalsManager.js:99-101 | the counting loop returns the number of completed goals |
| Goals.GoalsManager.Equip | goalsManager.js:106-115 | reports success and moves the fields exactly as equipping, keeping the invariant |
| Goals.GoalsManager.GetEquipped | goalsManager.js:120-124 | the equipped item of the category, which is unlocked |
| Goals.GoalsManager.LoadEquipped | goalsManager.js:162-182 | merges the saved choices over the current ones and drops any that are not unlocked, keeping the invariant |
| Game.CombinedRanges | game.js:131-151 | the combined sleigh speed lies in [0.4, 1.5], obstacle speed in [0.32, 1.95], obstacle spawn in [0.35, 1.5] and gift spawn in [0.5, 3] |
| Game.ObstacleSpeedAppliedTwice | game.js:146-151 | obstacles move at 3 × difficulty × the combined multiplier squared, because the multiplier is passed twice (also obstacles.js:13-15) |
| Game.FrozenUnlessPlaying | game.js:120-121 | a frame changes nothing unless the run is playing |
| Game.AbilityShieldAbsorbsEveryHit | game.js:474-492 | with the ability shield up no hit is fatal, the session is untouched, and any hit ends the ability |
| Game.PowerUpShieldAbsorbsOneHit | game.js:474-492 | without the ability shield the pass is fatal exactly when there are more hits than the shield power-up absorbs (one); a fatal pass ends the game with the best score; one absorbed hit clears the shield |
| Game.GustsNeverCollide | game.js:476 | wind gusts never count as hits |
| Game.CollectingNeverLowersScore | game.js:496-503 | collecting pickups never lowers the score, leaves the run state and the high score unchanged, and never grows the list (also game.js:519-545) |
| Game.HandledSemantics | game.js:519-545 | a gift scores 50 × the route's gift value and advances deliver10, plus collect3Gold on a gold draw below 0.1; a power-up activates and scores 100 |
| Game.CollectFromLeavesPassedOver | game.js:496-503 | for distinct collectibles, the pass from index i keeps the items before i and leaves exactly `PassedOver` of the rest: every overlapping item that is tested is taken, and the item right after a taken one moves into its place and is never tested or collected in that pass |
| Game.SecondOfAdjacentPairIsSkipped | game.js:496-503 | removing from the list while iterating it skips the element after a collected one: of two overlapping gifts only the first is collected |
| Game.StepNeverLowersScore | game.js:120-180 | a whole frame never lowers the score or the high score |
| Game.Game.constructor | game.js:3-40 | every component in its initial state, with the saved high score |
| Game.Game.Update | game.js:120-166 | moves all eight components exactly as the world step function, keeping every invariant |
| Game.Game.FinishFrame | game.js:158-166 | adds the time score and updates the score goal |
| Game.Game.AdvanceManagers | game.js:121-128 | counts the frame, ticks the power-ups and advances route, moment and ability, crediting a survived snowstorm |
| Game.Game.MoveEntities | game.js:131-155 | combines the multipliers and moves the sleigh, the obstacles and the collectibles |
| Game.Game.MoveObstacles | game.js:146-151 | updates the obstacles with the combined spawn and speed multipliers |
| Game.Game.MoveCollectibles | game.js:154-155 | updates the collectibles with the sleigh speed and gift spawn multipliers |
| Game.Game.MoveSleigh | game.js:137-143 | updates the sleigh under the wind force of the current obstacles |
| Game.Game.CheckCollisions | game.js:469-504 | resolves obstacle hits and then collects pickups, stopping at a fatal hit |
| Game.Game.ResolveObstacles | game.js:474-492 | the obstacle loop has the effect of the obstacle-pass function |
| Game.Game.CollectPickups | game.js:496-503 | the pickup loop has the effect of the collect function, skipping included |
| Game.Game.HandleCollectible | game.js:519-545 | applies one pickup's score, power-up and goal effects |
| Game.Game.UpdateGoals | game.js:185-194 | updates the score goal exactly when the score has reached 5000 |
| Game.Game.ChooseRoute | game.js:45-57 | a left or right key press acts exactly as route selection and touches nothing else |
| Game.Game.UseAbility | abilityManager.js:45-66 | the ability key activates the ability and, when it was usable, advances useAbility10 (also the key listener in abilityManager.js:14-22) |
| Game.Game.Reset | game.js:550-560 | resets the sleigh, clears obstacles and collectibles, and replaces route, moment and ability with fresh managers |
| Game.Game.StartGame | gameState.js:78-91 | starts the run and then resets the game through the restart callback (also game.js:24) |

## Left out

- Rendering and the DOM: every `draw*` method, `updateUI`, the cooldown-progress display, the achievements screen and the moment banner.
- Input plumbing: the keyboard listeners become `Sleigh.Player.SetKeys`, `Game.Game.ChooseRoute` and `Game.Game.UseAbility`.
  `requestAnimationFrame` becomes one `Game.Game.Update` call per frame.
- Persistence: `localStorage` is not modelled.
  - The saved high score is the constructor argument.
  - `saveHighScore`, `saveProgress` and `loadProgress` are outside the model.
  - `loadEquipped` takes the already-parsed saved choices (`PerCategory<Option<string>>`), so JSON parsing and its failure path are not modelled.
- Cosmetics that never reach the game state: camera shake, near misses, snowflakes, the parallax layers and the wind-gust particle effects.
- Floating point: the model uses mathematical reals, not IEEE doubles.
  - `Sleigh.ParticleLifetime`: a particle is created with life 1.0 and, in reals, is gone after 10 fades (its own update's fade included). With doubles, 1.0 minus ten steps of 0.1 is about 1.4e-16, still above 0, so the particle survives one fade more.
- Randomness and time: `Math.random`, `Math.sin` and `Date.now` are inputs of each frame.
  - `Date.now` appears only as the derived integer time score.
  - `Session.GameState.UpdateScore`: the model reads the clock once per frame and passes that one time score to every `updateScore` call of the frame. The source reads `Date.now()` again on each call (gameState.js:154), so pickups scored in the same frame can see slightly different time scores.
  - `startTime`, `pausedTime` and `pauseStartTime` are not modelled.
- Values the frame update computes but never uses:
  - the dash's `speedMultiplier`;
  - the route-and-moment `scoreMultiplier` (game.js:161);
  - `getSpeedMultiplier` (modelled, never called);
  - the obstacle size range constants;
  - `spawnCounter`;
  - the soot timer of the chimney.
- `getGoalProgress`: a display-only percentage query.
- `Collectibles.CollectibleManager.RemoveCollectible`: the source finds the object by identity. The model finds the first equal value, which is the same whenever the list is free of duplicates (`Collectibles.RemoveDistinct`).
- JavaScript objects indexed by strings become records with one field per key: `PerKind` for power-ups and `PerCategory` for cosmetic categories. Route, moment, ability, obstacle and collectible type strings become enumerations.
- `Ability.AbilityManager.constructor`: only the dash is modelled as the initial kind, since nothing in the source changes `abilityType`. The other kinds' durations and effects are kept for completeness.
- `Obstacles.OrOne`: a missing modifier object or field defaults to 1.0, as the `|| 1.0` fallback does. A modifier that is explicitly 0 also becomes 1.0 there, and the model keeps that.
- `setupControls` is called again on every reset, piling up listeners. Repeated listeners are not modelled; one key press is one activation.
- `getObstacles` and `getCollectibles` are direct field reads in the model.
- `Game.Game.Update`: the pass over collectibles iterates a list that is being modified. The model states the resulting skip-after-removal order for distinct items (`Game.CollectFromLeavesPassedOver`, with the instance `Game.SecondOfAdjacentPairIsSkipped`) rather than a general iterator semantics.
- `Session.GameState.ActivatePowerUp`: switches a power-up on with its corrected duration (300, 600 or 900 frames), not with the NaN timer that gameState.js:165 produces. In the shipped code a power-up never expires (`Session.AsWrittenPowerUpNeverExpires`), and the class does not model that; see "## Findings".
- `Game.Game.Update`: the whole frame step (`Game.WorldStep`, and through it `Game.HandledSemantics` and `Game.PowerUpShieldAbsorbsOneHit`) uses the corrected durations, not the as-written ones. In the shipped code a power-up shield stays on until it absorbs a hit, however late that is, and double score lasts for the rest of the run. The model does not capture either.

## Findings

| source | as written | input that shows it | evidently intended | confidence | as-written member | corrected member |
|---|---|---|---|---|---|---|
| gameState.js:165 | the configuration key is built as `toUpperCase()` followed by `_` before every capital, so `slowMotion` becomes `_S_L_O_W_M_O_T_I_O_N_DURATION`; that key does not exist, the timer becomes NaN, and `NaN <= 0` is false, so the power-up never expires | any `activatePowerUp('shield')`, e.g. picking up a shield gift | look up `SLOW_MOTION_DURATION`, `SHIELD_DURATION` or `DOUBLE_SCORE_DURATION` (300, 600 or 900 frames) and expire after that many frames | not executed | Session.AsWrittenPowerUpNeverExpires | Session.PowerUpLastsItsDuration |
