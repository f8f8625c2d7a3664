# Zombie logic of the CGV shooter, in Dafny

This project models the game logic of a browser zombie shooter written in
JavaScript on three.js and yuka, and proves properties of it. The model covers:

- the setup-scene zombie (`SuperZombie`). This includes its eight-state
  behaviour machine (Init, Idle, Walking, Aggravated, Attack, Injured, Startled,
  Dead), its per-body-part damage pass over seven hit colliders, and its update
  gating;
- the setup-scene enemy manager, which creates two zombies and updates only the
  ones whose model has loaded;
- the spawn-point registry: nearest spawn with first-wins ties, a random spawn,
  and flattening the spawns onto the ground;
- the difficulty presets;
- the keyboard and mouse tables, with a latch that reports each press once;
- the round timer (MM:SS) and the kill counter;
- the scene's frame rules: the frame-time clamp, the zoom bounded to [30, 45],
  the shot, enemy updates gated on the environment, and draining the
  player-damage accumulator;
- the older zombie state table and the older manager, which pins loaded
  zombies to their lanes.

Each stateful JavaScript object is a Dafny `class` with the same fields. Each
method is proved against a pure function over a value snapshot of those fields,
for example `SuperZombie.Snapshot()` with `SuperZombieStates.Execute` and
`SuperZombies.Tick`, or `EventManager.Contents()` with `Events.KeyDown`. The
lemmas then state what the game promises about those functions. Health, speed
and distances are exact `real`s. A perception query (can the zombie see, smell
or reach the player) and the attack and death clip times are inputs of a zombie
step, one `Percept` record each. `MoveToTarget` is only reported, never
interpreted. The random number of the random spawn is a parameter.

Modules, one per source file: `Vectors`, `Wrappers`, `ZombieColliders`,
`ZombieBase`, `SuperZombieStates`, `SuperZombies`, `EnemyManagers`,
`EnemySpawner`, `Difficulty`, `Events`, `GameUi`, `Scenes`, `LegacyZombies`,
`LegacyEnemies`.

Where the state codes come from. The setup-scene zombie registers its states
under `IDLE..DEAD` and `10000`, but its base file defines no such constants. The
model uses 0..6, the values the older `src/hostiles/ZombieBase.js` gives those
names, and 10000 for Init.

Where the written description and the code differ, the model follows the code.
Death and injury are tested with a strict `< 0` (`health < 0`, `legHealth < 0`),
so a value of exactly 0 kills or cripples nothing. The older zombie's Injured
state, by contrast, tests `health <= 0`.

## Model

| member | source | states |
|---|---|---|
| Vectors.Dist2 | src/scenes/setup/hostiles/EnemySpawner.js:51-54 | squared distance is non-negative, and zero between equal points |
| Vectors.Dist2Symmetric | src/scenes/setup/hostiles/EnemySpawner.js:51-54 | the distance from a to b equals the distance from b to a |
| ZombieColliders.PartTags | src/scenes/setup/hostiles/ZombieCollider.js:4-10 | the seven part tags are the distinct values 0..6 |
| ZombieColliders.NewCollider | src/scenes/setup/hostiles/ZombieCollider.js:14-20 | a new collider stores its type, is a collider, has no pending hit and zero damage |
| ZombieColliders.OnlyHandAmongTagsIgnoresHits | src/scenes/setup/hostiles/SuperZombie.js:284-294 | of the seven tags, HAND is exactly the one whose case never reads a pending hit |
| ZombieBase.NewZombie | src/scenes/setup/hostiles/ZombieBase.js:5-9 | a new base zombie has health 100 and speed 1 |
| ZombieBase.OnUpdate | src/scenes/setup/hostiles/ZombieBase.js:11 | the base update hook changes nothing |
| ZombieBase.ResetAllActions | src/scenes/setup/hostiles/ZombieBase.js:13 | the base reset hook changes nothing |
| SuperZombieStates.Code | src/scenes/setup/hostiles/SuperZombie.js:104-112 | Init is registered under 10000 and the other seven states under 0..6 |
| SuperZombieStates.CodesDistinct | src/hostiles/ZombieBase.js:39-45 | two states share a code only if they are the same state |
| SuperZombieStates.ChangeTo | src/scenes/setup/hostiles/SuperZombieStates.js:45 | after `changeTo(s)` the machine is in state s |
| SuperZombieStates.EnterEffects | src/scenes/setup/hostiles/SuperZombieStates.js:53-275 | each state's enter hook: Idle stops moving; Walking sets speed 1, moving, path found; Aggravated the same with speed 1.5; Attack stops moving; Injured sets moving and path found; Dead stops moving; Init and Startled change nothing |
| SuperZombieStates.InitWaitsForSetup | src/scenes/setup/hostiles/SuperZombieStates.js:42-47 | Init does nothing until setup is complete, then aims at (0,0,20) and becomes Idle |
| SuperZombieStates.DeathThenInjuryFirst | src/scenes/setup/hostiles/SuperZombieStates.js:61-69 | in Idle, Walking, Aggravated and Attack, health below 0 leads to Dead before anything else, and otherwise leg health below 0 leads to Injured (strict tests) |
| SuperZombieStates.IdleReacts | src/scenes/setup/hostiles/SuperZombieStates.js:72-79 | Idle becomes Aggravated exactly when the player is seen and a path exists; otherwise smelling the player turns it by 0.5·speed·deltaTime |
| SuperZombieStates.WalkingOrder | src/scenes/setup/hostiles/SuperZombieStates.js:111-121 | Walking checks no-path (to Idle), then sight (to Aggravated), and only then moves |
| SuperZombieStates.AggravatedPursues | src/scenes/setup/hostiles/SuperZombieStates.js:151-167 | Aggravated copies the player's position into the target and moves; losing sight (to Idle) wins over attack range (to Attack) |
| SuperZombieStates.AggravatedIgnoresNoPath | src/scenes/setup/hostiles/SuperZombieStates.js:154-157 | the outcome of an Aggravated step does not depend on `noPath` |
| SuperZombieStates.AttackStrike | src/scenes/setup/hostiles/SuperZombieStates.js:197-202 | past half the clip, in range and without cooldown, the attack deals 40 and sets the cooldown, staying in Attack |
| SuperZombieStates.AttackWithoutStrike | src/scenes/setup/hostiles/SuperZombieStates.js:204-211 | otherwise no damage is dealt; progress below 0.5 clears the cooldown, exactly 0.5 leaves it; out of range goes back to Aggravated |
| SuperZombieStates.InjuredCrawls | src/scenes/setup/hostiles/SuperZombieStates.js:233-240 | Injured leaves only for Dead (health below 0) and deals 5 while in range |
| SuperZombieStates.StartledInert | src/scenes/setup/hostiles/SuperZombieStates.js:255-258 | a Startled step changes nothing |
| SuperZombieStates.DeadOnlyFlagsIsDead | src/scenes/setup/hostiles/SuperZombieStates.js:277-281 | a Dead step only sets `isDead`, once the death clip has played to its end |
| SuperZombieStates.InitAndStartledNeverEntered | src/scenes/setup/hostiles/SuperZombieStates.js:38-287 | no step enters Init or Startled |
| SuperZombieStates.CooldownHolds | src/scenes/setup/hostiles/SuperZombieStates.js:197-206 | with the cooldown set, no step at progress 0.5 or more clears it |
| SuperZombieStates.StrikeSetsCooldown | src/scenes/setup/hostiles/SuperZombieStates.js:200-201 | a strike always sets the cooldown |
| SuperZombieStates.OneStrikePerCycle | src/scenes/setup/hostiles/SuperZombieStates.js:192-211 | over any run of steps in the second half of a clip there is at most one strike, and none if the cooldown was already set |
| SuperZombieStates.DeadIsTerminal | src/scenes/setup/hostiles/SuperZombieStates.js:265-287 | from Dead, any run of steps stays Dead and changes nothing but `isDead`, which stays set once set |
| SuperZombieStates.DeathNeedsNegativeHealth | src/scenes/setup/hostiles/SuperZombieStates.js:61-62 | a step reaches Dead only from a health below 0 |
| SuperZombies.DrainAll | src/scenes/setup/hostiles/SuperZombie.js:255-367 | the pass keeps the collider count and clears exactly the pending hits it reads |
| SuperZombies.SkeletalColliders | src/scenes/setup/hostiles/SuperZombie.js:169-177 | seven fresh colliders, one per distinct tag |
| SuperZombies.NoPendingNoLoss | src/scenes/setup/hostiles/SuperZombie.js:262-362 | colliders without a pending hit cost nothing and are left as they are |
| SuperZombies.SoleHitCosts | src/scenes/setup/hostiles/SuperZombie.js:255-367 | with one pending hit, the pass costs exactly that collider's share |
| SuperZombies.PendingHitDamage | src/scenes/setup/hostiles/SuperZombie.js:257-362 | head costs 3d health; torso 1.5d; upper leg 0.8d health and d leg health; lower leg d and 1.3d; the hit is cleared and other colliders are untouched |
| SuperZombies.QuietPassChangesNothing | src/scenes/setup/hostiles/SuperZombie.js:262-362 | a pass without pending hits changes nothing |
| SuperZombies.DrainedCostsNothing | src/scenes/setup/hostiles/SuperZombie.js:264-360 | what a pass leaves behind costs nothing in a later pass |
| SuperZombies.PassIsIdempotent | src/scenes/setup/hostiles/SuperZombie.js:254-368 | each hit is applied exactly once: a second pass without new hits changes nothing |
| SuperZombies.HandIgnored | src/scenes/setup/hostiles/SuperZombie.js:284-294 | a hand collider costs nothing and keeps its pending flag |
| SuperZombies.HeadShotScenario | src/scenes/setup/hostiles/SuperZombie.js:257-266 | a head hit of 20 on a quiet idle zombie at 100 health leaves it at 40, still idle |
| SuperZombies.TorsoKillScenario | src/scenes/setup/hostiles/SuperZombie.js:268-282 | a torso hit of 80 leaves health at -20, and the next update moves the zombie to Dead |
| SuperZombies.Initial | src/scenes/setup/hostiles/SuperZombie.js:79-112 | a new zombie is in Init (10000), not set up, with no colliders, base health, speed 1.1 and no damage dealt |
| SuperZombies.InertUntilSetup | src/scenes/setup/hostiles/SuperZombie.js:237-238 | an update before setup completes changes nothing |
| SuperZombies.SuperZombie.constructor | src/scenes/setup/hostiles/SuperZombie.js:51-112 | the fields are those of `Initial`, with no collision shape |
| SuperZombies.SuperZombie.OnModelLoaded | src/scenes/setup/hostiles/SuperZombie.js:117-128 | loading completes the setup; when the model has a skinned mesh, the colliders become the seven skeletal colliders, otherwise they stay as they were; nothing else changes |
| SuperZombies.SuperZombie.CreateSkeletalColliders | src/scenes/setup/hostiles/SuperZombie.js:137-183 | the traversal replaces the collider array by a new array of the seven skeletal colliders once per skinned mesh; with no skinned mesh the array is unchanged; nothing else changes |
| SuperZombies.SuperZombie.SetSpeed | src/scenes/setup/hostiles/SuperZombie.js:191-192 | only the speed changes |
| SuperZombies.SuperZombie.ToggleCollisionShapeVisibility | src/scenes/setup/hostiles/SuperZombie.js:185-189 | the collision shape's visibility is set when the shape exists |
| SuperZombies.SuperZombie.ChangeTo | src/scenes/setup/hostiles/SuperZombieStates.js:53-275 | the fields become `SuperZombieStates.ChangeTo` of the old ones |
| SuperZombies.SuperZombie.Execute | src/scenes/setup/hostiles/SuperZombieStates.js:38-287 | the fields become `SuperZombieStates.Execute` of the old ones; `moved` says whether `MoveToTarget` was called |
| SuperZombies.SuperZombie.ExecuteInit | src/scenes/setup/hostiles/SuperZombieStates.js:42-47 | the Init step in place |
| SuperZombies.SuperZombie.ExecuteIdle | src/scenes/setup/hostiles/SuperZombieStates.js:60-82 | the Idle step in place |
| SuperZombies.SuperZombie.ExecuteWalking | src/scenes/setup/hostiles/SuperZombieStates.js:100-122 | the Walking step in place |
| SuperZombies.SuperZombie.ExecuteAggravated | src/scenes/setup/hostiles/SuperZombieStates.js:140-168 | the Aggravated step in place |
| SuperZombies.SuperZombie.ExecuteAttack | src/scenes/setup/hostiles/SuperZombieStates.js:182-217 | the Attack step in place |
| SuperZombies.SuperZombie.ExecuteInjured | src/scenes/setup/hostiles/SuperZombieStates.js:232-241 | the Injured step in place |
| SuperZombies.SuperZombie.ExecuteDead | src/scenes/setup/hostiles/SuperZombieStates.js:277-281 | the Dead step in place |
| SuperZombies.SuperZombie.UpdateColliders | src/scenes/setup/hostiles/SuperZombie.js:254-368 | the loop over the collider array lowers health and leg health by the total share of the pending hits and clears them, as `Pass` does |
| SuperZombies.SuperZombie.UpdateCollider | src/scenes/setup/hostiles/SuperZombie.js:256-366 | one case of the switch: that collider's share is taken off and its hit cleared; the other colliders are untouched |
| SuperZombies.SuperZombie.OnUpdate | src/scenes/setup/hostiles/SuperZombie.js:237-252 | the fields become `Tick` of the old ones: nothing before setup, then store the time step, run one state step, then the damage pass |
| EnemyManagers.SpawnPosition | src/scenes/setup/hostiles/EnemyManager.js:14 | zombie i is placed at (2i, 0, 5) |
| EnemyManagers.Stepped | src/scenes/setup/hostiles/EnemyManager.js:33-36 | a zombie that is not set up is left as it is |
| EnemyManagers.EnemyManager.constructor | src/scenes/setup/hostiles/EnemyManager.js:5-21 | exactly `zombieNum` = 2 new zombies are appended in index order, zombie i at (2i, 0, 5) |
| EnemyManagers.EnemyManager.ToggleCollisionBoxVisibility | src/scenes/setup/hostiles/EnemyManager.js:24-30 | only set-up zombies are toggled; the list and all zombie fields stay the same |
| EnemyManagers.EnemyManager.OnUpdate | src/scenes/setup/hostiles/EnemyManager.js:32-44 | each set-up zombie is updated with its own percept, the others are untouched, and the list keeps its length |
| EnemyManagers.EnemyManager.UpdateOne | src/scenes/setup/hostiles/EnemyManager.js:35-41 | one loop iteration touches only zombie i |
| EnemySpawner.Spawner.constructor | src/scenes/setup/hostiles/EnemySpawner.js:5-9 | spawns start empty and setup incomplete |
| EnemySpawner.Spawner.OnMapLoaded | src/scenes/setup/hostiles/EnemySpawner.js:15-27 | the found positions are appended; afterwards every spawn has y = 0 with x and z unchanged, and setup is complete |
| EnemySpawner.Spawner.GetSpawns | src/scenes/setup/hostiles/EnemySpawner.js:35-37 | the spawn list: empty exactly when a random draw finds nothing, and holding every spawn a draw returns |
| EnemySpawner.Spawner.GetRandomSpawn | src/scenes/setup/hostiles/EnemySpawner.js:39-44 | nothing on an empty list; otherwise the spawn at floor(r·n), always in bounds |
| EnemySpawner.Spawner.EverySpawnDrawable | src/scenes/setup/hostiles/EnemySpawner.js:43 | every spawn is drawn for some random number in [0, 1) |
| EnemySpawner.Spawner.GetClosestSpawn | src/scenes/setup/hostiles/EnemySpawner.js:46-61 | nothing on an empty list; otherwise a spawn that no spawn is strictly closer than, the earliest such one |
| Difficulty.Presets | src/scenes/setup/hostiles/Difficulty.js:1-34 | the table has exactly the keys EASY, NORMAL, HARD and IMPOSSIBLE, with the values (3, 50, 1, 10), (5, 100, 1.6, 15), (7, 200, 2.0, 20) and (12, 500, 3.2, 25) |
| Difficulty.LevelsIncrease | src/scenes/setup/hostiles/Difficulty.js:1-27 | every field strictly increases from each level to every harder one |
| Events.GetKeyIndex | src/Events.js:168-197 | "Any", "Tab", "CapsLock", "Shift", "Control" and "Alt" map to 0..5 in that order, every other key that is not one code unit maps to -1, and a one-unit key maps to at least -32 |
| Events.SingleUnitSlots | src/Events.js:169-172 | two one-unit keys share a slot exactly when they agree after upper-casing |
| Events.KeyNamesDistinctSlots | src/Events.js:168-244 | two different `KEY` names never share a slot of the same table, so one key's latch never answers for another |
| Events.LetterDigitSpaceIndices | src/Events.js:169-172 | letters map to 33..58 in either case, digits to 16..25, space to 0 |
| Events.KeyNamesInBounds | src/Events.js:200-244 | every `KEY` name has a slot inside its table |
| Events.PastTheTable | src/Events.js:25 | characters from '_' upwards that are not lower-case letters map past the 63-entry table |
| Events.InitialTables | src/Events.js:25-27 | the tables hold 63, 10 and 10 inputs, all up and unreported |
| Events.KeyPressed | src/Events.js:32-56 | a recognised key answers down-and-not-yet-reported, and a yes marks it reported; every other entry stays as it was; an unknown key answers no and a one-unit key past the table throws, both changing nothing |
| Events.KeyHeld | src/Events.js:58-73 | a recognised key answers whether it is down, an unknown key answers no, and it throws exactly for a one-unit key past the table |
| Events.KeyReleased | src/Events.js:75-77 | released is the exact negation of held, and throws exactly when held does |
| Events.KeyDown | src/Events.js:107-122 | a recognised key and Any go down with their reported flags kept, and every other entry stays as it was; an unknown key changes nothing; a one-unit key past the table puts Any down and throws |
| Events.KeyUp | src/Events.js:124-143 | a recognised key and Any go up and unreported, and every other entry stays as it was; an unknown key changes nothing; a one-unit key past the table puts Any up and throws |
| Events.MouseReleased | src/Events.js:98-100 | released is the negation of held |
| Events.MouseHeld | src/Events.js:91-96 | a button is held exactly when it is one of 0..ANY and down |
| Events.MousePressed | src/Events.js:79-89 | a button 0..ANY answers down-and-not-yet-reported, and a yes marks it reported; every other entry stays as it was; other buttons answer no and change nothing |
| Events.MouseDown | src/Events.js:145-155 | a button below ANY and ANY go down with their reported flags kept, and every other entry stays as it was; ANY and above, or a negative button, change nothing |
| Events.MouseUp | src/Events.js:157-166 | a button below ANY and ANY go up and unreported, and every other entry stays as it was; ANY and above, or a negative button, change nothing |
| Events.OncePerPress | src/Events.js:40-54 | for one entry under key repeats and pressed queries, at most one query reports it pressed, and none once its press was reported |
| Events.KeyReportsFollowSlot | src/Events.js:32-56 | on the tables, the pressed query and the keydown handler change a key's slot exactly as the one-entry query and repeat do, so the number of yes answers is the same |
| Events.KeyPressedOncePerPress | src/Events.js:40-54 | on the tables, while a recognised key stays down, at most one pressed query on it answers yes, and none once its press was reported |
| Events.ButtonReportsFollowSlot | src/Events.js:79-89 | on the tables, the pressed query and the mousedown handler change a button's entry exactly as the one-entry query and repeat do |
| Events.ButtonPressedOncePerClick | src/Events.js:84-87 | while a button stays down, at most one pressed query on it answers yes, and none once its press was reported |
| Events.PressedOnce | src/Events.js:42-47 | a reported press is not reported again, even after a key repeat |
| Events.ReleaseRearms | src/Events.js:107-143 | after keydown the key is held, after keyup it is released, and a new press after a release is reported |
| Events.AnyReleasedEarly | src/Events.js:130-131 | releasing any key releases Any, even while another key is still held |
| Events.UnknownKeyIgnored | src/Events.js:108-111 | an unknown key changes nothing and reads as not pressed |
| Events.PastTheTableThrows | src/Events.js:112-117 | a one-unit key past the table throws on queries and handlers; keydown has already put Any down |
| Events.MouseOutOfRange | src/Events.js:79-82 | mouse queries outside 0..5 answer no and change nothing; the handlers ignore 5 and above |
| Events.MouseClick | src/Events.js:145-166 | a click puts the button and ANY down and is reported once; the release puts both up |
| Events.EventManager.constructor | src/Events.js:25-27 | the three tables are fresh and all up |
| Events.EventManager.IsKeyPressed | src/Events.js:32-56 | in place, as `KeyPressed` |
| Events.EventManager.IsKeyHeld | src/Events.js:58-73 | reads the tables: a recognised key answers whether its entry is down, an unknown key answers no, a one-unit key past the table throws |
| Events.EventManager.IsKeyReleased | src/Events.js:75-77 | reads the tables, as `KeyReleased` |
| Events.EventManager.IsMouseButtonPressed | src/Events.js:79-89 | in place, as `MousePressed` |
| Events.EventManager.IsMouseButtonHeld | src/Events.js:91-96 | reads the tables: held exactly when the button is one of 0..ANY and its entry is down |
| Events.EventManager.IsMouseButtonReleased | src/Events.js:98-100 | reads the tables, as `MouseReleased` |
| Events.EventManager.OnKeyDown | src/Events.js:107-122 | in place, as `KeyDown` |
| Events.EventManager.OnKeyUp | src/Events.js:124-143 | in place, as `KeyUp` |
| Events.EventManager.OnMouseDown | src/Events.js:145-155 | in place, as `MouseDown` |
| Events.EventManager.OnMouseUp | src/Events.js:157-166 | in place, as `MouseUp` |
| Events.Registry.constructor | src/Events.js:15 | no instance exists yet |
| Events.NewEventManager | src/Events.js:14-30 | the first construction builds and registers the instance; later ones return it |
| GameUi.NatToString | src/scenes/setup/gameUI.js:44 | the decimal text is non-empty and all digits |
| GameUi.NatToStringRoundTrip | src/scenes/setup/gameUI.js:44 | the decimal text reads back as the number; it is one digit below 10 and two below 100 |
| GameUi.Pad2 | src/scenes/setup/gameUI.js:44 | padding leaves two or more characters alone and puts zeros in front of a shorter text |
| GameUi.FormatTimeRoundTrip | src/scenes/setup/gameUI.js:41-45 | below 6000 seconds the text has length 5, a colon in the middle, and 60·MM + SS equals the time |
| GameUi.RoundStartsAtFourMinutes | src/scenes/setup/gameUI.js:10 | 240 seconds read "04:00" |
| GameUi.KillTextRoundTrip | src/scenes/setup/gameUI.js:49 | the kill text is "KILLS: " followed by digits that read back as the count |
| GameUi.GameUI.constructor | src/scenes/setup/gameUI.js:3-16 | time 240, no kills, timer running |
| GameUi.GameUI.StartTimer | src/scenes/setup/gameUI.js:22-32 | the display shows the time and the timer runs |
| GameUi.GameUI.Tick | src/scenes/setup/gameUI.js:24-31 | each tick takes exactly one second off; at 0 the timer stops and game over shows; the time never goes below 0 |
| GameUi.GameUI.StopTimer | src/scenes/setup/gameUI.js:34-39 | afterwards no timer runs, however often it is called |
| GameUi.GameUI.UpdateTimerDisplay | src/scenes/setup/gameUI.js:41-45 | the display shows the formatted time |
| GameUi.GameUI.IncrementKills | src/scenes/setup/gameUI.js:47-50 | one more kill, and the text shows the new count |
| GameUi.GameUI.GameOver | src/scenes/setup/gameUI.js:52-55 | game over is shown |
| GameUi.GameUI.RestartGame | src/scenes/setup/gameUI.js:57-65 | time 240, no kills, "KILLS: 0", game over hidden, timer running |
| Scenes.ClampDelta | src/scenes/setup/StartupScene.js:137 | the time step is at most 0.5, equal to the input when that is at most 0.5 |
| Scenes.FovStaysInRange | src/scenes/setup/StartupScene.js:140-151 | a field of view in [30, 45] stays in it and moves by at most one degree; zooming never goes below 30 and releasing never above 45 |
| Scenes.ZoomBound | src/scenes/setup/StartupScene.js:140-145 | n frames of zoom from [30, 45] give max(fov - n, 30) |
| Scenes.ZoomSettles | src/scenes/setup/StartupScene.js:142-144 | fifteen frames of zoom reach 30 and stay there |
| Scenes.StartupScene.constructor | src/scenes/setup/StartupScene.js:20-35 | the scene gets the shared event tables, a new enemy manager and a new interface |
| Scenes.StartupScene.Zoom | src/scenes/setup/StartupScene.js:140-151 | the field of view takes one `FovStep` |
| Scenes.StartupScene.OnUpdate | src/scenes/setup/StartupScene.js:136-171 | one zoom step from the right button; a left press is consumed and fires one shot, even before the environment is ready; zombies are updated with the clamped time step only once the environment is ready |
| Scenes.StartupScene.OnPreRender | src/scenes/setup/StartupScene.js:173-180 | positive player damage is reset to 0 and starts the damage effects; anything else is left alone |
| Scenes.StartupScene.OnZombieKilled | src/scenes/setup/StartupScene.js:132-134 | the kill count goes up by exactly one |
| LegacyZombies.Code | src/hostiles/ZombieBase.js:39-45 | the states are coded 0..6 |
| LegacyZombies.CodesDistinct | src/hostiles/ZombieBase.js:39-45 | the codes are distinct |
| LegacyZombies.NewZombie | src/hostiles/ZombieBase.js:49-62 | a new zombie has no current state, health 100, is not aggroed and not dead |
| LegacyZombies.Changed | src/hostiles/ZombieBase.js:84 | a change ends in the requested state and keeps the aggro flag |
| LegacyZombies.AggroRule | src/hostiles/ZombieBase.js:81-105 | Idle and Walking leave exactly when aggroed, and then for Aggravated |
| LegacyZombies.AttackRule | src/hostiles/ZombieBase.js:118-141 | Aggravated goes to Attack in range; Attack goes to Walking out of range |
| LegacyZombies.InjuryCosts10 | src/hostiles/ZombieBase.js:149-153 | entering Injured takes exactly 10 health |
| LegacyZombies.InjuredDiesAtZero | src/hostiles/ZombieBase.js:155-160 | Injured goes to Dead exactly when health is 0 or below (not strict), setting `dead` |
| LegacyZombies.StartledWalks | src/hostiles/ZombieBase.js:173-176 | Startled always goes to Walking |
| LegacyZombies.TargetsOfExecute | src/hostiles/ZombieBase.js:75-197 | no step enters Idle, Injured or Startled |
| LegacyZombies.RunFacts | src/hostiles/ZombieBase.js:183-197 | Dead is terminal; an unstarted machine never moves; health never rises; `dead` stays set |
| LegacyZombies.LegacyZombie.constructor | src/hostiles/ZombieBase.js:49-62 | the fields are those of `NewZombie` |
| LegacyZombies.LegacyZombie.Change | src/hostiles/ZombieBase.js:148-153 | in place, as `Changed` |
| LegacyZombies.LegacyZombie.OnUpdate | src/hostiles/ZombieBase.js:64-66 | in place, as `Execute` |
| LegacyEnemies.LegacySuperZombie.constructor | src/hostiles/SuperZombie.js:6-12 | not set up, not running, no mesh |
| LegacyEnemies.LegacySuperZombie.OnModelLoaded | src/hostiles/SuperZombie.js:20-43 | the mesh exists; the zombie is set up and running |
| LegacyEnemies.LegacySuperZombie.OnUpdate | src/hostiles/SuperZombie.js:52-61 | a running zombie moves 0.05 along z |
| LegacyEnemies.LegacyEnemyManager.constructor | src/hostiles/EnemyManager.js:5-17 | exactly 20 distinct new zombies, none loaded |
| LegacyEnemies.LegacyEnemyManager.OnUpdate | src/hostiles/EnemyManager.js:19-31 | each loaded zombie at index i ends at (2i, 0, 5), where i counts all zombies; the others are untouched and the list keeps its length |

## Left out

- Rendering, audio, animation mixing, bone-to-collider transforms, model and map
  loading, and all console output. The callbacks of the loaders are modelled as
  the methods `OnModelLoaded` and `OnMapLoaded`, and a failed load (which only
  logs an error) is not.
- Perception (`CanSeePlayer`, `CanSmellPlayer`, `CanAttack`), `MoveToTarget`,
  path finding and the clip times are not defined in these files. They are
  inputs (`Percept`), and a move is only reported.
- `legHealth`, `playerPos` and `targetPos` are read but never assigned in these
  files. They enter as the `Unassigned` record. `noPath`, `attackCooldown` and
  `isDead` start false, which is how JavaScript's undefined behaves in every test
  the code makes. `deltaTime` starts at 0 instead of null. `yaw` (the mesh
  rotation) starts at 0 rather than at the loaded model's rotation.
- Aggravated copies `playerPos` into `targetPos` by reference. The model copies
  the value, so later mutation through the shared vector is not captured.
- `OnUpdate`'s try/catch: an exception in a zombie update (for example, a
  missing bone) is not modelled.
- SuperZombies.SuperZombie.SetSpeed: the animation time scales it also sets are
  not modelled.
- The manager methods `BulletHitCheck` and `EnablePathFinding`, and the field
  `totalPlayerDamage`, are used by the scene but not defined by the manager
  shown. The shot is reported as the `fired` result of the scene's update.
  `totalPlayerDamage` is a manager field that starts at 0, and no zombie adds
  to it. Path finding is not modelled.
- Scenes.StartupScene.OnUpdate: the environment manager's ready flag is a
  parameter, because no file shown sets it. The player and gun updates, the
  stats, the projection matrix, and the camera's position and direction for the
  shot are not modelled.
- Scenes.StartupScene.constructor: the camera, renderer, scene graph, skybox,
  lightning, player, gun and collision managers are not modelled. The event
  tables are passed in, because the source builds them once at module load.
- `toggleCollisionShapeVisibility` reads a `collisionShape` field that nothing
  assigns, so in the source it has no effect. The model keeps that field as
  `NoShape`/`Shape` and proves that the toggle changes nothing else.
- SuperZombies.SuperZombie.constructor: the setup scene's base class
  (src/scenes/setup/hostiles/ZombieBase.js:4-9) sets only `health` and `speed`
  and creates no state machine, so as written the constructor throws a
  TypeError at the first `this.stateMachine.add` (SuperZombie.js:104). The
  model assumes a yuka state machine holding the eight states, Init under 10000
  and the others under 0..6. Its `changeTo` runs the old state's `exit`, then
  the new state's `enter`. Its `update` runs the current state's `execute`.
- EnemySpawner.Spawner.GetSpawns returns the spawn list itself, so the caller
  can mutate it. The model returns a value. The y-normalisation in the source
  also writes through to the scene objects' positions, and the model does not
  capture that aliasing.
- Vectors.Dist2: the contract gives non-negativity, zero between equal points,
  and symmetry. It does not state that squared distances order points as
  `distanceTo` does. Square root is not modelled, and the solver does not close
  proofs that need the sign of a product. This ordering argument (square root is
  monotone, so the nearest spawn is the same) is by hand, not proved.
- SuperZombies.SuperZombie.CreateSkeletalColliders: the model's traversal meets
  only skinned meshes, given as a count. Bone lookup, other scene nodes and the
  colliders added to the scene are not modelled.
- Events.GetKeyIndex: upper-casing covers ASCII letters only. JavaScript's full
  Unicode mapping sends some other characters (such as 'ß', 'ı' and 'ſ') to ASCII
  letters. The model gives such characters their own code, which lies past the
  table.
- A thrown TypeError (a key past the 63-entry table) is an `Outcome` value, with
  the writes made before the throw kept. The browser's handling of the uncaught
  error is not modelled. Pointer lock and `preventDefault` in the mouse handler
  are not modelled. `ClearInputs` is empty in the source.
- The older zombie's states call yuka's `stateMachine.change` with a state's
  code. The model reads this as a change to the state registered under that
  code. Nothing in the shown code ever starts that machine, and the older
  `SuperZombie` overrides `OnUpdate` without running it. `canAttack` is not
  defined on the older zombie, so it is an input.
- The older `SuperZombie` inherits the older zombie's fields and state machine,
  but the model keeps only its load flag, running flag and mesh position. Its
  animation mixer update is not modelled.
- Floating-point rounding: all arithmetic is exact.
