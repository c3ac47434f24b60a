# Triangle Arena — a verified model of the game's core logic

Triangle Arena is a small browser arena shooter. The player's triangle ship
fights waves of enemy triangles. Ten kills win the run, and losing all hull
points loses it. Runs pay credits into a persistent ledger, and credits buy
hull upgrades. A preloader cuts the ship sprites out of a sprite sheet, and a
platform SDK service records gameplay state and leaderboard scores.

This project models that core in Dafny, one module per source file:

- `WaveSystem` (`wave_system.dfy`): the wave director. It maps a kill count
  to a wave and its difficulty parameters, and makes the weighted draw of an
  enemy movement pattern. The draw is a method with the source's
  accumulating loop.
- `MetaProgression` (`meta_progression.dfy`): the upgrade price, purchase
  eligibility and run reward.
- `ProgressStore` (`progress_store.dfy`): the progress ledger.
  - Pure functions give each operation's resulting record, and the
    normalisation of a stored record read back from storage.
  - The class `ProgressStore` holds the record, and its methods update it
    in place.
- `GameScene` (`game_scene.dfy`): the run state machine, as class `GameRun`.
  - It covers the one-way `ending` latch, the three collision handlers,
    damage, the shot cooldown, edge wrapping, enemy spawning, the enemy fire
    timer, bullet expiry, and the win score.
  - The run is connected to a `ProgressStore` and a `YandexService` object.
    Its invariant ties the ledger to the outcome of the run: an unfinished
    run has not touched the ledger, and a finished run has recorded exactly
    one win or one loss.
- `TextButtonPressController` (`text_button_press_controller.dfy`): the
  press/release/cooldown state machine behind every button.
  - It is a class over the four closure variables, with a pure transition
    function for each operation.
  - Event traces show the behaviour pinned by the unit tests, and a
    cooldown property holds for every trace.
- `PreloaderScene` (`preloader_scene.dfy`): sprite-sheet analysis. Its
  parts are the corner background colour, the foreground mask, in-place
  chroma keying, an explicit-stack flood fill that clears the mask, band-wise
  ship selection, and crop clipping.
- `YandexService` (`yandex_service.dfy`): the game's side of the platform
  SDK.
  - Modelled: the gameplay start/stop latch, the precedence of saved-data
    sources, leaderboard row mapping, the mock leaderboard, and where a
    submitted score goes.
  - The SDK itself is an input.
- `Common` (`common.dfy`) and `GameConfig` (`game_config.dfy`) hold shared
  helpers, such as JavaScript's `Math.floor`/`Math.round` on exact numbers,
  and the game constants.

Numbers:

- JavaScript numbers that the game normalises (kills, levels, credits,
  random draws, weights and multipliers) are exact `real`s.
- `Math.floor` is `.Floor`, and `Math.round(x)` is `(x + 1/2).Floor`.
- Game times, counters and pixel data are `int`s and bytes. The engine clock is taken to tick in whole milliseconds (see "## Left out").

The clock, random draws, pointer identities and the SDK's replies are
parameters of the operations that use them.

## Model

| member | source | states |
|---|---|---|
| WaveSystem.WaveForKills | src/game/logic/waveSystem.ts:23-26 | The wave is at least 1, and the normalised kill count lies in [4·(wave−1), 4·wave): one wave per four kills. |
| WaveSystem.WaveForKillsMonotone | src/game/logic/waveSystem.ts:23-26 | More kills never give an earlier wave. |
| WaveSystem.WaveForKillsExamples | src/game/logic/waveSystem.test.ts:5-10 | 0 and 3 kills are wave 1, 4 kills wave 2, 11 kills wave 3. |
| WaveSystem.WaveConfigFor | src/game/logic/waveSystem.ts:28-44 | The wave config's ranges: spawn delay in [560, 1400], at most 6 to 12 enemies, speed multiplier in [1, 1.55], fire-rate multiplier in [1, 1.5], chaser weight ≥ 1, strafer weight in [2, 6], dasher weight 0 exactly in wave 1 and ≥ 1 from wave 2. |
| WaveSystem.WaveConfigMonotone | src/game/logic/waveSystem.ts:28-44 | Difficulty never eases as kills grow: the wave, the enemy cap, both multipliers and the strafer and dasher weights never fall, and the spawn delay never rises. |
| WaveSystem.EnemyFireDelayRange | src/game/logic/waveSystem.ts:46-50 | The re-fire window starts at 320 ms or later and is at least 120 ms wide. Each end is the rounded base delay divided by the fire-rate multiplier, raised to its floor. |
| WaveSystem.FireDelayRangeMonotone | src/game/logic/waveSystem.ts:46-50 | As kills grow, neither end of the re-fire window rises. |
| WaveSystem.PressureRisesByWave | src/game/logic/waveSystem.test.ts:12-23 | Compared with 0 kills, 13 kills give a later wave, a shorter spawn delay, no lower enemy cap and a shorter maximum re-fire delay. |
| WaveSystem.ScaledDrawBelowTotal | src/game/logic/waveSystem.ts:60 | The clamped draw scaled by a positive total lies in [0, total). |
| WaveSystem.DrawnPattern | src/game/logic/waveSystem.ts:52-71 | With no positive weight the pattern is chaser. Otherwise the pattern has positive weight, and the scaled draw falls inside its interval of the cumulative weights, walked in the order chaser, strafer, dasher. |
| WaveSystem.OnlyWeightedPatternDrawn | src/game/logic/waveSystem.test.ts:25-37 | When only strafer has weight, every draw yields strafer. |
| WaveSystem.PickEnemyPattern | src/game/logic/waveSystem.ts:52-71 | The accumulating for-of walk returns exactly the drawn pattern. |
| MetaProgression.NextHpUpgradeCost | src/game/logic/metaProgression.ts:7-10 | The cost is 35 plus 20 per normalised level. |
| MetaProgression.CostStrictlyIncreasing | src/game/logic/metaProgression.ts:7-10 | A higher level costs strictly more: at least 20 more per level. |
| MetaProgression.CostExamples | src/game/logic/metaProgression.test.ts:10-13 | Level 0 costs 35, less than level 1, and level 3 costs 95. |
| MetaProgression.CanBuyHpUpgrade | src/game/logic/metaProgression.ts:12-21 | At or above the level cap of 80 nothing can be bought. Below it, a purchase is allowed exactly when the normalised credits cover the next cost. |
| MetaProgression.CanBuyExamples | src/game/logic/metaProgression.test.ts:15-19 | The cases (10, 0) and (200, 80) are refused, and (100, 1) is allowed. |
| MetaProgression.RunCreditsReward | src/game/logic/metaProgression.ts:23-27 | The reward is non-negative. It is 4 per normalised kill, plus 20 exactly when the run was won. |
| MetaProgression.WinPaysBonus | src/game/logic/metaProgression.ts:26 | With equal kills, a win pays exactly 20 more than a loss. |
| MetaProgression.RewardExamples | src/game/logic/metaProgression.test.ts:21-28 | A loss with 5 kills pays 20, and a win with 5 kills pays more. |
| ProgressStore.AsSafeNumber | src/game/state/ProgressStore.ts:30-36 | A non-finite value gives the fallback. A finite value gives its floor, or 0 if it is negative. |
| ProgressStore.Hydrate | src/game/state/ProgressStore.ts:101-115 | A loaded record is well formed: counters ≥ 0 and level in [0, 80]. Sound is on unless a boolean was stored. Credits, best score, wins, losses and kills are each the safe number of their stored value (fallback 0), and the level is that safe number capped at 80. |
| ProgressStore.HydrateStoredRecord | src/game/state/ProgressStore.ts:101-115 | Loading a well-formed record the ledger wrote returns that same record. |
| ProgressStore.AfterWin | src/game/state/ProgressStore.ts:56-63 | A win adds one win and the run's kills, and adds the win reward to the credits. The best score becomes the larger of the old best and the score. Losses, level and sound are unchanged. |
| ProgressStore.AfterLoss | src/game/state/ProgressStore.ts:65-71 | A loss adds one loss and the run's kills, and adds the loss reward to the credits. Best score, wins, level and sound are unchanged. |
| ProgressStore.AfterToggleSound | src/game/state/ProgressStore.ts:73-76 | The sound flag flips, and nothing else changes. |
| ProgressStore.AfterPurchase | src/game/state/ProgressStore.ts:86-95 | An ineligible purchase changes nothing. An eligible one takes exactly the next cost from the credits, raises the level by one, and changes nothing else. |
| ProgressStore.WinKeepsWellFormed | src/game/state/ProgressStore.ts:56-63 | A win keeps the record well formed. |
| ProgressStore.LossKeepsWellFormed | src/game/state/ProgressStore.ts:65-71 | A loss keeps the record well formed. |
| ProgressStore.PurchaseKeepsWellFormed | src/game/state/ProgressStore.ts:86-95 | A purchase never overdraws the credits and never passes the level cap. |
| ProgressStore.PurchaseEligibility | src/game/state/ProgressStore.ts:82-84 | On a well-formed record, a purchase is allowed exactly when level < 80 and credits ≥ 35 + 20·level. |
| ProgressStore.ToggleTwiceRestores | src/game/state/ProgressStore.ts:73-76 | Toggling twice restores the record. |
| ProgressStore.BestScoreNeverDecreases | src/game/state/ProgressStore.ts:56-95 | No ledger operation lowers the best score. |
| ProgressStore.ProgressStore.constructor | src/game/state/ProgressStore.ts:20-28 | A new store holds the default record: all zero, with sound on. |
| ProgressStore.ProgressStore.Load | src/game/state/ProgressStore.ts:45-50 | After loading, the store holds the normalised form of the stored record. |
| ProgressStore.ProgressStore.RecordWin | src/game/state/ProgressStore.ts:56-63 | The record becomes the win record. The method returns the win reward, which is exactly what the credits grew by. The ledger stays well formed. |
| ProgressStore.ProgressStore.RecordLoss | src/game/state/ProgressStore.ts:65-71 | The record becomes the loss record. The method returns the loss reward, which is exactly what the credits grew by. |
| ProgressStore.ProgressStore.ToggleSound | src/game/state/ProgressStore.ts:73-76 | The sound flag flips, and the method returns the new value. |
| ProgressStore.ProgressStore.GetNextHpUpgradeCost | src/game/state/ProgressStore.ts:78-80 | The next cost is 35 + 20·level for the stored level. |
| ProgressStore.ProgressStore.CanPurchaseHpUpgrade | src/game/state/ProgressStore.ts:82-84 | The ledger's eligibility test, the same one the purchase uses: on a well-formed ledger, true exactly when the level is below 80 and the credits cover 35 + 20·level. |
| ProgressStore.ProgressStore.PurchaseHpUpgrade | src/game/state/ProgressStore.ts:86-95 | The result is true exactly when the purchase is eligible. A refused purchase changes nothing. An accepted one lowers the credits by exactly the cost and raises the level by one. The ledger stays well formed. |
| ProgressStore.ProgressStore.GetPlayerMaxHp | src/game/state/ProgressStore.ts:97-99 | The hull points are the base plus the upgrade level, so between base and base + 80. |
| GameScene.WrapCoordinate | src/game/scenes/GameScene.ts:346-360 | A wrapped coordinate lies in [−28, extent + 28]. One already inside is unchanged. One past an edge reappears just beyond the opposite edge. |
| GameScene.ElapsedMs | src/game/scenes/GameScene.ts:664 | The elapsed time is at least 1 ms. It equals now − startedAt whenever that is positive. |
| GameScene.WinScore | src/game/scenes/GameScene.ts:665 | The score lies in [1, 119999]. Below 120000 ms, score and elapsed time add up to 120000; after that the score is 1. |
| GameScene.FasterWinScoresHigher | src/game/scenes/GameScene.ts:664-665 | A faster win never scores lower. |
| GameScene.CountActive | src/game/scenes/GameScene.ts:416 | The live count of the enemy pool is at most the pool's size. |
| GameScene.CountActiveExtremes | src/game/scenes/GameScene.ts:416 | The live count is 0 exactly when no enemy is live, and the pool's size exactly when every enemy is live. |
| GameScene.CountActiveUpdate | src/game/scenes/GameScene.ts:417-450 | Activating a free enemy slot raises the live count by one. Changing a slot without changing its liveness keeps the count. |
| GameScene.FreeSlot | src/game/scenes/GameScene.ts:442-445 | A pool hands out its first slot that is not live, and every slot before it is live; it hands out nothing exactly when every slot is live. The enemy pool and the bullet pool (lines 396-399) both draw this way, a member being live when it is active. |
| GameScene.WithNewBullet | src/game/scenes/GameScene.ts:387-414 | A new bullet leaves every live bullet alone. Only a free slot changes, and it becomes a live bullet expiring 1700 ms from now. |
| GameScene.Swept | src/game/scenes/GameScene.ts:497-507 | A bullet stays live exactly when it was live and not expired: its expiry is unset (0) or still in the future. |
| GameScene.SpawnPosition | src/game/scenes/GameScene.ts:421-439 | An enemy appears on the chosen edge of the arena inset by 24, at the drawn coordinate along that edge, and inside the inset rectangle. |
| GameScene.EnemyAfterTick | src/game/scenes/GameScene.ts:453-487 | A live enemy is wrapped. When its shot is due, its timer is re-armed by the drawn delay; otherwise the timer is kept. An inactive enemy is untouched. |
| GameScene.GameRun.constructor | src/game/scenes/GameScene.ts:78-98 | A scene starts with fresh pools of the given sizes in which no enemy or bullet is live, connected to the given ledger and service. Every run field is given: 0 kills, full hull points, shot and start times 0, no ending, no gameplay, no spawn timer, the player at the arena's centre, no outcome yet, and the current ledger as the ledger at the start. |
| GameScene.GameRun.ResetRuntimeState | src/game/scenes/GameScene.ts:125-137 | After a reset: 0 kills, full hull points, cleared shot and start times, no ending and no gameplay. The ledger at the start of the run is recorded. |
| GameScene.GameRun.StartGameplayLoop | src/game/scenes/GameScene.ts:608-619 | The spawn timer is armed, gameplay runs and the start time becomes the clock value; no other run field changes and the ledger is untouched. The SDK takes its gameplay-start transition, so it is marked afterwards unless in mock mode. |
| GameScene.GameRun.StartGameplayAfterRestartAd | src/game/scenes/GameScene.ts:621-630 | After the ad, the run starts (as in the gameplay loop start) only if the scene is still active and the run has not ended. Otherwise the run fields and the SDK state are unchanged. The ledger is untouched in both cases. |
| GameScene.GameRun.StopGameplayObjects | src/game/scenes/GameScene.ts:591-606 | Gameplay stops and the spawn timer is removed. Every other run field, including the counters and the ending latch, is unchanged. |
| GameScene.GameRun.FinishLoss | src/game/scenes/GameScene.ts:632-642 | First call: the run becomes ended with a defeat at the current kills (latch set, gameplay and spawn timer stopped, nothing else changed), exactly one loss is recorded in the ledger, and the SDK takes its gameplay-stop transition. Later calls change neither the run, the ledger nor the SDK. |
| GameScene.GameRun.FinishWin | src/game/scenes/GameScene.ts:654-667 | First call: the run becomes ended with a victory at the current kills, elapsed = max(1, now − start) and score = max(1, 120000 − elapsed); nothing else in the run changes. The win is recorded once in the ledger, and the SDK takes its gameplay-stop transition. Later calls change neither the run, the ledger nor the SDK. |
| GameScene.GameRun.ApplyDamage | src/game/scenes/GameScene.ts:581-589 | Hull points drop by the damage. The run ends exactly when they reach 0 or below, and then it is ended with a defeat, one loss is recorded and the SDK is unmarked unless in mock mode. Otherwise only the hull points change, and the ledger and the SDK are untouched. |
| GameScene.GameRun.OnPlayerBulletHitsEnemy | src/game/scenes/GameScene.ts:512-539 | When the run has ended or either party is inactive, nothing changes: run fields, pools, ledger and SDK. Otherwise both are disabled and exactly one kill is added. Below 10 kills nothing else changes; at the tenth kill the run ends in a victory, the win is recorded and the SDK is unmarked. Kills never exceed 10. |
| GameScene.GameRun.OnEnemyBulletHitsPlayer | src/game/scenes/GameScene.ts:541-561 | When the run has ended or either party is inactive, nothing changes: run fields, pool, ledger and SDK. Otherwise the bullet is disabled and one hull point is lost. While hull points remain nothing else changes; at 0 the run ends in a defeat, the loss is recorded and the SDK is unmarked. Hull points never go below 0. |
| GameScene.GameRun.OnEnemyTouchesPlayer | src/game/scenes/GameScene.ts:563-579 | The same as a bullet hit, with the enemy disabled instead. |
| GameScene.GameRun.CreateBullet | src/game/scenes/GameScene.ts:387-414 | The pool becomes the pool with a new bullet. |
| GameScene.GameRun.TryShoot | src/game/scenes/GameScene.ts:366-385 | A shot fires exactly when gameplay runs and at least 180 ms have passed since the last shot. Then only the shot time changes among the run fields, and the player pool gains a new bullet. Otherwise the run fields and the pool are unchanged. |
| GameScene.GameRun.SpawnEnemy | src/game/scenes/GameScene.ts:416-451 | After the run ends, or with 6 enemies live, nothing spawns. Otherwise the first free slot becomes a live enemy at the spawn position, whose first shot is its drawn delay away. The live count never passes 6. |
| GameScene.GameRun.UpdateEnemyAI | src/game/scenes/GameScene.ts:453-487 | Every enemy becomes its state after the tick, and afterwards every live enemy's next shot lies in the future. Enemy bullets already live are untouched; any changed slot holds a new bullet. |
| GameScene.GameRun.CleanupGroupBullets | src/game/scenes/GameScene.ts:494-510 | Every bullet of the group becomes its swept state: exactly the live, expired bullets are disabled. |
| GameScene.GameRun.SubmitWinScore | src/game/scenes/GameScene.ts:668-669 | After a victory, the SDK state becomes its state after submitting the run's score. Outside mock mode with a live leaderboard, exactly the score is appended to the submitted scores. When the SDK reports the method unavailable, the SDK state is unchanged. In mock mode or with no leaderboard, only the mock score changes, to the larger of the old one and the score. Mode, API availability and gameplay mark never change. |
| GameScene.GameRun.Shutdown | src/game/scenes/GameScene.ts:106-111 | On shutdown, only the spawn timer among the run fields changes (it is removed). The SDK takes its gameplay-stop transition, so it ends up unmarked unless in mock mode. The ledger is unchanged. |
| GameScene.GameRun.Update | src/game/scenes/GameScene.ts:114-123 | After the run ends or before gameplay starts, a frame leaves the run fields and all pools unchanged. Otherwise only the player position changes among the run fields (it is wrapped), every enemy becomes its state after the tick, and the player bullets are swept. |
| TextButtonPressController.OperationsKeepConsistent | src/game/ui/textButtonPressController.ts:17-60 | Every operation keeps the invariant: pressed exactly while a pointer is tracked, and never pressed while disabled. |
| TextButtonPressController.DownOnlyWhenIdle | src/game/ui/textButtonPressController.ts:30-38 | A press is accepted exactly when the button is enabled, not pressed and not locked. An accepted press tracks that pointer and refuses every further press. |
| TextButtonPressController.ForeignReleaseIgnored | src/game/ui/textButtonPressController.ts:39-60 | Releasing or cancelling a pointer the button does not track fires nothing and changes nothing. |
| TextButtonPressController.FiresAtMostOncePerPress | src/game/ui/textButtonPressController.ts:39-52 | A release clears the press, so a second release never fires. |
| TextButtonPressController.OutsideOrCancelledDoesNotFire | src/game/ui/textButtonPressController.ts:39-60 | A release outside, or after a cancel, does not fire. |
| TextButtonPressController.DisableBlocksGestures | src/game/ui/textButtonPressController.ts:17-52 | A disabled button refuses presses, and its releases neither fire nor change anything. Re-enabling an unlocked button accepts a press again. |
| TextButtonPressController.RunKeepsConsistent | src/game/ui/textButtonPressController.ts:10-61 | Every event trace keeps the invariant. |
| TextButtonPressController.StepLock | src/game/ui/textButtonPressController.ts:39-52 | An event moves the lock only by firing, never before the lock, and then to the click time plus the cooldown. |
| TextButtonPressController.ClicksRespectCooldown | src/game/ui/textButtonPressController.ts:30-52 | In any trace, no click comes before the current lock, and consecutive clicks are at least the cooldown apart. |
| TextButtonPressController.GestureFiresOnce | src/game/ui/textButtonPressController.test.ts:14-20 | A down/up inside fires once, and a repeated release does not. |
| TextButtonPressController.OutsideAndCancelledGestures | src/game/ui/textButtonPressController.test.ts:22-31 | A release outside and a release after a cancel fire nothing. |
| TextButtonPressController.CooldownGesture | src/game/ui/textButtonPressController.test.ts:33-44 | A second pointer is refused while pressed, and a press inside the cooldown is refused. 121 ms later, a press and release click again. |
| TextButtonPressController.AfterCooldown | src/game/ui/textButtonPressController.test.ts:40-43 | Inside the cooldown a press is refused; 121 ms later a press and release click. |
| TextButtonPressController.DisabledGesture | src/game/ui/textButtonPressController.test.ts:46-55 | While disabled nothing fires. After re-enabling, a gesture clicks. |
| TextButtonPressController.TextButtonPressController.constructor | src/game/ui/textButtonPressController.ts:10-14 | A new controller is enabled, idle and unlocked, with the given cooldown. |
| TextButtonPressController.TextButtonPressController.SetEnabled | src/game/ui/textButtonPressController.ts:17-23 | The state becomes the enabled-or-disabled state, and disabling drops any press. |
| TextButtonPressController.TextButtonPressController.PointerDown | src/game/ui/textButtonPressController.ts:30-38 | The state becomes the press transition, and the result says whether the press was accepted. |
| TextButtonPressController.TextButtonPressController.PointerUp | src/game/ui/textButtonPressController.ts:39-52 | The state becomes the release transition, and the result says whether the release fired. |
| TextButtonPressController.TextButtonPressController.CancelPointer | src/game/ui/textButtonPressController.ts:53-60 | The state becomes the cancel transition. |
| PreloaderScene.ReadPixel | src/game/scenes/PreloaderScene.ts:321-324 | A pixel is the three bytes at 4·(y·width + x), which lie inside the data. |
| PreloaderScene.RoundedMean4 | src/game/scenes/PreloaderScene.ts:315-317 | The rounded mean is within 1/2 of the true mean and lies between the smallest and largest input. |
| PreloaderScene.BackgroundColor | src/game/scenes/PreloaderScene.ts:306-319 | Every background channel is a byte value. |
| PreloaderScene.BackgroundBetweenCorners | src/game/scenes/PreloaderScene.ts:306-319 | Each background channel lies between the minimum and maximum of that channel over the four corners. |
| PreloaderScene.ForegroundMask | src/game/scenes/PreloaderScene.ts:189-211 | One byte per pixel, 1 exactly for foreground pixels (not transparent, and some channel more than 22 from the background) and 0 otherwise. |
| PreloaderScene.CreateForegroundMask | src/game/scenes/PreloaderScene.ts:189-211 | The mask loop builds a new array of width·height bytes equal to the foreground mask. |
| PreloaderScene.ChromaKeyed | src/game/scenes/PreloaderScene.ts:326-336 | Keying changes only alpha bytes. An alpha becomes 0 exactly when its pixel's colour is within 22 of the background on every channel. |
| PreloaderScene.AlphaKeyed | src/game/scenes/PreloaderScene.ts:332-334 | A pixel's alpha after keying is 0 exactly when it is near the background. Otherwise it is unchanged. |
| PreloaderScene.ColourBytesUnkeyed | src/game/scenes/PreloaderScene.ts:326-336 | Keying leaves every pixel's three colour bytes unchanged. |
| PreloaderScene.ApplyChromaKey | src/game/scenes/PreloaderScene.ts:326-336 | The in-place loop leaves the array equal to the keyed bytes of its old contents. |
| PreloaderScene.ChromaKeyKeepsForeground | src/game/scenes/PreloaderScene.ts:326-336 | Keying against a colour leaves the foreground mask against that colour unchanged. |
| PreloaderScene.ChromaKeyIdempotent | src/game/scenes/PreloaderScene.ts:326-336 | Keying twice is keying once. |
| PreloaderScene.CropRect | src/game/scenes/PreloaderScene.ts:130-144 | The crop lies inside the sheet (x, y ≥ 0, x + w ≤ width, y + h ≤ height) and covers the whole bounding box. It starts at most 2 pixels before the box and is at most the box plus 4 pixels wide and tall. |
| PreloaderScene.Neighbours | src/game/scenes/PreloaderScene.ts:241-244 | Each pixel has four neighbour slots, each a pixel index of the sheet or −1. |
| PreloaderScene.NeighboursAreAdjacent | src/game/scenes/PreloaderScene.ts:232-244 | The neighbours are exactly the 4-connected pixels that exist: one column left or right in the same row, or one row up or down in the same column. They never wrap to another row, and a missing one is −1. |
| PreloaderScene.Visit | src/game/scenes/PreloaderScene.ts:246-261 | A set neighbour is cleared and pushed, and otherwise nothing changes. The fill's frontier invariant is kept. |
| PreloaderScene.VisitNeighbours | src/game/scenes/PreloaderScene.ts:246-261 | The four neighbour checks keep the frontier invariant, and never set a cleared cell. |
| PreloaderScene.ExpandTop | src/game/scenes/PreloaderScene.ts:230-261 | One pop adds the popped pixel to the visited ones and widens the box to it: each new extremum is the min or max of the old one and the pixel's column or row. The frontier invariant and the tight box are kept, and no cleared cell is set again. |
| PreloaderScene.FrontierDone | src/game/scenes/PreloaderScene.ts:230-239 | When the stack is empty, the visited pixels are exactly those set when the fill began and cleared since. |
| PreloaderScene.TrackedExtends | src/game/scenes/PreloaderScene.ts:235-239 | Widening the running box to one more in-sheet pixel gives the bounding box of the visited pixels plus that one, each side still reached by a visited pixel. |
| PreloaderScene.TrackedBounds | src/game/scenes/PreloaderScene.ts:264-270 | At the end of a fill, the running extrema form bounds inside the sheet that are exactly those of the visited pixels. |
| PreloaderScene.FillComponent | src/game/scenes/PreloaderScene.ts:216-271 | Filling from a set cell clears the start and only ever clears cells, and returns the cleared pixels: exactly the cells set before and clear after. The returned bounds are those of the cleared pixels: the area is their number and the box is the smallest one holding them, each side reached by one of them. The box lies in the sheet and the set-cell count drops by exactly the area. |
| PreloaderScene.FindConnectedComponents | src/game/scenes/PreloaderScene.ts:213-275 | The mask ends all zero and the areas add up to the number of set cells at the start. With each component comes its region: the regions are disjoint, consist of cells set at the start, and together cover every such cell; every component's bounds are those of its region, inside the sheet. |
| PreloaderScene.AddComponent | src/game/scenes/PreloaderScene.ts:216-271 | Handling one set start cell appends its component and region while keeping the partition, the area total and the cleared prefix up to the start. |
| PreloaderScene.PartitionExtends | src/game/scenes/PreloaderScene.ts:216-271 | A fill step appends a region that keeps the partition: prior regions stay cleared and disjoint from the new one, and together they cover every cell set at the start and cleared so far. |
| PreloaderScene.FilterLarge | src/game/scenes/PreloaderScene.ts:153-155 | Exactly the components with area ≥ 280, width ≥ 26 and height ≥ 22 are kept. |
| PreloaderScene.Candidates | src/game/scenes/PreloaderScene.ts:170-176 | Exactly the components centred in the band's third of the height, at least 42 wide and 30 tall, are kept. |
| PreloaderScene.PickBest | src/game/scenes/PreloaderScene.ts:182 | The head of the sort is a candidate that no candidate outranks (further right, or as far right and larger). It is the earliest such candidate. |
| PreloaderScene.SelectShips | src/game/scenes/PreloaderScene.ts:157-186 | The result is nothing exactly when some band has no candidate. Otherwise there are three entries keyed player, red, yellow, each a best-ranked candidate of its band. |
| PreloaderScene.ForegroundPartition | src/game/scenes/PreloaderScene.ts:152-155 | Once the component search has cleared the foreground mask, its regions partition exactly the sheet's foreground pixels, and every foreground pixel lies in some region. |
| PreloaderScene.DetectTargetShipBounds | src/game/scenes/PreloaderScene.ts:146-187 | The result is exactly the band-by-band selection among the large components, so it is nothing exactly when no component is large or some band has no candidate. The components come with regions that partition the sheet's foreground pixels, each component's bounds being those of its region inside the sheet. A result has three entries keyed player, red, yellow in order, each passing both size filters and centred in its band. |
| YandexService.LoadJson | src/game/services/YandexService.ts:173-185 | The player's cloud value wins, then the storage value, then the fallback. |
| YandexService.LoadFromStorage | src/game/services/YandexService.ts:331-342 | The SDK storage item is used unless it is null, falling back to local storage. An empty or missing item reads as nothing; any other item is parsed. |
| YandexService.MapLeaderboardEntry | src/game/services/YandexService.ts:235-241 | A missing rank becomes position + 1, a missing score 0, and a missing or empty name "Player". Present values are kept. |
| YandexService.MapEntries | src/game/services/YandexService.ts:227-228 | A live reply gives its first `count` entries (as `slice(0, count)`), each mapped with its position. |
| YandexService.MockRow | src/game/services/YandexService.ts:377-387 | Row i has rank i + 1 and a non-negative score. With a positive stored score, the first row is the player's, with that score. Bot rows score max(0, top − rank·120). |
| YandexService.MockLeaderboardRows | src/game/services/YandexService.ts:371-394 | There are max(0, count) rows: row i is the mock row i, ranks run 1, 2, … in order, and all scores are ≥ 0. |
| YandexService.MockScoreWrite | src/game/services/YandexService.ts:360-369 | The stored mock score becomes the larger of the old value and the floored score, so it never decreases. |
| YandexService.SdkScore | src/game/services/YandexService.ts:203 | The SDK receives the floor of the score, or 0 when the score is negative. |
| YandexService.YandexService.constructor | src/game/services/YandexService.ts:15-21 | A new service has the given mode, the given availability of the score and the entries method, and the stored mock score. It is unmarked, has made no gameplay calls and has submitted no scores. |
| YandexService.YandexService.EnableMockMode | src/game/services/YandexService.ts:275-279 | Mock mode is switched on, and nothing else in the service state changes. |
| YandexService.YandexService.MarkGameplayStart | src/game/services/YandexService.ts:77-83 | The state becomes the gameplay-start transition: only an unmarked service outside mock mode changes, becoming marked with one start call. Repeated starts do nothing. Start and stop calls keep alternating. |
| YandexService.YandexService.MarkGameplayStop | src/game/services/YandexService.ts:85-91 | The state becomes the gameplay-stop transition: only a marked service outside mock mode changes, becoming unmarked with one stop call. Afterwards it is unmarked unless in mock mode. Calls keep alternating. |
| YandexService.YandexService.SubmitScore | src/game/services/YandexService.ts:192-207 | The state becomes the submit transition, decided by mock mode and the availability of `setScore`. With no usable SDK, the score goes to the mock leaderboard (keeping the best). When `setScore` is reported unavailable, nothing changes. Otherwise the floored, non-negative score is appended to the SDK's scores. The stored mock score never decreases. |
| YandexService.YandexService.GetLeaderboardTop | src/game/services/YandexService.ts:209-233 | The rows are decided by mock mode and the availability of `getEntries`. With no usable SDK, they are the mock rows. When `getEntries` is reported unavailable, or the request fails, there are none. Otherwise they are the mapped first entries of the reply. The service state is unchanged. |

## Left out

- Physics, steering and rendering in the arena scene are not modelled: velocities, angles, rotation, drag, camera shake, HUD text and textures. Only positions at the wrap boundary are kept.
- Keyboard and touch input routing (pointer handlers, touch aim state, listener removal) is not modelled. `TryShoot` takes the clock value only, because the aim target only sets a bullet's velocity.
- Engine groups are fixed-size pools of records. Phaser's `group.get` may create a new member when none is free; the model hands out the first inactive slot or nothing.
- The `contains` checks that sort the two colliding objects into bullet, enemy and player are not modelled. The handlers take pool indices and the player's `active` flag directly.
- The clock (`this.time.now`, `Date.now()`) and the `Phaser.Math.Between` draws are parameters. Their ranges are preconditions: a side in 0–3, a coordinate inside the inset edge, and a fire delay in [1100, 1800].
- Asynchronous steps are not modelled: the ads, storage writes, `save`, and scene transitions. `FinishWin` and `FinishLoss` model the synchronous part before the first `await`. `SubmitWinScore` models the score submission that follows the save. The ad promise race, SDK script loading and SDK initialisation are outside the model.
- Storage and JSON I/O are parameters: the cloud, SDK-storage and local-storage items are `Option` inputs, and parsing is a function argument. Storage exceptions, which the source catches and turns into "no value", are not modelled.
- JavaScript's `Number(value)` on a stored field is abstracted as its outcome: a finite number, or non-finite (NaN or an infinity).
- Floating-point exactness is not modelled: multipliers and means are exact rationals, and `Math.round(x)` is `floor(x + 1/2)`.
- Canvas and texture calls in the preloader are not modelled: drawing the sheet, reading `ImageData`, creating canvas textures, the fixed fallback crops and the geometry textures. An image is its byte array.
- The audio service, UI metrics, UI-only scenes and widgets, and the scene loader are not part of this model.
- `isEnabled` and `isPressed` are plain field reads (`TextButtonPressController.IsEnabled`, `IsPressed`), with no contract of their own.
- WaveSystem.EnemyFireDelayRange: requires a non-zero fire-rate multiplier. The source would divide by zero and get an infinity, but every configuration the wave director produces has a multiplier of at least 1.
- PreloaderScene.BackgroundColor: requires a sheet at least 1×1. On an empty sheet, the source reads outside the data and gets NaN channels.
- PreloaderScene.FillComponent: the source starts the running extrema at ±infinity. The model uses sentinels one past the sheet (width, height, −1, −1), which are always replaced because a fill visits at least its start pixel.
- PreloaderScene.FillComponent: states that the cleared pixels are exactly the cells set before and clear after, and that the bounds are theirs. It does not state that they form the start pixel's 4-connected region, nor that no neighbouring set cell was left out.
- PreloaderScene.FindConnectedComponents: states that the regions partition the set cells and that each component's bounds are those of its region. It does not state that each region is 4-connected, or that no region could be grown by a neighbouring set cell.
- PreloaderScene.DetectTargetShipBounds: its components and regions carry what `FindConnectedComponents` states, so their 4-connectedness and maximality are not stated here either.
- ProgressStore.ProgressStore.RecordWin: takes the kills as a natural number. Its only caller passes the run's kill count, so fractional or negative kills are not modelled.
- ProgressStore.ProgressStore.RecordLoss: takes the kills as a natural number, for the same reason.
- TextButtonPressController.TextButtonPressController.PointerUp: a release reads the clock once. The source calls `Date.now()` twice, for the fire check and for the new lock.
- GameScene.GameRun.UpdateEnemyAI: states that enemy bullets already live are untouched and that any changed slot holds a new bullet. It does not state how many bullets were created.
- GameScene.GameRun.Update: states the player's wrap and the player-bullet sweep. The enemy pass and the enemy-bullet sweep of the same frame are stated by `UpdateEnemyAI` and `CleanupGroupBullets`.
- YandexService.YandexService.SubmitScore: a failing `setScore` call is swallowed by the source. The model records the call in either case.
- GameScene.ElapsedMs: takes integer clock values. Phaser's `this.time.now` is a fractional millisecond count, so in the source the elapsed time, the win score (`GameScene.WinScore`) and the stored best score (src/game/state/ProgressStore.ts:59) can be fractional.
- GameScene.WinScore: is stated on integer elapsed times, for the same reason as `GameScene.ElapsedMs`.
