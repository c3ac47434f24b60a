/** The run state machine of the arena scene (GameScene.ts), with the engine
    abstracted: entity groups are fixed pools of records, the clock
    (`this.time.now`) and the random draws are parameters, and steering,
    rendering, HUD text and input routing are outside the model. */
module GameScene {
  import opened Common
  import GameConfig
  import ProgressStore
  import YandexService

  const WRAP_MARGIN: real := 28.0
  const SPAWN_MARGIN: int := 24
  const WIN_SCORE_BASE: int := 120000

  /** A pooled bullet: whether it is live, and when it expires
      (its `expiresAt` data, 0 when never set). */
  datatype Bullet = Bullet(active: bool, expiresAt: int)

  /** A pooled enemy: whether it is live, its position and the time of its next shot. */
  datatype Enemy = Enemy(active: bool, x: real, y: real, nextShotAt: int)

  /** What the scene hands to the result screen once its asynchronous tail
      (saving, the ad, the leaderboard) has run. */
  datatype RunOutcome = InProgress | Defeat(kills: int) | Victory(kills: int, score: int, elapsedMs: int)

  /** The run's own fields, as one value. */
  datatype RunFields = RunFields(
    kills: int, hp: int, lastShotAt: int, startedAt: int,
    ending: bool, gameplayStarted: bool, spawnTimerArmed: bool,
    playerX: real, playerY: real, outcome: RunOutcome,
    progressAtStart: ProgressStore.GameProgress)

  /** The run fields once `finishLoss`/`finishWin` has latched `ending` and
      stopped the gameplay objects, with the outcome it hands on. */
  function Ended(f: RunFields, outcome: RunOutcome): RunFields
  {
    f.(ending := true, gameplayStarted := false, spawnTimerArmed := false, outcome := outcome)
  }

  /** The outcome of a win taking effect at `now`. */
  function VictoryAt(kills: int, now: int, startedAt: int): RunOutcome
  {
    Victory(kills, WinScore(ElapsedMs(now, startedAt)), ElapsedMs(now, startedAt))
  }

  // ---------------------------------------------------------------------
  // Pure parts

  /** One coordinate of `wrapAroundSprite`: a sprite more than the margin
      past one edge reappears just past the opposite edge. */
  function WrapCoordinate(v: real, extent: real): (r: real)
    requires extent >= 0.0
    ensures -WRAP_MARGIN <= r <= extent + WRAP_MARGIN
    ensures -WRAP_MARGIN <= v <= extent + WRAP_MARGIN ==> r == v
    ensures v < -WRAP_MARGIN ==> r == extent + WRAP_MARGIN
    ensures v > extent + WRAP_MARGIN ==> r == -WRAP_MARGIN
  {
    if v < -WRAP_MARGIN then extent + WRAP_MARGIN
    else if v > extent + WRAP_MARGIN then -WRAP_MARGIN
    else v
  }

  function WrapX(x: real): real
  {
    WrapCoordinate(x, GameConfig.GAME_WIDTH as real)
  }

  function WrapY(y: real): real
  {
    WrapCoordinate(y, GameConfig.GAME_HEIGHT as real)
  }

  /** The time a win took, at least one millisecond. */
  function ElapsedMs(now: int, startedAt: int): (e: int)
    ensures e >= 1 && e >= now - startedAt
    ensures now - startedAt >= 1 ==> e == now - startedAt
  {
    Max(1, now - startedAt)
  }

  /** The score of a win: 120000 minus the elapsed milliseconds, at least 1. */
  function WinScore(elapsedMs: int): (score: int)
    requires elapsedMs >= 1
    ensures 1 <= score <= WIN_SCORE_BASE - 1
    ensures elapsedMs < WIN_SCORE_BASE ==> score + elapsedMs == WIN_SCORE_BASE
    ensures elapsedMs >= WIN_SCORE_BASE - 1 ==> score == 1
  {
    Max(1, WIN_SCORE_BASE - elapsedMs)
  }

  /** A faster win never scores lower. */
  lemma {:induction false} FasterWinScoresHigher(e1: int, e2: int)
    requires 1 <= e1 <= e2
    ensures WinScore(e1) >= WinScore(e2)
  {
    if e2 < WIN_SCORE_BASE {
      assert WinScore(e2) == WIN_SCORE_BASE - e2;
    }
  }

  /** `countActive(true)` on the enemy group: the number of live slots. */
  function CountActive(s: seq<Enemy>): (n: nat)
    ensures n <= |s|
    decreases |s|
  {
    if s == [] then 0 else CountActive(s[..|s| - 1]) + (if s[|s| - 1].active then 1 else 0)
  }

  /** The live count is 0 exactly when no slot is live, and the pool size
      exactly when every slot is. */
  lemma {:induction false} CountActiveExtremes(s: seq<Enemy>)
    ensures CountActive(s) == 0 <==> forall j :: 0 <= j < |s| ==> !s[j].active
    ensures CountActive(s) == |s| <==> forall j :: 0 <= j < |s| ==> s[j].active
    decreases |s|
  {
    if s != [] {
      var init := s[..|s| - 1];
      CountActiveExtremes(init);
      assert forall j :: 0 <= j < |init| ==> init[j] == s[j];
    }
  }

  /** Activating one inactive slot raises the live count by one; changing a
      slot without changing its liveness keeps the count. */
  lemma {:induction false} CountActiveUpdate(s: seq<Enemy>, i: nat, e: Enemy)
    requires i < |s|
    ensures !s[i].active && e.active ==> CountActive(s[i := e]) == CountActive(s) + 1
    ensures s[i].active == e.active ==> CountActive(s[i := e]) == CountActive(s)
    decreases |s|
  {
    var t := s[i := e];
    if i < |s| - 1 {
      CountActiveUpdate(s[..|s| - 1], i, e);
      assert t[..|t| - 1] == s[..|s| - 1][i := e];
    } else {
      assert t[..|t| - 1] == s[..|s| - 1];
    }
  }

  /** The slot a pool's `get` hands out: the first one whose member is not
      live, if any. */
  function FreeSlot<T>(s: seq<T>, live: T -> bool): (slot: Option<nat>)
    ensures slot.Some? ==> slot.value < |s| && !live(s[slot.value])
    ensures slot.Some? ==> forall j :: 0 <= j < slot.value ==> live(s[j])
    ensures slot.None? ==> forall j :: 0 <= j < |s| ==> live(s[j])
    decreases |s|
  {
    if s == [] then None
    else if !live(s[0]) then Some(0)
    else match FreeSlot(s[1..], live)
      case None => None
      case Some(j) => Some(j + 1)
  }

  function EnemyLive(e: Enemy): bool
  {
    e.active
  }

  function BulletLive(b: Bullet): bool
  {
    b.active
  }

  /** A pool after `createBullet`: the first free slot, if any, holds a live
      bullet expiring one bullet lifetime from now. */
  function WithNewBullet(s: seq<Bullet>, now: int): (t: seq<Bullet>)
    ensures |t| == |s|
    ensures forall j :: 0 <= j < |s| && s[j].active ==> t[j] == s[j]
    ensures forall j :: 0 <= j < |s| && t[j] != s[j] ==> t[j] == Bullet(true, now + GameConfig.BULLET_LIFETIME_MS)
  {
    match FreeSlot(s, BulletLive)
    case None => s
    case Some(i) => s[i := Bullet(true, now + GameConfig.BULLET_LIFETIME_MS)]
  }

  /** A bullet as the expiry sweep leaves it. */
  function Swept(b: Bullet, now: int): (c: Bullet)
    ensures c.expiresAt == b.expiresAt
    ensures c.active <==> b.active && !(b.expiresAt > 0 && now >= b.expiresAt)
  {
    if b.active && b.expiresAt > 0 && now >= b.expiresAt then b.(active := false) else b
  }

  /** The range `Phaser.Math.Between` draws the coordinate along an edge from. */
  predicate AlongInRange(side: int, along: int)
  {
    if side == 0 || side == 1 then SPAWN_MARGIN <= along <= GameConfig.GAME_HEIGHT - SPAWN_MARGIN
    else SPAWN_MARGIN <= along <= GameConfig.GAME_WIDTH - SPAWN_MARGIN
  }

  /** Where a new enemy appears: on the left, right, top or bottom edge
      (sides 0 to 3) of the rectangle inset by the margin, at the drawn
      coordinate along that edge. */
  function SpawnPosition(side: int, along: int): (p: (int, int))
    requires AlongInRange(side, along)
    ensures SPAWN_MARGIN <= p.0 <= GameConfig.GAME_WIDTH - SPAWN_MARGIN
    ensures SPAWN_MARGIN <= p.1 <= GameConfig.GAME_HEIGHT - SPAWN_MARGIN
    ensures (side == 0 || side == 1) ==> p.1 == along
    ensures side != 0 && side != 1 ==> p.0 == along
    ensures side == 0 ==> p.0 == SPAWN_MARGIN
    ensures side == 1 ==> p.0 == GameConfig.GAME_WIDTH - SPAWN_MARGIN
    ensures side == 2 ==> p.1 == SPAWN_MARGIN
    ensures side != 0 && side != 1 && side != 2 ==> p.1 == GameConfig.GAME_HEIGHT - SPAWN_MARGIN
  {
    if side == 0 then (SPAWN_MARGIN, along)
    else if side == 1 then (GameConfig.GAME_WIDTH - SPAWN_MARGIN, along)
    else if side == 2 then (along, SPAWN_MARGIN)
    else (along, GameConfig.GAME_HEIGHT - SPAWN_MARGIN)
  }

  // ---------------------------------------------------------------------
  // The scene

  class GameRun {
    var kills: int
    var hp: int
    var lastShotAt: int
    var startedAt: int
    var ending: bool
    var gameplayStarted: bool
    /** Whether the looping spawn timer is scheduled. */
    var spawnTimerArmed: bool
    var playerX: real
    var playerY: real
    var outcome: RunOutcome

    const enemies: array<Enemy>
    const playerBullets: array<Bullet>
    const enemyBullets: array<Bullet>
    const store: ProgressStore.ProgressStore
    const sdk: YandexService.YandexService

    /** The ledger as it stood when the run began. */
    ghost var progressAtStart: ProgressStore.GameProgress

    ghost function Fields(): RunFields
      reads this
    {
      RunFields(kills, hp, lastShotAt, startedAt, ending, gameplayStarted, spawnTimerArmed,
                playerX, playerY, outcome, progressAtStart)
    }

    /** The links between the run and its collaborators, which hold at every
        step, including inside a hit before its consequences are applied. */
    ghost predicate Linked()
      reads this, store, sdk
    {
      && playerBullets != enemyBullets
      && store.Valid() && sdk.Valid()
      && ProgressStore.WellFormed(progressAtStart)
      && 0 <= kills <= GameConfig.KILLS_TO_WIN
      && (!ending ==> outcome == InProgress && store.progress == progressAtStart)
      && (ending ==> !gameplayStarted && !spawnTimerArmed)
      && (ending ==> (!sdk.gameplayMarked || sdk.mockMode))
      && (ending ==> match outcome
            case InProgress => false
            case Defeat(k) =>
              k == kills && store.progress == ProgressStore.AfterLoss(progressAtStart, kills)
            case Victory(k, score, elapsed) =>
              && k == kills && elapsed >= 1 && score == WinScore(elapsed)
              && store.progress == ProgressStore.AfterWin(progressAtStart, score, kills))
    }

    /** The run invariant: a run still in play has fewer than the winning
        number of kills and a live player. */
    ghost predicate Valid()
      reads this, store, sdk
    {
      Linked() && (!ending ==> kills < GameConfig.KILLS_TO_WIN && hp > 0)
    }

    /** `create()`: empty entity pools of the given sizes and a fresh run. */
    constructor (store: ProgressStore.ProgressStore, sdk: YandexService.YandexService,
                 enemySlots: nat, bulletSlots: nat)
      requires store.Valid() && sdk.Valid()
      ensures Valid() && fresh(enemies) && fresh(playerBullets) && fresh(enemyBullets)
      ensures this.store == store && this.sdk == sdk
      ensures enemies.Length == enemySlots && playerBullets.Length == bulletSlots && enemyBullets.Length == bulletSlots
      ensures Fields() == RunFields(0, GameConfig.PLAYER_MAX_HP, 0, 0, false, false, false,
                                    GameConfig.GAME_WIDTH as real / 2.0, GameConfig.GAME_HEIGHT as real / 2.0,
                                    InProgress, store.progress)
      ensures forall i :: 0 <= i < enemies.Length ==> !enemies[i].active
      ensures forall i :: 0 <= i < playerBullets.Length ==> !playerBullets[i].active
      ensures forall i :: 0 <= i < enemyBullets.Length ==> !enemyBullets[i].active
    {
      this.store := store;
      this.sdk := sdk;
      enemies := new Enemy[enemySlots](_ => Enemy(false, 0.0, 0.0, 0));
      playerBullets := new Bullet[bulletSlots](_ => Bullet(false, 0));
      enemyBullets := new Bullet[bulletSlots](_ => Bullet(false, 0));
      kills := 0;
      hp := GameConfig.PLAYER_MAX_HP;
      lastShotAt := 0;
      startedAt := 0;
      ending := false;
      gameplayStarted := false;
      spawnTimerArmed := false;
      playerX := GameConfig.GAME_WIDTH as real / 2.0;
      playerY := GameConfig.GAME_HEIGHT as real / 2.0;
      outcome := InProgress;
      progressAtStart := store.progress;
    }

    method ResetRuntimeState()
      requires store.Valid() && sdk.Valid() && playerBullets != enemyBullets
      modifies this
      ensures Valid()
      ensures kills == 0 && hp == GameConfig.PLAYER_MAX_HP && lastShotAt == 0 && startedAt == 0
      ensures !ending && !gameplayStarted && !spawnTimerArmed && outcome == InProgress
      ensures progressAtStart == store.progress
      ensures playerX == old(playerX) && playerY == old(playerY)
    {
      kills := 0;
      hp := GameConfig.PLAYER_MAX_HP;
      lastShotAt := 0;
      spawnTimerArmed := false;
      startedAt := 0;
      ending := false;
      gameplayStarted := false;
      outcome := InProgress;
      progressAtStart := store.progress;
    }

    method StartGameplayLoop(now: int)
      requires Valid() && !ending
      modifies this, sdk
      ensures Valid()
      ensures Fields() == old(Fields()).(spawnTimerArmed := true, gameplayStarted := true, startedAt := now)
      ensures sdk.State() == YandexService.AfterGameplayStart(old(sdk.State()))
      ensures !old(sdk.mockMode) ==> sdk.gameplayMarked
      ensures store.progress == old(store.progress)
    {
      spawnTimerArmed := true;
      startedAt := now;
      gameplayStarted := true;
      sdk.MarkGameplayStart();
    }

    /** What runs once the restart ad has closed: the run starts unless the
        scene was left or the run already ended meanwhile. */
    method StartGameplayAfterRestartAd(sceneActive: bool, now: int)
      requires Valid()
      modifies this, sdk
      ensures Valid()
      ensures !sceneActive || old(ending) ==>
        Fields() == old(Fields()) && sdk.State() == old(sdk.State())
      ensures sceneActive && !old(ending) ==>
        Fields() == old(Fields()).(spawnTimerArmed := true, gameplayStarted := true, startedAt := now)
        && sdk.State() == YandexService.AfterGameplayStart(old(sdk.State()))
      ensures store.progress == old(store.progress)
    {
      if !sceneActive || ending {
        return;
      }
      StartGameplayLoop(now);
    }

    method StopGameplayObjects()
      modifies this
      ensures Fields() == old(Fields()).(gameplayStarted := false, spawnTimerArmed := false)
    {
      spawnTimerArmed := false;
      gameplayStarted := false;
    }

    method FinishLoss()
      requires Linked()
      modifies this, store, sdk
      ensures Linked()
      ensures old(ending) ==>
        Fields() == old(Fields()) && store.progress == old(store.progress) && sdk.State() == old(sdk.State())
      ensures !old(ending) ==>
        && Fields() == Ended(old(Fields()), Defeat(old(kills)))
        && store.progress == ProgressStore.AfterLoss(old(store.progress), kills)
        && sdk.State() == YandexService.AfterGameplayStop(old(sdk.State()))
    {
      if ending {
        return;
      }
      ending := true;
      StopGameplayObjects();
      sdk.MarkGameplayStop();
      var _ := store.RecordLoss(kills);
      outcome := Defeat(kills);
    }

    method FinishWin(now: int)
      requires Linked()
      modifies this, store, sdk
      ensures Linked()
      ensures old(ending) ==>
        Fields() == old(Fields()) && store.progress == old(store.progress) && sdk.State() == old(sdk.State())
      ensures !old(ending) ==>
        && Fields() == Ended(old(Fields()), VictoryAt(old(kills), now, old(startedAt)))
        && store.progress == ProgressStore.AfterWin(old(store.progress), WinScore(ElapsedMs(now, startedAt)), kills)
        && sdk.State() == YandexService.AfterGameplayStop(old(sdk.State()))
    {
      if ending {
        return;
      }
      ending := true;
      StopGameplayObjects();
      sdk.MarkGameplayStop();
      var elapsedMs := ElapsedMs(now, startedAt);
      var score := WinScore(elapsedMs);
      var _ := store.RecordWin(score, kills);
      outcome := Victory(kills, score, elapsedMs);
    }

    method ApplyDamage(value: int)
      requires Valid() && !ending
      modifies this, store, sdk
      ensures Valid()
      ensures hp == old(hp) - value
      ensures ending <==> hp <= 0
      ensures ending ==>
        && Fields() == Ended(old(Fields()).(hp := old(hp) - value), Defeat(old(kills)))
        && store.progress == ProgressStore.AfterLoss(old(store.progress), kills)
        && sdk.State() == YandexService.AfterGameplayStop(old(sdk.State()))
      ensures !ending ==>
        Fields() == old(Fields()).(hp := old(hp) - value)
        && store.progress == old(store.progress) && sdk.State() == old(sdk.State())
    {
      hp := hp - value;
      if hp <= 0 {
        FinishLoss();
      }
    }

    method OnPlayerBulletHitsEnemy(bullet: nat, enemy: nat, now: int)
      requires Valid() && bullet < playerBullets.Length && enemy < enemies.Length
      modifies this, playerBullets, enemies, store, sdk
      ensures Valid()
      ensures var accepted := old(playerBullets[bullet].active) && old(enemies[enemy].active) && !old(ending);
        && (!accepted ==> (Fields() == old(Fields())
              && playerBullets[..] == old(playerBullets[..]) && enemies[..] == old(enemies[..])
              && store.progress == old(store.progress) && sdk.State() == old(sdk.State())))
        && (accepted ==> (kills == old(kills) + 1
              && playerBullets[..] == old(playerBullets[..])[bullet := old(playerBullets[bullet]).(active := false)]
              && enemies[..] == old(enemies[..])[enemy := old(enemies[enemy]).(active := false)]
              && (ending <==> kills == GameConfig.KILLS_TO_WIN)))
        && (accepted && !ending ==> (Fields() == old(Fields()).(kills := old(kills) + 1)
              && store.progress == old(store.progress) && sdk.State() == old(sdk.State())))
        && (accepted && ending ==> (
              && Fields() == Ended(old(Fields()).(kills := old(kills) + 1), VictoryAt(old(kills) + 1, now, old(startedAt)))
              && store.progress == ProgressStore.AfterWin(old(store.progress), WinScore(ElapsedMs(now, startedAt)), kills)
              && sdk.State() == YandexService.AfterGameplayStop(old(sdk.State()))))
      ensures hp == old(hp) && kills <= GameConfig.KILLS_TO_WIN
    {
      if !playerBullets[bullet].active || !enemies[enemy].active || ending {
        return;
      }
      playerBullets[bullet] := playerBullets[bullet].(active := false);
      enemies[enemy] := enemies[enemy].(active := false);
      kills := kills + 1;
      if kills >= GameConfig.KILLS_TO_WIN {
        FinishWin(now);
      }
    }

    method OnEnemyBulletHitsPlayer(bullet: nat, playerActive: bool)
      requires Valid() && bullet < enemyBullets.Length
      modifies this, enemyBullets, store, sdk
      ensures Valid()
      ensures var accepted := old(enemyBullets[bullet].active) && playerActive && !old(ending);
        && (!accepted ==> (Fields() == old(Fields())
              && enemyBullets[..] == old(enemyBullets[..]) && store.progress == old(store.progress)
              && sdk.State() == old(sdk.State())))
        && (accepted ==> (hp == old(hp) - 1 && hp >= 0
              && enemyBullets[..] == old(enemyBullets[..])[bullet := old(enemyBullets[bullet]).(active := false)]
              && (ending <==> hp == 0)))
        && (accepted && !ending ==> (Fields() == old(Fields()).(hp := old(hp) - 1)
              && store.progress == old(store.progress) && sdk.State() == old(sdk.State())))
        && (accepted && ending ==> (
              && Fields() == Ended(old(Fields()).(hp := 0), Defeat(old(kills)))
              && store.progress == ProgressStore.AfterLoss(old(store.progress), kills)
              && sdk.State() == YandexService.AfterGameplayStop(old(sdk.State()))))
    {
      if !enemyBullets[bullet].active || !playerActive || ending {
        return;
      }
      enemyBullets[bullet] := enemyBullets[bullet].(active := false);
      ApplyDamage(1);
    }

    method OnEnemyTouchesPlayer(enemy: nat, playerActive: bool)
      requires Valid() && enemy < enemies.Length
      modifies this, enemies, store, sdk
      ensures Valid()
      ensures var accepted := old(enemies[enemy].active) && playerActive && !old(ending);
        && (!accepted ==> (Fields() == old(Fields())
              && enemies[..] == old(enemies[..]) && store.progress == old(store.progress)
              && sdk.State() == old(sdk.State())))
        && (accepted ==> (hp == old(hp) - 1 && hp >= 0
              && enemies[..] == old(enemies[..])[enemy := old(enemies[enemy]).(active := false)]
              && (ending <==> hp == 0)))
        && (accepted && !ending ==> (Fields() == old(Fields()).(hp := old(hp) - 1)
              && store.progress == old(store.progress) && sdk.State() == old(sdk.State())))
        && (accepted && ending ==> (
              && Fields() == Ended(old(Fields()).(hp := 0), Defeat(old(kills)))
              && store.progress == ProgressStore.AfterLoss(old(store.progress), kills)
              && sdk.State() == YandexService.AfterGameplayStop(old(sdk.State()))))
    {
      if !enemies[enemy].active || !playerActive || ending {
        return;
      }
      enemies[enemy] := enemies[enemy].(active := false);
      ApplyDamage(1);
    }

    method CreateBullet(group: array<Bullet>, now: int)
      modifies group
      ensures group[..] == WithNewBullet(old(group[..]), now)
    {
      var slot := FreeSlot(group[..], BulletLive);
      if slot.None? {
        return;
      }
      group[slot.value] := Bullet(true, now + GameConfig.BULLET_LIFETIME_MS);
    }

    method TryShoot(now: int) returns (fired: bool)
      modifies this, playerBullets
      ensures fired <==> old(gameplayStarted) && now - old(lastShotAt) >= GameConfig.PLAYER_SHOT_COOLDOWN_MS
      ensures fired ==> (Fields() == old(Fields()).(lastShotAt := now)
        && old(lastShotAt) + GameConfig.PLAYER_SHOT_COOLDOWN_MS <= now
        && playerBullets[..] == WithNewBullet(old(playerBullets[..]), now))
      ensures !fired ==> Fields() == old(Fields()) && playerBullets[..] == old(playerBullets[..])
    {
      if !gameplayStarted {
        return false;
      }
      if now - lastShotAt < GameConfig.PLAYER_SHOT_COOLDOWN_MS {
        return false;
      }
      lastShotAt := now;
      CreateBullet(playerBullets, now);
      return true;
    }

    /** One timer tick of enemy spawning. `side`, `along` and `fireDelay` are
        the tick's `Phaser.Math.Between` draws. */
    method SpawnEnemy(now: int, side: int, along: int, fireDelay: int)
      requires 0 <= side <= 3 && AlongInRange(side, along)
      requires GameConfig.ENEMY_FIRE_MIN_MS <= fireDelay <= GameConfig.ENEMY_FIRE_MAX_MS
      modifies enemies
      ensures ending || CountActive(old(enemies[..])) >= GameConfig.MAX_ENEMIES_ON_FIELD ==>
        enemies[..] == old(enemies[..])
      ensures !ending && CountActive(old(enemies[..])) < GameConfig.MAX_ENEMIES_ON_FIELD ==>
        match FreeSlot(old(enemies[..]), EnemyLive)
        case None => enemies[..] == old(enemies[..])
        case Some(i) =>
          var p := SpawnPosition(side, along);
          enemies[..] == old(enemies[..])[i := Enemy(true, p.0 as real, p.1 as real, now + fireDelay)]
          && CountActive(enemies[..]) == CountActive(old(enemies[..])) + 1
      ensures CountActive(old(enemies[..])) <= GameConfig.MAX_ENEMIES_ON_FIELD ==>
        CountActive(enemies[..]) <= GameConfig.MAX_ENEMIES_ON_FIELD
      ensures forall j :: 0 <= j < enemies.Length && enemies[j] != old(enemies[j]) ==>
        && enemies[j].active
        && GameConfig.ENEMY_FIRE_MIN_MS <= enemies[j].nextShotAt - now <= GameConfig.ENEMY_FIRE_MAX_MS
        && SPAWN_MARGIN as real <= enemies[j].x <= (GameConfig.GAME_WIDTH - SPAWN_MARGIN) as real
        && SPAWN_MARGIN as real <= enemies[j].y <= (GameConfig.GAME_HEIGHT - SPAWN_MARGIN) as real
    {
      if ending || CountActive(enemies[..]) >= GameConfig.MAX_ENEMIES_ON_FIELD {
        return;
      }
      var p := SpawnPosition(side, along);
      var slot := FreeSlot(enemies[..], EnemyLive);
      if slot.None? {
        return;
      }
      var e := Enemy(true, p.0 as real, p.1 as real, now + fireDelay);
      CountActiveUpdate(enemies[..], slot.value, e);
      enemies[slot.value] := e;
    }

    /** The per-frame enemy pass, reduced to wrapping and the fire timer:
        every live enemy whose shot is due fires one bullet and re-arms its
        timer with its draw from `delays`. */
    method UpdateEnemyAI(now: int, delays: seq<int>)
      requires |delays| == enemies.Length
      requires forall i :: 0 <= i < |delays| ==>
        GameConfig.ENEMY_FIRE_MIN_MS <= delays[i] <= GameConfig.ENEMY_FIRE_MAX_MS
      modifies enemies, enemyBullets
      ensures forall i :: 0 <= i < enemies.Length ==> enemies[i] == EnemyAfterTick(old(enemies[i]), now, delays[i])
      ensures forall i :: 0 <= i < enemies.Length && enemies[i].active ==> enemies[i].nextShotAt > now
      ensures forall j :: 0 <= j < enemyBullets.Length && old(enemyBullets[j]).active ==> enemyBullets[j] == old(enemyBullets[j])
      ensures forall j :: 0 <= j < enemyBullets.Length && enemyBullets[j] != old(enemyBullets[j]) ==>
        enemyBullets[j] == Bullet(true, now + GameConfig.BULLET_LIFETIME_MS)
    {
      var i := 0;
      while i < enemies.Length
        invariant 0 <= i <= enemies.Length
        invariant forall k :: 0 <= k < i ==> enemies[k] == EnemyAfterTick(old(enemies[k]), now, delays[k])
        invariant forall k :: i <= k < enemies.Length ==> enemies[k] == old(enemies[k])
        invariant forall j :: 0 <= j < enemyBullets.Length && old(enemyBullets[j]).active ==> enemyBullets[j] == old(enemyBullets[j])
        invariant forall j :: 0 <= j < enemyBullets.Length && enemyBullets[j] != old(enemyBullets[j]) ==>
          enemyBullets[j] == Bullet(true, now + GameConfig.BULLET_LIFETIME_MS)
      {
        var enemy := enemies[i];
        if enemy.active {
          enemy := enemy.(x := WrapX(enemy.x), y := WrapY(enemy.y));
          if now >= enemy.nextShotAt {
            CreateBullet(enemyBullets, now);
            enemy := enemy.(nextShotAt := now + delays[i]);
          }
          enemies[i] := enemy;
        }
        i := i + 1;
      }
    }

    method CleanupGroupBullets(group: array<Bullet>, now: int)
      modifies group
      ensures forall j :: 0 <= j < group.Length ==> group[j] == Swept(old(group[j]), now)
    {
      var j := 0;
      while j < group.Length
        invariant 0 <= j <= group.Length
        invariant forall k :: 0 <= k < j ==> group[k] == Swept(old(group[k]), now)
        invariant forall k :: j <= k < group.Length ==> group[k] == old(group[k])
      {
        var bullet := group[j];
        if bullet.active {
          var expiresAt := bullet.expiresAt;
          if expiresAt > 0 && now >= expiresAt {
            group[j] := bullet.(active := false);
          }
        }
        j := j + 1;
      }
    }

    /** The tail of a win once the ledger is saved: the run's score goes to
        the leaderboard (the mock one when the SDK is not usable). */
    method SubmitWinScore()
      requires Valid() && outcome.Victory?
      modifies sdk
      ensures Valid()
      ensures sdk.State() == YandexService.AfterSubmitScore(old(sdk.State()), outcome.score as real)
      ensures !old(sdk.mockMode) && old(sdk.scoreApi) == YandexService.LeaderboardAvailable ==>
        sdk.State() == old(sdk.State()).(submittedScores := old(sdk.submittedScores) + [outcome.score])
      ensures !old(sdk.mockMode) && old(sdk.scoreApi) == YandexService.ReportedUnavailable ==>
        sdk.State() == old(sdk.State())
      ensures old(sdk.mockMode) || old(sdk.scoreApi) == YandexService.NoLeaderboardApi ==>
        sdk.State() == old(sdk.State()).(mockLeaderboardScore := Max(old(sdk.mockLeaderboardScore), outcome.score))
    {
      var score := outcome.score;
      assert (score as real).Floor == score;
      sdk.SubmitScore(score as real);
    }

    /** The scene's SHUTDOWN listener: the gameplay mark is cleared and the
        spawn timer removed, whatever state the run is in. */
    method Shutdown()
      requires Valid()
      modifies this, sdk
      ensures Valid()
      ensures Fields() == old(Fields()).(spawnTimerArmed := false)
      ensures sdk.State() == YandexService.AfterGameplayStop(old(sdk.State()))
      ensures !sdk.gameplayMarked || sdk.mockMode
      ensures store.progress == old(store.progress)
    {
      sdk.MarkGameplayStop();
      spawnTimerArmed := false;
    }

    /** One frame: nothing once the run ends or before gameplay starts. */
    method Update(now: int, delays: seq<int>)
      requires Valid()
      requires |delays| == enemies.Length
      requires forall i :: 0 <= i < |delays| ==>
        GameConfig.ENEMY_FIRE_MIN_MS <= delays[i] <= GameConfig.ENEMY_FIRE_MAX_MS
      modifies this, enemies, playerBullets, enemyBullets
      ensures Valid()
      ensures old(ending) || !old(gameplayStarted) ==>
        Fields() == old(Fields())
        && enemies[..] == old(enemies[..]) && playerBullets[..] == old(playerBullets[..])
        && enemyBullets[..] == old(enemyBullets[..])
      ensures !old(ending) && old(gameplayStarted) ==>
        Fields() == old(Fields()).(playerX := WrapX(old(playerX)), playerY := WrapY(old(playerY)))
        && (forall i :: 0 <= i < enemies.Length ==> enemies[i] == EnemyAfterTick(old(enemies[i]), now, delays[i]))
        && (forall j :: 0 <= j < playerBullets.Length ==> playerBullets[j] == Swept(old(playerBullets[j]), now))
    {
      if ending || !gameplayStarted {
        return;
      }
      playerX := WrapX(playerX);
      playerY := WrapY(playerY);
      UpdateEnemyAI(now, delays);
      CleanupGroupBullets(playerBullets, now);
      CleanupGroupBullets(enemyBullets, now);
    }
  }

  /** An enemy after one AI pass: a live one is wrapped and, when its shot is
      due, re-armed `delay` after now. */
  function EnemyAfterTick(e: Enemy, now: int, delay: int): (f: Enemy)
    ensures f.active == e.active
    ensures !e.active ==> f == e
    ensures e.active ==> f.x == WrapX(e.x) && f.y == WrapY(e.y)
    ensures e.active && now >= e.nextShotAt ==> f.nextShotAt == now + delay
    ensures e.active && now < e.nextShotAt ==> f.nextShotAt == e.nextShotAt
  {
    if !e.active then e
    else
      var w := e.(x := WrapX(e.x), y := WrapY(e.y));
      if now >= e.nextShotAt then w.(nextShotAt := now + delay) else w
  }
}
