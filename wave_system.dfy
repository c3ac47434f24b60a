/** The wave director (waveSystem.ts): maps the cumulative kill count of a run
    to a wave and its difficulty parameters, and draws an enemy movement
    pattern from the wave's weights. Multipliers are exact rationals. */
module WaveSystem {
  import opened Common
  import GameConfig

  const KILLS_PER_WAVE: int := 4
  const MIN_SPAWN_DELAY_MS: int := 560
  const MAX_ENEMIES_CAP: int := 12

  datatype EnemyPattern = Chaser | Strafer | Dasher

  datatype PatternWeights = PatternWeights(chaser: real, strafer: real, dasher: real)

  datatype WaveConfig = WaveConfig(
    wave: int,
    spawnDelayMs: int,
    maxEnemiesOnField: int,
    enemySpeedMultiplier: real,
    enemyFireRateMultiplier: real,
    patternWeights: PatternWeights)

  datatype FireDelayRange = FireDelayRange(minMs: int, maxMs: int)

  /** The wave a run is in: one wave per four kills, starting at wave 1;
      negative and fractional kill counts are normalised first. */
  function WaveForKills(kills: real): (wave: int)
    ensures wave >= 1
    ensures (wave - 1) * KILLS_PER_WAVE <= NonNegFloor(kills) < wave * KILLS_PER_WAVE
  {
    NonNegFloor(kills) / KILLS_PER_WAVE + 1
  }

  lemma WaveForKillsMonotone(k1: real, k2: real)
    requires k1 <= k2
    ensures WaveForKills(k1) <= WaveForKills(k2)
  {
    assert NonNegFloor(k1) <= NonNegFloor(k2);
  }

  lemma WaveForKillsExamples()
    ensures WaveForKills(0.0) == 1 && WaveForKills(3.0) == 1
    ensures WaveForKills(4.0) == 2 && WaveForKills(11.0) == 3
  {
  }

  /** The difficulty parameters of the wave that `kills` falls in. */
  function WaveConfigFor(kills: real): (c: WaveConfig)
    ensures c.wave == WaveForKills(kills)
    ensures MIN_SPAWN_DELAY_MS <= c.spawnDelayMs <= GameConfig.ENEMY_SPAWN_DELAY_MS
    ensures GameConfig.MAX_ENEMIES_ON_FIELD <= c.maxEnemiesOnField <= MAX_ENEMIES_CAP
    ensures 1.0 <= c.enemySpeedMultiplier <= 1.55
    ensures 1.0 <= c.enemyFireRateMultiplier <= 1.5
    ensures c.patternWeights.chaser >= 1.0
    ensures 2.0 <= c.patternWeights.strafer <= 6.0
    ensures c.wave == 1 ==> c.patternWeights.dasher == 0.0
    ensures c.wave >= 2 ==> c.patternWeights.dasher >= 1.0
  {
    var wave := WaveForKills(kills);
    var waveProgress := wave - 1;
    WaveConfig(
      wave,
      Max(MIN_SPAWN_DELAY_MS, GameConfig.ENEMY_SPAWN_DELAY_MS - waveProgress * 120),
      Min(MAX_ENEMIES_CAP, GameConfig.MAX_ENEMIES_ON_FIELD + waveProgress / 2),
      1.0 + RealMin(0.55, waveProgress as real * 0.08),
      1.0 + RealMin(0.5, waveProgress as real * 0.07),
      PatternWeights(
        Max(1, 6 - waveProgress) as real,
        (2 + Min(4, waveProgress)) as real,
        if wave >= 2 then (1 + (wave - 2) / 2) as real else 0.0))
  }

  /** Difficulty never eases as kills accumulate. */
  lemma WaveConfigMonotone(k1: real, k2: real)
    requires k1 <= k2
    ensures WaveConfigFor(k2).wave >= WaveConfigFor(k1).wave
    ensures WaveConfigFor(k2).spawnDelayMs <= WaveConfigFor(k1).spawnDelayMs
    ensures WaveConfigFor(k2).maxEnemiesOnField >= WaveConfigFor(k1).maxEnemiesOnField
    ensures WaveConfigFor(k2).enemySpeedMultiplier >= WaveConfigFor(k1).enemySpeedMultiplier
    ensures WaveConfigFor(k2).enemyFireRateMultiplier >= WaveConfigFor(k1).enemyFireRateMultiplier
    ensures WaveConfigFor(k2).patternWeights.strafer >= WaveConfigFor(k1).patternWeights.strafer
    ensures WaveConfigFor(k2).patternWeights.dasher >= WaveConfigFor(k1).patternWeights.dasher
  {
    WaveForKillsMonotone(k1, k2);
    var p1, p2 := WaveForKills(k1) - 1, WaveForKills(k2) - 1;
    assert p1 as real * 0.08 <= p2 as real * 0.08;
    assert p1 as real * 0.07 <= p2 as real * 0.07;
    assert p1 / 2 <= p2 / 2;
  }

  /** The enemy re-fire window for a wave: faster waves fire sooner, but never
      below 320 ms, and the window is always at least 120 ms wide. */
  function EnemyFireDelayRange(config: WaveConfig): (r: FireDelayRange)
    requires config.enemyFireRateMultiplier != 0.0
    ensures r.minMs >= 320
    ensures r.maxMs >= r.minMs + 120
    ensures r.minMs == Max(320, Round(GameConfig.ENEMY_FIRE_MIN_MS as real / config.enemyFireRateMultiplier))
    ensures r.maxMs == Max(r.minMs + 120, Round(GameConfig.ENEMY_FIRE_MAX_MS as real / config.enemyFireRateMultiplier))
  {
    var minMs := Max(320, Round(GameConfig.ENEMY_FIRE_MIN_MS as real / config.enemyFireRateMultiplier));
    var maxMs := Max(minMs + 120, Round(GameConfig.ENEMY_FIRE_MAX_MS as real / config.enemyFireRateMultiplier));
    FireDelayRange(minMs, maxMs)
  }

  lemma RoundMonotone(a: real, b: real)
    requires a <= b
    ensures Round(a) <= Round(b)
  {
    assert (a + 0.5).Floor <= (b + 0.5).Floor;
  }

  lemma QuotientAntitone(c: real, m1: real, m2: real)
    requires c >= 0.0 && 0.0 < m1 <= m2
    ensures c / m2 <= c / m1
  {
    var q1, q2 := c / m1, c / m2;
    assert q1 * m1 == c && q2 * m2 == c && q2 >= 0.0;
    assert q2 * m1 <= q2 * m2;
    assert q2 * m1 <= q1 * m1;
  }

  /** As kills accumulate, both ends of the re-fire window shrink or stay. */
  lemma FireDelayRangeMonotone(k1: real, k2: real)
    requires k1 <= k2
    ensures EnemyFireDelayRange(WaveConfigFor(k2)).minMs <= EnemyFireDelayRange(WaveConfigFor(k1)).minMs
    ensures EnemyFireDelayRange(WaveConfigFor(k2)).maxMs <= EnemyFireDelayRange(WaveConfigFor(k1)).maxMs
  {
    var m1, m2 := WaveConfigFor(k1).enemyFireRateMultiplier, WaveConfigFor(k2).enemyFireRateMultiplier;
    WaveConfigMonotone(k1, k2);
    QuotientAntitone(1100.0, m1, m2);
    QuotientAntitone(1800.0, m1, m2);
    RoundMonotone(1100.0 / m2, 1100.0 / m1);
    RoundMonotone(1800.0 / m2, 1800.0 / m1);
  }

  /** Wave 4 (13 kills) spawns faster and fires sooner than wave 1. */
  lemma PressureRisesByWave()
    ensures WaveConfigFor(13.0).wave > WaveConfigFor(0.0).wave
    ensures WaveConfigFor(13.0).spawnDelayMs < WaveConfigFor(0.0).spawnDelayMs
    ensures WaveConfigFor(13.0).maxEnemiesOnField >= WaveConfigFor(0.0).maxEnemiesOnField
    ensures EnemyFireDelayRange(WaveConfigFor(13.0)).maxMs < EnemyFireDelayRange(WaveConfigFor(0.0)).maxMs
  {
    var c0, c13 := WaveConfigFor(0.0), WaveConfigFor(13.0);
    assert c0.enemyFireRateMultiplier == 1.0;
    assert c13.enemyFireRateMultiplier == 1.21;
    assert Round(1800.0 / 1.0) == 1800;
    assert 1800.0 / 1.21 < 1488.0;
    assert Round(1800.0 / 1.21) <= 1488;
    assert Round(1100.0 / 1.21) <= 910;
  }

  // ---------------------------------------------------------------------
  // Weighted pattern draw

  /** The weight entries in the order the draw walks them. */
  function Entries(w: PatternWeights): (es: seq<(EnemyPattern, real)>)
    ensures |es| == 3
  {
    [(Chaser, w.chaser), (Strafer, w.strafer), (Dasher, w.dasher)]
  }

  /** A negative weight counts as zero. */
  function Clamped(x: real): (r: real)
    ensures r >= 0.0 && (x > 0.0 ==> r == x) && (x <= 0.0 ==> r == 0.0)
  {
    RealMax(0.0, x)
  }

  function WeightOf(w: PatternWeights, p: EnemyPattern): real
  {
    match p
    case Chaser => Clamped(w.chaser)
    case Strafer => Clamped(w.strafer)
    case Dasher => Clamped(w.dasher)
  }

  /** Total clamped weight of the buckets walked before `p`. */
  function WeightBefore(w: PatternWeights, p: EnemyPattern): real
  {
    match p
    case Chaser => 0.0
    case Strafer => Clamped(w.chaser)
    case Dasher => Clamped(w.chaser) + Clamped(w.strafer)
  }

  function TotalWeight(w: PatternWeights): real
  {
    Clamped(w.chaser) + Clamped(w.strafer) + Clamped(w.dasher)
  }

  /** The draw scaled to the total, kept just below the total. */
  function ScaledDraw(randomValue: real, total: real): real
  {
    RealMin(0.999999, RealMax(0.0, randomValue)) * total
  }

  /** The scaled draw is never negative and stays below a positive total. */
  lemma ScaledDrawBelowTotal(randomValue: real, total: real)
    requires total > 0.0
    ensures 0.0 <= ScaledDraw(randomValue, total) < total
  {
    var m := RealMin(0.999999, RealMax(0.0, randomValue));
    assert 0.0 <= m <= 0.999999;
    assert m * total <= 0.999999 * total;
  }

  /** The pattern selected for a draw: the bucket whose cumulative-weight
      interval holds the scaled draw, or chaser when no weight is positive. */
  function DrawnPattern(w: PatternWeights, randomValue: real): (p: EnemyPattern)
    ensures TotalWeight(w) <= 0.0 ==> p == Chaser
    ensures TotalWeight(w) > 0.0 ==> WeightOf(w, p) > 0.0
    ensures TotalWeight(w) > 0.0 ==>
      WeightBefore(w, p) <= ScaledDraw(randomValue, TotalWeight(w)) < WeightBefore(w, p) + WeightOf(w, p)
  {
    var total := TotalWeight(w);
    var d := ScaledDraw(randomValue, total);
    if total <= 0.0 then Chaser
    else
      ScaledDrawBelowTotal(randomValue, total);
      if d < Clamped(w.chaser) then Chaser
      else if d < Clamped(w.chaser) + Clamped(w.strafer) then Strafer
      else Dasher
  }

  /** Only a pattern carrying weight can be drawn: all weight on strafer
      means every draw yields strafer. */
  lemma OnlyWeightedPatternDrawn(w: PatternWeights, randomValue: real)
    requires w.chaser <= 0.0 && w.dasher <= 0.0 && w.strafer > 0.0
    ensures DrawnPattern(w, randomValue) == Strafer
  {
  }

  /** The for-of walk over the weight entries: accumulate the clamped weights
      and stop at the first bucket whose running total exceeds the draw. */
  method PickEnemyPattern(randomValue: real, config: WaveConfig) returns (p: EnemyPattern)
    ensures p == DrawnPattern(config.patternWeights, randomValue)
  {
    var w := config.patternWeights;
    var entries := Entries(w);
    var total := Clamped(entries[0].1) + Clamped(entries[1].1) + Clamped(entries[2].1);
    p := Chaser;
    if total <= 0.0 {
      return;
    }
    var normalized := RealMin(0.999999, RealMax(0.0, randomValue)) * total;
    ScaledDrawBelowTotal(randomValue, total);
    var cursor := 0.0;
    var i := 0;
    var found := false;
    while i < |entries|
      invariant 0 <= i <= |entries|
      invariant !found
      invariant cursor == (if i == 0 then 0.0 else WeightBefore(w, entries[i - 1].0) + WeightOf(w, entries[i - 1].0))
      invariant cursor <= normalized
    {
      cursor := cursor + Clamped(entries[i].1);
      if normalized < cursor {
        p := entries[i].0;
        found := true;
        break;
      }
      i := i + 1;
    }
    assert found;
  }
}
