/** The persistent progress ledger (ProgressStore.ts): lifetime counters, the
    credit balance, the hull-upgrade level and the sound preference, with the
    normalisation applied when a stored record is loaded. */
module ProgressStore {
  import opened Common
  import opened MetaProgression

  /** The outcome of JavaScript's `Number(value)` on a stored field: a finite
      number, or NaN/an infinity (which is also what a missing field gives). */
  datatype NumberValue = Finite(x: real) | NonFinite

  /** A stored record as read back: every field may be missing or malformed.
      `soundEnabled` is `Some` exactly when the stored value is a boolean. */
  datatype RawProgress = RawProgress(
    bestScore: NumberValue,
    totalWins: NumberValue,
    totalLosses: NumberValue,
    totalKills: NumberValue,
    credits: NumberValue,
    hpUpgradeLevel: NumberValue,
    soundEnabled: Option<bool>)

  datatype GameProgress = GameProgress(
    bestScore: int,
    totalWins: int,
    totalLosses: int,
    totalKills: int,
    credits: int,
    hpUpgradeLevel: int,
    soundEnabled: bool)

  const DEFAULT_PROGRESS: GameProgress := GameProgress(0, 0, 0, 0, 0, 0, true)

  /** The invariant of every record the ledger holds. */
  predicate WellFormed(p: GameProgress)
  {
    && p.bestScore >= 0 && p.totalWins >= 0 && p.totalLosses >= 0
    && p.totalKills >= 0 && p.credits >= 0
    && 0 <= p.hpUpgradeLevel <= MAX_HP_UPGRADE_CAP
  }

  /** A stored number made safe: the fallback when it is not finite, otherwise
      its floor, with negatives raised to zero. */
  function AsSafeNumber(value: NumberValue, fallback: int): (r: int)
    ensures value.NonFinite? ==> r == fallback
    ensures value.Finite? ==> r >= 0
    ensures value.Finite? && value.x >= 0.0 ==> r as real <= value.x < r as real + 1.0
    ensures value.Finite? && value.x < 0.0 ==> r == 0
  {
    match value
    case NonFinite => fallback
    case Finite(x) => NonNegFloor(x)
  }

  /** The record built from a stored one: every field normalised on its own,
      the level capped, and the sound on unless a boolean was stored. */
  function Hydrate(raw: RawProgress): (p: GameProgress)
    ensures WellFormed(p)
    ensures p.soundEnabled == (if raw.soundEnabled.Some? then raw.soundEnabled.value else true)
    ensures p.bestScore == AsSafeNumber(raw.bestScore, 0)
    ensures p.totalWins == AsSafeNumber(raw.totalWins, 0)
    ensures p.totalLosses == AsSafeNumber(raw.totalLosses, 0)
    ensures p.totalKills == AsSafeNumber(raw.totalKills, 0)
    ensures p.credits == AsSafeNumber(raw.credits, 0)
    ensures p.hpUpgradeLevel == Min(MAX_HP_UPGRADE_CAP, AsSafeNumber(raw.hpUpgradeLevel, 0))
  {
    GameProgress(
      AsSafeNumber(raw.bestScore, DEFAULT_PROGRESS.bestScore),
      AsSafeNumber(raw.totalWins, DEFAULT_PROGRESS.totalWins),
      AsSafeNumber(raw.totalLosses, DEFAULT_PROGRESS.totalLosses),
      AsSafeNumber(raw.totalKills, DEFAULT_PROGRESS.totalKills),
      AsSafeNumber(raw.credits, DEFAULT_PROGRESS.credits),
      Min(MAX_HP_UPGRADE_CAP, AsSafeNumber(raw.hpUpgradeLevel, DEFAULT_PROGRESS.hpUpgradeLevel)),
      match raw.soundEnabled
      case Some(b) => b
      case None => DEFAULT_PROGRESS.soundEnabled)
  }

  /** Loading a record the ledger itself wrote gives the same record back. */
  lemma HydrateStoredRecord(p: GameProgress)
    requires WellFormed(p)
    ensures Hydrate(RawProgress(
      Finite(p.bestScore as real), Finite(p.totalWins as real), Finite(p.totalLosses as real),
      Finite(p.totalKills as real), Finite(p.credits as real), Finite(p.hpUpgradeLevel as real),
      Some(p.soundEnabled))) == p
  {
  }

  // ---------------------------------------------------------------------
  // The record after each ledger operation

  function AfterWin(p: GameProgress, score: int, kills: nat): (q: GameProgress)
    ensures q.totalWins == p.totalWins + 1
    ensures q.totalKills == p.totalKills + kills
    ensures q.bestScore >= p.bestScore && q.bestScore >= score
    ensures q.bestScore == p.bestScore || q.bestScore == score
    ensures q.credits == p.credits + RunCreditsReward(kills as real, true)
    ensures q.totalLosses == p.totalLosses && q.hpUpgradeLevel == p.hpUpgradeLevel
    ensures q.soundEnabled == p.soundEnabled
  {
    p.(totalWins := p.totalWins + 1,
       totalKills := p.totalKills + kills,
       bestScore := Max(p.bestScore, score),
       credits := p.credits + RunCreditsReward(kills as real, true))
  }

  function AfterLoss(p: GameProgress, kills: nat): (q: GameProgress)
    ensures q.totalLosses == p.totalLosses + 1
    ensures q.totalKills == p.totalKills + kills
    ensures q.credits == p.credits + RunCreditsReward(kills as real, false)
    ensures q.bestScore == p.bestScore && q.totalWins == p.totalWins
    ensures q.hpUpgradeLevel == p.hpUpgradeLevel && q.soundEnabled == p.soundEnabled
  {
    p.(totalLosses := p.totalLosses + 1,
       totalKills := p.totalKills + kills,
       credits := p.credits + RunCreditsReward(kills as real, false))
  }

  function AfterToggleSound(p: GameProgress): (q: GameProgress)
    ensures q.soundEnabled != p.soundEnabled
    ensures q.(soundEnabled := p.soundEnabled) == p
  {
    p.(soundEnabled := !p.soundEnabled)
  }

  function CanPurchase(p: GameProgress): bool
  {
    CanBuyHpUpgrade(p.credits as real, p.hpUpgradeLevel as real)
  }

  /** A purchase either applies completely or not at all. */
  function AfterPurchase(p: GameProgress): (q: GameProgress)
    ensures !CanPurchase(p) ==> q == p
    ensures CanPurchase(p) && p.credits >= 0 && p.hpUpgradeLevel >= 0 ==>
      && q.credits == p.credits - NextHpUpgradeCost(p.hpUpgradeLevel as real)
      && q.hpUpgradeLevel == p.hpUpgradeLevel + 1
      && q.(credits := p.credits, hpUpgradeLevel := p.hpUpgradeLevel) == p
  {
    if !CanPurchase(p) then p
    else
      var cost := NextHpUpgradeCost(p.hpUpgradeLevel as real);
      p.(credits := Max(0, p.credits - cost), hpUpgradeLevel := p.hpUpgradeLevel + 1)
  }

  // ---------------------------------------------------------------------
  // Properties of the ledger operations

  lemma WinKeepsWellFormed(p: GameProgress, score: int, kills: nat)
    requires WellFormed(p)
    ensures WellFormed(AfterWin(p, score, kills))
  {
  }

  lemma LossKeepsWellFormed(p: GameProgress, kills: nat)
    requires WellFormed(p)
    ensures WellFormed(AfterLoss(p, kills))
  {
  }

  /** A purchase never overdraws the credits and never passes the level cap. */
  lemma PurchaseKeepsWellFormed(p: GameProgress)
    requires WellFormed(p)
    ensures WellFormed(AfterPurchase(p))
    ensures CanPurchase(p) ==> AfterPurchase(p).hpUpgradeLevel <= MAX_HP_UPGRADE_CAP
  {
    if CanPurchase(p) {
      assert NonNegFloor(p.hpUpgradeLevel as real) == p.hpUpgradeLevel;
      assert NonNegFloor(p.credits as real) == p.credits;
    }
  }

  /** On a well-formed record a purchase succeeds exactly when the level is
      below the cap and the credits cover the next cost. */
  lemma PurchaseEligibility(p: GameProgress)
    requires WellFormed(p)
    ensures CanPurchase(p) <==>
      p.hpUpgradeLevel < MAX_HP_UPGRADE_CAP && p.credits >= HP_UPGRADE_BASE_COST + HP_UPGRADE_STEP_COST * p.hpUpgradeLevel
  {
    assert NonNegFloor(p.hpUpgradeLevel as real) == p.hpUpgradeLevel;
    assert NonNegFloor(p.credits as real) == p.credits;
  }

  lemma ToggleTwiceRestores(p: GameProgress)
    ensures AfterToggleSound(AfterToggleSound(p)) == p
  {
  }

  /** No ledger operation lowers the best score. */
  lemma BestScoreNeverDecreases(p: GameProgress, score: int, kills: nat)
    ensures AfterWin(p, score, kills).bestScore >= p.bestScore
    ensures AfterLoss(p, kills).bestScore == p.bestScore
    ensures AfterPurchase(p).bestScore == p.bestScore
    ensures AfterToggleSound(p).bestScore == p.bestScore
  {
  }

  // ---------------------------------------------------------------------
  // The store object

  class ProgressStore {
    var progress: GameProgress

    ghost predicate Valid()
      reads this
    {
      WellFormed(progress)
    }

    constructor ()
      ensures Valid() && progress == DEFAULT_PROGRESS
    {
      progress := DEFAULT_PROGRESS;
    }

    /** Replaces the record with the normalised form of one read from
        storage (the storage read itself is outside the model). */
    method Load(raw: RawProgress)
      modifies this
      ensures Valid() && progress == Hydrate(raw)
    {
      progress := Hydrate(raw);
    }

    method RecordWin(score: int, kills: nat) returns (reward: int)
      requires Valid()
      modifies this
      ensures Valid()
      ensures progress == AfterWin(old(progress), score, kills)
      ensures reward == RunCreditsReward(kills as real, true)
      ensures progress.credits == old(progress.credits) + reward
    {
      progress := progress.(totalWins := progress.totalWins + 1);
      progress := progress.(totalKills := progress.totalKills + kills);
      progress := progress.(bestScore := Max(progress.bestScore, score));
      reward := RunCreditsReward(kills as real, true);
      progress := progress.(credits := progress.credits + reward);
    }

    method RecordLoss(kills: nat) returns (reward: int)
      requires Valid()
      modifies this
      ensures Valid()
      ensures progress == AfterLoss(old(progress), kills)
      ensures reward == RunCreditsReward(kills as real, false)
      ensures progress.credits == old(progress.credits) + reward
    {
      progress := progress.(totalLosses := progress.totalLosses + 1);
      progress := progress.(totalKills := progress.totalKills + kills);
      reward := RunCreditsReward(kills as real, false);
      progress := progress.(credits := progress.credits + reward);
    }

    method ToggleSound() returns (enabled: bool)
      requires Valid()
      modifies this
      ensures Valid()
      ensures progress == AfterToggleSound(old(progress))
      ensures enabled == progress.soundEnabled && enabled == !old(progress.soundEnabled)
    {
      progress := progress.(soundEnabled := !progress.soundEnabled);
      enabled := progress.soundEnabled;
    }

    function GetNextHpUpgradeCost(): (cost: int)
      reads this
      requires Valid()
      ensures cost == HP_UPGRADE_BASE_COST + HP_UPGRADE_STEP_COST * progress.hpUpgradeLevel
    {
      NextHpUpgradeCost(progress.hpUpgradeLevel as real)
    }

    /** On a well-formed ledger, a purchase is allowed exactly below the
        level cap with credits covering the next cost. */
    function CanPurchaseHpUpgrade(): (b: bool)
      reads this
      ensures Valid() ==> (b <==>
        progress.hpUpgradeLevel < MAX_HP_UPGRADE_CAP
        && progress.credits >= HP_UPGRADE_BASE_COST + HP_UPGRADE_STEP_COST * progress.hpUpgradeLevel)
    {
      assert Valid() ==>
        NonNegFloor(progress.hpUpgradeLevel as real) == progress.hpUpgradeLevel
        && NonNegFloor(progress.credits as real) == progress.credits;
      CanPurchase(progress)
    }

    method PurchaseHpUpgrade() returns (ok: bool)
      requires Valid()
      modifies this
      ensures Valid()
      ensures ok == CanPurchase(old(progress))
      ensures progress == AfterPurchase(old(progress))
      ensures !ok ==> progress == old(progress)
      ensures ok ==> progress.credits == old(progress.credits) - NextHpUpgradeCost(old(progress.hpUpgradeLevel) as real)
    {
      if !CanPurchaseHpUpgrade() {
        return false;
      }
      var cost := GetNextHpUpgradeCost();
      progress := progress.(credits := Max(0, progress.credits - cost));
      progress := progress.(hpUpgradeLevel := progress.hpUpgradeLevel + 1);
      PurchaseKeepsWellFormed(old(progress));
      return true;
    }

    /** The player's hull points at the start of a run. */
    function GetPlayerMaxHp(baseHp: int): (hp: int)
      reads this
      requires Valid()
      ensures baseHp <= hp <= baseHp + MAX_HP_UPGRADE_CAP
      ensures hp - baseHp == progress.hpUpgradeLevel
    {
      baseHp + progress.hpUpgradeLevel
    }
  }
}
