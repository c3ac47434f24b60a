/** The meta-progression economy (metaProgression.ts): the price of the next
    hull upgrade, whether it can be bought, and the credits a run earns.
    Inputs are JavaScript numbers, normalised to non-negative integers. */
module MetaProgression {
  import opened Common

  const MAX_HP_UPGRADE_CAP: int := 80
  const HP_UPGRADE_BASE_COST: int := 35
  const HP_UPGRADE_STEP_COST: int := 20
  const CREDITS_PER_KILL: int := 4
  const WIN_CREDITS_BONUS: int := 20

  function NextHpUpgradeCost(level: real): (cost: int)
    ensures cost >= HP_UPGRADE_BASE_COST
    ensures (cost - HP_UPGRADE_BASE_COST) % HP_UPGRADE_STEP_COST == 0
    ensures (cost - HP_UPGRADE_BASE_COST) / HP_UPGRADE_STEP_COST == NonNegFloor(level)
  {
    HP_UPGRADE_BASE_COST + NonNegFloor(level) * HP_UPGRADE_STEP_COST
  }

  /** Every further upgrade level costs exactly 20 more than the one before. */
  lemma {:induction false} CostStrictlyIncreasing(l1: nat, l2: nat)
    requires l1 < l2
    ensures NextHpUpgradeCost(l2 as real) >= NextHpUpgradeCost(l1 as real) + HP_UPGRADE_STEP_COST * (l2 - l1)
    ensures NextHpUpgradeCost(l1 as real) < NextHpUpgradeCost(l2 as real)
  {
    assert NonNegFloor(l1 as real) == l1 && NonNegFloor(l2 as real) == l2;
  }

  lemma CostExamples()
    ensures NextHpUpgradeCost(0.0) == 35
    ensures NextHpUpgradeCost(0.0) < NextHpUpgradeCost(1.0)
    ensures NextHpUpgradeCost(3.0) == 95
  {
  }

  /** Buying requires the level to be below the cap and the credits to cover
      the next cost. */
  function CanBuyHpUpgrade(credits: real, level: real): (ok: bool)
    ensures NonNegFloor(level) >= MAX_HP_UPGRADE_CAP ==> !ok
    ensures NonNegFloor(level) < MAX_HP_UPGRADE_CAP ==>
      (ok <==> NonNegFloor(credits) >= NextHpUpgradeCost(level))
  {
    var normalizedCredits := NonNegFloor(credits);
    var normalizedLevel := NonNegFloor(level);
    if normalizedLevel >= MAX_HP_UPGRADE_CAP then false
    else normalizedCredits >= NextHpUpgradeCost(normalizedLevel as real)
  }

  lemma CanBuyExamples()
    ensures !CanBuyHpUpgrade(10.0, 0.0)
    ensures !CanBuyHpUpgrade(200.0, MAX_HP_UPGRADE_CAP as real)
    ensures CanBuyHpUpgrade(100.0, 1.0)
  {
  }

  /** Credits for a finished run: 4 per kill, plus 20 for a win. */
  function RunCreditsReward(kills: real, didWin: bool): (reward: int)
    ensures reward >= 0
    ensures didWin ==> reward >= WIN_CREDITS_BONUS
    ensures (reward - (if didWin then WIN_CREDITS_BONUS else 0)) % CREDITS_PER_KILL == 0
    ensures (reward - (if didWin then WIN_CREDITS_BONUS else 0)) / CREDITS_PER_KILL == NonNegFloor(kills)
  {
    var base := NonNegFloor(kills) * CREDITS_PER_KILL;
    if didWin then base + WIN_CREDITS_BONUS else base
  }

  /** With equal kills a win pays exactly the bonus more than a loss. */
  lemma WinPaysBonus(kills: real)
    ensures RunCreditsReward(kills, true) == RunCreditsReward(kills, false) + WIN_CREDITS_BONUS
    ensures RunCreditsReward(kills, true) > RunCreditsReward(kills, false)
  {
  }

  lemma RewardExamples()
    ensures RunCreditsReward(5.0, false) == 20
    ensures RunCreditsReward(5.0, true) > RunCreditsReward(5.0, false)
  {
  }
}
