/** Passive skill values: the number an opponent's check is compared against. */
module PassiveCalculator {
  import opened Shared
  import opened AbilityHelpers

  /**
   * `calculatePassive`: ten plus the skill bonus.  The source's `|| 0` on the bonus and the manual
   * modifier only replaces `NaN` and `0`, so on integers it changes nothing.
   */
  function CalculatePassive(score: int, p: ProficiencyLevel, bonus: int, manualMod: int): (r: int)
    ensures r - 10 == SkillBonus(score, p, bonus, manualMod)
  {
    10 + SkillBonus(score, p, bonus, manualMod)
  }

  /** An untrained skill with no manual modifier has passive ten plus the ability modifier. */
  lemma PassiveUntrained(score: int, bonus: int)
    ensures CalculatePassive(score, Untrained, bonus, 0) == 10 + AbilityModifier(score)
  {
    SkillBonusParts(score, Untrained, bonus, 0);
  }

  /** The manual modifier adds straight through. */
  lemma PassiveManualAdditive(score: int, p: ProficiencyLevel, bonus: int, m: int, k: int)
    ensures CalculatePassive(score, p, bonus, m + k) == CalculatePassive(score, p, bonus, m) + k
  {
  }

  /** Expertise is worth exactly one more proficiency bonus than proficiency. */
  lemma ExpertOverProficient(score: int, bonus: int, m: int)
    ensures CalculatePassive(score, Expert, bonus, m) - CalculatePassive(score, Proficient, bonus, m) == bonus
  {
  }
}
