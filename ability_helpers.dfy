/** Ability modifiers, proficiency tiers and skill bonuses: the arithmetic every card derives from. */
module AbilityHelpers {
  import opened Wrappers
  import opened Shared
  import opened Text
  import opened Js
  import opened CardTypes

  /** `calculateAbilityModifier`: the modifier is the floor of half the distance from 10. */
  function AbilityModifier(score: int): (m: int)
    ensures 2 * m <= score - 10 < 2 * m + 2
  {
    (score - 10) / 2
  }

  lemma AbilityModifierExamples()
    ensures AbilityModifier(1) == -5 && AbilityModifier(0) == -5 && AbilityModifier(8) == -1
    ensures AbilityModifier(10) == 0 && AbilityModifier(11) == 0 && AbilityModifier(12) == 1
    ensures AbilityModifier(15) == 2 && AbilityModifier(20) == 5 && AbilityModifier(30) == 10
  {
  }

  /** A higher score never gives a lower modifier, and two more points give exactly one more. */
  lemma AbilityModifierMonotone(s: int, t: int)
    ensures s <= t ==> AbilityModifier(s) <= AbilityModifier(t)
    ensures AbilityModifier(s + 2) == AbilityModifier(s) + 1
  {
  }

  /** `formatModifier`: an explicit plus sign for zero and positive modifiers; `parseInt` reads it back. */
  function FormatModifier(m: int): (r: string)
    ensures |r| >= 2 && (r[0] == '+' || r[0] == '-') && AllDigits(r[1..])
    ensures r[0] == '+' <==> m >= 0
    ensures ParseInt(r) == Some(m)
    ensures r[1] == '0' <==> m == 0
    ensures |r| == 2 || r[1] != '0'
  {
    ParseIntOfIntToString(m);
    if m >= 0 then
      ParseIntOfPlusSigned(m);
      "+" + IntToString(m)
    else IntToString(m)
  }

  /**
   * `applyProficiencyMultiplier`: the share of the proficiency bonus a tier earns, rounded down.
   * A stored tier that is not one of the four earns nothing, as `Untrained` does.
   */
  function ApplyProficiencyMultiplier(p: ProficiencyLevel, bonus: int): (r: int)
    ensures p == Untrained ==> r == 0
    ensures p == Half ==> 2 * r <= bonus < 2 * r + 2
    ensures p == Proficient ==> r == bonus
    ensures p == Expert ==> r == 2 * bonus
  {
    match p
    case Untrained => 0
    case Half => bonus / 2
    case Proficient => bonus
    case Expert => 2 * bonus
  }

  /** For a non-negative bonus the tiers earn in the order none, half, proficient, expert. */
  lemma TiersOrdered(bonus: int)
    requires bonus >= 0
    ensures ApplyProficiencyMultiplier(Untrained, bonus) <= ApplyProficiencyMultiplier(Half, bonus)
    ensures ApplyProficiencyMultiplier(Half, bonus) <= ApplyProficiencyMultiplier(Proficient, bonus)
    ensures ApplyProficiencyMultiplier(Proficient, bonus) <= ApplyProficiencyMultiplier(Expert, bonus)
  {
  }

  /** `calculateSkillBonus`: ability modifier, plus the tier's share of the bonus, plus a manual modifier. */
  function SkillBonus(score: int, p: ProficiencyLevel, bonus: int, manualMod: int): (r: int)
    ensures p == Untrained ==> r == AbilityModifier(score) + manualMod
    ensures bonus >= 0 ==> AbilityModifier(score) + manualMod <= r <= AbilityModifier(score) + manualMod + 2 * bonus
  {
    AbilityModifier(score) + ApplyProficiencyMultiplier(p, bonus) + manualMod
  }

  /** The skill bonus splits into its three parts: an untrained skill with no manual modifier is the ability modifier, and each part adds. */
  lemma SkillBonusParts(score: int, p: ProficiencyLevel, bonus: int, manualMod: int)
    ensures SkillBonus(score, Untrained, bonus, 0) == AbilityModifier(score)
    ensures SkillBonus(score, p, bonus, manualMod) == SkillBonus(score, p, bonus, 0) + manualMod
    ensures SkillBonus(score, Expert, bonus, manualMod) == SkillBonus(score, Proficient, bonus, manualMod) + bonus
    ensures SkillBonus(score + 2, p, bonus, manualMod) == SkillBonus(score, p, bonus, manualMod) + 1
  {
  }

  /** The property of a card's object view that an ability is stored under. */
  function AbilityField(a: Ability): (f: Field)
    ensures Key(f) == a.Key()
  {
    match a
    case Str => FStr
    case Dex => FDex
    case Con => FCon
    case Int => FInt
    case Wis => FWis
    case Cha => FCha
  }

  /** `getAbilityScore`: the number a card object holds under the ability's own key. */
  function GetAbilityScore(c: Card, a: Ability): int {
    match a
    case Str => c.str
    case Dex => c.dex
    case Con => c.con
    case Int => c.intel
    case Wis => c.wis
    case Cha => c.cha
  }

  /** The score read is the number the card's object view stores under the ability's key. */
  lemma GetAbilityScoreIsStored(c: Card, a: Ability)
    ensures FieldValue(c, AbilityField(a)) == JNum(GetAbilityScore(c, a))
  {
  }
}
