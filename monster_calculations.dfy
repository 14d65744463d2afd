/**
 * The monster-only derivation: a monster whose skill modifiers are all zero and whose proficiency
 * bonus is positive has its skill values computed from its ability scores; any other monster has
 * each value copied from the modifier its stat block gave.
 */
module MonsterCalculations {
  import opened Wrappers
  import opened Shared
  import opened SkillConfig
  import opened CardTypes
  import opened AbilityHelpers
  import InsertCalculations
  import Maps

  /** Whether the skill values are computed: no modifier other than 0, and a positive proficiency bonus. */
  predicate AutoCalc(c: Card) {
    InsertCalculations.AllModifiersZero(c.skills) && c.proficiencyBonus > 0
  }

  /** Whether a tier adds any of the proficiency bonus in this derivation: proficient and expert do, half does not. */
  predicate CountsAsProficient(p: Option<ProficiencyLevel>) {
    p == Some(Proficient) || p == Some(Expert)
  }

  /** The computed value: the ability modifier, plus the tier's share of a non-zero bonus when the tier counts. */
  function AutoValue(score: int, p: Option<ProficiencyLevel>, bonus: int): (v: int)
    ensures !CountsAsProficient(p) || bonus == 0 ==> v == AbilityModifier(score)
    ensures p == Some(Proficient) ==> v == AbilityModifier(score) + bonus
    ensures p == Some(Expert) ==> v == AbilityModifier(score) + 2 * bonus
  {
    var abilityMod := AbilityModifier(score);
    if CountsAsProficient(p) && bonus != 0 then abilityMod + ApplyProficiencyMultiplier(p.value, bonus)
    else abilityMod
  }

  /** A skill's entry after the derivation: its value computed in auto mode, copied from the modifier otherwise. */
  function MonsterSkill(c: Card, k: SkillName, auto: bool): (s: Skill)
    requires k in c.skills
    ensures s.proficiency == c.skills[k].proficiency && s.modifier == c.skills[k].modifier
    ensures auto ==> s.value == Some(AutoValue(GetAbilityScore(c, AbilityOf(k)), c.skills[k].proficiency, c.proficiencyBonus))
    ensures !auto ==> s.value == c.skills[k].modifier
  {
    var skill := c.skills[k];
    if auto then skill.(value := Some(AutoValue(GetAbilityScore(c, AbilityOf(k)), skill.proficiency, c.proficiencyBonus)))
    else skill.(value := skill.modifier)
  }

  /** Every skill's derived entry. */
  function MonsterSkills(c: Card, auto: bool): (skills: map<SkillName, Skill>)
    requires Complete(c.skills)
    ensures Complete(skills)
    ensures forall k :: skills[k] == MonsterSkill(c, k, auto)
  {
    map k | k in c.skills :: MonsterSkill(c, k, auto)
  }

  /** The card `calculateMonsterValues` returns. */
  function MonsterValues(c: Card): (r: Card)
    requires Complete(c.skills)
    ensures Complete(r.skills)
  {
    c.(skills := MonsterSkills(c, AutoCalc(c)))
  }

  /**
   * `calculateMonsterValues`: decides the mode from the input, then rewrites each skill's entry in
   * table order, accumulating the computed bonus in a local.
   */
  method CalculateMonsterValues(inputs: Card) returns (result: Card)
    requires Complete(inputs.skills)
    ensures result == MonsterValues(inputs)
  {
    var hasModifiers := !InsertCalculations.AllModifiersZero(inputs.skills);
    var shouldAutoCalc := !hasModifiers && inputs.proficiencyBonus > 0;
    var skills := MonsterSkillValues(inputs, shouldAutoCalc);
    result := inputs.(skills := skills);
  }

  /** The skills loop of `calculateMonsterValues`: each skill, in table order, gets its derived entry. */
  method MonsterSkillValues(inputs: Card, shouldAutoCalc: bool) returns (skills: map<SkillName, Skill>)
    requires Complete(inputs.skills)
    ensures skills == MonsterSkills(inputs, shouldAutoCalc)
  {
    skills := inputs.skills;
    for i := 0 to |AllSkills|
      invariant skills.Keys == inputs.skills.Keys
      invariant forall k :: SkillIndex(k) < i ==> skills[k] == MonsterSkill(inputs, k, shouldAutoCalc)
      invariant forall k :: i <= SkillIndex(k) ==> skills[k] == inputs.skills[k]
    {
      var skillName := AllSkills[i];
      var skill := MonsterSkillEntry(inputs, skillName, shouldAutoCalc);
      skills := skills[skillName := skill];
    }
    var spec := MonsterSkills(inputs, shouldAutoCalc);
    forall k
      ensures (k in skills <==> k in spec) && (k in skills ==> skills[k] == spec[k])
    {
    }
    Maps.SameMaps(skills, spec);
  }

  /** One pass of the skills loop: the skill's value, computed from its score and tier or copied from its modifier. */
  method MonsterSkillEntry(inputs: Card, skillName: SkillName, shouldAutoCalc: bool) returns (entry: Skill)
    requires skillName in inputs.skills
    ensures entry == MonsterSkill(inputs, skillName, shouldAutoCalc)
  {
    var skill := inputs.skills[skillName];
    if shouldAutoCalc {
      var abilityScore := GetAbilityScore(inputs, AbilityOf(skillName));
      var profLevel := skill.proficiency;
      var isProficient := profLevel == Some(Proficient) || profLevel == Some(Expert);
      var skillBonus := AbilityModifier(abilityScore);
      if isProficient && inputs.proficiencyBonus != 0 {
        skillBonus := skillBonus + ApplyProficiencyMultiplier(profLevel.value, inputs.proficiencyBonus);
      }
      entry := skill.(value := Some(skillBonus));
    } else {
      entry := skill.(value := skill.modifier);
    }
  }

  // ---------------------------------------------------------------------------------------------
  // what the derivation promises

  /** Only the skill values change: every other field, and every tier and modifier, is the input's. */
  lemma MonsterPassThrough(c: Card)
    requires Complete(c.skills)
    ensures var r := MonsterValues(c);
            r == c.(skills := r.skills) && Complete(r.skills)
            && forall k :: r.skills[k].proficiency == c.skills[k].proficiency && r.skills[k].modifier == c.skills[k].modifier
  {
  }

  /** In pre-calculated mode every one of the eighteen skills gets a value, and it is its modifier. */
  lemma MonsterPrecalculated(c: Card)
    requires Complete(c.skills) && !AutoCalc(c)
    ensures forall k :: MonsterValues(c).skills[k].value == c.skills[k].modifier
    ensures forall k :: c.skills[k].modifier.Some? ==> MonsterValues(c).skills[k].value.Some?
  {
  }

  /**
   * In auto mode, by tier: untrained and half-proficient skills get the bare ability modifier,
   * proficient ones add the bonus, experts add it twice.
   */
  lemma MonsterAutoTiers(c: Card, k: SkillName)
    requires Complete(c.skills) && AutoCalc(c)
    ensures var v := MonsterValues(c).skills[k].value;
            var m := AbilityModifier(GetAbilityScore(c, AbilityOf(k)));
            var p := c.skills[k].proficiency;
            (p == Some(Untrained) || p == Some(Half) || p.None? ==> v == Some(m))
            && (p == Some(Proficient) ==> v == Some(m + c.proficiencyBonus))
            && (p == Some(Expert) ==> v == Some(m + 2 * c.proficiencyBonus))
  {
    MonsterValuesSkill(c, k);
  }

  /** The derivation keeps what decides its mode, so running it twice is running it once. */
  lemma MonsterIdempotent(c: Card)
    requires Complete(c.skills)
    ensures Complete(MonsterValues(c).skills)
    ensures MonsterValues(MonsterValues(c)) == MonsterValues(c)
  {
    var r := MonsterValues(c);
    MonsterPassThrough(c);
    assert AutoCalc(r) == AutoCalc(c);
    assert forall a :: GetAbilityScore(r, a) == GetAbilityScore(c, a);
    assert MonsterSkills(r, AutoCalc(r)) == r.skills by {
      forall k
        ensures MonsterSkills(r, AutoCalc(r))[k] == r.skills[k]
      {
      }
    }
  }

  /** Each skill's entry is derived against the card itself. */
  lemma MonsterValuesSkill(c: Card, k: SkillName)
    requires Complete(c.skills)
    ensures MonsterValues(c).skills[k] == MonsterSkill(c, k, AutoCalc(c))
  {
  }

  /** Auto mode means the orchestrator computes too, and every modifier is 0. */
  lemma AutoCalcComputed(c: Card, k: SkillName)
    requires Complete(c.skills) && AutoCalc(c)
    ensures InsertCalculations.Computed(c) && c.skills[k].modifier == Some(0)
  {
  }

  /** Away from half proficiency, the computed value is the skill bonus with no manual modifier. */
  lemma AutoValueIsSkillBonus(score: int, p: Option<ProficiencyLevel>, bonus: int)
    requires bonus > 0 && p != Some(Half)
    ensures AutoValue(score, p, bonus) == SkillBonus(score, p.GetOr(Untrained), bonus, 0)
  {
  }

  /** With half proficiency and a bonus of at least 2 the skill bonus is larger. */
  lemma AutoValueBelowHalfBonus(score: int, bonus: int)
    requires bonus >= 2
    ensures AutoValue(score, Some(Half), bonus) < SkillBonus(score, Half, bonus, 0)
  {
  }

  /** In auto mode the two derivations give a skill whose score is non-zero and whose tier is not half the same entry. */
  lemma DerivedSkillIsMonsterSkill(c: Card, k: SkillName)
    requires k in c.skills && c.skills[k].modifier == Some(0) && c.proficiencyBonus > 0
    requires GetAbilityScore(c, AbilityOf(k)) != 0 && c.skills[k].proficiency != Some(Half)
    ensures InsertCalculations.DerivedSkill(c, k, true) == MonsterSkill(c, k, true)
  {
    AutoValueIsSkillBonus(GetAbilityScore(c, AbilityOf(k)), c.skills[k].proficiency, c.proficiencyBonus);
  }


  /** The two monster derivations agree on a monster that is in pre-calculated mode under both. */
  lemma AgreesWithInsertPrecalculated(c: Card, k: SkillName)
    requires Complete(c.skills) && c.cardType == Monster && !InsertCalculations.AllModifiersZero(c.skills)
    ensures InsertCalculations.InsertValues(c).skills[k] == MonsterValues(c).skills[k]
  {
    InsertCalculations.InsertMonsterSkill(c, k);
    MonsterValuesSkill(c, k);
  }

  /**
   * In auto mode the orchestrator gives a skill whose score is non-zero and whose tier is not
   * half proficiency the entry this derivation gives it (`MonsterValuesSkill`).  It leaves a skill
   * whose score is 0 as it was, and counts half proficiency; this derivation does neither.
   */
  lemma AgreesWithInsertAuto(c: Card, k: SkillName)
    requires Complete(c.skills) && c.cardType == Monster && AutoCalc(c)
    requires GetAbilityScore(c, AbilityOf(k)) != 0 && c.skills[k].proficiency != Some(Half)
    ensures InsertCalculations.InsertValues(c).skills[k] == MonsterSkill(c, k, true)
  {
    InsertCalculations.InsertMonsterSkill(c, k);
    AutoCalcComputed(c, k);
    DerivedSkillIsMonsterSkill(c, k);
  }

  /** A half-proficient skill shows the difference: the orchestrator adds half the bonus, this derivation nothing. */
  lemma HalfProficiencyDiffers(c: Card, k: SkillName)
    requires Complete(c.skills) && c.cardType == Monster && AutoCalc(c)
    requires GetAbilityScore(c, AbilityOf(k)) != 0 && c.skills[k].proficiency == Some(Half) && c.proficiencyBonus >= 2
    ensures InsertCalculations.InsertValues(c).skills[k].value != MonsterSkill(c, k, true).value
  {
    InsertCalculations.InsertMonsterSkill(c, k);
    AutoCalcComputed(c, k);
    AutoValueBelowHalfBonus(GetAbilityScore(c, AbilityOf(k)), c.proficiencyBonus);
  }
}
