/**
 * The derivation every printed card goes through: a player's proficiency bonus, maximum hit points
 * and darkvision (each unless overridden), then every skill's value, computed for players and for
 * monsters whose modifiers are all zero, copied from the modifier for other monsters.
 */
module InsertCalculations {
  import opened Wrappers
  import opened Text
  import opened Shared
  import opened SkillConfig
  import opened CardTypes
  import opened AbilityHelpers
  import opened LevelCalculations
  import opened RaceConfig
  import Maps

  // ---------------------------------------------------------------------------------------------
  // the player fields

  /**
   * The three guarded player fields: each is recomputed when its override flag is clear and the
   * values it needs are truthy (non-zero numbers, non-empty texts), and kept otherwise.  The
   * orchestrator passes the level and score through `parseInt`, which reads a rendered integer
   * back unchanged, so the bonus and hit points are those of the numbers themselves.
   */
  function PlayerFields(c: Card): Card {
    c.(proficiencyBonus := if !c.proficiencyBonusOverride && c.level != 0
                           then BonusForLevel(Some(c.level)) else c.proficiencyBonus,
       hp := if !c.maxHPOverride && c.level != 0 && c.className != "" && c.con != 0
             then MaxHPFor(Some(c.level), c.className, Some(c.con)) else c.hp,
       darkvision := if !c.darkvisionOverride && c.race != "" then DarkvisionForRace(c.race) else c.darkvision)
  }

  /** Recomputing the player fields from their own output gives the same fields. */
  lemma PlayerFieldsIdempotent(c: Card)
    ensures PlayerFields(PlayerFields(c)) == PlayerFields(c)
  {
  }

  /** A set override flag always keeps the stored value. */
  lemma PlayerFieldsOverrides(c: Card)
    ensures c.proficiencyBonusOverride ==> PlayerFields(c).proficiencyBonus == c.proficiencyBonus
    ensures c.maxHPOverride ==> PlayerFields(c).hp == c.hp
    ensures c.darkvisionOverride ==> PlayerFields(c).darkvision == c.darkvision
  {
  }

  // ---------------------------------------------------------------------------------------------
  // skills

  /** No skill has a modifier other than exactly 0 (a missing entry or modifier counts as another). */
  predicate AllModifiersZero(skills: map<SkillName, Skill>) {
    forall k :: k in skills && skills[k].modifier == Some(0)
  }

  /**
   * A skill's entry after the derivation: when values are computed and the governing score is
   * non-zero, the skill bonus (a missing tier counting as untrained, a missing modifier as 0);
   * when values are copied, the modifier; otherwise the entry as it was.
   */
  function DerivedSkill(r: Card, k: SkillName, computed: bool): (s: Skill)
    requires k in r.skills
    ensures s.proficiency == r.skills[k].proficiency && s.modifier == r.skills[k].modifier
    ensures !computed ==> s.value == r.skills[k].modifier
    ensures computed && GetAbilityScore(r, AbilityOf(k)) == 0 ==> s == r.skills[k]
    ensures computed && GetAbilityScore(r, AbilityOf(k)) != 0 ==>
              s.value == Some(SkillBonus(GetAbilityScore(r, AbilityOf(k)), r.skills[k].proficiency.GetOr(Untrained),
                                         r.proficiencyBonus, r.skills[k].modifier.GetOr(0)))
  {
    var skill := r.skills[k];
    if computed then
      var score := GetAbilityScore(r, AbilityOf(k));
      if score != 0 then
        skill.(value := Some(SkillBonus(score, skill.proficiency.GetOr(Untrained), r.proficiencyBonus, skill.modifier.GetOr(0))))
      else skill
    else skill.(value := skill.modifier)
  }

  /** Whether the card's skill values are computed rather than copied: players, and monsters with all-zero modifiers. */
  predicate Computed(c: Card) {
    c.cardType == Player || AllModifiersZero(c.skills)
  }

  /** Every skill's derived entry, read against the card `r`. */
  function DerivedSkills(r: Card, computed: bool): (skills: map<SkillName, Skill>)
    requires Complete(r.skills)
    ensures Complete(skills)
    ensures forall k :: skills[k] == DerivedSkill(r, k, computed)
  {
    map k | k in r.skills :: DerivedSkill(r, k, computed)
  }

  /** The card `calculateInsertValues` returns. */
  function InsertValues(c: Card): (r: Card)
    requires Complete(c.skills)
    ensures Complete(r.skills) && r.cardType == c.cardType
  {
    var p := Base(c);
    p.(skills := DerivedSkills(p, Computed(c)))
  }

  /** The card the skills are derived against: a player's with its fields recomputed, a monster's as it is. */
  function Base(c: Card): Card {
    if c.cardType == Player then PlayerFields(c) else c
  }

  /**
   * `calculateInsertValues`: copies the card, assigns the guarded player fields, decides the
   * monster mode from the input's modifiers, then rewrites each skill's entry in table order.
   */
  method CalculateInsertValues(inputs: Card) returns (result: Card)
    requires Complete(inputs.skills)
    ensures result == InsertValues(inputs)
  {
    result := inputs;
    var isPlayer := inputs.cardType == Player;
    if isPlayer {
      result := AssignPlayerFields(inputs);
    }
    var shouldAutoCalcMonster := !isPlayer && AllModifiersZero(inputs.skills);
    var computed := shouldAutoCalcMonster || isPlayer;
    var skills := DeriveSkillValues(result, computed);
    result := result.(skills := skills);
  }

  /** The player branch of `calculateInsertValues`: each guarded field in turn, read through `parseInt`. */
  method AssignPlayerFields(inputs: Card) returns (result: Card)
    ensures result == PlayerFields(inputs)
  {
    result := inputs;
    if !result.proficiencyBonusOverride && result.level != 0 {
      ProficiencyBonusOfNumber(result.level);
      result := result.(proficiencyBonus := ProficiencyBonus(IntToString(result.level)));
    }
    if !result.maxHPOverride && result.level != 0 && result.className != "" && result.con != 0 {
      MaxHPOfNumbers(result.level, result.className, result.con);
      result := result.(hp := MaxHP(IntToString(result.level), result.className, IntToString(result.con)));
    }
    if !result.darkvisionOverride && result.race != "" {
      result := result.(darkvision := DarkvisionForRace(result.race));
    }
  }

  /** The skills loop of `calculateInsertValues`: each skill, in table order, gets its derived entry. */
  method DeriveSkillValues(result: Card, computed: bool) returns (skills: map<SkillName, Skill>)
    requires Complete(result.skills)
    ensures skills == DerivedSkills(result, computed)
  {
    skills := result.skills;
    for i := 0 to |AllSkills|
      invariant skills.Keys == result.skills.Keys
      invariant forall k :: SkillIndex(k) < i ==> skills[k] == DerivedSkill(result, k, computed)
      invariant forall k :: i <= SkillIndex(k) ==> skills[k] == result.skills[k]
    {
      var skillName := AllSkills[i];
      var skill := DerivedSkillEntry(result, skillName, computed);
      skills := skills[skillName := skill];
    }
    var spec := DerivedSkills(result, computed);
    forall k
      ensures (k in skills <==> k in spec) && (k in skills ==> skills[k] == spec[k])
    {
    }
    Maps.SameMaps(skills, spec);
  }

  /** One pass of the skills loop: the skill bonus when computing and the score is non-zero, the modifier when copying. */
  method DerivedSkillEntry(result: Card, skillName: SkillName, computed: bool) returns (entry: Skill)
    requires skillName in result.skills
    ensures entry == DerivedSkill(result, skillName, computed)
  {
    var skill := result.skills[skillName];
    entry := skill;
    var abilityScore := GetAbilityScore(result, AbilityOf(skillName));
    if computed {
      if abilityScore != 0 {
        var skillBonusValue := SkillBonus(abilityScore, skill.proficiency.GetOr(Untrained),
                                          result.proficiencyBonus, skill.modifier.GetOr(0));
        entry := skill.(value := Some(skillBonusValue));
      }
    } else {
      entry := skill.(value := skill.modifier);
    }
  }

  // ---------------------------------------------------------------------------------------------
  // what the derivation promises

  /** Only the three player fields and the skill values change; every skill keeps its tier and modifier. */
  lemma InsertPassThrough(c: Card)
    requires Complete(c.skills)
    ensures var r := InsertValues(c);
            r == c.(proficiencyBonus := r.proficiencyBonus, hp := r.hp, darkvision := r.darkvision, skills := r.skills)
            && Complete(r.skills)
            && forall k :: r.skills[k].proficiency == c.skills[k].proficiency && r.skills[k].modifier == c.skills[k].modifier
  {
  }

  /** A monster keeps its stored proficiency bonus, hit points and darkvision; so does any overridden player field. */
  lemma InsertOverrides(c: Card)
    requires Complete(c.skills)
    ensures c.cardType == Monster ==>
              InsertValues(c).proficiencyBonus == c.proficiencyBonus && InsertValues(c).hp == c.hp
              && InsertValues(c).darkvision == c.darkvision
    ensures c.proficiencyBonusOverride ==> InsertValues(c).proficiencyBonus == c.proficiencyBonus
    ensures c.maxHPOverride ==> InsertValues(c).hp == c.hp
    ensures c.darkvisionOverride ==> InsertValues(c).darkvision == c.darkvision
  {
  }

  /** For a player the derivation's player fields are those `PlayerFields` computes. */
  lemma InsertPlayerFields(c: Card)
    requires Complete(c.skills) && c.cardType == Player
    ensures InsertValues(c).proficiencyBonus == PlayerFields(c).proficiencyBonus
    ensures InsertValues(c).hp == PlayerFields(c).hp
    ensures InsertValues(c).darkvision == PlayerFields(c).darkvision
  {
  }

  /** For a monster the derivation is the skills rewrite alone. */
  lemma InsertMonster(c: Card)
    requires Complete(c.skills) && c.cardType == Monster
    ensures InsertValues(c) == c.(skills := DerivedSkills(c, Computed(c)))
  {
  }

  /** For a monster each skill's entry is derived against the card itself. */
  lemma InsertMonsterSkill(c: Card, k: SkillName)
    requires Complete(c.skills) && c.cardType == Monster
    ensures InsertValues(c).skills[k] == DerivedSkill(c, k, Computed(c))
  {
    InsertMonster(c);
  }

  /** A monster whose modifiers are not all zero has every skill's value copied from its modifier, zeros included. */
  lemma InsertPrecalculated(c: Card)
    requires Complete(c.skills)
    requires c.cardType == Monster && !AllModifiersZero(c.skills)
    ensures forall k :: InsertValues(c).skills[k].value == c.skills[k].modifier
  {
  }

  /**
   * A player, or a monster with all-zero modifiers, gets the skill bonus of each skill whose score
   * is non-zero, computed with the derived proficiency bonus; a skill whose score is 0 is left as it was.
   */
  lemma InsertComputedSkill(c: Card, k: SkillName)
    requires Complete(c.skills) && Computed(c)
    ensures var r := InsertValues(c);
            var score := GetAbilityScore(c, AbilityOf(k));
            (score != 0 ==>
               r.skills[k].value == Some(SkillBonus(score, c.skills[k].proficiency.GetOr(Untrained),
                                                    r.proficiencyBonus, c.skills[k].modifier.GetOr(0))))
            && (score == 0 ==> r.skills[k] == c.skills[k])
  {
    InsertSkillAgainstBase(c, k);
    BaseKeepsScores(c, AbilityOf(k));
  }

  /** Each derived entry is read against the base card, and the derived bonus is the base's. */
  lemma InsertSkillAgainstBase(c: Card, k: SkillName)
    requires Complete(c.skills)
    ensures InsertValues(c).skills[k] == DerivedSkill(Base(c), k, Computed(c))
    ensures InsertValues(c).proficiencyBonus == Base(c).proficiencyBonus
  {
  }

  /** The base card has the input's skills and scores. */
  lemma BaseKeepsScores(c: Card, a: Ability)
    ensures Base(c).skills == c.skills
    ensures GetAbilityScore(Base(c), a) == GetAbilityScore(c, a)
  {
  }

  /** The player fields do not read the skills. */
  lemma PlayerFieldsIgnoresSkills(c: Card, skills: map<SkillName, Skill>)
    ensures PlayerFields(c.(skills := skills)) == PlayerFields(c).(skills := skills)
  {
  }

  /** Deriving a derived entry again, against a card with the same scores and bonus, changes nothing. */
  lemma DerivedSkillTwice(r: Card, r2: Card, k: SkillName, computed: bool)
    requires k in r.skills && k in r2.skills
    requires r2.skills[k] == DerivedSkill(r, k, computed)
    requires GetAbilityScore(r2, AbilityOf(k)) == GetAbilityScore(r, AbilityOf(k))
    requires r2.proficiencyBonus == r.proficiencyBonus
    ensures DerivedSkill(r2, k, computed) == r2.skills[k]
  {
  }

  /** The derivation keeps the card type and every modifier, so it keeps the mode too. */
  lemma InsertKeepsMode(c: Card)
    requires Complete(c.skills)
    ensures InsertValues(c).cardType == c.cardType
    ensures Complete(InsertValues(c).skills)
    ensures Computed(InsertValues(c)) == Computed(c)
  {
    var r := InsertValues(c);
    assert Base(c).skills == c.skills;
    assert forall k :: r.skills[k].modifier == c.skills[k].modifier;
  }

  /** The derived card is its own base: recomputing its player fields finds them already in place. */
  lemma BaseOfInsert(c: Card)
    requires Complete(c.skills)
    ensures Base(InsertValues(c)) == InsertValues(c)
  {
    if c.cardType == Player {
      PlayerFieldsIgnoresSkills(PlayerFields(c), InsertValues(c).skills);
      PlayerFieldsIdempotent(c);
    }
  }

  /** No derived value depends on a previously derived one, so deriving twice is deriving once. */
  lemma InsertIdempotent(c: Card)
    requires Complete(c.skills)
    ensures Complete(InsertValues(c).skills)
    ensures InsertValues(InsertValues(c)) == InsertValues(c)
  {
    var r := InsertValues(c);
    InsertKeepsMode(c);
    BaseOfInsert(c);
    var again := DerivedSkills(r, Computed(c));
    forall k
      ensures (k in again <==> k in r.skills) && (k in again ==> again[k] == r.skills[k])
    {
      DerivedSkillTwice(Base(c), r, k, Computed(c));
    }
    Maps.SameMaps(again, r.skills);
  }

  /** A fifth-level fighter with 15 constitution and 16 strength, proficient in athletics. */
  lemma InsertPlayerExample(c: Card)
    requires Complete(c.skills) && c.cardType == Player
    requires c.level == 5 && c.className == "Fighter" && c.con == 15 && c.str == 16
    requires !c.proficiencyBonusOverride && !c.maxHPOverride
    requires c.skills[Athletics] == Skill(Some(Proficient), Some(0), None)
    ensures InsertValues(c).proficiencyBonus == 3
    ensures InsertValues(c).hp == 44
    ensures InsertValues(c).skills[Athletics].value == Some(6)
  {
    MaxHPExamples();
    ProficiencyBonusBands(5);
    var p := PlayerFields(c);
    assert p.proficiencyBonus == 3 && p.hp == 44;
    InsertComputedSkill(c, Athletics);
  }
}
