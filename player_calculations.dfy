/**
 * The player-only derivation: the three guarded player fields, then a passive value for every
 * skill whose ability score is non-zero.  It reads each skill's tier and manual modifier from flat
 * per-skill fields of the record and writes the passive into a third per-skill field; a record
 * may lack any of these fields, so each family is a partial map from skill to value.
 */
module PlayerCalculations {
  import opened Wrappers
  import opened Shared
  import opened SkillConfig
  import opened CardTypes
  import opened AbilityHelpers
  import opened PassiveCalculator
  import InsertCalculations
  import Maps

  /** A player record: the card, and its per-skill tier, manual-modifier and passive fields where present. */
  datatype PlayerRecord = PlayerRecord(
    card: Card,
    prof: map<SkillName, ProficiencyLevel>,
    mods: map<SkillName, int>,
    passives: map<SkillName, int>)

  /** The passive of skill `k`: a missing tier counts as untrained and a missing modifier as 0. */
  function PassiveOf(c: Card, prof: map<SkillName, ProficiencyLevel>, mods: map<SkillName, int>, k: SkillName): (v: int)
    ensures v - 10 == SkillBonus(GetAbilityScore(c, AbilityOf(k)), if k in prof then prof[k] else Untrained,
                                 c.proficiencyBonus, if k in mods then mods[k] else 0)
  {
    CalculatePassive(GetAbilityScore(c, AbilityOf(k)), if k in prof then prof[k] else Untrained,
                     c.proficiencyBonus, if k in mods then mods[k] else 0)
  }

  /** The passive fields after the derivation, read against the card `c`: every skill with a non-zero score gets its passive, the rest keep theirs. */
  function Passives(c: Card, r: PlayerRecord): (passives: map<SkillName, int>)
    ensures forall k :: GetAbilityScore(c, AbilityOf(k)) != 0 ==> k in passives && passives[k] == PassiveOf(c, r.prof, r.mods, k)
    ensures forall k :: GetAbilityScore(c, AbilityOf(k)) == 0 ==>
              (k in passives <==> k in r.passives) && (k in passives ==> passives[k] == r.passives[k])
  {
    TableShape();
    map k | k in AllSkills && (GetAbilityScore(c, AbilityOf(k)) != 0 || k in r.passives) ::
      if GetAbilityScore(c, AbilityOf(k)) != 0 then PassiveOf(c, r.prof, r.mods, k) else r.passives[k]
  }

  /** The record `calculateAdvancedPlayerValues` returns. */
  function PlayerValues(r: PlayerRecord): PlayerRecord {
    var card := InsertCalculations.PlayerFields(r.card);
    r.(card := card, passives := Passives(card, r))
  }

  /**
   * `calculateAdvancedPlayerValues`: copies the record, assigns the guarded player fields, then
   * writes the passive of each skill whose score is non-zero, in table order.
   */
  method CalculateAdvancedPlayerValues(inputs: PlayerRecord) returns (result: PlayerRecord)
    ensures result == PlayerValues(inputs)
  {
    var card := inputs.card;
    if !card.proficiencyBonusOverride && card.level != 0 {
      card := card.(proficiencyBonus := InsertCalculations.PlayerFields(card).proficiencyBonus);
    }
    if !card.maxHPOverride && card.level != 0 && card.className != "" && card.con != 0 {
      card := card.(hp := InsertCalculations.PlayerFields(card).hp);
    }
    if !card.darkvisionOverride && card.race != "" {
      card := card.(darkvision := InsertCalculations.PlayerFields(card).darkvision);
    }
    assert card == InsertCalculations.PlayerFields(inputs.card);
    var passives := PassiveValues(card, inputs);
    result := inputs.(card := card, passives := passives);
  }

  /** The skills loop of `calculateAdvancedPlayerValues`: each skill with a non-zero score, in table order, gets its passive. */
  method PassiveValues(card: Card, inputs: PlayerRecord) returns (passives: map<SkillName, int>)
    ensures passives == Passives(card, inputs)
  {
    passives := inputs.passives;
    for i := 0 to |AllSkills|
      invariant forall k :: SkillIndex(k) < i && GetAbilityScore(card, AbilityOf(k)) != 0 ==>
                  k in passives && passives[k] == PassiveOf(card, inputs.prof, inputs.mods, k)
      invariant forall k :: SkillIndex(k) < i && GetAbilityScore(card, AbilityOf(k)) == 0 ==>
                  (k in passives <==> k in inputs.passives) && (k in passives ==> passives[k] == inputs.passives[k])
      invariant forall k :: i <= SkillIndex(k) ==>
                  (k in passives <==> k in inputs.passives) && (k in passives ==> passives[k] == inputs.passives[k])
    {
      var skillName := AllSkills[i];
      var abilityScore := GetAbilityScore(card, AbilityOf(skillName));
      var profLevel := if skillName in inputs.prof then inputs.prof[skillName] else Untrained;
      var manualMod := if skillName in inputs.mods then inputs.mods[skillName] else 0;
      if abilityScore != 0 {
        var passiveValue := CalculatePassive(abilityScore, profLevel, card.proficiencyBonus, manualMod);
        passives := passives[skillName := passiveValue];
      }
    }
    var spec := Passives(card, inputs);
    forall k
      ensures (k in passives <==> k in spec) && (k in passives ==> passives[k] == spec[k])
    {
    }
    Maps.SameMaps(passives, spec);
  }

  // ---------------------------------------------------------------------------------------------
  // what the derivation promises

  /** The card gets exactly the orchestrator's player fields; tiers and manual modifiers are untouched. */
  lemma PlayerPassThrough(r: PlayerRecord)
    ensures PlayerValues(r).card == InsertCalculations.PlayerFields(r.card)
    ensures PlayerValues(r).prof == r.prof && PlayerValues(r).mods == r.mods
  {
  }

  /** A set override flag keeps the stored value. */
  lemma PlayerOverrides(r: PlayerRecord)
    ensures r.card.proficiencyBonusOverride ==> PlayerValues(r).card.proficiencyBonus == r.card.proficiencyBonus
    ensures r.card.maxHPOverride ==> PlayerValues(r).card.hp == r.card.hp
    ensures r.card.darkvisionOverride ==> PlayerValues(r).card.darkvision == r.card.darkvision
  {
    InsertCalculations.PlayerFieldsOverrides(r.card);
  }

  /**
   * Each skill with a non-zero score gets ten plus its skill bonus, computed with the derived
   * proficiency bonus; a skill whose score is 0 keeps its passive field, or its lack of one.
   */
  lemma PlayerPassive(r: PlayerRecord, k: SkillName)
    ensures var v := PlayerValues(r);
            var score := GetAbilityScore(r.card, AbilityOf(k));
            (score != 0 ==> k in v.passives
                            && v.passives[k] == CalculatePassive(score, if k in r.prof then r.prof[k] else Untrained,
                                                                 v.card.proficiencyBonus, if k in r.mods then r.mods[k] else 0))
            && (score == 0 ==> (k in v.passives <==> k in r.passives) && (k in v.passives ==> v.passives[k] == r.passives[k]))
  {
    var card := InsertCalculations.PlayerFields(r.card);
    assert GetAbilityScore(card, AbilityOf(k)) == GetAbilityScore(r.card, AbilityOf(k));
  }

  /** A skill with neither a tier nor a manual modifier has passive ten plus its ability modifier. */
  lemma PlayerPassiveDefaults(r: PlayerRecord, k: SkillName)
    requires GetAbilityScore(r.card, AbilityOf(k)) != 0 && k !in r.prof && k !in r.mods
    ensures PlayerValues(r).passives[k] == 10 + AbilityModifier(GetAbilityScore(r.card, AbilityOf(k)))
  {
    PlayerPassive(r, k);
    PassiveUntrained(GetAbilityScore(r.card, AbilityOf(k)), PlayerValues(r).card.proficiencyBonus);
  }

  /** Nothing derived feeds back, so deriving twice is deriving once. */
  lemma PlayerIdempotent(r: PlayerRecord)
    ensures PlayerValues(PlayerValues(r)) == PlayerValues(r)
  {
    var v := PlayerValues(r);
    var card := v.card;
    InsertCalculations.PlayerFieldsIdempotent(r.card);
    assert InsertCalculations.PlayerFields(card) == card;
    var again := Passives(card, v);
    forall k
      ensures (k in again <==> k in v.passives) && (k in again ==> again[k] == v.passives[k])
    {
      PassivesSettled(card, r, v, k);
    }
    Maps.SameMaps(again, v.passives);
  }

  /** Passives derived against the card they were derived with are found already in place. */
  lemma PassivesSettled(card: Card, r: PlayerRecord, v: PlayerRecord, k: SkillName)
    requires v.passives == Passives(card, r) && v.prof == r.prof && v.mods == r.mods
    ensures var again := Passives(card, v);
            (k in again <==> k in v.passives) && (k in again ==> again[k] == v.passives[k])
  {
  }

  /**
   * The record's passive agrees with the orchestrator's skill value: when the tier and manual
   * modifier fields hold what the card's skill entry holds, the passive is ten more than the value
   * the orchestrator derives for that skill.
   */
  lemma PassiveIsTenPlusSkillValue(r: PlayerRecord, k: SkillName)
    requires Complete(r.card.skills) && r.card.cardType == Player
    requires GetAbilityScore(r.card, AbilityOf(k)) != 0
    requires (k in r.prof <==> r.card.skills[k].proficiency.Some?) && (k in r.prof ==> r.card.skills[k].proficiency == Some(r.prof[k]))
    requires (k in r.mods <==> r.card.skills[k].modifier.Some?) && (k in r.mods ==> r.card.skills[k].modifier == Some(r.mods[k]))
    ensures InsertCalculations.InsertValues(r.card).skills[k].value == Some(PlayerValues(r).passives[k] - 10)
  {
    var c := r.card;
    var score := GetAbilityScore(c, AbilityOf(k));
    var p := if k in r.prof then r.prof[k] else Untrained;
    var m := if k in r.mods then r.mods[k] else 0;
    PlayerPassive(r, k);
    InsertCalculations.InsertComputedSkill(c, k);
    InsertCalculations.InsertPlayerFields(c);
    PlayerPassThrough(r);
    var bonus := InsertCalculations.InsertValues(c).proficiencyBonus;
    assert PlayerValues(r).card.proficiencyBonus == bonus;
    assert c.skills[k].proficiency.GetOr(Untrained) == p && c.skills[k].modifier.GetOr(0) == m;
    assert PlayerValues(r).passives[k] == CalculatePassive(score, p, bonus, m);
  }
}
