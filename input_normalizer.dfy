/**
 * The input normaliser: a total map from whatever object the editor is handed (an imported card,
 * a stored one, a partial literal, `null`) to a complete card, each field read with its own rule
 * and default.
 */
module InputNormalizer {
  import opened Wrappers
  import opened Js
  import opened Shared
  import opened SkillConfig
  import opened CardTypes
  import opened SkillHelpers

  /** `safeNumericValue`: the value when it is a number other than `NaN`, the default otherwise. */
  function SafeNumericValue(v: Value, default: int): (r: int)
    ensures v.JNum? ==> r == v.n
    ensures !v.JNum? ==> r == default
  {
    if v.JNum? then v.n else default
  }

  /** `safeAbilityScore`: as `SafeNumericValue`, with 10 as the default. */
  function SafeAbilityScore(v: Value): (r: int)
    ensures v.JNum? ==> r == v.n
    ensures !v.JNum? ==> r == 10
  {
    SafeNumericValue(v, 10)
  }

  /** Strings, `null`, `undefined`, booleans and `NaN` all fall back to the default. */
  lemma SafeValuesRejectNonNumbers(s: string, b: bool, default: int)
    ensures SafeNumericValue(JStr(s), default) == default && SafeNumericValue(JNull, default) == default
    ensures SafeNumericValue(JUndefined, default) == default && SafeNumericValue(JNaN, default) == default
    ensures SafeNumericValue(JBool(b), default) == default
    ensures SafeAbilityScore(JStr(s)) == 10 && SafeAbilityScore(JNull) == 10 && SafeAbilityScore(JNaN) == 10
    ensures SafeNumericValue(JNum(0), default) == 0
    ensures SafeNumericValue(JNum(default + 1), default) == default + 1
  {
  }

  /** `v || d` on a text field: a non-empty string is kept, anything falsy gives the default. */
  function TextOr(v: Value, default: string): (r: string)
  {
    if v.JStr? && v.s != "" then v.s else default
  }

  /** `v ?? d` on a flag: a boolean is kept, `false` included. */
  function FlagOr(v: Value, default: bool): (r: bool)
  {
    if v.JBool? then v.b else default
  }

  /** `v ?? null` on a saving throw. */
  function SaveOf(v: Value): (r: Option<int>)
  {
    if v.JNum? then Some(v.n) else None
  }

  /** `Array.isArray(v) ? v : []`. */
  function ListOf(v: Value): (r: seq<Value>)
  {
    if v.JArr? then v.items else []
  }

  /** `v || ''` on a field that keeps whatever truthy value it is given. */
  function ValueOr(v: Value): (r: Value)
  {
    if Truthy(v) then v else JStr("")
  }

  /** One stored skill entry: each part is read when it has the right type and is absent otherwise. */
  function SkillOf(v: Value): (s: Skill)
    ensures Get(v, "proficiency").JStr? ==> s.proficiency == ProficiencyFromName(Get(v, "proficiency").s)
    ensures !Get(v, "proficiency").JStr? ==> s.proficiency.None?
    ensures s.modifier == SaveOf(Get(v, "modifier")) && s.value == SaveOf(Get(v, "value"))
  {
    var p := Get(v, "proficiency");
    Skill(if p.JStr? then ProficiencyFromName(p.s) else None, SaveOf(Get(v, "modifier")), SaveOf(Get(v, "value")))
  }

  /** Reading back a written skill entry gives the entry. */
  lemma SkillOfSkillToJson(s: Skill)
    ensures SkillOf(SkillToJson(s)) == s
  {
  }

  /**
   * The skills of a card: an object is spread over the all-default map, so each skill named in it
   * takes the stored entry and every other skill keeps the default.  An array spreads only index
   * keys, which name no skill; any other value gives the all-default map.
   */
  function SkillsOf(v: Value): (skills: map<SkillName, Skill>)
    ensures Complete(skills)
    ensures forall k :: skills[k] == SkillEntry(v, k)
  {
    TableShape();
    map k | k in AllSkills :: SkillEntry(v, k)
  }

  /** The entry of one skill after the spread: the stored one when the object names the skill. */
  function SkillEntry(v: Value, k: SkillName): Skill {
    if v.JObj? && Info(k).name in v.fields then SkillOf(v.fields[Info(k).name]) else EmptySkill
  }

  /** Spreading the stored object over the all-default map: an object's named skills replace the defaults. */
  lemma SkillsOfSpread(v: Value)
    ensures !v.JObj? ==> SkillsOf(v) == EmptySkills()
    ensures v.JObj? ==> forall k :: Info(k).name !in v.fields ==> SkillsOf(v)[k] == EmptySkills()[k]
  {
  }

  /** `normalizeInsertInputs`: `partial || {}`, then every field from its own rule. */
  function Normalize(partial: Value, freshId: string): Card {
    var input := if Truthy(partial) then partial else EmptyObject;
    Card(
      id := TextOr(Get(input, "id"), freshId),
      name := TextOr(Get(input, "name"), ""),
      image := TextOr(Get(input, "image"), ""),
      cardType := if Get(input, "cardType") == JStr("monster") then Monster else Player,
      size := if Get(input, "size") == JStr("large") then Large else Small,
      selected := FlagOr(Get(input, "selected"), true),
      race := TextOr(Get(input, "race"), "Human"),
      className := TextOr(Get(input, "class"), "Fighter"),
      ac := SafeNumericValue(Get(input, "ac"), 0),
      level := SafeNumericValue(Get(input, "level"), 1),
      proficiencyBonusOverride := FlagOr(Get(input, "proficiencyBonusOverride"), false),
      maxHPOverride := FlagOr(Get(input, "maxHPOverride"), false),
      darkvisionOverride := FlagOr(Get(input, "darkvisionOverride"), false),
      proficiencyBonus := SafeNumericValue(Get(input, "proficiencyBonus"), 2),
      hp := SafeNumericValue(Get(input, "hp"), 0),
      darkvision := SafeNumericValue(Get(input, "darkvision"), 0),
      skills := SkillsOf(Get(input, "skills")),
      str := SafeAbilityScore(Get(input, "str")),
      dex := SafeAbilityScore(Get(input, "dex")),
      con := SafeAbilityScore(Get(input, "con")),
      intel := SafeAbilityScore(Get(input, "int")),
      wis := SafeAbilityScore(Get(input, "wis")),
      cha := SafeAbilityScore(Get(input, "cha")),
      monsterSize := TextOr(Get(input, "monsterSize"), "Medium"),
      monsterType := TextOr(Get(input, "monsterType"), "Humanoid"),
      monsterTypeTag := TextOr(Get(input, "monsterTypeTag"), ""),
      cr := TextOr(Get(input, "cr"), ""),
      speed := TextOr(Get(input, "speed"), ""),
      acType := TextOr(Get(input, "acType"), ""),
      hpFormula := TextOr(Get(input, "hpFormula"), ""),
      savingThrowStr := SaveOf(Get(input, "savingThrowStr")),
      savingThrowDex := SaveOf(Get(input, "savingThrowDex")),
      savingThrowCon := SaveOf(Get(input, "savingThrowCon")),
      savingThrowInt := SaveOf(Get(input, "savingThrowInt")),
      savingThrowWis := SaveOf(Get(input, "savingThrowWis")),
      savingThrowCha := SaveOf(Get(input, "savingThrowCha")),
      damageImmunities := ListOf(Get(input, "damageImmunities")),
      damageResistances := ListOf(Get(input, "damageResistances")),
      damageVulnerabilities := ListOf(Get(input, "damageVulnerabilities")),
      conditionImmunities := ListOf(Get(input, "conditionImmunities")),
      senses := ValueOr(Get(input, "senses")),
      languages := ValueOr(Get(input, "languages")),
      traits := TextOr(Get(input, "traits"), ""),
      actions := TextOr(Get(input, "actions"), ""),
      bonusActions := TextOr(Get(input, "bonusActions"), ""))
  }

  /**
   * The cards the normaliser produces: the four text fields with a non-empty default are
   * non-empty, every skill has an entry, and the two pass-through fields are truthy or `''`.
   */
  predicate Normal(c: Card) {
    && c.race != "" && c.className != "" && c.monsterSize != "" && c.monsterType != ""
    && Complete(c.skills)
    && (Truthy(c.senses) || c.senses == JStr(""))
    && (Truthy(c.languages) || c.languages == JStr(""))
  }

  /** Every card the normaliser produces is normal. */
  lemma NormalizeIsNormal(partial: Value, freshId: string)
    ensures Normal(Normalize(partial, freshId))
  {
  }

  /** The card every default yields: what `{}` normalises to. */
  function DefaultCard(id: string): Card {
    Card(id, "", "", Player, Small, true, "Human", "Fighter", 0, 1, false, false, false, 2, 0, 0,
         EmptySkills(), 10, 10, 10, 10, 10, 10, "Medium", "Humanoid", "", "", "", "", "",
         None, None, None, None, None, None, [], [], [], [], JStr(""), JStr(""), "", "", "")
  }

  lemma NormalizeEmpty(freshId: string)
    ensures Normalize(EmptyObject, freshId) == DefaultCard(freshId)
  {
  }

  /** `null`, `undefined` and every other value that is not an object behave as `{}`. */
  lemma NormalizeNonObject(v: Value, freshId: string)
    requires !v.JObj?
    ensures Normalize(v, freshId) == DefaultCard(freshId)
  {
    SkillsOfSpread(JUndefined);
  }

  /** The id is kept when it is a non-empty string; otherwise the generated one is used. */
  lemma NormalizeId(partial: Value, freshId: string)
    ensures var v := Get(partial, "id");
            Normalize(partial, freshId).id == if v.JStr? && v.s != "" then v.s else freshId
  {
    var input := if Truthy(partial) then partial else EmptyObject;
    assert Normalize(partial, freshId).id == TextOr(Get(input, "id"), freshId);
  }

  /**
   * `||` replaces an empty string with the default, while `??` keeps `false` and numeric fields
   * keep `0`.
   */
  lemma NormalizeFalsyFields(fields: map<string, Value>, freshId: string)
    requires "race" in fields && fields["race"] == JStr("")
    requires "selected" in fields && fields["selected"] == JBool(false)
    requires "level" in fields && fields["level"] == JNum(0)
    requires "monsterType" in fields && fields["monsterType"] == JStr("")
    ensures var c := Normalize(JObj(fields), freshId);
            c.race == "Human" && !c.selected && c.level == 0 && c.monsterType == "Humanoid"
  {
  }

  /** Only the exact strings `'monster'` and `'large'` select the monster type and the large size. */
  lemma NormalizeEnums(partial: Value, freshId: string)
    ensures Normalize(partial, freshId).cardType == Monster <==> Get(partial, "cardType") == JStr("monster")
    ensures Normalize(partial, freshId).size == Large <==> Get(partial, "size") == JStr("large")
  {
  }

  /** A stored skills object keeps its entries and gains the default entry for each skill it lacks. */
  lemma NormalizeSkills(partial: Value, freshId: string, k: SkillName)
    requires partial.JObj? && Get(partial, "skills").JObj?
    ensures var raw := Get(partial, "skills").fields;
            Normalize(partial, freshId).skills[k]
              == if Info(k).name in raw then SkillOf(raw[Info(k).name]) else EmptySkill
  {
  }

  /** A card object normalises to the card itself (the generated id is not used when the card has one). */
  lemma NormalizeCardObject(c: Card, freshId: string)
    requires Normal(c) && c.id != ""
    ensures Normalize(ToObject(CardToJson(c)), freshId) == c
  {
    var o := ToObject(CardToJson(c));
    forall f ensures Get(o, Key(f)) == FieldValue(c, f) {
      GetCardField(c, f);
    }
    ViewGets0(c, o);
    ViewGets1(c, o);
    ViewGets2(c, o);
    ViewGets3(c, o);
    ViewGets4(c, o);
    ViewGets5(c, o);
    ViewGetsSkills(c, o);
    ViewGets6(c, o);
    ViewGets7(c, o);
    ViewGets8(c, o);
    ViewGets9(c, o);
    ViewGets10(c, o);
    ViewGets11(c, o);
    ViewGets12(c, o);
    ViewGets13(c, o);
    ViewGets14(c, o);
    RoundTripHeader(c, o, freshId);
    RoundTripPlayer(c, o, freshId);
    RoundTripScores(c, o, freshId);
    RoundTripMonsterText(c, o, freshId);
    RoundTripSaves(c, o, freshId);
    RoundTripMentalSaves(c, o, freshId);
    RoundTripLists(c, o, freshId);
    RoundTripSkills(c, o, freshId);
  }

  /** A card's object view, given as any object that holds the card's value under every property name. */
  predicate ViewOf(o: Value, c: Card) {
    o.JObj? && forall f :: Get(o, Key(f)) == FieldValue(c, f)
  }

  // The view, read property by property (a few at a time, which keeps each proof small).

  lemma ViewGets0(c: Card, o: Value)
    requires ViewOf(o, c)
    ensures Get(o, "id") == JStr(c.id)
    ensures Get(o, "name") == JStr(c.name)
    ensures Get(o, "image") == JStr(c.image)
  {
    assert Get(o, Key(FId)) == FieldValue(c, FId);
    assert Get(o, Key(FName)) == FieldValue(c, FName);
    assert Get(o, Key(FImage)) == FieldValue(c, FImage);
  }

  lemma ViewGets1(c: Card, o: Value)
    requires ViewOf(o, c)
    ensures Get(o, "cardType") == JStr(c.cardType.Name())
    ensures Get(o, "size") == JStr(c.size.Name())
    ensures Get(o, "selected") == JBool(c.selected)
  {
    assert Get(o, Key(FCardType)) == FieldValue(c, FCardType);
    assert Get(o, Key(FSize)) == FieldValue(c, FSize);
    assert Get(o, Key(FSelected)) == FieldValue(c, FSelected);
  }

  lemma ViewGets2(c: Card, o: Value)
    requires ViewOf(o, c)
    ensures Get(o, "race") == JStr(c.race)
    ensures Get(o, "class") == JStr(c.className)
    ensures Get(o, "ac") == JNum(c.ac)
  {
    assert Get(o, Key(FRace)) == FieldValue(c, FRace);
    assert Get(o, Key(FClass)) == FieldValue(c, FClass);
    assert Get(o, Key(FAc)) == FieldValue(c, FAc);
  }

  lemma ViewGets3(c: Card, o: Value)
    requires ViewOf(o, c)
    ensures Get(o, "level") == JNum(c.level)
    ensures Get(o, "proficiencyBonusOverride") == JBool(c.proficiencyBonusOverride)
    ensures Get(o, "maxHPOverride") == JBool(c.maxHPOverride)
  {
    assert Get(o, Key(FLevel)) == FieldValue(c, FLevel);
    assert Get(o, Key(FProficiencyBonusOverride)) == FieldValue(c, FProficiencyBonusOverride);
    assert Get(o, Key(FMaxHPOverride)) == FieldValue(c, FMaxHPOverride);
  }

  lemma ViewGets4(c: Card, o: Value)
    requires ViewOf(o, c)
    ensures Get(o, "darkvisionOverride") == JBool(c.darkvisionOverride)
    ensures Get(o, "proficiencyBonus") == JNum(c.proficiencyBonus)
    ensures Get(o, "hp") == JNum(c.hp)
  {
    assert Get(o, Key(FDarkvisionOverride)) == FieldValue(c, FDarkvisionOverride);
    assert Get(o, Key(FProficiencyBonus)) == FieldValue(c, FProficiencyBonus);
    assert Get(o, Key(FHp)) == FieldValue(c, FHp);
  }

  lemma ViewGets5(c: Card, o: Value)
    requires ViewOf(o, c)
    ensures Get(o, "darkvision") == JNum(c.darkvision)
    ensures Get(o, "str") == JNum(c.str)
  {
    assert Get(o, Key(FDarkvision)) == FieldValue(c, FDarkvision);
    assert Get(o, Key(FStr)) == FieldValue(c, FStr);
  }

  lemma ViewGetsSkills(c: Card, o: Value)
    requires ViewOf(o, c)
    ensures Get(o, "skills") == SkillsToJson(c.skills)
  {
    assert Get(o, Key(FSkills)) == FieldValue(c, FSkills);
  }

  lemma ViewGets6(c: Card, o: Value)
    requires ViewOf(o, c)
    ensures Get(o, "dex") == JNum(c.dex)
    ensures Get(o, "con") == JNum(c.con)
    ensures Get(o, "int") == JNum(c.intel)
  {
    assert Get(o, Key(FDex)) == FieldValue(c, FDex);
    assert Get(o, Key(FCon)) == FieldValue(c, FCon);
    assert Get(o, Key(FInt)) == FieldValue(c, FInt);
  }

  lemma ViewGets7(c: Card, o: Value)
    requires ViewOf(o, c)
    ensures Get(o, "wis") == JNum(c.wis)
    ensures Get(o, "cha") == JNum(c.cha)
    ensures Get(o, "monsterSize") == JStr(c.monsterSize)
  {
    assert Get(o, Key(FWis)) == FieldValue(c, FWis);
    assert Get(o, Key(FCha)) == FieldValue(c, FCha);
    assert Get(o, Key(FMonsterSize)) == FieldValue(c, FMonsterSize);
  }

  lemma ViewGets8(c: Card, o: Value)
    requires ViewOf(o, c)
    ensures Get(o, "monsterType") == JStr(c.monsterType)
    ensures Get(o, "monsterTypeTag") == JStr(c.monsterTypeTag)
    ensures Get(o, "cr") == JStr(c.cr)
  {
    assert Get(o, Key(FMonsterType)) == FieldValue(c, FMonsterType);
    assert Get(o, Key(FMonsterTypeTag)) == FieldValue(c, FMonsterTypeTag);
    assert Get(o, Key(FCr)) == FieldValue(c, FCr);
  }

  lemma ViewGets9(c: Card, o: Value)
    requires ViewOf(o, c)
    ensures Get(o, "speed") == JStr(c.speed)
    ensures Get(o, "acType") == JStr(c.acType)
    ensures Get(o, "hpFormula") == JStr(c.hpFormula)
  {
    assert Get(o, Key(FSpeed)) == FieldValue(c, FSpeed);
    assert Get(o, Key(FAcType)) == FieldValue(c, FAcType);
    assert Get(o, Key(FHpFormula)) == FieldValue(c, FHpFormula);
  }

  lemma ViewGets10(c: Card, o: Value)
    requires ViewOf(o, c)
    ensures Get(o, "savingThrowStr") == SaveToJson(c.savingThrowStr)
    ensures Get(o, "savingThrowDex") == SaveToJson(c.savingThrowDex)
    ensures Get(o, "savingThrowCon") == SaveToJson(c.savingThrowCon)
  {
    assert Get(o, Key(FSavingThrowStr)) == FieldValue(c, FSavingThrowStr);
    assert Get(o, Key(FSavingThrowDex)) == FieldValue(c, FSavingThrowDex);
    assert Get(o, Key(FSavingThrowCon)) == FieldValue(c, FSavingThrowCon);
  }

  lemma ViewGets11(c: Card, o: Value)
    requires ViewOf(o, c)
    ensures Get(o, "savingThrowInt") == SaveToJson(c.savingThrowInt)
    ensures Get(o, "savingThrowWis") == SaveToJson(c.savingThrowWis)
    ensures Get(o, "savingThrowCha") == SaveToJson(c.savingThrowCha)
  {
    assert Get(o, Key(FSavingThrowInt)) == FieldValue(c, FSavingThrowInt);
    assert Get(o, Key(FSavingThrowWis)) == FieldValue(c, FSavingThrowWis);
    assert Get(o, Key(FSavingThrowCha)) == FieldValue(c, FSavingThrowCha);
  }

  lemma ViewGets12(c: Card, o: Value)
    requires ViewOf(o, c)
    ensures Get(o, "damageImmunities") == JArr(c.damageImmunities)
    ensures Get(o, "damageResistances") == JArr(c.damageResistances)
    ensures Get(o, "damageVulnerabilities") == JArr(c.damageVulnerabilities)
  {
    assert Get(o, Key(FDamageImmunities)) == FieldValue(c, FDamageImmunities);
    assert Get(o, Key(FDamageResistances)) == FieldValue(c, FDamageResistances);
    assert Get(o, Key(FDamageVulnerabilities)) == FieldValue(c, FDamageVulnerabilities);
  }

  lemma ViewGets13(c: Card, o: Value)
    requires ViewOf(o, c)
    ensures Get(o, "conditionImmunities") == JArr(c.conditionImmunities)
    ensures Get(o, "senses") == c.senses
    ensures Get(o, "languages") == c.languages
  {
    assert Get(o, Key(FConditionImmunities)) == FieldValue(c, FConditionImmunities);
    assert Get(o, Key(FSenses)) == FieldValue(c, FSenses);
    assert Get(o, Key(FLanguages)) == FieldValue(c, FLanguages);
  }

  lemma ViewGets14(c: Card, o: Value)
    requires ViewOf(o, c)
    ensures Get(o, "traits") == JStr(c.traits)
    ensures Get(o, "actions") == JStr(c.actions)
    ensures Get(o, "bonusActions") == JStr(c.bonusActions)
  {
    assert Get(o, Key(FTraits)) == FieldValue(c, FTraits);
    assert Get(o, Key(FActions)) == FieldValue(c, FActions);
    assert Get(o, Key(FBonusActions)) == FieldValue(c, FBonusActions);
  }

  lemma RoundTripSkills(c: Card, o: Value, freshId: string)
    requires Complete(c.skills) && o.JObj?
    requires Get(o, "skills") == SkillsToJson(c.skills)
    ensures Normalize(o, freshId).skills == c.skills
  {
    NormalizeSkillsObject(c.skills);
  }

  // Each group of fields is read back from a view that holds the card's values.

  lemma RoundTripHeader(c: Card, o: Value, freshId: string)
    requires c.id != "" && c.race != "" && c.className != "" && o.JObj?
    requires Get(o, "id") == JStr(c.id)
    requires Get(o, "name") == JStr(c.name)
    requires Get(o, "image") == JStr(c.image)
    requires Get(o, "cardType") == JStr(c.cardType.Name())
    requires Get(o, "size") == JStr(c.size.Name())
    requires Get(o, "selected") == JBool(c.selected)
    requires Get(o, "race") == JStr(c.race)
    requires Get(o, "class") == JStr(c.className)
    ensures Normalize(o, freshId).id == c.id
    ensures Normalize(o, freshId).name == c.name
    ensures Normalize(o, freshId).image == c.image
    ensures Normalize(o, freshId).cardType == c.cardType
    ensures Normalize(o, freshId).size == c.size
    ensures Normalize(o, freshId).selected == c.selected
    ensures Normalize(o, freshId).race == c.race
    ensures Normalize(o, freshId).className == c.className
  {
  }

  lemma RoundTripPlayer(c: Card, o: Value, freshId: string)
    requires o.JObj?
    requires Get(o, "ac") == JNum(c.ac)
    requires Get(o, "level") == JNum(c.level)
    requires Get(o, "proficiencyBonusOverride") == JBool(c.proficiencyBonusOverride)
    requires Get(o, "maxHPOverride") == JBool(c.maxHPOverride)
    requires Get(o, "darkvisionOverride") == JBool(c.darkvisionOverride)
    requires Get(o, "proficiencyBonus") == JNum(c.proficiencyBonus)
    requires Get(o, "hp") == JNum(c.hp)
    requires Get(o, "darkvision") == JNum(c.darkvision)
    ensures Normalize(o, freshId).ac == c.ac
    ensures Normalize(o, freshId).level == c.level
    ensures Normalize(o, freshId).proficiencyBonusOverride == c.proficiencyBonusOverride
    ensures Normalize(o, freshId).maxHPOverride == c.maxHPOverride
    ensures Normalize(o, freshId).darkvisionOverride == c.darkvisionOverride
    ensures Normalize(o, freshId).proficiencyBonus == c.proficiencyBonus
    ensures Normalize(o, freshId).hp == c.hp
    ensures Normalize(o, freshId).darkvision == c.darkvision
  {
  }

  lemma RoundTripScores(c: Card, o: Value, freshId: string)
    requires o.JObj?
    requires Get(o, "str") == JNum(c.str)
    requires Get(o, "dex") == JNum(c.dex)
    requires Get(o, "con") == JNum(c.con)
    requires Get(o, "int") == JNum(c.intel)
    requires Get(o, "wis") == JNum(c.wis)
    requires Get(o, "cha") == JNum(c.cha)
    ensures Normalize(o, freshId).str == c.str
    ensures Normalize(o, freshId).dex == c.dex
    ensures Normalize(o, freshId).con == c.con
    ensures Normalize(o, freshId).intel == c.intel
    ensures Normalize(o, freshId).wis == c.wis
    ensures Normalize(o, freshId).cha == c.cha
  {
  }

  lemma RoundTripMonsterText(c: Card, o: Value, freshId: string)
    requires c.monsterSize != "" && c.monsterType != "" && o.JObj?
    requires Get(o, "monsterSize") == JStr(c.monsterSize)
    requires Get(o, "monsterType") == JStr(c.monsterType)
    requires Get(o, "monsterTypeTag") == JStr(c.monsterTypeTag)
    requires Get(o, "cr") == JStr(c.cr)
    requires Get(o, "speed") == JStr(c.speed)
    requires Get(o, "acType") == JStr(c.acType)
    requires Get(o, "hpFormula") == JStr(c.hpFormula)
    ensures Normalize(o, freshId).monsterSize == c.monsterSize
    ensures Normalize(o, freshId).monsterType == c.monsterType
    ensures Normalize(o, freshId).monsterTypeTag == c.monsterTypeTag
    ensures Normalize(o, freshId).cr == c.cr
    ensures Normalize(o, freshId).speed == c.speed
    ensures Normalize(o, freshId).acType == c.acType
    ensures Normalize(o, freshId).hpFormula == c.hpFormula
  {
  }

  lemma RoundTripSaves(c: Card, o: Value, freshId: string)
    requires o.JObj?
    requires Get(o, "savingThrowStr") == SaveToJson(c.savingThrowStr)
    requires Get(o, "savingThrowDex") == SaveToJson(c.savingThrowDex)
    requires Get(o, "savingThrowCon") == SaveToJson(c.savingThrowCon)
    ensures Normalize(o, freshId).savingThrowStr == c.savingThrowStr
    ensures Normalize(o, freshId).savingThrowDex == c.savingThrowDex
    ensures Normalize(o, freshId).savingThrowCon == c.savingThrowCon
  {
  }

  lemma RoundTripMentalSaves(c: Card, o: Value, freshId: string)
    requires o.JObj?
    requires Get(o, "savingThrowInt") == SaveToJson(c.savingThrowInt)
    requires Get(o, "savingThrowWis") == SaveToJson(c.savingThrowWis)
    requires Get(o, "savingThrowCha") == SaveToJson(c.savingThrowCha)
    ensures Normalize(o, freshId).savingThrowInt == c.savingThrowInt
    ensures Normalize(o, freshId).savingThrowWis == c.savingThrowWis
    ensures Normalize(o, freshId).savingThrowCha == c.savingThrowCha
  {
  }

  lemma RoundTripLists(c: Card, o: Value, freshId: string)
    requires (Truthy(c.senses) || c.senses == JStr("")) && (Truthy(c.languages) || c.languages == JStr("")) && o.JObj?
    requires Get(o, "damageImmunities") == JArr(c.damageImmunities)
    requires Get(o, "damageResistances") == JArr(c.damageResistances)
    requires Get(o, "damageVulnerabilities") == JArr(c.damageVulnerabilities)
    requires Get(o, "conditionImmunities") == JArr(c.conditionImmunities)
    requires Get(o, "senses") == c.senses
    requires Get(o, "languages") == c.languages
    requires Get(o, "traits") == JStr(c.traits)
    requires Get(o, "actions") == JStr(c.actions)
    requires Get(o, "bonusActions") == JStr(c.bonusActions)
    ensures Normalize(o, freshId).damageImmunities == c.damageImmunities
    ensures Normalize(o, freshId).damageResistances == c.damageResistances
    ensures Normalize(o, freshId).damageVulnerabilities == c.damageVulnerabilities
    ensures Normalize(o, freshId).conditionImmunities == c.conditionImmunities
    ensures Normalize(o, freshId).senses == c.senses
    ensures Normalize(o, freshId).languages == c.languages
    ensures Normalize(o, freshId).traits == c.traits
    ensures Normalize(o, freshId).actions == c.actions
    ensures Normalize(o, freshId).bonusActions == c.bonusActions
  {
  }

  /** The object written for a complete skills map reads back as that map. */
  lemma NormalizeSkillsObject(skills: map<SkillName, Skill>)
    requires Complete(skills)
    ensures SkillsOf(SkillsToJson(skills)) == skills
  {
    TableShape();
    var o := SkillsToJson(skills);
    forall k ensures SkillsOf(o)[k] == skills[k] {
      assert Info(k).name in o.fields;
      assert o.fields[Info(k).name] == SkillToJson(skills[k]);
      SkillOfSkillToJson(skills[k]);
    }
  }

  /** Normalising a normalised card changes nothing. */
  lemma NormalizeIdempotent(partial: Value, freshId: string, otherId: string)
    requires freshId != ""
    ensures var c := Normalize(partial, freshId);
            Normalize(ToObject(CardToJson(c)), otherId) == c
  {
    NormalizeCardObject(Normalize(partial, freshId), otherId);
  }
}
