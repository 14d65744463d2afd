/**
 * The card record the editor stores (the normalised input of every calculation) and its view as a
 * plain JavaScript object, field by field.
 */
module CardTypes {
  import opened Wrappers
  import opened Shared
  import opened SkillConfig
  import opened Js

  datatype CardType = Player | Monster {
    function Name(): string {
      match this
      case Player => "player"
      case Monster => "monster"
    }
  }

  /** The printed size of a card. */
  datatype CardSize = Small | Large {
    function Name(): string {
      match this
      case Small => "small"
      case Large => "large"
    }
  }

  /**
   * One skill entry.  Each part is `None` when the stored entry lacks it: a proficiency that is
   * not one of the four tiers, a modifier or value that is not a number.
   */
  datatype Skill = Skill(proficiency: Option<ProficiencyLevel>, modifier: Option<int>, value: Option<int>)

  /** The entry every skill starts with: untrained, no manual modifier, no computed value. */
  const EmptySkill: Skill := Skill(Some(Untrained), Some(0), None)

  /** A skills map with an entry for every skill. */
  predicate Complete(skills: map<SkillName, Skill>) {
    forall k :: k in skills
  }

  /** A stored card: the common, player and monster fields side by side. */
  datatype Card = Card(
    id: string,
    name: string,
    image: string,
    cardType: CardType,
    size: CardSize,
    selected: bool,
    race: string,
    className: string,
    ac: int,
    level: int,
    proficiencyBonusOverride: bool,
    maxHPOverride: bool,
    darkvisionOverride: bool,
    proficiencyBonus: int,
    hp: int,
    darkvision: int,
    skills: map<SkillName, Skill>,
    str: int,
    dex: int,
    con: int,
    intel: int,
    wis: int,
    cha: int,
    monsterSize: string,
    monsterType: string,
    monsterTypeTag: string,
    cr: string,
    speed: string,
    acType: string,
    hpFormula: string,
    savingThrowStr: Option<int>,
    savingThrowDex: Option<int>,
    savingThrowCon: Option<int>,
    savingThrowInt: Option<int>,
    savingThrowWis: Option<int>,
    savingThrowCha: Option<int>,
    damageImmunities: seq<Value>,
    damageResistances: seq<Value>,
    damageVulnerabilities: seq<Value>,
    conditionImmunities: seq<Value>,
    senses: Value,
    languages: Value,
    traits: string,
    actions: string,
    bonusActions: string)

  // ---------------------------------------------------------------------------------------------
  // the object view

  /** The properties of a stored card object; `F` + the property name. */
  datatype Field =
    | FId | FName | FImage | FCardType | FSize | FSelected
    | FRace | FClass | FAc | FLevel | FProficiencyBonusOverride | FMaxHPOverride
    | FDarkvisionOverride | FProficiencyBonus | FHp | FDarkvision | FSkills | FStr
    | FDex | FCon | FInt | FWis | FCha | FMonsterSize
    | FMonsterType | FMonsterTypeTag | FCr | FSpeed | FAcType | FHpFormula
    | FSavingThrowStr | FSavingThrowDex | FSavingThrowCon | FSavingThrowInt | FSavingThrowWis | FSavingThrowCha
    | FDamageImmunities | FDamageResistances | FDamageVulnerabilities | FConditionImmunities | FSenses | FLanguages
    | FTraits | FActions | FBonusActions

  /** The property name of a field. */
  function Key(f: Field): string {
    match f
    case FId => "id"
    case FName => "name"
    case FImage => "image"
    case FCardType => "cardType"
    case FSize => "size"
    case FSelected => "selected"
    case FRace => "race"
    case FClass => "class"
    case FAc => "ac"
    case FLevel => "level"
    case FProficiencyBonusOverride => "proficiencyBonusOverride"
    case FMaxHPOverride => "maxHPOverride"
    case FDarkvisionOverride => "darkvisionOverride"
    case FProficiencyBonus => "proficiencyBonus"
    case FHp => "hp"
    case FDarkvision => "darkvision"
    case FSkills => "skills"
    case FStr => "str"
    case FDex => "dex"
    case FCon => "con"
    case FInt => "int"
    case FWis => "wis"
    case FCha => "cha"
    case FMonsterSize => "monsterSize"
    case FMonsterType => "monsterType"
    case FMonsterTypeTag => "monsterTypeTag"
    case FCr => "cr"
    case FSpeed => "speed"
    case FAcType => "acType"
    case FHpFormula => "hpFormula"
    case FSavingThrowStr => "savingThrowStr"
    case FSavingThrowDex => "savingThrowDex"
    case FSavingThrowCon => "savingThrowCon"
    case FSavingThrowInt => "savingThrowInt"
    case FSavingThrowWis => "savingThrowWis"
    case FSavingThrowCha => "savingThrowCha"
    case FDamageImmunities => "damageImmunities"
    case FDamageResistances => "damageResistances"
    case FDamageVulnerabilities => "damageVulnerabilities"
    case FConditionImmunities => "conditionImmunities"
    case FSenses => "senses"
    case FLanguages => "languages"
    case FTraits => "traits"
    case FActions => "actions"
    case FBonusActions => "bonusActions"
  }

  /** The field a property name denotes, if any. */
  function FieldOf(s: string): Option<Field> {
    if |s| == 2 then (
      if s == "id" then Some(FId) else
      if s == "ac" then Some(FAc) else
      if s == "hp" then Some(FHp) else
      if s == "cr" then Some(FCr) else
      None)
    else     if |s| == 3 then (
      if s == "str" then Some(FStr) else
      if s == "dex" then Some(FDex) else
      if s == "con" then Some(FCon) else
      if s == "int" then Some(FInt) else
      if s == "wis" then Some(FWis) else
      if s == "cha" then Some(FCha) else
      None)
    else     if |s| == 4 then (
      if s == "name" then Some(FName) else
      if s == "size" then Some(FSize) else
      if s == "race" then Some(FRace) else
      None)
    else     if |s| == 5 then (
      if s == "image" then Some(FImage) else
      if s == "class" then Some(FClass) else
      if s == "level" then Some(FLevel) else
      if s == "speed" then Some(FSpeed) else
      None)
    else     if |s| == 6 then (
      if s == "skills" then Some(FSkills) else
      if s == "acType" then Some(FAcType) else
      if s == "senses" then Some(FSenses) else
      if s == "traits" then Some(FTraits) else
      None)
    else     if |s| == 7 then (
      if s == "actions" then Some(FActions) else
      None)
    else     if |s| == 8 then (
      if s == "cardType" then Some(FCardType) else
      if s == "selected" then Some(FSelected) else
      None)
    else     if |s| == 9 then (
      if s == "hpFormula" then Some(FHpFormula) else
      if s == "languages" then Some(FLanguages) else
      None)
    else     if |s| == 10 then (
      if s == "darkvision" then Some(FDarkvision) else
      None)
    else     if |s| == 11 then (
      if s == "monsterSize" then Some(FMonsterSize) else
      if s == "monsterType" then Some(FMonsterType) else
      None)
    else     if |s| == 12 then (
      if s == "bonusActions" then Some(FBonusActions) else
      None)
    else     if |s| == 13 then (
      if s == "maxHPOverride" then Some(FMaxHPOverride) else
      None)
    else     if |s| == 14 then (
      if s == "monsterTypeTag" then Some(FMonsterTypeTag) else
      if s == "savingThrowStr" then Some(FSavingThrowStr) else
      if s == "savingThrowDex" then Some(FSavingThrowDex) else
      if s == "savingThrowCon" then Some(FSavingThrowCon) else
      if s == "savingThrowInt" then Some(FSavingThrowInt) else
      if s == "savingThrowWis" then Some(FSavingThrowWis) else
      if s == "savingThrowCha" then Some(FSavingThrowCha) else
      None)
    else     if |s| == 16 then (
      if s == "proficiencyBonus" then Some(FProficiencyBonus) else
      if s == "damageImmunities" then Some(FDamageImmunities) else
      None)
    else     if |s| == 17 then (
      if s == "damageResistances" then Some(FDamageResistances) else
      None)
    else     if |s| == 18 then (
      if s == "darkvisionOverride" then Some(FDarkvisionOverride) else
      None)
    else     if |s| == 19 then (
      if s == "conditionImmunities" then Some(FConditionImmunities) else
      None)
    else     if |s| == 21 then (
      if s == "damageVulnerabilities" then Some(FDamageVulnerabilities) else
      None)
    else     if |s| == 24 then (
      if s == "proficiencyBonusOverride" then Some(FProficiencyBonusOverride) else
      None)
    else None
  }

  /** Reading a field's property name back gives the field. */
  lemma FieldOfKey(f: Field)
    ensures FieldOf(Key(f)) == Some(f)
  {
    match f
    case FId | FAc | FHp | FCr => FieldOfShortKeys(f);
    case FStr | FDex | FCon => FieldOfStrKeys(f);
    case FInt | FWis | FCha => FieldOfWisKeys(f);
    case FName | FSize | FRace => FieldOfNameKeys(f);
    case FImage | FClass | FLevel | FSpeed => FieldOfImageKeys(f);
    case FSkills | FAcType | FSenses | FTraits => FieldOfSkillKeys(f);
    case FActions | FCardType | FSelected => FieldOfTypeKeys(f);
    case FHpFormula | FLanguages | FDarkvision => FieldOfFormulaKeys(f);
    case FMonsterSize | FMonsterType | FBonusActions | FMaxHPOverride => FieldOfMonsterKeys(f);
    case FMonsterTypeTag => FieldOfTagKey(f);
    case FSavingThrowStr => FieldOfStrSave(f);
    case FSavingThrowDex => FieldOfDexSave(f);
    case FSavingThrowCon => FieldOfConSave(f);
    case FSavingThrowInt => FieldOfIntSave(f);
    case FSavingThrowWis => FieldOfWisSave(f);
    case FSavingThrowCha => FieldOfChaSave(f);
    case FProficiencyBonus | FDamageImmunities | FDamageResistances => FieldOfBonusKeys(f);
    case FDarkvisionOverride | FConditionImmunities | FDamageVulnerabilities | FProficiencyBonusOverride => FieldOfLongKeys(f);
  }

  lemma FieldOfShortKeys(f: Field)
    requires f == FId || f == FAc || f == FHp || f == FCr
    ensures FieldOf(Key(f)) == Some(f)
  {
  }

  lemma FieldOfStrKeys(f: Field)
    requires f == FStr || f == FDex || f == FCon
    ensures FieldOf(Key(f)) == Some(f)
  {
  }

  lemma FieldOfWisKeys(f: Field)
    requires f == FInt || f == FWis || f == FCha
    ensures FieldOf(Key(f)) == Some(f)
  {
  }

  lemma FieldOfNameKeys(f: Field)
    requires f == FName || f == FSize || f == FRace
    ensures FieldOf(Key(f)) == Some(f)
  {
  }

  lemma FieldOfImageKeys(f: Field)
    requires f == FImage || f == FClass || f == FLevel || f == FSpeed
    ensures FieldOf(Key(f)) == Some(f)
  {
  }

  lemma FieldOfSkillKeys(f: Field)
    requires f == FSkills || f == FAcType || f == FSenses || f == FTraits
    ensures FieldOf(Key(f)) == Some(f)
  {
  }

  lemma FieldOfTypeKeys(f: Field)
    requires f == FActions || f == FCardType || f == FSelected
    ensures FieldOf(Key(f)) == Some(f)
  {
  }

  lemma FieldOfFormulaKeys(f: Field)
    requires f == FHpFormula || f == FLanguages || f == FDarkvision
    ensures FieldOf(Key(f)) == Some(f)
  {
  }

  lemma FieldOfMonsterKeys(f: Field)
    requires f == FMonsterSize || f == FMonsterType || f == FBonusActions || f == FMaxHPOverride
    ensures FieldOf(Key(f)) == Some(f)
  {
  }

  lemma FieldOfTagKey(f: Field)
    requires f == FMonsterTypeTag
    ensures FieldOf(Key(f)) == Some(f)
  {
  }

  lemma FieldOfStrSave(f: Field)
    requires f == FSavingThrowStr
    ensures FieldOf(Key(f)) == Some(f)
  {
  }

  lemma FieldOfDexSave(f: Field)
    requires f == FSavingThrowDex
    ensures FieldOf(Key(f)) == Some(f)
  {
  }

  lemma FieldOfConSave(f: Field)
    requires f == FSavingThrowCon
    ensures FieldOf(Key(f)) == Some(f)
  {
  }

  lemma FieldOfIntSave(f: Field)
    requires f == FSavingThrowInt
    ensures FieldOf(Key(f)) == Some(f)
  {
  }

  lemma FieldOfWisSave(f: Field)
    requires f == FSavingThrowWis
    ensures FieldOf(Key(f)) == Some(f)
  {
  }

  lemma FieldOfChaSave(f: Field)
    requires f == FSavingThrowCha
    ensures FieldOf(Key(f)) == Some(f)
  {
  }

  lemma FieldOfBonusKeys(f: Field)
    requires f == FProficiencyBonus || f == FDamageImmunities || f == FDamageResistances
    ensures FieldOf(Key(f)) == Some(f)
  {
  }

  lemma FieldOfLongKeys(f: Field)
    requires f == FDarkvisionOverride || f == FConditionImmunities || f == FDamageVulnerabilities || f == FProficiencyBonusOverride
    ensures FieldOf(Key(f)) == Some(f)
  {
  }

  /** Distinct fields have distinct property names. */
  lemma KeyInjective(f: Field, g: Field)
    ensures Key(f) == Key(g) ==> f == g
  {
    FieldOfKey(f);
    FieldOfKey(g);
  }

  /** Every field, in the order the normaliser writes them. */
  const AllFields: seq<Field> :=
    [FId, FName, FImage, FCardType, FSize, FSelected, FRace, FClass, FAc]
    + [FLevel, FProficiencyBonusOverride, FMaxHPOverride, FDarkvisionOverride, FProficiencyBonus, FHp, FDarkvision, FSkills, FStr]
    + [FDex, FCon, FInt, FWis, FCha, FMonsterSize, FMonsterType, FMonsterTypeTag, FCr]
    + [FSpeed, FAcType, FHpFormula, FSavingThrowStr, FSavingThrowDex, FSavingThrowCon, FSavingThrowInt, FSavingThrowWis, FSavingThrowCha]
    + [FDamageImmunities, FDamageResistances, FDamageVulnerabilities, FConditionImmunities, FSenses, FLanguages, FTraits, FActions, FBonusActions]

  /** The position of a field in `AllFields`: the list names every field. */
  function FieldIndex(f: Field): (i: nat)
    ensures i < |AllFields| && AllFields[i] == f
  {
    match f
    case FId => 0
    case FName => 1
    case FImage => 2
    case FCardType => 3
    case FSize => 4
    case FSelected => 5
    case FRace => 6
    case FClass => 7
    case FAc => 8
    case FLevel => 9
    case FProficiencyBonusOverride => 10
    case FMaxHPOverride => 11
    case FDarkvisionOverride => 12
    case FProficiencyBonus => 13
    case FHp => 14
    case FDarkvision => 15
    case FSkills => 16
    case FStr => 17
    case FDex => 18
    case FCon => 19
    case FInt => 20
    case FWis => 21
    case FCha => 22
    case FMonsterSize => 23
    case FMonsterType => 24
    case FMonsterTypeTag => 25
    case FCr => 26
    case FSpeed => 27
    case FAcType => 28
    case FHpFormula => 29
    case FSavingThrowStr => 30
    case FSavingThrowDex => 31
    case FSavingThrowCon => 32
    case FSavingThrowInt => 33
    case FSavingThrowWis => 34
    case FSavingThrowCha => 35
    case FDamageImmunities => 36
    case FDamageResistances => 37
    case FDamageVulnerabilities => 38
    case FConditionImmunities => 39
    case FSenses => 40
    case FLanguages => 41
    case FTraits => 42
    case FActions => 43
    case FBonusActions => 44
  }

  lemma AllFieldsComplete()
    ensures forall f :: f in AllFields
  {
    forall f ensures f in AllFields {
      assert AllFields[FieldIndex(f)] == f;
    }
  }

  function ProficiencyToJson(p: Option<ProficiencyLevel>): Value {
    if p.Some? then JStr(p.value.Name()) else JUndefined
  }

  function NumberToJson(n: Option<int>): Value {
    if n.Some? then JNum(n.value) else JUndefined
  }

  /** A skill entry as an object; a part that is `None` is not written. */
  function SkillToJson(s: Skill): Value {
    JObj(map k | k in {"proficiency", "modifier", "value"} && KeyPresent(s, k) :: SkillPart(s, k))
  }

  predicate KeyPresent(s: Skill, k: string) {
    (k == "proficiency" && s.proficiency.Some?) || (k == "modifier" && s.modifier.Some?)
    || (k == "value" && s.value.Some?)
  }

  function SkillPart(s: Skill, k: string): Value {
    if k == "proficiency" then ProficiencyToJson(s.proficiency)
    else if k == "modifier" then NumberToJson(s.modifier)
    else NumberToJson(s.value)
  }

  /** The skills map as an object keyed by the stored skill names. */
  function SkillsToJson(skills: map<SkillName, Skill>): Value {
    TableShape();
    JObj(map k | k in skills :: Info(k).name := SkillToJson(skills[k]))
  }

  /** A saving throw: a number, or `null` when the card has none. */
  function SaveToJson(n: Option<int>): Value {
    if n.Some? then JNum(n.value) else JNull
  }

  /** The value a card object holds under one field. */
  function FieldValue(c: Card, f: Field): Value {
    match f
    case FId => JStr(c.id)
    case FName => JStr(c.name)
    case FImage => JStr(c.image)
    case FCardType => JStr(c.cardType.Name())
    case FSize => JStr(c.size.Name())
    case FSelected => JBool(c.selected)
    case FRace => JStr(c.race)
    case FClass => JStr(c.className)
    case FAc => JNum(c.ac)
    case FLevel => JNum(c.level)
    case FProficiencyBonusOverride => JBool(c.proficiencyBonusOverride)
    case FMaxHPOverride => JBool(c.maxHPOverride)
    case FDarkvisionOverride => JBool(c.darkvisionOverride)
    case FProficiencyBonus => JNum(c.proficiencyBonus)
    case FHp => JNum(c.hp)
    case FDarkvision => JNum(c.darkvision)
    case FSkills => SkillsToJson(c.skills)
    case FStr => JNum(c.str)
    case FDex => JNum(c.dex)
    case FCon => JNum(c.con)
    case FInt => JNum(c.intel)
    case FWis => JNum(c.wis)
    case FCha => JNum(c.cha)
    case FMonsterSize => JStr(c.monsterSize)
    case FMonsterType => JStr(c.monsterType)
    case FMonsterTypeTag => JStr(c.monsterTypeTag)
    case FCr => JStr(c.cr)
    case FSpeed => JStr(c.speed)
    case FAcType => JStr(c.acType)
    case FHpFormula => JStr(c.hpFormula)
    case FSavingThrowStr => SaveToJson(c.savingThrowStr)
    case FSavingThrowDex => SaveToJson(c.savingThrowDex)
    case FSavingThrowCon => SaveToJson(c.savingThrowCon)
    case FSavingThrowInt => SaveToJson(c.savingThrowInt)
    case FSavingThrowWis => SaveToJson(c.savingThrowWis)
    case FSavingThrowCha => SaveToJson(c.savingThrowCha)
    case FDamageImmunities => JArr(c.damageImmunities)
    case FDamageResistances => JArr(c.damageResistances)
    case FDamageVulnerabilities => JArr(c.damageVulnerabilities)
    case FConditionImmunities => JArr(c.conditionImmunities)
    case FSenses => c.senses
    case FLanguages => c.languages
    case FTraits => JStr(c.traits)
    case FActions => JStr(c.actions)
    case FBonusActions => JStr(c.bonusActions)
  }

  /** A card as an object: every field present. */
  function CardToJson(c: Card): (m: map<Field, Value>)
    ensures forall f :: f in m && m[f] == FieldValue(c, f)
  {
    AllFieldsComplete();
    map f | f in AllFields :: FieldValue(c, f)
  }

  /** A field-keyed object as a JavaScript object keyed by property names. */
  function ToObject(m: map<Field, Value>): Value {
    KeysDistinct();
    JObj(map f | f in m :: Key(f) := m[f])
  }

  /** No two fields share a property name. */
  lemma KeysDistinct()
    ensures forall f, g :: Key(f) == Key(g) ==> f == g
  {
    forall f, g
      ensures Key(f) == Key(g) ==> f == g
    {
      KeyInjective(f, g);
    }
  }

  /** Reading a property of `ToObject(m)` reads the field of that name. */
  lemma GetToObject(m: map<Field, Value>, f: Field)
    ensures Get(ToObject(m), Key(f)) == if f in m then m[f] else JUndefined
  {
    forall g | g in m
      ensures Key(g) == Key(f) ==> g == f
    {
      KeyInjective(g, f);
    }
  }

  /** Reading a property of a card object gives the value of the card's field of that name. */
  lemma GetCardField(c: Card, f: Field)
    ensures Get(ToObject(CardToJson(c)), Key(f)) == FieldValue(c, f)
  {
    GetToObject(CardToJson(c), f);
  }
}
