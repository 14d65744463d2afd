/**
 * Saving and loading cards: the export filter that strips a card's empty and default properties
 * before it is written, and the selection that turns a parsed file into the cards to load.
 */
module CardIO {
  import opened Wrappers
  import opened Js
  import opened Shared
  import opened SkillConfig
  import opened CardTypes
  import opened InputNormalizer
  import opened Maps

  // ---------------------------------------------------------------------------------------------
  // the export filter

  /** The properties kept whatever they hold. */
  const Essential: set<Field> := {FId, FName, FCardType}

  /** The four damage and condition lists. */
  const ListFields: set<Field> := {FDamageImmunities, FDamageResistances, FDamageVulnerabilities, FConditionImmunities}

  /** The six saving throws, in the order the filter visits them. */
  const SaveOrder: seq<Field> := [FSavingThrowStr, FSavingThrowDex, FSavingThrowCon, FSavingThrowInt, FSavingThrowWis, FSavingThrowCha]

  /** The six saving throws. */
  const SaveFields: set<Field> := {FSavingThrowStr, FSavingThrowDex, FSavingThrowCon, FSavingThrowInt, FSavingThrowWis, FSavingThrowCha}

  /** The six ability scores, in the order the filter visits them. */
  const AbilityOrder: seq<Field> := [FStr, FDex, FCon, FInt, FWis, FCha]

  /** The six ability scores. */
  const AbilityFields: set<Field> := {FStr, FDex, FCon, FInt, FWis, FCha}

  /** What a player card never exports. */
  const MonsterOnlyFields: set<Field> := {FMonsterSize, FMonsterType, FMonsterTypeTag, FCr, FHpFormula}

  /** What a monster card never exports. */
  const PlayerOnlyFields: set<Field> := {FLevel, FRace, FClass, FProficiencyBonusOverride, FMaxHPOverride}

  // the stages, each on the object as the previous one left it

  /** Every empty text removed, except under the essential properties. */
  function WithoutEmptyTexts(m: map<Field, Value>): (r: map<Field, Value>)
    ensures forall f {:trigger f in r} :: f in r <==> f in m && (f in Essential || m[f] != JStr(""))
    ensures forall f {:trigger r[f]} :: f in r ==> r[f] == m[f]
  {
    map f | f in m && (f in Essential || m[f] != JStr("")) :: m[f]
  }

  /** Every list property holding an empty list removed. */
  function WithoutEmptyLists(m: map<Field, Value>): (r: map<Field, Value>)
    ensures forall f {:trigger f in r} :: f in r <==> f in m && !(f in ListFields && m[f] == JArr([]))
    ensures forall f {:trigger r[f]} :: f in r ==> r[f] == m[f]
  {
    map f | f in m && !(f in ListFields && m[f] == JArr([])) :: m[f]
  }

  /** Every saving throw holding `null` removed. */
  function WithoutNullSaves(m: map<Field, Value>): (r: map<Field, Value>)
    ensures forall f {:trigger f in r} :: f in r <==> f in m && !(f in SaveFields && m[f] == JNull)
    ensures forall f {:trigger r[f]} :: f in r ==> r[f] == m[f]
  {
    map f | f in m && !(f in SaveFields && m[f] == JNull) :: m[f]
  }

  /** All six scores are present and exactly 10. */
  predicate ScoresAllTen(m: map<Field, Value>) {
    IsTen(m, FStr) && IsTen(m, FDex) && IsTen(m, FCon) && IsTen(m, FInt) && IsTen(m, FWis) && IsTen(m, FCha)
  }

  /** Property `a` is present and exactly 10. */
  predicate IsTen(m: map<Field, Value>, a: Field) {
    a in m && m[a] == JNum(10)
  }

  /** The six scores removed together when all are 10, all kept otherwise. */
  function WithoutDefaultScores(m: map<Field, Value>): (r: map<Field, Value>)
    ensures forall f {:trigger f in r} :: f in r <==> f in m && !(f in AbilityFields && ScoresAllTen(m))
    ensures forall f {:trigger r[f]} :: f in r ==> r[f] == m[f]
  {
    if ScoresAllTen(m) then m - {FStr, FDex, FCon, FInt, FWis, FCha} else m
  }

  /** A stored skill entry worth writing: its tier is not `'none'` or its modifier is not 0 (a missing part counts as either). */
  predicate NonDefaultEntry(v: Value) {
    Get(v, "proficiency") != JStr("none") || Get(v, "modifier") != JNum(0)
  }

  /** The entries of a skills object worth writing. */
  function NonDefaultEntries(fields: map<string, Value>): (r: map<string, Value>)
    ensures forall n {:trigger n in r} :: n in r <==> n in fields && NonDefaultEntry(fields[n])
    ensures forall n :: n in r ==> r[n] == fields[n]
  {
    map n | n in fields && NonDefaultEntry(fields[n]) :: fields[n]
  }

  /** The skills object reduced to its non-default entries, or removed when none is left. */
  function WithNonDefaultSkills(m: map<Field, Value>): (r: map<Field, Value>)
    ensures forall f {:trigger f in r} :: f != FSkills ==> (f in r <==> f in m)
    ensures forall f {:trigger r[f]} :: f != FSkills && f in r ==> r[f] == m[f]
    ensures FSkills in m && m[FSkills].JObj? && NonDefaultEntries(m[FSkills].fields) != map[] ==>
              FSkills in r && r[FSkills] == JObj(NonDefaultEntries(m[FSkills].fields))
    ensures FSkills in m && m[FSkills].JObj? && NonDefaultEntries(m[FSkills].fields) == map[] ==> FSkills !in r
    ensures !(FSkills in m && m[FSkills].JObj?) ==> (FSkills in r <==> FSkills in m) && (FSkills in r ==> r[FSkills] == m[FSkills])
  {
    if FSkills in m && m[FSkills].JObj? then
      var nonDefault := NonDefaultEntries(m[FSkills].fields);
      if nonDefault != map[] then m[FSkills := JObj(nonDefault)] else m - {FSkills}
    else m
  }

  /** Property `f` removed when it holds `v`, as one `if (filtered.f === v) delete filtered.f` does. */
  function DropIfEquals(m: map<Field, Value>, f: Field, v: Value): (r: map<Field, Value>)
    ensures forall g {:trigger g in r} :: g in r <==> g in m && !(g == f && m[g] == v)
    ensures forall g {:trigger r[g]} :: g in r ==> r[g] == m[g]
  {
    if f in m && m[f] == v then m - {f} else m
  }

  /** Whether an object is a player's: its `cardType` is `'player'`. */
  predicate IsPlayerObject(m: map<Field, Value>) {
    FCardType in m && m[FCardType] == JStr("player")
  }

  /** A player's property holding its default: level 1, bonus 2, armour class 0 or hit points 0. */
  predicate PlayerDefault(f: Field, v: Value) {
    (f == FLevel && v == JNum(1)) || (f == FProficiencyBonus && v == JNum(2)) || (f == FAc && v == JNum(0)) || (f == FHp && v == JNum(0))
  }

  /** Whether the card-type stage keeps property `f` of `m`. */
  predicate KeptByType(m: map<Field, Value>, f: Field)
    requires f in m
  {
    if IsPlayerObject(m) then f !in MonsterOnlyFields && !PlayerDefault(f, m[f]) else f !in PlayerOnlyFields
  }

  /** The other card type's properties removed, and a player's defaults. */
  function WithoutOtherTypeFields(m: map<Field, Value>): (r: map<Field, Value>)
    ensures forall f {:trigger f in r} :: f in r <==> f in m && KeptByType(m, f)
    ensures forall f {:trigger r[f]} :: f in r ==> r[f] == m[f]
  {
    map f | f in m && KeptByType(m, f) :: m[f]
  }

  /** A `true` selection flag and the small size removed. */
  function WithoutDefaultFlags(m: map<Field, Value>): map<Field, Value> {
    DropIfEquals(DropIfEquals(m, FSelected, JBool(true)), FSize, JStr("small"))
  }

  /** What `filterEmptyFields` makes of an object: every stage in the order the filter runs them. */
  function ExportOf(m: map<Field, Value>): map<Field, Value> {
    LateStages(EarlyStages(m))
  }

  /** The card-type stage and the flag stage. */
  function LateStages(m: map<Field, Value>): map<Field, Value> {
    WithoutDefaultFlags(WithoutOtherTypeFields(m))
  }

  /** The stages before the card-type stage. */
  function EarlyStages(m: map<Field, Value>): map<Field, Value> {
    WithNonDefaultSkills(WithoutDefaultScores(ValueStages(m)))
  }

  /** The first three stages, which look at one value at a time. */
  function ValueStages(m: map<Field, Value>): map<Field, Value> {
    WithoutNullSaves(WithoutEmptyLists(WithoutEmptyTexts(m)))
  }

  /** The object `filterEmptyFields` returns for a card. */
  function ExportForm(c: Card): (r: map<Field, Value>)
    ensures FId in r && FName in r && FCardType in r
    ensures forall f :: f in r && f != FSkills ==> r[f] == FieldValue(c, f)
  {
    var m := CardToJson(c);
    ExportOfKeepsValues(m);
    assert FId in m && FName in m && FCardType in m;
    ExportOfEssentials(m, FId);
    ExportOfEssentials(m, FName);
    ExportOfEssentials(m, FCardType);
    ExportOf(m)
  }

  // the filter itself

  /** The first loop: visits every property and deletes each non-essential one holding `''`. */
  method RemoveEmptyTexts(m: map<Field, Value>) returns (filtered: map<Field, Value>)
    ensures filtered == WithoutEmptyTexts(m)
  {
    filtered := m;
    var keys := m.Keys;
    while keys != {}
      invariant keys <= m.Keys
      invariant forall f :: f in filtered <==> f in m && (f in keys || f in Essential || m[f] != JStr(""))
      invariant forall f :: f in filtered ==> filtered[f] == m[f]
      decreases |keys|
    {
      var key :| key in keys;
      if key !in Essential && filtered[key] == JStr("") {
        filtered := filtered - {key};
      }
      keys := keys - {key};
    }
    SameMaps(filtered, WithoutEmptyTexts(m));
  }

  /** The saving-throw loop: deletes each saving throw holding `null`. */
  method RemoveNullSaves(m: map<Field, Value>) returns (filtered: map<Field, Value>)
    ensures filtered == WithoutNullSaves(m)
  {
    filtered := m;
    for i := 0 to |SaveOrder|
      invariant forall f :: f in filtered <==> f in m && !(f in SaveOrder[..i] && m[f] == JNull)
      invariant forall f :: f in filtered ==> filtered[f] == m[f]
    {
      var st := SaveOrder[i];
      assert SaveOrder[..i + 1] == SaveOrder[..i] + [st];
      if st in filtered && filtered[st] == JNull {
        filtered := filtered - {st};
      }
    }
    assert SaveOrder[..|SaveOrder|] == SaveOrder;
  }

  /** The `allDefaultAbilities` loop: stops at the first score that is not exactly 10. */
  method AllDefaultAbilities(m: map<Field, Value>) returns (allDefault: bool)
    ensures allDefault == ScoresAllTen(m)
  {
    allDefault := true;
    var i := 0;
    while i < |AbilityOrder|
      invariant 0 <= i <= |AbilityOrder|
      invariant allDefault <==> forall j :: 0 <= j < i ==> IsTen(m, AbilityOrder[j])
      invariant !allDefault ==> i < |AbilityOrder|
    {
      var ability := AbilityOrder[i];
      if !(ability in m && m[ability] == JNum(10)) {
        allDefault := false;
        break;
      }
      i := i + 1;
    }
    if allDefault {
      assert IsTen(m, AbilityOrder[0]) && IsTen(m, AbilityOrder[1]) && IsTen(m, AbilityOrder[2]);
      assert IsTen(m, AbilityOrder[3]) && IsTen(m, AbilityOrder[4]) && IsTen(m, AbilityOrder[5]);
    } else {
      assert !IsTen(m, AbilityOrder[i]);
    }
  }

  /** The skills loop: visits every entry of the skills object, collecting those worth writing. */
  method CollectNonDefaultEntries(fields: map<string, Value>) returns (nonDefault: map<string, Value>, hasNonDefault: bool)
    ensures nonDefault == NonDefaultEntries(fields)
    ensures hasNonDefault <==> nonDefault != map[]
  {
    nonDefault := map[];
    hasNonDefault := false;
    var names := fields.Keys;
    while names != {}
      invariant names <= fields.Keys
      invariant forall n :: n in nonDefault <==> n in fields && n !in names && NonDefaultEntry(fields[n])
      invariant forall n :: n in nonDefault ==> nonDefault[n] == fields[n]
      invariant hasNonDefault <==> nonDefault != map[]
      decreases |names|
    {
      var skillName :| skillName in names;
      var skill := fields[skillName];
      if NonDefaultEntry(skill) {
        nonDefault := nonDefault[skillName := skill];
        hasNonDefault := true;
      }
      names := names - {skillName};
    }
    SameMaps(nonDefault, NonDefaultEntries(fields));
  }

  /** The four empty-list checks. */
  method RemoveEmptyLists(m: map<Field, Value>) returns (filtered: map<Field, Value>)
    ensures filtered == WithoutEmptyLists(m)
  {
    filtered := m;
    if FDamageImmunities in filtered && filtered[FDamageImmunities].JArr? && |filtered[FDamageImmunities].items| == 0 {
      filtered := filtered - {FDamageImmunities};
    }
    if FDamageResistances in filtered && filtered[FDamageResistances].JArr? && |filtered[FDamageResistances].items| == 0 {
      filtered := filtered - {FDamageResistances};
    }
    if FDamageVulnerabilities in filtered && filtered[FDamageVulnerabilities].JArr? && |filtered[FDamageVulnerabilities].items| == 0 {
      filtered := filtered - {FDamageVulnerabilities};
    }
    if FConditionImmunities in filtered && filtered[FConditionImmunities].JArr? && |filtered[FConditionImmunities].items| == 0 {
      filtered := filtered - {FConditionImmunities};
    }
  }

  /** The default-score step: all six scores deleted when every one is 10. */
  method RemoveDefaultScores(m: map<Field, Value>) returns (filtered: map<Field, Value>)
    ensures filtered == WithoutDefaultScores(m)
  {
    filtered := m;
    var allDefaultAbilities := AllDefaultAbilities(filtered);
    if allDefaultAbilities {
      filtered := filtered - {FStr, FDex, FCon, FInt, FWis, FCha};
    }
  }

  /** The skills step: a truthy skills object is replaced by its non-default entries, or deleted when it has none. */
  method FilterSkills(m: map<Field, Value>) returns (filtered: map<Field, Value>)
    ensures filtered == WithNonDefaultSkills(m)
  {
    filtered := m;
    if FSkills in filtered && Truthy(filtered[FSkills]) && filtered[FSkills].JObj? {
      var nonDefaultSkills, hasNonDefaultSkills := CollectNonDefaultEntries(filtered[FSkills].fields);
      if hasNonDefaultSkills {
        filtered := filtered[FSkills := JObj(nonDefaultSkills)];
      } else {
        filtered := filtered - {FSkills};
      }
    }
  }

  /** The card-type step: a player loses the monster properties and its four defaults, anything else the player properties. */
  method RemoveOtherTypeFields(m: map<Field, Value>) returns (filtered: map<Field, Value>)
    ensures filtered == WithoutOtherTypeFields(m)
  {
    if FCardType in m && m[FCardType] == JStr("player") {
      filtered := RemovePlayerDefaults(m - MonsterOnlyFields);
      PlayerTypeStage(m);
    } else {
      filtered := m - PlayerOnlyFields;
      MonsterTypeStage(m);
    }
  }

  /** The four default checks of a player, in the order the filter runs them. */
  function WithoutPlayerDefaults(m: map<Field, Value>): map<Field, Value> {
    DropIfEquals(DropIfEquals(DropIfEquals(DropIfEquals(m, FLevel, JNum(1)), FProficiencyBonus, JNum(2)), FAc, JNum(0)), FHp, JNum(0))
  }

  /** A player's level 1, bonus 2, armour class 0 and hit points 0 deleted in turn. */
  method RemovePlayerDefaults(m: map<Field, Value>) returns (filtered: map<Field, Value>)
    ensures filtered == WithoutPlayerDefaults(m)
  {
    filtered := DeleteIfEquals(m, FLevel, JNum(1));
    filtered := DeleteIfEquals(filtered, FProficiencyBonus, JNum(2));
    filtered := DeleteIfEquals(filtered, FAc, JNum(0));
    filtered := DeleteIfEquals(filtered, FHp, JNum(0));
  }

  /** For a player, the type stage is the monster properties removed and then the four default checks. */
  lemma PlayerTypeStage(m: map<Field, Value>)
    requires IsPlayerObject(m)
    ensures WithoutOtherTypeFields(m) == WithoutPlayerDefaults(m - MonsterOnlyFields)
  {
    var r := WithoutOtherTypeFields(m);
    var d := WithoutPlayerDefaults(m - MonsterOnlyFields);
    forall f
      ensures (f in r <==> f in d) && (f in r ==> r[f] == d[f])
    {
      PlayerTypeStageAt(m, f);
    }
    SameMaps(r, d);
  }

  /** One property of a player through the type stage and through the method's steps. */
  lemma PlayerTypeStageAt(m: map<Field, Value>, f: Field)
    requires IsPlayerObject(m)
    ensures var r := WithoutOtherTypeFields(m);
            var d := WithoutPlayerDefaults(m - MonsterOnlyFields);
            (f in r <==> f in d) && (f in r ==> r[f] == d[f])
  {
    if f == FLevel {
      PlayerDefaultStage(m, FLevel);
    } else if f == FProficiencyBonus {
      PlayerDefaultStage(m, FProficiencyBonus);
    } else if f == FAc {
      PlayerDefaultStage(m, FAc);
    } else if f == FHp {
      PlayerDefaultStage(m, FHp);
    } else if f in MonsterOnlyFields {
      MonsterFieldStage(m, f);
    } else {
      OtherFieldStage(m, f);
    }
  }

  /** A player's level, bonus, armour class or hit points: dropped by both exactly when it holds the default. */
  lemma PlayerDefaultStage(m: map<Field, Value>, f: Field)
    requires IsPlayerObject(m) && (f == FLevel || f == FProficiencyBonus || f == FAc || f == FHp)
    ensures var r := WithoutOtherTypeFields(m);
            var d := WithoutPlayerDefaults(m - MonsterOnlyFields);
            (f in r <==> f in d) && (f in r ==> r[f] == d[f])
  {
    TypeFieldIsNeutral(f);
  }

  /** A monster property of a player: dropped by both. */
  lemma MonsterFieldStage(m: map<Field, Value>, f: Field)
    requires IsPlayerObject(m) && f in MonsterOnlyFields
    ensures f !in WithoutOtherTypeFields(m) && f !in WithoutPlayerDefaults(m - MonsterOnlyFields)
  {
  }

  /** Any other property of a player: kept by both, unchanged. */
  lemma OtherFieldStage(m: map<Field, Value>, f: Field)
    requires IsPlayerObject(m) && f !in MonsterOnlyFields
    requires f != FLevel && f != FProficiencyBonus && f != FAc && f != FHp
    ensures var r := WithoutOtherTypeFields(m);
            var d := WithoutPlayerDefaults(m - MonsterOnlyFields);
            (f in r <==> f in m) && (f in d <==> f in m) && (f in r ==> r[f] == m[f] && d[f] == m[f])
  {
  }

  /** For anything else, the type stage is the player properties removed. */
  lemma MonsterTypeStage(m: map<Field, Value>)
    requires !IsPlayerObject(m)
    ensures WithoutOtherTypeFields(m) == m - PlayerOnlyFields
  {
    var r := WithoutOtherTypeFields(m);
    forall f
      ensures (f in r <==> f in m - PlayerOnlyFields) && (f in r ==> r[f] == m[f])
    {
    }
  }

  /** One `if (filtered.f === v) delete filtered.f`. */
  method DeleteIfEquals(m: map<Field, Value>, f: Field, v: Value) returns (filtered: map<Field, Value>)
    ensures filtered == DropIfEquals(m, f, v)
  {
    if f in m && m[f] == v {
      filtered := m - {f};
    } else {
      filtered := m;
    }
  }

  /** The last two checks: a `true` selection flag and the small size. */
  method RemoveDefaultFlags(m: map<Field, Value>) returns (filtered: map<Field, Value>)
    ensures filtered == WithoutDefaultFlags(m)
  {
    filtered := DeleteIfEquals(m, FSelected, JBool(true));
    filtered := DeleteIfEquals(filtered, FSize, JStr("small"));
  }

  /**
   * `filterEmptyFields`: starts from every property of the card and deletes, in turn, empty
   * texts, empty lists, `null` saving throws, six default scores, default skill entries (the
   * whole `skills` property when none is left), the other card type's properties and this type's
   * defaults, a `true` selection flag and the small size.
   */
  method FilterEmptyFields(card: Card) returns (filtered: map<Field, Value>)
    ensures filtered == ExportForm(card)
  {
    filtered := RemoveEmptyTexts(CardToJson(card));
    filtered := RemoveEmptyLists(filtered);
    filtered := RemoveNullSaves(filtered);
    filtered := RemoveDefaultScores(filtered);
    filtered := FilterSkills(filtered);
    filtered := RemoveOtherTypeFields(filtered);
    filtered := RemoveDefaultFlags(filtered);
  }

  // ---------------------------------------------------------------------------------------------
  // what the export promises, field by field

  /** All six scores of the card are 10. */
  predicate AllTen(c: Card) {
    c.str == 10 && c.dex == 10 && c.con == 10 && c.intel == 10 && c.wis == 10 && c.cha == 10
  }

  /** A skill entry worth exporting: a tier other than untrained, or a modifier other than 0. */
  predicate NonDefault(s: Skill) {
    s.proficiency != Some(Untrained) || s.modifier != Some(0)
  }

  /** The skills worth exporting. */
  function NonDefaultSkills(skills: map<SkillName, Skill>): (r: map<SkillName, Skill>)
    ensures forall k {:trigger k in r} :: k in r <==> k in skills && NonDefault(skills[k])
    ensures forall k :: k in r ==> r[k] == skills[k]
  {
    map k | k in skills && NonDefault(skills[k]) :: skills[k]
  }

  // The lemmas below work on one group of stages at a time: the early stages up to the skills
  // stage, then the late ones over whatever the early ones left.

  lemma ValueStagesKeep(m: map<Field, Value>, f: Field)
    requires f in m && (f in Essential || m[f] != JStr(""))
    requires !(f in ListFields && m[f] == JArr([])) && !(f in SaveFields && m[f] == JNull)
    ensures f in ValueStages(m) && ValueStages(m)[f] == m[f]
  {
  }

  /** A property other than the skills object that the value stages and the score stage keep reaches the card-type stage unchanged. */
  lemma EarlyKeeps(m: map<Field, Value>, f: Field)
    requires f in m && (f in Essential || m[f] != JStr(""))
    requires !(f in ListFields && m[f] == JArr([])) && !(f in SaveFields && m[f] == JNull)
    requires !(f in AbilityFields && ScoresAllTen(ValueStages(m))) && f != FSkills
    ensures f in EarlyStages(m) && EarlyStages(m)[f] == m[f]
  {
    ValueStagesKeep(m, f);
  }

  /** Whatever the late stages keep, the early ones kept. */
  lemma EarlyWithin(m: map<Field, Value>, f: Field)
    requires f in EarlyStages(m)
    ensures f in m && f in ValueStages(m) && f in WithoutDefaultScores(ValueStages(m))
  {
    var m3 := ValueStages(m);
    var m4 := WithoutDefaultScores(m3);
    assert f in m4;
    assert f in m3;
  }

  /** The card type reaches the card-type stage unchanged. */
  lemma CardTypeReachesTypeStage(m: map<Field, Value>)
    requires FCardType in m
    ensures FCardType in EarlyStages(m) && EarlyStages(m)[FCardType] == m[FCardType]
    ensures IsPlayerObject(EarlyStages(m)) == IsPlayerObject(m)
  {
    EarlyKeeps(m, FCardType);
  }

  /** The late stages keep what the card-type stage keeps, unless it is a default flag. */
  lemma LateKeeps(m: map<Field, Value>, f: Field)
    requires f in m && KeptByType(m, f)
    requires !(f == FSelected && m[f] == JBool(true)) && !(f == FSize && m[f] == JStr("small"))
    ensures f in LateStages(m) && LateStages(m)[f] == m[f]
  {
  }

  /** Whatever the late stages keep, the card-type stage kept. */
  lemma LateWithin(m: map<Field, Value>, f: Field)
    requires f in LateStages(m)
    ensures f in m && KeptByType(m, f) && LateStages(m)[f] == m[f]
    ensures !(f == FSelected && m[f] == JBool(true)) && !(f == FSize && m[f] == JStr("small"))
  {
    assert f in WithoutOtherTypeFields(m);
  }

  /** A property no card-type rule names passes the card-type stage. */
  lemma NeutralKept(m: map<Field, Value>, f: Field)
    requires f in m && f !in MonsterOnlyFields && f !in PlayerOnlyFields && f != FProficiencyBonus && f != FAc && f != FHp
    ensures KeptByType(m, f)
  {
  }

  /** Whatever is exported passed every stage. */
  lemma ExportOfWithin(m: map<Field, Value>, f: Field)
    requires f in ExportOf(m)
    ensures f in m && f in ValueStages(m) && f in WithoutDefaultScores(ValueStages(m))
    ensures f in EarlyStages(m) && KeptByType(EarlyStages(m), f)
  {
    LateWithin(EarlyStages(m), f);
    EarlyWithin(m, f);
  }

  /**
   * A property that is not a score, not the skills object and not one of the card-type
   * properties is exported with its value unless a value rule drops it.
   */
  lemma ExportOfKeeps(m: map<Field, Value>, f: Field)
    requires f in m && (f in Essential || m[f] != JStr(""))
    requires !(f in ListFields && m[f] == JArr([])) && !(f in SaveFields && m[f] == JNull)
    requires f !in AbilityFields && f != FSkills && f !in MonsterOnlyFields && f !in PlayerOnlyFields
    requires f != FProficiencyBonus && f != FAc && f != FHp
    requires !(f == FSelected && m[f] == JBool(true)) && !(f == FSize && m[f] == JStr("small"))
    ensures f in ExportOf(m) && ExportOf(m)[f] == m[f]
  {
    EarlyKeeps(m, f);
    NeutralKept(EarlyStages(m), f);
    LateKeeps(EarlyStages(m), f);
  }

  /** What every stage keeps, other than the skills object, keeps its value. */
  lemma ExportOfKeepsValues(m: map<Field, Value>)
    ensures forall f :: f in ExportOf(m) && f != FSkills ==> f in m && ExportOf(m)[f] == m[f]
  {
  }

  /** `id`, `name` and `cardType` pass every stage. */
  lemma ExportOfEssentials(m: map<Field, Value>, f: Field)
    requires f in Essential && f in m
    ensures f in ExportOf(m) && ExportOf(m)[f] == m[f]
  {
    ExportOfKeeps(m, f);
  }

  /** Any other property holding the empty text is dropped. */
  lemma ExportOfEmptyText(m: map<Field, Value>, f: Field)
    requires f !in Essential && f in m && m[f] == JStr("")
    ensures f !in ExportOf(m)
  {
    if f in ExportOf(m) {
      ExportOfWithin(m, f);
    }
  }

  /** The properties only the empty-text rule can drop. */
  const CommonFields: set<Field> :=
    {FImage, FDarkvisionOverride, FDarkvision, FSpeed, FAcType, FSenses, FLanguages, FTraits, FActions, FBonusActions}

  /** Such a property is exported exactly when it is not the empty text, and then unchanged. */
  lemma ExportOfCommon(m: map<Field, Value>, f: Field)
    requires f in CommonFields && f in m
    ensures f in ExportOf(m) <==> m[f] != JStr("")
    ensures f in ExportOf(m) ==> ExportOf(m)[f] == m[f]
  {
    if m[f] == JStr("") {
      ExportOfEmptyText(m, f);
    } else {
      ExportOfKeeps(m, f);
    }
  }

  /** A damage or condition list is exported exactly when it is not empty. */
  lemma ExportOfList(m: map<Field, Value>, f: Field)
    requires f in ListFields && f in m && m[f].JArr?
    ensures f in ExportOf(m) <==> m[f] != JArr([])
  {
    if m[f] == JArr([]) {
      if f in ExportOf(m) {
        ExportOfWithin(m, f);
      }
    } else {
      ExportOfKeeps(m, f);
    }
  }

  /** A saving throw that is a number or `null` is exported exactly when it is a number. */
  lemma ExportOfSave(m: map<Field, Value>, f: Field)
    requires f in SaveFields && f in m && (m[f] == JNull || m[f].JNum?)
    ensures f in ExportOf(m) <==> m[f] != JNull
  {
    if m[f] == JNull {
      if f in ExportOf(m) {
        ExportOfWithin(m, f);
      }
    } else {
      ExportOfKeeps(m, f);
    }
  }

  /** Property `a` is present and a number. */
  predicate IsNumberAt(m: map<Field, Value>, a: Field) {
    a in m && m[a].JNum?
  }

  /** All six scores are present and numbers, as in any card's object. */
  predicate ScoresAreNumbers(m: map<Field, Value>) {
    IsNumberAt(m, FStr) && IsNumberAt(m, FDex) && IsNumberAt(m, FCon) && IsNumberAt(m, FInt) && IsNumberAt(m, FWis) && IsNumberAt(m, FCha)
  }

  /** The value stages leave the six scores alone. */
  lemma ScoresReachScoreStage(m: map<Field, Value>)
    requires ScoresAreNumbers(m)
    ensures ScoresAllTen(ValueStages(m)) == ScoresAllTen(m)
  {
    ValueStagesKeep(m, FStr);
    ValueStagesKeep(m, FDex);
    ValueStagesKeep(m, FCon);
    ValueStagesKeep(m, FInt);
    ValueStagesKeep(m, FWis);
    ValueStagesKeep(m, FCha);
  }

  /** No rule other than the score rule names a score. */
  lemma ScoreIsNeutral(a: Field)
    requires a in AbilityFields
    ensures a !in Essential && a !in ListFields && a !in SaveFields && a != FSkills
    ensures a !in MonsterOnlyFields && a !in PlayerOnlyFields && a != FProficiencyBonus && a != FAc && a != FHp
    ensures a != FSelected && a != FSize
  {
  }

  /** A score of an object whose scores are not all 10 is exported with its value. */
  lemma ScoreKept(m: map<Field, Value>, a: Field)
    requires a in m && m[a].JNum? && !ScoresAllTen(ValueStages(m))
    requires a !in Essential && a !in ListFields && a !in SaveFields && a != FSkills
    requires a !in MonsterOnlyFields && a !in PlayerOnlyFields && a != FProficiencyBonus && a != FAc && a != FHp
    requires a != FSelected && a != FSize
    ensures a in ExportOf(m) && ExportOf(m)[a] == m[a]
  {
    EarlyKeeps(m, a);
    NeutralKept(EarlyStages(m), a);
    LateKeeps(EarlyStages(m), a);
  }

  /** The six scores are exported together, and only when they are not all 10. */
  lemma ExportOfScore(m: map<Field, Value>, a: Field)
    requires a in AbilityFields && ScoresAreNumbers(m)
    ensures a in ExportOf(m) <==> !ScoresAllTen(m)
    ensures a in ExportOf(m) ==> ExportOf(m)[a] == m[a]
  {
    ScoresReachScoreStage(m);
    ScoreIsNeutral(a);
    if ScoresAllTen(m) {
      if a in ExportOf(m) {
        ExportOfWithin(m, a);
      }
    } else {
      assert IsNumberAt(m, a);
      ScoreKept(m, a);
    }
  }

  /** The skills object is exported with its non-default entries only, and not at all when it has none. */
  lemma ExportOfSkills(m: map<Field, Value>)
    requires FSkills in m && m[FSkills].JObj?
    ensures var nonDefault := NonDefaultEntries(m[FSkills].fields);
            (FSkills in ExportOf(m) <==> nonDefault != map[])
            && (FSkills in ExportOf(m) ==> ExportOf(m)[FSkills] == JObj(nonDefault))
  {
    if NonDefaultEntries(m[FSkills].fields) != map[] {
      SkillsKept(m);
    } else if FSkills in ExportOf(m) {
      ExportOfWithin(m, FSkills);
    }
  }

  /** A skills object with a non-default entry is exported holding those entries. */
  lemma SkillsKept(m: map<Field, Value>)
    requires FSkills in m && m[FSkills].JObj? && NonDefaultEntries(m[FSkills].fields) != map[]
    ensures FSkills in ExportOf(m) && ExportOf(m)[FSkills] == JObj(NonDefaultEntries(m[FSkills].fields))
  {
    var m3 := ValueStages(m);
    ValueStagesKeep(m, FSkills);
    var m4 := WithoutDefaultScores(m3);
    assert FSkills in m4 && m4[FSkills] == m[FSkills];
    var m5 := EarlyStages(m);
    assert FSkills in m5 && m5[FSkills] == JObj(NonDefaultEntries(m[FSkills].fields));
    NeutralKept(m5, FSkills);
    LateKeeps(m5, FSkills);
  }

  /** A player object loses every monster property. */
  lemma ExportOfPlayerDrops(m: map<Field, Value>, f: Field)
    requires IsPlayerObject(m) && f in MonsterOnlyFields
    ensures f !in ExportOf(m)
  {
    if f in ExportOf(m) {
      ExportOfWithin(m, f);
      CardTypeReachesTypeStage(m);
    }
  }

  /** No value rule names a card-type property, a bonus, an armour class or hit points. */
  lemma TypeFieldIsNeutral(f: Field)
    requires f in MonsterOnlyFields || f in PlayerOnlyFields || f == FProficiencyBonus || f == FAc || f == FHp
    ensures f !in Essential && f !in ListFields && f !in SaveFields && f !in AbilityFields && f != FSkills
    ensures f != FSelected && f != FSize
    ensures f in PlayerOnlyFields ==> f !in MonsterOnlyFields
    ensures f == FProficiencyBonus || f == FAc || f == FHp ==> f !in MonsterOnlyFields && f !in PlayerOnlyFields
  {
  }

  /** A property of a player object that the card-type stage keeps is exported with its value. */
  lemma PlayerFieldKept(m: map<Field, Value>, f: Field)
    requires IsPlayerObject(m) && f in m && m[f] != JStr("")
    requires f !in Essential && f !in ListFields && f !in SaveFields && f !in AbilityFields && f != FSkills
    requires f != FSelected && f != FSize && f !in MonsterOnlyFields && !PlayerDefault(f, m[f])
    ensures f in ExportOf(m) && ExportOf(m)[f] == m[f]
  {
    CardTypeReachesTypeStage(m);
    EarlyKeeps(m, f);
    LateKeeps(EarlyStages(m), f);
  }

  /** A property of a player object holding its default is dropped. */
  lemma PlayerDefaultDropped(m: map<Field, Value>, f: Field)
    requires IsPlayerObject(m) && f in m && m[f] != JStr("") && PlayerDefault(f, m[f])
    requires f !in Essential && f !in ListFields && f !in SaveFields && f !in AbilityFields && f != FSkills
    ensures f !in ExportOf(m)
  {
    if f in ExportOf(m) {
      CardTypeReachesTypeStage(m);
      EarlyKeeps(m, f);
      LateWithin(EarlyStages(m), f);
    }
  }

  /** A player object's level, bonus, armour class and hit points are exported unless they hold the default. */
  lemma ExportOfPlayerDefault(m: map<Field, Value>, f: Field)
    requires IsPlayerObject(m) && (f == FLevel || f == FProficiencyBonus || f == FAc || f == FHp) && IsNumberAt(m, f)
    ensures f in ExportOf(m) <==> !PlayerDefault(f, m[f])
    ensures f in ExportOf(m) ==> ExportOf(m)[f] == m[f]
  {
    TypeFieldIsNeutral(f);
    if PlayerDefault(f, m[f]) {
      PlayerDefaultDropped(m, f);
    } else {
      PlayerFieldKept(m, f);
    }
  }

  /** A player object keeps its race, class and override flags unless they are empty texts. */
  lemma ExportOfPlayerKeeps(m: map<Field, Value>, f: Field)
    requires IsPlayerObject(m) && f in PlayerOnlyFields && f != FLevel && f in m && m[f] != JStr("")
    ensures f in ExportOf(m) && ExportOf(m)[f] == m[f]
  {
    TypeFieldIsNeutral(f);
    PlayerFieldKept(m, f);
  }

  /** Any other object loses every player property. */
  lemma ExportOfMonsterDrops(m: map<Field, Value>, f: Field)
    requires FCardType in m && !IsPlayerObject(m) && f in PlayerOnlyFields
    ensures f !in ExportOf(m)
  {
    if f in ExportOf(m) {
      ExportOfWithin(m, f);
      CardTypeReachesTypeStage(m);
    }
  }

  /** A property of any other object that the card-type stage keeps is exported with its value. */
  lemma MonsterFieldKept(m: map<Field, Value>, f: Field)
    requires FCardType in m && !IsPlayerObject(m) && f in m && m[f] != JStr("")
    requires f !in Essential && f !in ListFields && f !in SaveFields && f !in AbilityFields && f != FSkills
    requires f != FSelected && f != FSize && f !in PlayerOnlyFields
    ensures f in ExportOf(m) && ExportOf(m)[f] == m[f]
  {
    CardTypeReachesTypeStage(m);
    EarlyKeeps(m, f);
    LateKeeps(EarlyStages(m), f);
  }

  /** Any other object keeps its monster properties, bonus, armour class and hit points unless they are empty texts. */
  lemma ExportOfMonsterKeeps(m: map<Field, Value>, f: Field)
    requires FCardType in m && !IsPlayerObject(m)
    requires f in MonsterOnlyFields || f == FProficiencyBonus || f == FAc || f == FHp
    requires f in m && m[f] != JStr("")
    ensures f in ExportOf(m) && ExportOf(m)[f] == m[f]
  {
    TypeFieldIsNeutral(f);
    assert f !in PlayerOnlyFields;
    MonsterFieldKept(m, f);
  }

  /** The selection flag is exported only when false. */
  lemma ExportOfSelected(m: map<Field, Value>)
    requires FSelected in m && m[FSelected].JBool?
    ensures FSelected in ExportOf(m) <==> m[FSelected] == JBool(false)
  {
    if m[FSelected] == JBool(false) {
      ExportOfKeeps(m, FSelected);
    } else if FSelected in ExportOf(m) {
      LateWithin(EarlyStages(m), FSelected);
      EarlyKeeps(m, FSelected);
    }
  }

  /** The size is exported only when it is not small. */
  lemma ExportOfSize(m: map<Field, Value>)
    requires FSize in m && (m[FSize] == JStr("small") || m[FSize] == JStr("large"))
    ensures FSize in ExportOf(m) <==> m[FSize] == JStr("large")
  {
    if m[FSize] == JStr("large") {
      ExportOfKeeps(m, FSize);
    } else if FSize in ExportOf(m) {
      LateWithin(EarlyStages(m), FSize);
      EarlyKeeps(m, FSize);
    }
  }

  /** A player's race or class is exported exactly when it is not empty. */
  lemma ExportOfPlayerText(m: map<Field, Value>, f: Field)
    requires IsPlayerObject(m) && (f == FRace || f == FClass) && f in m
    ensures f in ExportOf(m) <==> m[f] != JStr("")
  {
    if m[f] != JStr("") {
      ExportOfPlayerKeeps(m, f);
    } else {
      ExportOfEmptyText(m, f);
    }
  }

  /** A monster's own text property is exported exactly when it is not empty. */
  lemma ExportOfMonsterText(m: map<Field, Value>, f: Field)
    requires FCardType in m && !IsPlayerObject(m) && f in MonsterOnlyFields && f in m
    ensures f in ExportOf(m) <==> m[f] != JStr("")
  {
    if m[f] != JStr("") {
      ExportOfMonsterKeeps(m, f);
    } else {
      ExportOfEmptyText(m, f);
    }
  }

  // ---------------------------------------------------------------------------------------------
  // the same rules for a card

  /** The filter's test on a stored entry is the test on the skill it stores. */
  lemma NonDefaultEntryOfSkill(s: Skill)
    ensures NonDefaultEntry(SkillToJson(s)) <==> NonDefault(s)
  {
    var o := SkillToJson(s);
    assert Get(o, "proficiency") == ProficiencyToJson(s.proficiency) by {
      assert "proficiency" in o.fields <==> s.proficiency.Some?;
    }
    assert Get(o, "modifier") == NumberToJson(s.modifier) by {
      assert "modifier" in o.fields <==> s.modifier.Some?;
    }
  }

  /** Skill `k` is stored under its name, holding its entry. */
  lemma SkillsJsonAt(skills: map<SkillName, Skill>, k: SkillName)
    requires k in skills
    ensures Info(k).name in SkillsToJson(skills).fields && SkillsToJson(skills).fields[Info(k).name] == SkillToJson(skills[k])
  {
    TableShape();
  }

  /** Every stored name is the name of a skill of the map. */
  lemma SkillsJsonNames(skills: map<SkillName, Skill>, n: string)
    requires n in SkillsToJson(skills).fields
    ensures exists k :: k in skills && Info(k).name == n
  {
  }

  /** Two different skills have different names. */
  lemma NameDistinct(k: SkillName, k': SkillName)
    requires k != k'
    ensures Info(k).name != Info(k').name
  {
    TableShape();
  }

  /** One stored name: the filter keeps it exactly when the skill of that name is non-default, with the same entry. */
  lemma NonDefaultEntryAt(skills: map<SkillName, Skill>, n: string)
    ensures var filtered := NonDefaultEntries(SkillsToJson(skills).fields);
            var kept := SkillsToJson(NonDefaultSkills(skills)).fields;
            (n in filtered <==> n in kept) && (n in filtered ==> filtered[n] == kept[n])
  {
    var nd := NonDefaultSkills(skills);
    var all := SkillsToJson(skills).fields;
    var kept := SkillsToJson(nd).fields;
    KeptAreStored(skills, n);
    if n in all {
      SkillsJsonNames(skills, n);
      var k :| k in skills && Info(k).name == n;
      SkillsJsonAt(skills, k);
      NonDefaultEntryOfSkill(skills[k]);
      if NonDefault(skills[k]) {
        SkillsJsonAt(nd, k);
      } else {
        DefaultNotKept(skills, k);
      }
    }
  }

  /** A kept name is a stored name. */
  lemma KeptAreStored(skills: map<SkillName, Skill>, n: string)
    ensures n in SkillsToJson(NonDefaultSkills(skills)).fields ==> n in SkillsToJson(skills).fields
  {
    if n in SkillsToJson(NonDefaultSkills(skills)).fields {
      SkillsJsonNames(NonDefaultSkills(skills), n);
      var k :| k in NonDefaultSkills(skills) && Info(k).name == n;
      SkillsJsonAt(skills, k);
    }
  }

  /** A default skill's name is not kept: no other skill shares it. */
  lemma DefaultNotKept(skills: map<SkillName, Skill>, k: SkillName)
    requires k in skills && !NonDefault(skills[k])
    ensures Info(k).name !in SkillsToJson(NonDefaultSkills(skills)).fields
  {
    var nd := NonDefaultSkills(skills);
    forall k' | k' in nd
      ensures Info(k').name != Info(k).name
    {
      NameDistinct(k', k);
    }
  }

  /** Filtering the stored skills object keeps the entries of exactly the non-default skills. */
  lemma NonDefaultEntriesOfSkills(skills: map<SkillName, Skill>)
    ensures NonDefaultEntries(SkillsToJson(skills).fields) == SkillsToJson(NonDefaultSkills(skills)).fields
  {
    var filtered := NonDefaultEntries(SkillsToJson(skills).fields);
    var kept := SkillsToJson(NonDefaultSkills(skills)).fields;
    forall n
      ensures (n in filtered <==> n in kept) && (n in filtered ==> filtered[n] == kept[n])
    {
      NonDefaultEntryAt(skills, n);
    }
  }

  /** The filter leaves no skill entry exactly when every skill is default. */
  lemma NoNonDefaultEntries(skills: map<SkillName, Skill>)
    ensures NonDefaultEntries(SkillsToJson(skills).fields) == map[] <==> NonDefaultSkills(skills) == map[]
  {
    NonDefaultEntriesOfSkills(skills);
    SkillsJsonEmpty(NonDefaultSkills(skills));
  }

  /** The stored skills object is empty exactly when the map is. */
  lemma SkillsJsonEmpty(skills: map<SkillName, Skill>)
    ensures SkillsToJson(skills).fields == map[] <==> skills == map[]
  {
    if skills != map[] {
      var k :| k in skills;
      SkillsJsonAt(skills, k);
    }
  }

  /** What a card's object holds under the id and name. */
  lemma IdValues(c: Card)
    ensures FieldValue(c, FId) == JStr(c.id)
    ensures FieldValue(c, FName) == JStr(c.name)
  {
  }

  /** What a card's object holds under the image and speed. */
  lemma ImageValues(c: Card)
    ensures FieldValue(c, FImage) == JStr(c.image)
    ensures FieldValue(c, FSpeed) == JStr(c.speed)
  {
  }

  /** What a card's object holds under the armour type and traits. */
  lemma TraitValues(c: Card)
    ensures FieldValue(c, FAcType) == JStr(c.acType)
    ensures FieldValue(c, FTraits) == JStr(c.traits)
  {
  }

  /** What a card's object holds under the actions and bonus actions. */
  lemma ActionValues(c: Card)
    ensures FieldValue(c, FActions) == JStr(c.actions)
    ensures FieldValue(c, FBonusActions) == JStr(c.bonusActions)
  {
  }

  /** What a card's object holds under the senses and languages. */
  lemma SenseValues(c: Card)
    ensures FieldValue(c, FSenses) == c.senses
    ensures FieldValue(c, FLanguages) == c.languages
  {
  }

  /** What a card's object holds under darkvision and its flag. */
  lemma DarkvisionValues(c: Card)
    ensures FieldValue(c, FDarkvision) == JNum(c.darkvision)
    ensures FieldValue(c, FDarkvisionOverride) == JBool(c.darkvisionOverride)
  {
  }

  /** What a card's object holds under the race and the class. */
  lemma RaceClassValues(c: Card)
    ensures FieldValue(c, FRace) == JStr(c.race)
    ensures FieldValue(c, FClass) == JStr(c.className)
  {
  }

  /** What a card's object holds under the monster's size and type. */
  lemma MonsterKindValues(c: Card)
    ensures FieldValue(c, FMonsterSize) == JStr(c.monsterSize)
    ensures FieldValue(c, FMonsterType) == JStr(c.monsterType)
  {
  }

  /** What a card's object holds under the monster's type tag and challenge rating. */
  lemma MonsterTagValues(c: Card)
    ensures FieldValue(c, FMonsterTypeTag) == JStr(c.monsterTypeTag)
    ensures FieldValue(c, FCr) == JStr(c.cr)
  {
  }

  /** What a card's object holds under the hit-point formula. */
  lemma FormulaValue(c: Card)
    ensures FieldValue(c, FHpFormula) == JStr(c.hpFormula)
  {
  }

  /** What a card's object holds under the damage immunities and resistances. */
  lemma DamageListValues(c: Card)
    ensures FieldValue(c, FDamageImmunities) == JArr(c.damageImmunities)
    ensures FieldValue(c, FDamageResistances) == JArr(c.damageResistances)
  {
  }

  /** What a card's object holds under the vulnerabilities and condition immunities. */
  lemma OtherListValues(c: Card)
    ensures FieldValue(c, FDamageVulnerabilities) == JArr(c.damageVulnerabilities)
    ensures FieldValue(c, FConditionImmunities) == JArr(c.conditionImmunities)
  {
  }

  /** What a card's object holds under the strength and dexterity saving throws. */
  lemma SaveValuesA(c: Card)
    ensures FieldValue(c, FSavingThrowStr) == SaveToJson(c.savingThrowStr)
    ensures FieldValue(c, FSavingThrowDex) == SaveToJson(c.savingThrowDex)
  {
  }

  /** What a card's object holds under the constitution and intelligence saving throws. */
  lemma SaveValuesB(c: Card)
    ensures FieldValue(c, FSavingThrowCon) == SaveToJson(c.savingThrowCon)
    ensures FieldValue(c, FSavingThrowInt) == SaveToJson(c.savingThrowInt)
  {
  }

  /** What a card's object holds under the wisdom and charisma saving throws. */
  lemma SaveValuesC(c: Card)
    ensures FieldValue(c, FSavingThrowWis) == SaveToJson(c.savingThrowWis)
    ensures FieldValue(c, FSavingThrowCha) == SaveToJson(c.savingThrowCha)
  {
  }

  /** What a card's object holds under strength and dexterity. */
  lemma ScoreValuesA(c: Card)
    ensures FieldValue(c, FStr) == JNum(c.str)
    ensures FieldValue(c, FDex) == JNum(c.dex)
  {
  }

  /** What a card's object holds under constitution and intelligence. */
  lemma ScoreValuesB(c: Card)
    ensures FieldValue(c, FCon) == JNum(c.con)
    ensures FieldValue(c, FInt) == JNum(c.intel)
  {
  }

  /** What a card's object holds under wisdom and charisma. */
  lemma ScoreValuesC(c: Card)
    ensures FieldValue(c, FWis) == JNum(c.wis)
    ensures FieldValue(c, FCha) == JNum(c.cha)
  {
  }

  /** What a card's object holds under the skills. */
  lemma SkillsValue(c: Card)
    ensures FieldValue(c, FSkills) == SkillsToJson(c.skills)
  {
  }

  /** What a card's object holds under the type and selection flag. */
  lemma TypeValues(c: Card)
    ensures FieldValue(c, FCardType) == JStr(c.cardType.Name())
    ensures FieldValue(c, FSelected) == JBool(c.selected)
  {
  }

  /** What a card's object holds under the size. */
  lemma SizeValue(c: Card)
    ensures FieldValue(c, FSize) == JStr(c.size.Name())
  {
  }

  /** What a card's object holds under the level and proficiency bonus. */
  lemma LevelValues(c: Card)
    ensures FieldValue(c, FLevel) == JNum(c.level)
    ensures FieldValue(c, FProficiencyBonus) == JNum(c.proficiencyBonus)
  {
  }

  /** What a card's object holds under the armour class and hit points. */
  lemma StatValues(c: Card)
    ensures FieldValue(c, FAc) == JNum(c.ac)
    ensures FieldValue(c, FHp) == JNum(c.hp)
  {
  }

  /** What a card's object holds under the two player override flags. */
  lemma OverrideValues(c: Card)
    ensures FieldValue(c, FProficiencyBonusOverride) == JBool(c.proficiencyBonusOverride)
    ensures FieldValue(c, FMaxHPOverride) == JBool(c.maxHPOverride)
  {
  }

  /** The card's object, read as the filter reads it. */
  lemma CardObject(c: Card)
    ensures var m := CardToJson(c);
            FCardType in m && (IsPlayerObject(m) <==> c.cardType == Player)
            && ScoresAreNumbers(m) && (ScoresAllTen(m) <==> AllTen(c))
  {
    TypeValues(c);
    ScoreValuesA(c);
    ScoreValuesB(c);
    ScoreValuesC(c);
  }

  /** `id`, `name` and `cardType` are always exported, even when empty. */
  lemma ExportEssentials(c: Card)
    ensures FId in ExportForm(c) && ExportForm(c)[FId] == JStr(c.id)
    ensures FName in ExportForm(c) && ExportForm(c)[FName] == JStr(c.name)
    ensures FCardType in ExportForm(c) && ExportForm(c)[FCardType] == JStr(c.cardType.Name())
  {
    IdValues(c);
    TypeValues(c);
    ExportOfEssentials(CardToJson(c), FId);
    ExportOfEssentials(CardToJson(c), FName);
    ExportOfEssentials(CardToJson(c), FCardType);
  }

  /** The export adds nothing: every property it writes, other than the skills, holds the card's own value. */
  lemma ExportKeepsValues(c: Card)
    ensures forall f :: f in ExportForm(c) && f != FSkills ==> ExportForm(c)[f] == FieldValue(c, f)
  {
    ExportOfKeepsValues(CardToJson(c));
  }

  /** Any other property holding the empty text is not exported. */
  lemma ExportDropsEmptyTexts(c: Card, f: Field)
    requires f !in Essential && FieldValue(c, f) == JStr("")
    ensures f !in ExportForm(c)
  {
    ExportOfEmptyText(CardToJson(c), f);
  }

  /** The image, speed, armour type, senses, languages, traits and actions are exported unless empty; darkvision always. */
  lemma ExportCommon(c: Card)
    ensures FImage in ExportForm(c) <==> c.image != ""
    ensures FSpeed in ExportForm(c) <==> c.speed != ""
    ensures FAcType in ExportForm(c) <==> c.acType != ""
    ensures FTraits in ExportForm(c) <==> c.traits != ""
    ensures FActions in ExportForm(c) <==> c.actions != ""
    ensures FBonusActions in ExportForm(c) <==> c.bonusActions != ""
    ensures FSenses in ExportForm(c) <==> c.senses != JStr("")
    ensures FLanguages in ExportForm(c) <==> c.languages != JStr("")
    ensures FDarkvision in ExportForm(c) && FDarkvisionOverride in ExportForm(c)
  {
    var m := CardToJson(c);
    ImageValues(c);
    TraitValues(c);
    ActionValues(c);
    SenseValues(c);
    DarkvisionValues(c);
    ExportOfCommon(m, FImage);
    ExportOfCommon(m, FSpeed);
    ExportOfCommon(m, FAcType);
    ExportOfCommon(m, FTraits);
    ExportOfCommon(m, FActions);
    ExportOfCommon(m, FBonusActions);
    ExportOfCommon(m, FSenses);
    ExportOfCommon(m, FLanguages);
    ExportOfCommon(m, FDarkvision);
    ExportOfCommon(m, FDarkvisionOverride);
  }

  /** Each damage or condition list is exported exactly when it is not empty. */
  lemma ExportLists(c: Card)
    ensures FDamageImmunities in ExportForm(c) <==> c.damageImmunities != []
    ensures FDamageResistances in ExportForm(c) <==> c.damageResistances != []
    ensures FDamageVulnerabilities in ExportForm(c) <==> c.damageVulnerabilities != []
    ensures FConditionImmunities in ExportForm(c) <==> c.conditionImmunities != []
  {
    var m := CardToJson(c);
    DamageListValues(c);
    OtherListValues(c);
    ExportOfList(m, FDamageImmunities);
    ExportOfList(m, FDamageResistances);
    ExportOfList(m, FDamageVulnerabilities);
    ExportOfList(m, FConditionImmunities);
  }

  /** Each saving throw is exported exactly when the card has one, 0 included. */
  lemma ExportSaves(c: Card)
    ensures FSavingThrowStr in ExportForm(c) <==> c.savingThrowStr.Some?
    ensures FSavingThrowDex in ExportForm(c) <==> c.savingThrowDex.Some?
    ensures FSavingThrowCon in ExportForm(c) <==> c.savingThrowCon.Some?
    ensures FSavingThrowInt in ExportForm(c) <==> c.savingThrowInt.Some?
    ensures FSavingThrowWis in ExportForm(c) <==> c.savingThrowWis.Some?
    ensures FSavingThrowCha in ExportForm(c) <==> c.savingThrowCha.Some?
  {
    var m := CardToJson(c);
    SaveValuesA(c);
    SaveValuesB(c);
    SaveValuesC(c);
    ExportOfSave(m, FSavingThrowStr);
    ExportOfSave(m, FSavingThrowDex);
    ExportOfSave(m, FSavingThrowCon);
    ExportOfSave(m, FSavingThrowInt);
    ExportOfSave(m, FSavingThrowWis);
    ExportOfSave(m, FSavingThrowCha);
  }

  /** The six scores are exported together, and only when they are not all 10. */
  lemma ExportScores(c: Card)
    ensures FStr in ExportForm(c) <==> !AllTen(c)
    ensures FDex in ExportForm(c) <==> !AllTen(c)
    ensures FCon in ExportForm(c) <==> !AllTen(c)
    ensures FInt in ExportForm(c) <==> !AllTen(c)
    ensures FWis in ExportForm(c) <==> !AllTen(c)
    ensures FCha in ExportForm(c) <==> !AllTen(c)
  {
    var m := CardToJson(c);
    CardObject(c);
    ExportOfScore(m, FStr);
    ExportOfScore(m, FDex);
    ExportOfScore(m, FCon);
    ExportOfScore(m, FInt);
    ExportOfScore(m, FWis);
    ExportOfScore(m, FCha);
  }

  /** The skills are exported as the entries of the non-default skills, and not at all when every skill is default. */
  lemma ExportSkills(c: Card)
    ensures FSkills in ExportForm(c) <==> NonDefaultSkills(c.skills) != map[]
    ensures FSkills in ExportForm(c) ==> ExportForm(c)[FSkills] == SkillsToJson(NonDefaultSkills(c.skills))
  {
    var m := CardToJson(c);
    SkillsValue(c);
    ExportOfSkills(m);
    NonDefaultEntriesOfSkills(c.skills);
    NoNonDefaultEntries(c.skills);
  }

  /** A player card drops every monster property. */
  lemma ExportPlayerDrops(c: Card)
    requires c.cardType == Player
    ensures FMonsterSize !in ExportForm(c) && FMonsterType !in ExportForm(c) && FMonsterTypeTag !in ExportForm(c)
    ensures FCr !in ExportForm(c) && FHpFormula !in ExportForm(c)
  {
    var m := CardToJson(c);
    CardObject(c);
    ExportOfPlayerDrops(m, FMonsterSize);
    ExportOfPlayerDrops(m, FMonsterType);
    ExportOfPlayerDrops(m, FMonsterTypeTag);
    ExportOfPlayerDrops(m, FCr);
    ExportOfPlayerDrops(m, FHpFormula);
  }

  /** A player card drops level 1 and proficiency bonus 2, and keeps any other level or bonus. */
  lemma ExportPlayerLevel(c: Card)
    requires c.cardType == Player
    ensures FLevel in ExportForm(c) <==> c.level != 1
    ensures FProficiencyBonus in ExportForm(c) <==> c.proficiencyBonus != 2
  {
    var m := CardToJson(c);
    CardObject(c);
    LevelValues(c);
    ExportOfPlayerDefault(m, FLevel);
    ExportOfPlayerDefault(m, FProficiencyBonus);
  }

  /** A player card drops armour class 0 and hit points 0, and keeps any other value. */
  lemma ExportPlayerStats(c: Card)
    requires c.cardType == Player
    ensures FAc in ExportForm(c) <==> c.ac != 0
    ensures FHp in ExportForm(c) <==> c.hp != 0
  {
    var m := CardToJson(c);
    CardObject(c);
    StatValues(c);
    ExportOfPlayerDefault(m, FAc);
    ExportOfPlayerDefault(m, FHp);
  }

  /** A player card keeps its race and class unless empty, and both override flags. */
  lemma ExportPlayerKeeps(c: Card)
    requires c.cardType == Player
    ensures FRace in ExportForm(c) <==> c.race != ""
    ensures FClass in ExportForm(c) <==> c.className != ""
    ensures FProficiencyBonusOverride in ExportForm(c) && FMaxHPOverride in ExportForm(c)
  {
    var m := CardToJson(c);
    CardObject(c);
    RaceClassValues(c);
    OverrideValues(c);
    ExportOfPlayerText(m, FRace);
    ExportOfPlayerText(m, FClass);
    ExportOfPlayerKeeps(m, FProficiencyBonusOverride);
    ExportOfPlayerKeeps(m, FMaxHPOverride);
  }

  /** A monster card drops every player property. */
  lemma ExportMonsterDrops(c: Card)
    requires c.cardType == Monster
    ensures FLevel !in ExportForm(c) && FRace !in ExportForm(c) && FClass !in ExportForm(c)
    ensures FProficiencyBonusOverride !in ExportForm(c) && FMaxHPOverride !in ExportForm(c)
  {
    var m := CardToJson(c);
    CardObject(c);
    ExportOfMonsterDrops(m, FLevel);
    ExportOfMonsterDrops(m, FRace);
    ExportOfMonsterDrops(m, FClass);
    ExportOfMonsterDrops(m, FProficiencyBonusOverride);
    ExportOfMonsterDrops(m, FMaxHPOverride);
  }

  /** A monster card keeps its bonus, armour class and hit points whatever they are. */
  lemma ExportMonsterStats(c: Card)
    requires c.cardType == Monster
    ensures FProficiencyBonus in ExportForm(c) && FAc in ExportForm(c) && FHp in ExportForm(c)
  {
    var m := CardToJson(c);
    CardObject(c);
    LevelValues(c);
    StatValues(c);
    ExportOfMonsterKeeps(m, FProficiencyBonus);
    ExportOfMonsterKeeps(m, FAc);
    ExportOfMonsterKeeps(m, FHp);
  }

  /** A monster card keeps each of its monster properties unless it is empty. */
  lemma ExportMonsterTexts(c: Card)
    requires c.cardType == Monster
    ensures FMonsterSize in ExportForm(c) <==> c.monsterSize != ""
    ensures FMonsterType in ExportForm(c) <==> c.monsterType != ""
    ensures FMonsterTypeTag in ExportForm(c) <==> c.monsterTypeTag != ""
    ensures FCr in ExportForm(c) <==> c.cr != ""
    ensures FHpFormula in ExportForm(c) <==> c.hpFormula != ""
  {
    var m := CardToJson(c);
    CardObject(c);
    MonsterKindValues(c);
    MonsterTagValues(c);
    FormulaValue(c);
    ExportOfMonsterText(m, FMonsterSize);
    ExportOfMonsterText(m, FMonsterType);
    ExportOfMonsterText(m, FMonsterTypeTag);
    ExportOfMonsterText(m, FCr);
    ExportOfMonsterText(m, FHpFormula);
  }

  /** The selection flag is exported only when false, the size only when large. */
  lemma ExportFlags(c: Card)
    ensures FSelected in ExportForm(c) <==> !c.selected
    ensures FSize in ExportForm(c) <==> c.size == Large
  {
    var m := CardToJson(c);
    TypeValues(c);
    SizeValue(c);
    ExportOfSelected(m);
    ExportOfSize(m);
  }
}
