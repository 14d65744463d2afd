/** The class table the editor offers: names in display order and their hit dice. */
module ClassConfig {
  import opened Wrappers
  import opened Shared
  import LevelCalculations

  datatype ClassInfo = ClassInfo(name: string, hitDie: int)

  /** The classes in the order the editor lists them. */
  const ClassesData: seq<ClassInfo> := [
    ClassInfo("Barbarian", 12), ClassInfo("Bard", 8), ClassInfo("Cleric", 8), ClassInfo("Druid", 8),
    ClassInfo("Fighter", 10), ClassInfo("Monk", 8), ClassInfo("Paladin", 10), ClassInfo("Ranger", 10),
    ClassInfo("Rogue", 8), ClassInfo("Sorcerer", 6), ClassInfo("Warlock", 8), ClassInfo("Wizard", 6)]

  /** The class names as the shared enumeration spells them, in the same order. */
  lemma ClassesDataNames()
    ensures |ClassesData| == 12
    ensures forall i :: 0 <= i < 12 ==>
              ClassesData[i].name == [Barbarian, Bard, Cleric, Druid, Fighter, Monk, Paladin, Ranger, Rogue, Sorcerer, Warlock, Wizard][i].Name()
  {
  }

  /** `CLASSES`: the names of the table, in table order. */
  function Classes(): (r: seq<string>)
    ensures |r| == |ClassesData|
    ensures forall i :: 0 <= i < |r| ==> r[i] == ClassesData[i].name
  {
    seq(|ClassesData|, i requires 0 <= i < |ClassesData| => ClassesData[i].name)
  }

  /** A select option: its `value` and its `label` (`label` is a reserved word in Dafny). */
  datatype SelectOption = SelectOption(value: string, labelText: string)

  /** `getClassOptions`: a blank placeholder, then one option per class whose value and label are its name. */
  function ClassOptions(): (r: seq<SelectOption>)
    ensures |r| == |ClassesData| + 1
    ensures r[0] == SelectOption("", "-- Select --")
    ensures forall i :: 0 <= i < |ClassesData| ==> r[i + 1] == SelectOption(ClassesData[i].name, ClassesData[i].name)
  {
    [SelectOption("", "-- Select --")]
      + seq(|ClassesData|, i requires 0 <= i < |ClassesData| => SelectOption(ClassesData[i].name, ClassesData[i].name))
  }

  /** The first row of `data` with the given name, as `Array.prototype.find` returns it. */
  function Find(data: seq<ClassInfo>, name: string): (r: Option<nat>)
    ensures r.None? <==> forall i :: 0 <= i < |data| ==> data[i].name != name
    ensures r.Some? ==> r.value < |data| && data[r.value].name == name
                        && forall i :: 0 <= i < r.value ==> data[i].name != name
  {
    if data == [] then None
    else if data[0].name == name then Some(0)
    else
      var rest := Find(data[1..], name);
      if rest.None? then None else Some(rest.value + 1)
  }

  /** `getHitDieForClass`: the hit die of the named class, 8 for a name the table lacks. */
  function HitDieForClass(className: string): (d: int)
    ensures forall i :: 0 <= i < |ClassesData| && ClassesData[i].name == className ==> d == ClassesData[i].hitDie
    ensures (forall i :: 0 <= i < |ClassesData| ==> ClassesData[i].name != className) ==> d == 8
    ensures d in {6, 8, 10, 12}
  {
    HitDiceValues();
    ClassNamesDistinct();
    var found := Find(ClassesData, className);
    if found.Some? then ClassesData[found.value].hitDie else 8
  }

  /** No class is listed twice. */
  lemma ClassNamesDistinct()
    ensures forall i, j :: 0 <= i < j < |ClassesData| ==> ClassesData[i].name != ClassesData[j].name
  {
    ClassesDataNames();
  }

  /** The die of each class by name: a d12 for barbarians, d10 for fighters, paladins and rangers, d6 for sorcerers and wizards, d8 for the rest. */
  lemma HitDieByClassName()
    ensures HitDieForClass("Barbarian") == 12
    ensures HitDieForClass("Fighter") == 10 && HitDieForClass("Paladin") == 10 && HitDieForClass("Ranger") == 10
    ensures HitDieForClass("Sorcerer") == 6 && HitDieForClass("Wizard") == 6
    ensures HitDieForClass("Bard") == 8 && HitDieForClass("Cleric") == 8 && HitDieForClass("Druid") == 8
    ensures HitDieForClass("Monk") == 8 && HitDieForClass("Rogue") == 8 && HitDieForClass("Warlock") == 8
  {
    assert ClassesData[0].name == "Barbarian";
    assert ClassesData[1].name == "Bard";
    assert ClassesData[2].name == "Cleric";
    assert ClassesData[3].name == "Druid";
    assert ClassesData[4].name == "Fighter";
    assert ClassesData[5].name == "Monk";
    assert ClassesData[6].name == "Paladin";
    assert ClassesData[7].name == "Ranger";
    assert ClassesData[8].name == "Rogue";
    assert ClassesData[9].name == "Sorcerer";
    assert ClassesData[10].name == "Warlock";
    assert ClassesData[11].name == "Wizard";
  }

  /** Every die of the table is a d6, d8, d10 or d12. */
  lemma HitDiceValues()
    ensures forall j :: 0 <= j < |ClassesData| ==> ClassesData[j].hitDie in {6, 8, 10, 12}
  {
    forall j | 0 <= j < |ClassesData|
      ensures ClassesData[j].hitDie in {6, 8, 10, 12}
    {
    }
  }

  /** Every row of this table is in the hit-point table with the same die. */
  lemma RowsInHitDiceTable()
    ensures forall j :: 0 <= j < |ClassesData| ==>
              ClassesData[j].name in LevelCalculations.HitDiceByClass
              && LevelCalculations.HitDiceByClass[ClassesData[j].name] == ClassesData[j].hitDie
  {
    forall j | 0 <= j < |ClassesData|
      ensures ClassesData[j].name in LevelCalculations.HitDiceByClass
      ensures LevelCalculations.HitDiceByClass[ClassesData[j].name] == ClassesData[j].hitDie
    {
      if j == 0 {
        assert ClassesData[0].name == "Barbarian";
      } else if j == 1 {
        assert ClassesData[1].name == "Bard";
      } else if j == 2 {
        assert ClassesData[2].name == "Cleric";
      } else if j == 3 {
        assert ClassesData[3].name == "Druid";
      } else if j == 4 {
        assert ClassesData[4].name == "Fighter";
      } else if j == 5 {
        assert ClassesData[5].name == "Monk";
      } else if j == 6 {
        assert ClassesData[6].name == "Paladin";
      } else if j == 7 {
        assert ClassesData[7].name == "Ranger";
      } else if j == 8 {
        assert ClassesData[8].name == "Rogue";
      } else if j == 9 {
        assert ClassesData[9].name == "Sorcerer";
      } else if j == 10 {
        assert ClassesData[10].name == "Warlock";
      } else if j == 11 {
        assert ClassesData[11].name == "Wizard";
      }
    }
  }

  /** Every name of the hit-point table is a row of this table. */
  lemma HitDiceTableInRows()
    ensures forall k :: k in LevelCalculations.HitDiceByClass ==>
              exists j :: 0 <= j < |ClassesData| && ClassesData[j].name == k
  {
    forall k | k in LevelCalculations.HitDiceByClass
      ensures exists j :: 0 <= j < |ClassesData| && ClassesData[j].name == k
    {
      if k == "Barbarian" {
        assert ClassesData[0].name == k;
      } else if k == "Bard" {
        assert ClassesData[1].name == k;
      } else if k == "Cleric" {
        assert ClassesData[2].name == k;
      } else if k == "Druid" {
        assert ClassesData[3].name == k;
      } else if k == "Fighter" {
        assert ClassesData[4].name == k;
      } else if k == "Monk" {
        assert ClassesData[5].name == k;
      } else if k == "Paladin" {
        assert ClassesData[6].name == k;
      } else if k == "Ranger" {
        assert ClassesData[7].name == k;
      } else if k == "Rogue" {
        assert ClassesData[8].name == k;
      } else if k == "Sorcerer" {
        assert ClassesData[9].name == k;
      } else if k == "Warlock" {
        assert ClassesData[10].name == k;
      } else if k == "Wizard" {
        assert ClassesData[11].name == k;
      } else {
        assert false;
      }
    }
  }

  /** This table and the hit-point table agree on every name, listed or not. */
  lemma HitDieTablesAgree(className: string)
    ensures HitDieForClass(className) == LevelCalculations.HitDieOf(className)
  {
    RowsInHitDiceTable();
    HitDiceTableInRows();
  }
}
