/** Level-driven player numbers: the proficiency bonus and maximum hit points. */
module LevelCalculations {
  import opened Wrappers
  import opened Text
  import opened AbilityHelpers

  /** The proficiency bonus of a level that `parseInt` has read; an unreadable level counts as 2. */
  function BonusForLevel(lvl: Option<int>): (r: int)
    ensures 2 <= r <= 6
    ensures lvl.Some? && lvl.value >= 1 ==> r == Min(6, 2 + (lvl.value - 1) / 4)
    ensures lvl.None? || lvl.value < 1 ==> r == 2
  {
    if lvl.None? || lvl.value < 1 then 2
    else if lvl.value <= 4 then 2
    else if lvl.value <= 8 then 3
    else if lvl.value <= 12 then 4
    else if lvl.value <= 16 then 5
    else 6
  }

  function Min(a: int, b: int): int {
    if a <= b then a else b
  }

  /** `calculateProficiencyBonus`: reads the level with `parseInt` and picks its band. */
  function ProficiencyBonus(level: string): (r: int)
    ensures 2 <= r <= 6
    ensures ParseInt(level).None? ==> r == 2
  {
    BonusForLevel(ParseInt(level))
  }

  /** The numeric level a card holds, as the calculators pass it (it is rendered, then read back). */
  lemma ProficiencyBonusOfNumber(level: int)
    ensures ProficiencyBonus(IntToString(level)) == BonusForLevel(Some(level))
  {
    ParseIntOfIntToString(level);
  }

  /** The bands: 1-4 give 2, 5-8 give 3, 9-12 give 4, 13-16 give 5, 17 and up give 6. */
  lemma ProficiencyBonusBands(n: int)
    ensures 1 <= n <= 4 ==> BonusForLevel(Some(n)) == 2
    ensures 5 <= n <= 8 ==> BonusForLevel(Some(n)) == 3
    ensures 9 <= n <= 12 ==> BonusForLevel(Some(n)) == 4
    ensures 13 <= n <= 16 ==> BonusForLevel(Some(n)) == 5
    ensures 17 <= n ==> BonusForLevel(Some(n)) == 6
  {
  }

  /** A higher level never has a lower proficiency bonus. */
  lemma ProficiencyBonusMonotone(m: int, n: int)
    requires m <= n
    ensures BonusForLevel(Some(m)) <= BonusForLevel(Some(n))
  {
  }

  /** The hit die of each class, as this module's own table states it. */
  const HitDiceByClass: map<string, int> := map[
    "Barbarian" := 12, "Fighter" := 10, "Paladin" := 10, "Ranger" := 10,
    "Bard" := 8, "Cleric" := 8, "Druid" := 8, "Monk" := 8, "Rogue" := 8, "Warlock" := 8,
    "Sorcerer" := 6, "Wizard" := 6]

  /** The table's hit die, or 8 for a name it does not list. */
  function HitDieOf(className: string): (d: int)
    ensures className in HitDiceByClass ==> d == HitDiceByClass[className]
    ensures className !in HitDiceByClass ==> d == 8
    ensures d in {6, 8, 10, 12}
  {
    if className in HitDiceByClass && HitDiceByClass[className] != 0 then HitDiceByClass[className] else 8
  }

  /** `Math.ceil(x / 2)`. */
  function HalfUp(x: int): (r: int)
    ensures 2 * r - 2 < x <= 2 * r
  {
    (x + 1) / 2
  }

  /**
   * Maximum hit points of a level read by `parseInt`: the full hit die at first level, the
   * rounded-up average roll at every later level, the constitution modifier at each, never below 1.
   */
  function MaxHPFor(lvl: Option<int>, className: string, con: Option<int>): (hp: int)
    ensures lvl.None? || lvl.value < 1 || con.None? ==> hp == 0
    ensures lvl.Some? && lvl.value >= 1 && con.Some? ==> hp >= 1
    ensures lvl.Some? && lvl.value >= 1 && con.Some? ==>
              hp == Max(1, HitDieOf(className) + AbilityModifier(con.value)
                           + (lvl.value - 1) * (HalfUp(HitDieOf(className) + 1) + AbilityModifier(con.value)))
  {
    if lvl.None? || lvl.value < 1 then 0
    else if con.None? then 0
    else
      var hitDie := HitDieOf(className);
      var conModifier := AbilityModifier(con.value);
      var fixedIncrease := HalfUp(hitDie + 1);
      var level1HP := hitDie + conModifier;
      var additionalHP := (lvl.value - 1) * (fixedIncrease + conModifier);
      Max(1, level1HP + additionalHP)
  }

  function Max(a: int, b: int): int {
    if a >= b then a else b
  }

  /** `calculateMaxHP`: reads the level and constitution with `parseInt`. */
  function MaxHP(level: string, className: string, conScore: string): (hp: int)
    ensures hp >= 0
    ensures hp == 0 <==> ParseInt(level).None? || ParseInt(level).value < 1 || ParseInt(conScore).None?
  {
    MaxHPFor(ParseInt(level), className, ParseInt(conScore))
  }

  lemma MaxHPOfNumbers(level: int, className: string, con: int)
    ensures MaxHP(IntToString(level), className, IntToString(con)) == MaxHPFor(Some(level), className, Some(con))
  {
    ParseIntOfIntToString(level);
    ParseIntOfIntToString(con);
  }

  /** Worked values: a fighter with 14 constitution, a barbarian with 16, a wizard with 1. */
  lemma MaxHPExamples()
    ensures MaxHPFor(Some(1), "Fighter", Some(14)) == 12
    ensures MaxHPFor(Some(2), "Fighter", Some(14)) == 20
    ensures MaxHPFor(Some(3), "Fighter", Some(14)) == 28
    ensures MaxHPFor(Some(5), "Fighter", Some(15)) == 44
    ensures MaxHPFor(Some(1), "Barbarian", Some(16)) == 15
    ensures MaxHPFor(Some(2), "Barbarian", Some(16)) == 25
    ensures MaxHPFor(Some(1), "Wizard", Some(1)) == 1
    ensures MaxHPFor(Some(2), "Wizard", Some(1)) == 1
    ensures MaxHPFor(Some(0), "Fighter", Some(14)) == 0
    ensures MaxHPFor(Some(5), "Fighter", None) == 0
  {
  }

  /** Each level after the first adds the same amount when the total stays above the floor of 1. */
  lemma {:induction false} MaxHPPerLevel(n: int, className: string, con: int)
    requires n >= 1
    requires MaxHPFor(Some(n), className, Some(con)) > 1
    requires HalfUp(HitDieOf(className) + 1) + AbilityModifier(con) >= 0
    ensures MaxHPFor(Some(n + 1), className, Some(con))
         == MaxHPFor(Some(n), className, Some(con)) + HalfUp(HitDieOf(className) + 1) + AbilityModifier(con)
  {
    var step := HalfUp(HitDieOf(className) + 1) + AbilityModifier(con);
    assert n * step == (n - 1) * step + step;
  }
}
