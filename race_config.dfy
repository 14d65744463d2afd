/** Darkvision by race. */
module RaceConfig {
  import opened Shared

  /** The darkvision range in feet of each race. */
  const DarkvisionByRace: map<string, int> := map[
    "Dragonborn" := 0, "Dwarf" := 60, "Elf" := 60, "Gnome" := 60, "Goliath" := 0, "Half-Elf" := 60,
    "Half-Orc" := 60, "Halfling" := 0, "Human" := 0, "Tabaxi" := 60, "Tiefling" := 60]

  /** `getDarkvisionForRace`: the table's range, 0 for a race it does not list. */
  function DarkvisionForRace(race: string): (r: int)
    ensures r == 0 || r == 60
    ensures race !in DarkvisionByRace ==> r == 0
  {
    if race in DarkvisionByRace then DarkvisionByRace[race] else 0
  }

  /** Seven races see in the dark to 60 feet; the other four do not. */
  lemma DarkvisionByRaceName(r: RaceName)
    ensures DarkvisionForRace(r.Name()) == 60 <==> r in {Dwarf, Elf, Gnome, HalfElf, HalfOrc, Tabaxi, Tiefling}
    ensures DarkvisionForRace(r.Name()) == 0 <==> r in {Dragonborn, Goliath, Halfling, Human}
  {
  }
}
