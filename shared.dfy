/** The enumerations shared across the card editor: abilities, proficiency tiers, classes and races. */
module Shared {
  import opened Wrappers

  /** The six ability scores. */
  datatype Ability = Str | Dex | Con | Int | Wis | Cha {
    /** The key under which a card stores the score. */
    function Key(): string {
      match this
      case Str => "str"
      case Dex => "dex"
      case Con => "con"
      case Int => "int"
      case Wis => "wis"
      case Cha => "cha"
    }
  }

  /** A skill's proficiency tier; `Untrained` is the tier the source spells 'none'. */
  datatype ProficiencyLevel = Untrained | Half | Proficient | Expert {
    function Name(): string {
      match this
      case Untrained => "none"
      case Half => "half"
      case Proficient => "proficient"
      case Expert => "expert"
    }
  }

  /** Reads a tier from its stored spelling; any other text is not a tier. */
  function ProficiencyFromName(s: string): (r: Option<ProficiencyLevel>)
    ensures r.Some? ==> r.value.Name() == s
    ensures forall p: ProficiencyLevel :: p.Name() == s ==> r == Some(p)
  {
    if s == "none" then Some(Untrained)
    else if s == "half" then Some(Half)
    else if s == "proficient" then Some(Proficient)
    else if s == "expert" then Some(Expert)
    else None
  }

  /** The twelve character classes. */
  datatype ClassName =
    | Barbarian | Bard | Cleric | Druid | Fighter | Monk
    | Paladin | Ranger | Rogue | Sorcerer | Warlock | Wizard
  {
    function Name(): string {
      match this
      case Barbarian => "Barbarian"
      case Bard => "Bard"
      case Cleric => "Cleric"
      case Druid => "Druid"
      case Fighter => "Fighter"
      case Monk => "Monk"
      case Paladin => "Paladin"
      case Ranger => "Ranger"
      case Rogue => "Rogue"
      case Sorcerer => "Sorcerer"
      case Warlock => "Warlock"
      case Wizard => "Wizard"
    }
  }

  /** The eleven races. */
  datatype RaceName =
    | Dragonborn | Dwarf | Elf | Gnome | Goliath | HalfElf
    | HalfOrc | Halfling | Human | Tabaxi | Tiefling
  {
    function Name(): string {
      match this
      case Dragonborn => "Dragonborn"
      case Dwarf => "Dwarf"
      case Elf => "Elf"
      case Gnome => "Gnome"
      case Goliath => "Goliath"
      case HalfElf => "Half-Elf"
      case HalfOrc => "Half-Orc"
      case Halfling => "Halfling"
      case Human => "Human"
      case Tabaxi => "Tabaxi"
      case Tiefling => "Tiefling"
    }
  }
}
