# Derived values of the tabletop insert editor

This project models the core of a card editor for tabletop role-playing games. The editor prints
"inserts": small cards for player characters and monsters. The core is the engine that turns a
stored card into the numbers printed on it, plus the text processing around that engine:

- **Arithmetic.** The ability modifier `floor((score - 10) / 2)`. The proficiency tiers none, half,
  proficient and expert. The skill bonus, and the passive value, which is 10 plus the skill bonus.
- **Tables.**
  - level to proficiency bonus;
  - class to hit die, and the player's maximum hit points;
  - race to darkvision;
  - the fixed table of eighteen skills with their governing abilities, and the visible-skill filter;
  - the all-default skills map;
  - creature size to hit die, average-roll monster hit points, and the `NdD ± K` formula printer
    with the reader that takes the number of dice back out.
- **The input normaliser.** A total function from whatever object the editor is handed to a
  complete card.
- **The three derivations.** The combined one for players and monsters, the monster-only one and
  the player-only one. Override flags choose between a kept manual value and a recomputed one.
  Monsters are either computed from their ability scores or copied from their stat block.
- **Saving and loading.** The export filter strips a card's empty and default properties. The
  selection after `JSON.parse` picks and normalises the cards of an imported file.
- **Display helpers.** Score captions, bonus signs and card sizes.
- **The stat-block importer.** A line-driven reader that fills a partial monster card from pasted
  text.

Each modelled source file has a Dafny module of its own name, except `cardIO.ts`, which is split
into CardIO (the export filter) and CardImport (the import selection). StatBlockReadBack holds
lemmas about the stat-block importer. Wrappers, Js, Maps, Text and Shared stand for no single
source file: they hold the optional result, JSON values, map helpers, the string functions of the
JavaScript library, and the enumerations the source files share. JavaScript values are the datatype `Js.Value`. The
stored card is the record `CardTypes.Card`, and its view as a plain object is a map from the
`Field` enumeration to values.

Code that the source writes as loops over a copied object is written as methods with loops. Each
such method is proved equal to a specification function, and the properties are lemmas about that
function:

- `calculateInsertValues`, `calculateMonsterValues` and `calculateAdvancedPlayerValues`;
- `createEmptySkills`;
- the stages of `filterEmptyFields`;
- `parseMonsterStatBlock` and its per-line readers.

Where a test disagrees with the code, the model follows the code in the first three cases below.
In the fourth it follows the test:

- `src/test/cardHelpers.test.ts:44` expects `formatBonus('0')` to be empty. The code gives `+0`.
- `src/test/inputNormalizer.test.ts:69` expects `senses` to become `{}`. The code gives `''`.
- `src/test/monsterHPIntegration.test.ts` expects hit points derived from a hit-dice count inside
  `calculateInsertValues`. The code has no such step.
- `src/test/inputNormalizer.test.ts:162` expects the normaliser to fill in a map of eighteen empty
  skills. As written, `ALL_SKILLS` is a record (`src/utils/skillConfig.ts:15`) and
  `createEmptySkills` iterates it with `for … of` (`src/utils/skillHelpers.ts:10`), which throws
  on every call. So, as written, the normaliser (`src/utils/inputNormalizer.ts:43-44`, both
  branches), the file import that calls it (`src/utils/cardIO.ts:213`, `:226`) and the stat-block
  reader (`src/utils/monsterParser.ts:34`) throw on every input. The model iterates the table's
  entries, as the test expects.

`src/types/Insert.ts` holds an outdated, string-typed interface. The card's shape is taken from
the object `normalizeInsertInputs` builds.

## Model

| member | source | states |
|---|---|---|
| Shared.ProficiencyFromName | src/types/Shared.ts:13 | reads a tier from its stored spelling: any result is spelled by the text, and a tier spelled by the text is always found |
| AbilityHelpers.AbilityModifier | src/utils/abilityHelpers.ts:20-23 | the modifier m is floor((score-10)/2), stated as 2m <= score-10 < 2m+2 |
| AbilityHelpers.AbilityModifierExamples | src/utils/abilityHelpers.ts:20-23 | 1→-5, 0→-5, 8→-1, 10→0, 11→0, 12→1, 15→2, 20→5, 30→10 |
| AbilityHelpers.AbilityModifierMonotone | src/utils/abilityHelpers.ts:22 | the modifier never decreases as the score grows, and two more points add exactly one |
| AbilityHelpers.FormatModifier | src/utils/abilityHelpers.ts:28-30 | a sign followed by digits with no leading zero ('0' follows the sign exactly when m is 0, and then alone); '+' exactly when m >= 0 (so 0 prints as +0); parseInt reads m back |
| AbilityHelpers.ApplyProficiencyMultiplier | src/utils/abilityHelpers.ts:53-69 | none adds 0, half adds floor(b/2), proficient adds b, expert adds 2b |
| AbilityHelpers.TiersOrdered | src/utils/abilityHelpers.ts:54-68 | for b >= 0 the contributions are ordered none <= half <= proficient <= expert |
| AbilityHelpers.SkillBonusParts | src/utils/abilityHelpers.ts:36-45 | an untrained skill with no manual modifier is the ability modifier; the manual modifier adds; expert exceeds proficient by b; two score points add one |
| AbilityHelpers.SkillBonus | src/utils/abilityHelpers.ts:36-45 | an untrained skill is the ability modifier plus the manual modifier; with a non-negative bonus the tier adds between nothing and twice the bonus |
| AbilityHelpers.AbilityField | src/utils/abilityHelpers.ts:77-79 | each ability names the object property of its score |
| AbilityHelpers.GetAbilityScoreIsStored | src/utils/abilityHelpers.ts:77-79 | the score read is exactly the number the card stores under that ability's property |
| AbilityHelpers.GetAbilityScore | src/utils/abilityHelpers.ts:77-79 | no contract of its own: AbilityHelpers.GetAbilityScoreIsStored states what it reads |
| PassiveCalculator.CalculatePassive | src/utils/passiveCalculator.ts:7-20 | the passive value is 10 plus the skill bonus |
| PassiveCalculator.PassiveUntrained | src/utils/passiveCalculator.ts:16-17 | an untrained skill with no manual modifier gives 10 plus the ability modifier |
| PassiveCalculator.PassiveManualAdditive | src/utils/passiveCalculator.ts:16 | adding k to the manual modifier adds k to the passive value |
| PassiveCalculator.ExpertOverProficient | src/utils/passiveCalculator.ts:16 | an expert's passive exceeds a proficient one's by exactly the proficiency bonus |
| LevelCalculations.BonusForLevel | src/utils/levelCalculations.ts:1-9 | always 2..6; 2 when the level is not a number or below 1; otherwise min(6, 2 + (level-1)/4) |
| LevelCalculations.ProficiencyBonusOfNumber | src/utils/levelCalculations.ts:1-9 | calculateProficiencyBonus of a printed level is the band of that level |
| LevelCalculations.ProficiencyBonus | src/utils/levelCalculations.ts:1-9 | always 2 to 6; a level parseInt cannot read gives 2 |
| LevelCalculations.ProficiencyBonusBands | src/utils/levelCalculations.ts:1-9 | levels 1-4→2, 5-8→3, 9-12→4, 13-16→5, 17 and above→6 |
| LevelCalculations.ProficiencyBonusMonotone | src/utils/levelCalculations.ts:1-9 | the bonus never decreases as the level grows |
| LevelCalculations.HitDieOf | src/utils/levelCalculations.ts:11-33 | the table's die for a listed class, 8 for any other name; every result is 6, 8, 10 or 12 |
| LevelCalculations.HalfUp | src/utils/levelCalculations.ts:37 | ceil(x/2), stated as 2r-2 < x <= 2r |
| LevelCalculations.MaxHPFor | src/utils/levelCalculations.ts:26-43 | 0 when the level is not a number or below 1, or the constitution is not a number; otherwise max(1, hd + m + (level-1)*(ceil((hd+1)/2) + m)), which is at least 1 |
| LevelCalculations.MaxHPOfNumbers | src/utils/levelCalculations.ts:26-43 | calculateMaxHP of a printed level and constitution is that formula |
| LevelCalculations.MaxHP | src/utils/levelCalculations.ts:26-43 | never negative; 0 exactly when parseInt cannot read the level, the level is below 1, or parseInt cannot read the constitution |
| LevelCalculations.MaxHPExamples | src/utils/levelCalculations.ts:26-43 | Fighter with CON 14: 12, 20, 28 at levels 1-3. Barbarian with CON 16: 15, 25. Wizard with CON 1: 1 at levels 1 and 2. 0 below level 1 or without a constitution |
| LevelCalculations.MaxHPPerLevel | src/utils/levelCalculations.ts:40-42 | above the floor of 1, each level adds the fixed increase plus the constitution modifier |
| ClassConfig.ClassesDataNames | src/utils/classConfig.ts:6-19 | the table lists the twelve classes in display order |
| ClassConfig.Classes | src/utils/classConfig.ts:21 | the class names, in table order |
| ClassConfig.ClassOptions | src/utils/classConfig.ts:23-28 | the placeholder ('', '-- Select --') followed by one option per class, in table order, each valued and labelled with the name |
| ClassConfig.Find | src/utils/classConfig.ts:31 | the first row with that name, or none exactly when no row has it |
| ClassConfig.HitDieForClass | src/utils/classConfig.ts:30-33 | the die of the row with that name; 8 when no row has it; every result is 6, 8, 10 or 12 |
| ClassConfig.ClassNamesDistinct | src/utils/classConfig.ts:6-19 | no class is listed twice, so the row find returns is the only one with that name |
| ClassConfig.HitDieByClassName | src/utils/classConfig.ts:6-33 | Barbarian 12; Fighter, Paladin and Ranger 10; Sorcerer and Wizard 6; Bard, Cleric, Druid, Monk, Rogue and Warlock 8 |
| ClassConfig.HitDiceValues | src/utils/classConfig.ts:6-19 | every row's hit die is 6, 8, 10 or 12 |
| ClassConfig.RowsInHitDiceTable | src/utils/classConfig.ts:6-19 | every class row appears in the level calculator's hit-dice table with the same die |
| ClassConfig.HitDiceTableInRows | src/utils/levelCalculations.ts:11-24 | every class in the level calculator's table is a row of the class table |
| ClassConfig.HitDieTablesAgree | src/utils/classConfig.ts:30-33 | for any class name, including unknown ones that fall back to 8, getHitDieForClass agrees with the level calculator's lookup |
| RaceConfig.DarkvisionForRace | src/utils/raceConfig.ts:15-17 | always 0 or 60; 0 for a race outside the table |
| RaceConfig.DarkvisionByRaceName | src/utils/raceConfig.ts:1-13 | 60 exactly for Dwarf, Elf, Gnome, Half-Elf, Half-Orc, Tabaxi and Tiefling; 0 exactly for Dragonborn, Goliath, Halfling and Human |
| SkillConfig.Info | src/utils/skillConfig.ts:15-142 | each entry is keyed by its skill, names its governing ability, and uses the skill's own name as its passive field |
| SkillConfig.SkillIndex | src/utils/skillConfig.ts:15-142 | each skill has exactly one position in the table |
| SkillConfig.AbilityOf | src/utils/skillConfig.ts:15-142 | in both directions: athletics→str; acrobatics, sleight of hand, stealth→dex; arcana, history, investigation, nature, religion→int; animal handling, insight, medicine, perception, survival→wis; deception, intimidation, performance, persuasion→cha; none→con |
| SkillConfig.TableShape | src/utils/skillConfig.ts:15-142 | exactly 18 entries, each skill once, distinct skills under distinct names |
| SkillConfig.TableDistinct | src/utils/skillConfig.ts:15-142 | no skill appears twice in the table |
| SkillConfig.TableComplete | src/utils/skillConfig.ts:15-142 | every skill appears in the table |
| SkillConfig.NamesDistinct | src/utils/skillConfig.ts:15-142 | distinct skills carry distinct display names |
| SkillConfig.VisibleFromContents | src/utils/skillConfig.ts:145-147 | the filtered tail holds exactly the flagged skills at or after the start, in increasing table order |
| SkillConfig.VisibleSkills | src/utils/skillConfig.ts:144-148 | a skill is listed exactly when its flag is set, and the list is in table order |
| SkillConfig.TableOrderUnique | src/utils/skillConfig.ts:144-148 | two table-ordered lists with the same members are equal, so the filter's result is the only one possible |
| SkillConfig.AllVisible | src/utils/skillConfig.ts:144-148 | with every flag set, all 18 skills in table order |
| SkillConfig.NoneVisible | src/utils/skillConfig.ts:144-148 | with no flag set, the empty list |
| SkillConfig.DefaultShownShape | src/types/UserPreferences.ts:28-47 | the seven default skills are listed in table order, and a skill is among them exactly when its default flag is on |
| SkillConfig.DefaultFlags | src/types/UserPreferences.ts:28-47 | the default preferences set exactly the flags of arcana, insight, investigation, nature, perception, stealth and survival |
| SkillConfig.DefaultVisibleSkills | src/types/UserPreferences.ts:28-47 | with the default preferences, the visible skills are those seven, in table order |
| SkillHelpers.EmptySkills | src/utils/skillHelpers.ts:7-18 | an entry for every skill, each untrained with modifier 0 and no value |
| SkillHelpers.CreateEmptySkills | src/utils/skillHelpers.ts:10-15 | the loop builds exactly that map, which has 18 keys |
| SkillHelpers.EmptySkillsCount | src/utils/skillHelpers.ts:8-17 | no keys besides the 18 skills |
| MonsterHP.HitDieSize | src/utils/monsterHPCalculations.ts:16-18 | the table's die for a listed size, 8 for any other; always one of 4, 6, 8, 10, 12, 20 |
| MonsterHP.HitDieSizeExamples | src/utils/monsterHPCalculations.ts:4-11 | Tiny 4, Small 6, Medium 8, Large 10, Huge 12, Gargantuan 20; unknown sizes 8 |
| MonsterHP.CalculateMonsterHP | src/utils/monsterHPCalculations.ts:25-33 | 0 for no dice; otherwise n·c plus floor(n(d+1)/2), the floor taken once over the dice |
| MonsterHP.CalculateMonsterHPExamples | src/utils/monsterHPCalculations.ts:25-33 | (33,20,10)=676, (10,8,-2)=25, (5,6,0)=17, (3,4,1)=10, (5,8,1)=27, (0,8,3)=0 |
| MonsterHP.CalculateMonsterHPMonotone | src/utils/monsterHPCalculations.ts:25-33 | with a non-negative modifier, one more die gives strictly more hit points |
| MonsterHP.ModifierSuffix | src/utils/monsterHPCalculations.ts:41-49 | empty for a zero total, " + T" for a positive one, " - abs(T)" for a negative one |
| MonsterHP.GenerateHPFormula | src/utils/monsterHPCalculations.ts:38-39 | empty exactly when there are no dice |
| MonsterHP.FormulaEnds | src/utils/monsterHPCalculations.ts:38-50 | for n > 0 the formula is `NdD` followed by the suffix of n·c, with no white space at either end |
| MonsterHP.GenerateHPFormulaExamples | src/utils/monsterHPCalculations.ts:38-50 | (33,20,10) prints "33d20 + 330" |
| MonsterHP.GenerateHPFormulaExample15 | src/utils/monsterHPCalculations.ts:38-50 | (15,12,6) prints "15d12 + 90" |
| MonsterHP.GenerateHPFormulaSmallExamples | src/utils/monsterHPCalculations.ts:38-50 | "10d8 - 20", "5d6" and "1d4 + 1" |
| MonsterHP.ParseHitDiceFromFormula | src/utils/monsterHPCalculations.ts:57-63 | 0 for the empty text or when the trimmed text does not start with digits, 'd' and a digit; otherwise the value of those leading digits |
| MonsterHP.MatchIsLeadingDigits | src/utils/monsterHPCalculations.ts:61 | where the pattern matches, its count is the whole leading run of digits |
| MonsterHP.ParseHitDiceInvalid | src/utils/monsterHPCalculations.ts:57-63 | "invalid", "100" and "" give 0 |
| MonsterHP.ParseDigitsOnly | src/utils/monsterHPCalculations.ts:60-62 | trimmed text that does not start with a digit, or has no 'd', gives 0 |
| MonsterHP.ParseGeneratedFormula | src/utils/monsterHPCalculations.ts:38-63 | round trip: the count read from a printed formula with n > 0 dice and die size d >= 0 is n |
| MonsterHP.ParseNegativeDieFormula | src/utils/monsterHPCalculations.ts:38-63 | a formula printed with a negative die size reads back as 0, because the die's digits follow a '-' |
| CardHelpers.CalcModifierOnly | src/utils/cardHelpers.ts:11-17 | empty exactly when parseInt fails; otherwise a numeral parseInt reads back as the modifier, with '+' exactly when the modifier is >= 0 |
| CardHelpers.CalcModifier | src/utils/cardHelpers.ts:2-8 | empty exactly when parseInt fails; otherwise the parsed value, " (", the signed modifier and ")" |
| CardHelpers.CalcModifierOfNumber | src/utils/cardHelpers.ts:2-17 | for a printed score: "score (±m)", where the part in parentheses is formatModifier(m) |
| CardHelpers.ParseIntAnyRadixOfIntToString | src/utils/cardHelpers.ts:3 | parseInt without a radix reads a printed integer back |
| CardHelpers.CalcModifierExamples | src/utils/cardHelpers.ts:2-17 | the empty score gives the empty caption |
| CardHelpers.CalcModifierOfFifteen | src/utils/cardHelpers.ts:2-17 | a score of 15 shows as "15 (+2)", its modifier alone as "+2" |
| CardHelpers.CalcModifierOfEight | src/utils/cardHelpers.ts:2-17 | a score of 8 shows as "8 (-1)", its modifier alone as "-1" |
| CardHelpers.FormatBonus | src/utils/cardHelpers.ts:20-25 | empty exactly for empty input; otherwise starts with a sign; it is the trimmed input exactly when that starts with '+' or '-', and '+' before the trimmed input otherwise |
| CardHelpers.FormatBonusOfNumeral | src/utils/cardHelpers.ts:24 | digits get a '+' in front (so '0' gives '+0') |
| CardHelpers.FormatBonusOfBlank | src/utils/cardHelpers.ts:21-24 | non-empty white space gives '+' |
| CardHelpers.FormatBonusIdempotent | src/utils/cardHelpers.ts:20-25 | applying it twice gives what one application gives |
| CardHelpers.FormatBonusOfSigned | src/utils/cardHelpers.ts:22-23 | a signed text with no white space at its ends is returned as it is |
| CardHelpers.FormatBonusOfModifier | src/utils/cardHelpers.ts:20-25 | leaves any formatModifier output unchanged |
| CardHelpers.CardDimensions | src/utils/cardHelpers.ts:28-38 | the card is as tall as its container, and the player opening is as wide as the DM content area |
| CardHelpers.LargeCardDimensions | src/utils/cardHelpers.ts:28-38 | the nine measures of the large card: 128, 89, 64, 89, 59, 83, 3, 59 and 85 mm |
| CardHelpers.SmallCardDimensions | src/utils/cardHelpers.ts:28-38 | the nine measures of the small card: 76, 77, 37, 77, 33, 43, 4, 33 and 73 mm |
| CardHelpers.SizeMeasures | src/utils/cardHelpers.ts:28-38 | in both sizes the card fills the container's height, two cards fit across it, and the opening and content areas lie inside the card |
| CardHelpers.Mm | src/utils/cardHelpers.ts:28-38 | every dimension is a number followed by "mm" |
| Text.Trim | src/utils/monsterParser.ts:28 | no white space at either end, no longer than the input; Text.TrimIsInfix states which part of the input it is |
| Text.TrimIsInfix | src/utils/monsterParser.ts:28 | the result is the part of the text between its leading and its trailing white space: what is removed on either side is white space only |
| Text.TrimStart | src/utils/monsterParser.ts:28 | removes only white space, and the result does not start with white space |
| Text.TrimEnd | src/utils/monsterParser.ts:28 | removes only white space, and the result does not end with white space |
| Text.TrimStartIsSuffix | src/utils/monsterParser.ts:28 | trimming the start leaves a suffix of the text |
| Text.TrimEndIsPrefix | src/utils/monsterParser.ts:28 | trimming the end leaves a prefix of the text |
| Text.TrimOfTrimmed | src/utils/monsterParser.ts:28 | trimming text without white space at its ends changes nothing |
| Text.Split | src/utils/monsterParser.ts:27 | at least one piece; no piece contains a separator |
| Text.JoinSplit | src/utils/monsterParser.ts:27 | joining the pieces of a split with the separator gives back the text |
| Text.LeadingDigits | src/utils/monsterParser.ts:120 | the longest run of digits that starts the text |
| Text.IntToString | src/utils/abilityHelpers.ts:29 | `${i}`: digits, with '-' in front exactly for a negative i, and no leading zero ("0" only for 0) |
| Text.NatToString | src/utils/abilityHelpers.ts:29 | at least one digit, only digits, and no leading zero: the first digit is '0' exactly for 0, which prints as the single digit |
| Text.DigitsValueOfNatToString | src/utils/abilityHelpers.ts:29 | the digits printed for n have the value n |
| Text.ParseInt | src/utils/levelCalculations.ts:2 | parseInt(s, 10) fails exactly when no digit follows the leading white space and an optional sign |
| Text.ParseIntOfIntToString | src/utils/levelCalculations.ts:2 | parseInt reads back every printed integer |
| Text.ParseIntOfPlusSigned | src/utils/monsterParser.ts:374-375 | parseInt reads "+n" as n |
| Text.ParseIntOfMinusSigned | src/utils/monsterParser.ts:257 | parseInt reads "-n" as the negation of n |
| Text.ParseIntOfPlusDigits | src/utils/monsterParser.ts:374-375 | parseInt reads '+' followed by any digit string as the value of the digits |
| Text.ParseIntOfMinusDigits | src/utils/monsterParser.ts:257 | parseInt reads '-' followed by any digit string as the negated value of the digits |
| Text.ParseIntAnyRadix | src/utils/cardHelpers.ts:3 | without a `0x` prefix after the sign, parseInt(s) is parseInt(s, 10) |
| Text.ToLower | src/utils/monsterParser.ts:96 | same length; each letter lowered |
| CardTypes.CardToJson | src/utils/inputNormalizer.ts:13-77 | the object view holds every property of the card, each with the card's value |
| CardTypes.KeyInjective | src/utils/inputNormalizer.ts:13-77 | distinct fields have distinct property names |
| CardTypes.FieldOfKey | src/utils/inputNormalizer.ts:13-77 | a property name reads back to its field |
| CardTypes.AllFieldsComplete | src/utils/inputNormalizer.ts:13-77 | the list of fields names every property of a card |
| CardTypes.GetCardField | src/utils/inputNormalizer.ts:13-77 | reading a property of a card's object gives that field's value |
| CardTypes.GetToObject | src/utils/cardIO.ts:34 | a property of the plain object is present exactly when its field is in the map |
| InputNormalizer.SafeValuesRejectNonNumbers | src/utils/inputNormalizer.ts:83-98 | strings, booleans, null, undefined and NaN give the default (10 for scores); numbers, 0 included, are kept |
| InputNormalizer.SafeNumericValue | src/utils/inputNormalizer.ts:93-98 | a number other than NaN is kept; any other value gives the default |
| InputNormalizer.SafeAbilityScore | src/utils/inputNormalizer.ts:83-88 | a number other than NaN is kept; any other value gives 10 |
| InputNormalizer.SkillOf | src/utils/inputNormalizer.ts:41-44 | a stored entry's tier is read only from a recognised spelling, and its modifier and value only from numbers |
| InputNormalizer.SkillOfSkillToJson | src/utils/inputNormalizer.ts:41-44 | a skill entry written out reads back as itself |
| InputNormalizer.SkillsOf | src/utils/inputNormalizer.ts:41-44 | all 18 skills; each is the stored entry when the object names it, the default otherwise |
| InputNormalizer.SkillsOfSpread | src/utils/inputNormalizer.ts:41-44 | a non-object gives the all-default map; an object's unnamed skills keep their defaults |
| InputNormalizer.NormalizeIsNormal | src/utils/inputNormalizer.ts:10-78 | every result has race, class, size and type text, all 18 skills, and senses and languages that are truthy or '' |
| InputNormalizer.Normalize | src/utils/inputNormalizer.ts:10-78 | no contract of its own: InputNormalizer.NormalizeIsNormal and the Normalize and RoundTrip lemmas below state what it returns |
| InputNormalizer.NormalizeEmpty | src/utils/inputNormalizer.ts:14-77 | `{}` gives the default card: player, small, selected, Human Fighter, level 1, bonus 2, ac, hp and darkvision 0, flags off, scores 10, Medium Humanoid, no saves, empty lists and texts |
| InputNormalizer.NormalizeNonObject | src/utils/inputNormalizer.ts:12 | null, undefined or any other non-object gives that default card |
| InputNormalizer.NormalizeId | src/utils/inputNormalizer.ts:15 | a non-empty stored id is kept; otherwise the fresh id is used |
| InputNormalizer.NormalizeFalsyFields | src/utils/inputNormalizer.ts:20-56 | text fields read with logical or replace '' with the default, while nullish-coalesced flags and numeric fields keep false and 0 |
| InputNormalizer.NormalizeEnums | src/utils/inputNormalizer.ts:18-19 | monster exactly for 'monster', large exactly for 'large' |
| InputNormalizer.NormalizeSkills | src/utils/inputNormalizer.ts:41-44 | with a skills object, each skill is the stored entry when present and the default otherwise |
| InputNormalizer.RoundTripSkills | src/utils/inputNormalizer.ts:41-44 | a complete skills map written into an object is read back unchanged |
| InputNormalizer.RoundTripHeader | src/utils/inputNormalizer.ts:15-24 | id, name, image, type, size, selection, race and class are read back unchanged |
| InputNormalizer.RoundTripPlayer | src/utils/inputNormalizer.ts:25-38 | ac, level, the three override flags, bonus, hp and darkvision are read back unchanged |
| InputNormalizer.RoundTripScores | src/utils/inputNormalizer.ts:47-52 | the six scores are read back unchanged |
| InputNormalizer.RoundTripMonsterText | src/utils/inputNormalizer.ts:55-61 | the monster's size, type, tag, rating, speed, armour type and formula are read back unchanged |
| InputNormalizer.RoundTripSaves | src/utils/inputNormalizer.ts:62-64 | the Str, Dex and Con saves, number or null, are read back unchanged |
| InputNormalizer.RoundTripMentalSaves | src/utils/inputNormalizer.ts:65-67 | the Int, Wis and Cha saves are read back unchanged |
| InputNormalizer.RoundTripLists | src/utils/inputNormalizer.ts:68-76 | the four lists, senses, languages and the three texts are read back unchanged |
| InputNormalizer.NormalizeSkillsObject | src/utils/inputNormalizer.ts:41-44 | merging a complete stored skills object over the defaults gives back that map |
| InputNormalizer.NormalizeCardObject | src/utils/inputNormalizer.ts:10-78 | a normal card with an id, written out as an object, normalises back to itself |
| InputNormalizer.NormalizeIdempotent | src/utils/inputNormalizer.ts:10-78 | once an id is present, normalising the result again gives the same card, whatever fresh id is offered |
| InsertCalculations.PlayerFieldsOverrides | src/utils/insertCalculations.ts:30-45 | each set override flag keeps its stored bonus, hp or darkvision |
| InsertCalculations.PlayerFieldsIdempotent | src/utils/insertCalculations.ts:30-45 | assigning the guarded player fields twice gives what one assignment gives |
| InsertCalculations.DerivedSkill | src/utils/insertCalculations.ts:52-78 | tier and modifier kept. Computing, with a non-zero score: the skill bonus, a missing tier counting as none and a missing modifier as 0. Computing, with score 0: the entry unchanged. Copying: the modifier |
| InsertCalculations.DerivedSkills | src/utils/insertCalculations.ts:52-78 | all 18 skills, each the derived entry |
| InsertCalculations.InsertValues | src/utils/insertCalculations.ts:25-81 | all 18 skills remain and the card type is kept; the derivation itself is described by the lemmas below |
| InsertCalculations.CalculateInsertValues | src/utils/insertCalculations.ts:25-81 | the method (copy, guarded player fields, monster mode, loop over the table) computes exactly the derivation |
| InsertCalculations.AssignPlayerFields | src/utils/insertCalculations.ts:30-45 | the three guarded assignments give exactly the player fields |
| InsertCalculations.DeriveSkillValues | src/utils/insertCalculations.ts:52-78 | the loop over the table gives exactly the derived skills map |
| InsertCalculations.DerivedSkillEntry | src/utils/insertCalculations.ts:53-77 | the loop body's entry is the derived skill |
| InsertCalculations.InsertPassThrough | src/utils/insertCalculations.ts:26 | only bonus, hp, darkvision and skill values may change; tiers and modifiers are kept |
| InsertCalculations.InsertOverrides | src/utils/insertCalculations.ts:30-45 | a monster keeps bonus, hp and darkvision; a set override flag keeps its field |
| InsertCalculations.InsertPlayerFields | src/utils/insertCalculations.ts:32-44 | a player's bonus, hp and darkvision are the guarded player fields |
| InsertCalculations.InsertMonster | src/utils/insertCalculations.ts:47-78 | a monster changes only in its skills, derived in the mode its modifiers select |
| InsertCalculations.InsertMonsterSkill | src/utils/insertCalculations.ts:48-78 | each monster skill is derived in that mode |
| InsertCalculations.InsertPrecalculated | src/utils/insertCalculations.ts:71-76 | a monster with some non-zero modifier has every value copied from its modifier |
| InsertCalculations.InsertComputedSkill | src/utils/insertCalculations.ts:57-70 | for players and all-zero monsters: a non-zero score gives the skill bonus with the derived proficiency bonus; score 0 leaves the entry unchanged |
| InsertCalculations.InsertSkillAgainstBase | src/utils/insertCalculations.ts:52-78 | skills are derived against the card after the player fields are assigned |
| InsertCalculations.BaseKeepsScores | src/utils/insertCalculations.ts:30-45 | assigning the player fields changes neither skills nor scores |
| InsertCalculations.PlayerFieldsIgnoresSkills | src/utils/insertCalculations.ts:30-45 | the player fields do not depend on the skills |
| InsertCalculations.DerivedSkillTwice | src/utils/insertCalculations.ts:52-78 | deriving a derived entry again changes nothing, since only tiers, modifiers and scores are read |
| InsertCalculations.InsertKeepsMode | src/utils/insertCalculations.ts:48-49 | the output has the same card type, all 18 skills and the same mode as the input |
| InsertCalculations.BaseOfInsert | src/utils/insertCalculations.ts:30-45 | the output's player fields are already settled |
| InsertCalculations.InsertIdempotent | src/utils/insertCalculations.ts:25-81 | applying the derivation to its own output changes nothing |
| InsertCalculations.InsertPlayerExample | src/utils/insertCalculations.ts:25-81 | a level-5 Fighter with CON 15 and STR 16, proficient in Athletics: bonus 3, hp 44, Athletics +6 |
| MonsterCalculations.AutoValue | src/utils/monsterCalculations.ts:52-66 | none, half, a missing tier or a zero bonus give the ability modifier; proficient adds the bonus; expert adds twice the bonus |
| MonsterCalculations.MonsterSkill | src/utils/monsterCalculations.ts:44-75 | tier and modifier kept; the value is computed in auto mode and copied from the modifier otherwise |
| MonsterCalculations.MonsterSkills | src/utils/monsterCalculations.ts:44-75 | all 18 skills, each the monster skill entry |
| MonsterCalculations.MonsterValues | src/utils/monsterCalculations.ts:33-78 | all 18 skills are present |
| MonsterCalculations.CalculateMonsterValues | src/utils/monsterCalculations.ts:33-78 | the method (copy, mode, loop over the table) computes exactly the monster derivation |
| MonsterCalculations.MonsterSkillValues | src/utils/monsterCalculations.ts:44-75 | the loop gives exactly the monster skills map |
| MonsterCalculations.MonsterSkillEntry | src/utils/monsterCalculations.ts:45-74 | the loop body with its running bonus gives the monster skill entry |
| MonsterCalculations.MonsterPassThrough | src/utils/monsterCalculations.ts:34 | only skill values change; every other field, tier and modifier is kept |
| MonsterCalculations.MonsterPrecalculated | src/utils/monsterCalculations.ts:68-74 | outside auto mode every value is the modifier, so every skill with a modifier gets a value |
| MonsterCalculations.MonsterAutoTiers | src/utils/monsterCalculations.ts:48-67 | in auto mode: none, half or missing → modifier; proficient → modifier + bonus; expert → modifier + 2·bonus |
| MonsterCalculations.MonsterIdempotent | src/utils/monsterCalculations.ts:33-78 | applying the derivation to its own output changes nothing |
| MonsterCalculations.MonsterValuesSkill | src/utils/monsterCalculations.ts:38-75 | each skill of the result is the monster entry in the mode the input selects: auto exactly when every modifier is 0 and the bonus is positive |
| MonsterCalculations.AutoCalcComputed | src/utils/monsterCalculations.ts:38-41 | auto mode implies the combined derivation's computed mode, with every modifier 0 |
| MonsterCalculations.AutoValueIsSkillBonus | src/utils/monsterCalculations.ts:52-66 | with a positive bonus and any tier but half, the auto value is the skill bonus without manual modifier |
| MonsterCalculations.AutoValueBelowHalfBonus | src/utils/monsterCalculations.ts:52 | for half proficiency with bonus >= 2, the auto value is below the skill bonus |
| MonsterCalculations.DerivedSkillIsMonsterSkill | src/utils/monsterCalculations.ts:48-67 | for a zero modifier, a positive bonus, a non-zero score and any tier but half, both derivations give the same entry |
| MonsterCalculations.AgreesWithInsertPrecalculated | src/utils/insertCalculations.ts:71-76 | for a monster with some non-zero modifier, both derivations give every skill the same entry |
| MonsterCalculations.AgreesWithInsertAuto | src/utils/insertCalculations.ts:57-70 | in auto mode, both derivations agree on a skill with a non-zero score and any tier but half |
| MonsterCalculations.HalfProficiencyDiffers | src/utils/monsterCalculations.ts:52-53 | in auto mode with bonus >= 2, a half-proficient skill gets different values from the two derivations |
| PlayerCalculations.PassiveOf | src/utils/playerCalculations.ts:56-66 | 10 plus the skill bonus, a missing tier counting as none and a missing modifier as 0 |
| PlayerCalculations.Passives | src/utils/playerCalculations.ts:56-66 | a skill with a non-zero score gets its passive; a skill with score 0 keeps its stored passive, or lack of one |
| PlayerCalculations.CalculateAdvancedPlayerValues | src/utils/playerCalculations.ts:37-69 | the method (copy, guarded fields, loop over the table) computes exactly the player derivation |
| PlayerCalculations.PassiveValues | src/utils/playerCalculations.ts:56-66 | the loop writes exactly those passives |
| PlayerCalculations.PlayerPassThrough | src/utils/playerCalculations.ts:38-53 | the card changes only through the guarded player fields; tiers and modifiers are kept |
| PlayerCalculations.PlayerOverrides | src/utils/playerCalculations.ts:41-53 | a set override flag keeps its stored bonus, hp or darkvision |
| PlayerCalculations.PlayerPassive | src/utils/playerCalculations.ts:56-66 | for a non-zero score, calculatePassive with the derived bonus; for score 0, the stored passive is untouched |
| PlayerCalculations.PlayerPassiveDefaults | src/utils/playerCalculations.ts:63 | with no tier and no modifier, the passive is 10 plus the ability modifier |
| PlayerCalculations.PlayerIdempotent | src/utils/playerCalculations.ts:37-69 | applying the derivation to its own output changes nothing |
| PlayerCalculations.PassivesSettled | src/utils/playerCalculations.ts:56-66 | recomputing the passives from their own output gives the same passives |
| PlayerCalculations.PassiveIsTenPlusSkillValue | src/utils/insertCalculations.ts:16-17 | when the flat fields hold the skill's tier and modifier, the player passive is 10 plus the combined derivation's skill value |
| CardIO.WithoutEmptyTexts | src/utils/cardIO.ts:37-44 | keeps exactly the properties that are essential or not '', each with its value |
| CardIO.RemoveEmptyTexts | src/utils/cardIO.ts:39-44 | the deleting loop gives exactly that map |
| CardIO.WithoutEmptyLists | src/utils/cardIO.ts:47-58 | drops exactly the four lists that are empty arrays |
| CardIO.RemoveEmptyLists | src/utils/cardIO.ts:47-58 | the four guarded deletions give exactly that map |
| CardIO.WithoutNullSaves | src/utils/cardIO.ts:61-73 | drops exactly the saving throws that are null |
| CardIO.RemoveNullSaves | src/utils/cardIO.ts:61-73 | the loop gives exactly that map |
| CardIO.AllDefaultAbilities | src/utils/cardIO.ts:76-83 | the flag loop with its early exit answers exactly whether all six scores are 10 |
| CardIO.WithoutDefaultScores | src/utils/cardIO.ts:76-88 | drops the six scores together, and only when all six are 10 |
| CardIO.RemoveDefaultScores | src/utils/cardIO.ts:76-88 | the flag and the deleting loop give exactly that map |
| CardIO.NonDefaultEntries | src/utils/cardIO.ts:95-100 | keeps exactly the skill entries whose tier is not 'none' or whose modifier is not 0 |
| CardIO.CollectNonDefaultEntries | src/utils/cardIO.ts:92-100 | the loop collects exactly those entries, and its flag says whether there are any |
| CardIO.WithNonDefaultSkills | src/utils/cardIO.ts:91-107 | a skills object is replaced by its non-default entries, or deleted when there are none; all else is untouched |
| CardIO.FilterSkills | src/utils/cardIO.ts:91-107 | the method gives exactly that map |
| CardIO.WithoutOtherTypeFields | src/utils/cardIO.ts:110-130 | keeps exactly the properties the card type keeps |
| CardIO.RemoveOtherTypeFields | src/utils/cardIO.ts:110-130 | the two branches of deletions give exactly that map |
| CardIO.PlayerTypeStage | src/utils/cardIO.ts:110-122 | a player loses the five monster properties, then a level 1, bonus 2, ac 0 and hp 0 |
| CardIO.MonsterTypeStage | src/utils/cardIO.ts:123-130 | any other card loses exactly the five player properties |
| CardIO.RemovePlayerDefaults | src/utils/cardIO.ts:119-122 | the four guarded deletions, in order |
| CardIO.DropIfEquals | src/utils/cardIO.ts:133-140 | drops one property exactly when it holds the given value |
| CardIO.DeleteIfEquals | src/utils/cardIO.ts:133-140 | the guarded delete gives exactly that map |
| CardIO.RemoveDefaultFlags | src/utils/cardIO.ts:132-140 | drops `selected: true`, then `size: 'small'` |
| CardIO.FilterEmptyFields | src/utils/cardIO.ts:33-143 | the whole method, stage after stage on a copy of the card's object, gives exactly the export form of the card |
| CardIO.ExportForm | src/utils/cardIO.ts:33-143 | id, name and cardType are always exported, and every exported property other than skills carries the card's own value |
| CardIO.ExportOfKeepsValues | src/utils/cardIO.ts:33-143 | the filter never adds a property and never changes a value other than the skills object |
| CardIO.ExportOfEssentials | src/utils/cardIO.ts:37-41 | id, name and card type, when present, are always kept |
| CardIO.ExportOfEmptyText | src/utils/cardIO.ts:40-44 | any other property holding '' is removed |
| CardIO.ExportOfCommon | src/utils/cardIO.ts:40-44 | a property both card types keep survives exactly when it is not '' |
| CardIO.ExportOfList | src/utils/cardIO.ts:47-58 | a damage or condition array survives exactly when it is non-empty |
| CardIO.ExportOfSave | src/utils/cardIO.ts:61-73 | a saving throw survives exactly when it is not null, so 0 is kept |
| CardIO.ExportOfScore | src/utils/cardIO.ts:76-88 | each score survives exactly when not all six are 10, with its value |
| CardIO.ExportOfSkills | src/utils/cardIO.ts:91-107 | the skills object survives exactly when some entry is non-default, holding only those entries |
| CardIO.ExportOfPlayerDrops | src/utils/cardIO.ts:112-116 | a player's monster properties are removed |
| CardIO.ExportOfPlayerDefault | src/utils/cardIO.ts:119-122 | a player's level, bonus, ac and hp survive exactly when not 1, 2, 0 and 0 |
| CardIO.ExportOfPlayerKeeps | src/utils/cardIO.ts:110-122 | a player's race, class and override flags are kept unless '' |
| CardIO.ExportOfMonsterDrops | src/utils/cardIO.ts:125-129 | a monster's level, race, class and the two override flags are removed |
| CardIO.ExportOfMonsterKeeps | src/utils/cardIO.ts:123-130 | a monster's own properties and its bonus, ac and hp are kept unless '' |
| CardIO.ExportOfSelected | src/utils/cardIO.ts:133-135 | a boolean `selected` survives exactly when false |
| CardIO.ExportOfSize | src/utils/cardIO.ts:138-140 | the size survives exactly when 'large' |
| CardIO.ExportOfPlayerText | src/utils/cardIO.ts:40-122 | a player's race and class survive exactly when not '' |
| CardIO.ExportOfMonsterText | src/utils/cardIO.ts:40-130 | a monster's size, type, tag, rating and formula survive exactly when not '' |
| CardIO.NonDefaultSkills | src/utils/cardIO.ts:95-100 | the card's skills with a tier other than none or a modifier other than 0 |
| CardIO.NonDefaultEntriesOfSkills | src/utils/cardIO.ts:95-100 | filtering the written skills object is writing the filtered skills |
| CardIO.NoNonDefaultEntries | src/utils/cardIO.ts:102-106 | the written object has no entry to keep exactly when the card has no non-default skill |
| CardIO.CardObject | src/utils/cardIO.ts:34 | a card's object has its type, is a player's exactly for a player, and has six numeric scores, all 10 exactly when the card's are |
| CardIO.ExportEssentials | src/utils/cardIO.ts:37 | a card's export keeps its id, name and card type |
| CardIO.ExportKeepsValues | src/utils/cardIO.ts:33-143 | every exported property except skills holds the card's own value |
| CardIO.ExportDropsEmptyTexts | src/utils/cardIO.ts:40-44 | a non-essential property whose value is '' is not exported |
| CardIO.ExportCommon | src/utils/cardIO.ts:40-44 | image, speed, armour type, traits, actions, bonus actions, senses and languages are exported exactly when not ''; darkvision and its flag always |
| CardIO.ExportLists | src/utils/cardIO.ts:47-58 | each of the four lists is exported exactly when non-empty |
| CardIO.ExportSaves | src/utils/cardIO.ts:61-73 | each saving throw is exported exactly when present |
| CardIO.ExportScores | src/utils/cardIO.ts:76-88 | each score is exported exactly when not all six are 10 |
| CardIO.ExportSkills | src/utils/cardIO.ts:91-107 | skills are exported exactly when some skill is non-default, as the object of those skills |
| CardIO.ExportPlayerDrops | src/utils/cardIO.ts:112-116 | a player's export has no monster size, type, tag, rating or formula |
| CardIO.ExportPlayerLevel | src/utils/cardIO.ts:119-120 | a player's level is exported exactly when not 1, and its bonus exactly when not 2 |
| CardIO.ExportPlayerStats | src/utils/cardIO.ts:121-122 | a player's ac and hp are exported exactly when not 0 |
| CardIO.ExportPlayerKeeps | src/utils/cardIO.ts:110-122 | a player's race and class are exported exactly when not '', and its override flags always |
| CardIO.ExportMonsterDrops | src/utils/cardIO.ts:125-129 | a monster's export has no level, race, class or the two override flags |
| CardIO.ExportMonsterStats | src/utils/cardIO.ts:123-130 | a monster's bonus, ac and hp are always exported |
| CardIO.ExportMonsterTexts | src/utils/cardIO.ts:40-130 | a monster's size, type, tag, rating and formula are exported exactly when not '' |
| CardIO.ExportFlags | src/utils/cardIO.ts:133-140 | `selected` is exported exactly when false, and the size exactly when large |
| CardImport.CardItems | src/utils/cardIO.ts:222-225 | keeps exactly the objects with a `cardType` property, never more items than given |
| CardImport.CardItemsAppend | src/utils/cardIO.ts:222-225 | the selection keeps order: selecting from two runs is selecting from each in turn |
| CardImport.CardItemsAll | src/utils/cardIO.ts:222-225 | a list of card objects is kept whole |
| CardImport.NormalizeEach | src/utils/cardIO.ts:226 | one normalised card per item, in order |
| CardImport.ImportErrors | src/utils/cardIO.ts:210-231 | the format error exactly for a non-array that is not a card object; the no-cards error exactly for an array without card objects |
| CardImport.SelectCards | src/utils/cardIO.ts:210-233 | a success holds at least one card; a failure is the format error exactly when the parsed value is not an array |
| CardImport.ImportCards | src/utils/cardIO.ts:210-233 | a success holds at least one card, all normal; one per selected item for an array, one for a lone object |
| CardImport.CardObjectIsCardObject | src/utils/cardIO.ts:212 | a card's object has a `cardType` property |
| CardImport.ImportSingleCard | src/utils/cardIO.ts:212-215 | a lone card object with an id imports as exactly that card |
| CardImport.CardObjects | src/utils/cardIO.ts:222-226 | one object per card, in order |
| CardImport.CardObjectsSelected | src/utils/cardIO.ts:222-225 | every card object passes the selection |
| CardImport.NormalizeObjects | src/utils/cardIO.ts:226 | normalising the objects of normal cards with ids gives back the cards |
| CardImport.ImportCardList | src/utils/cardIO.ts:210-233 | importing an array of the objects of normal cards with ids gives back exactly those cards |
| MonsterParser.NonBlank | src/utils/monsterParser.ts:26-29 | in both directions: an item is kept exactly when it is a non-empty trimmed piece; items are non-empty with no white space at the ends; no more items than pieces; the first item is the trimmed first non-blank piece |
| MonsterParser.NonBlankAppend | src/utils/monsterParser.ts:26-29 | the items of two runs of pieces are the items of each, in order: with the one-piece case this fixes the order and multiplicity of the result |
| MonsterParser.ListItems | src/utils/monsterParser.ts:276-279 | in both directions: the items are exactly the non-empty trimmed pieces of the text split at ',' and ';'; each is trimmed and free of ',' and ';' |
| MonsterParser.ListItemsOfJoin | src/utils/monsterParser.ts:276-279 | a list of clean items printed with ", " reads back as that list |
| MonsterParser.LinesOfJoin | src/utils/monsterParser.ts:26-29 | clean lines joined with '\n' split back into those lines |
| MonsterParser.CleanLines | src/utils/monsterParser.ts:26-29 | every line of a text is non-empty, has no white space at its ends and no line break |
| MonsterParser.Clauses | src/utils/monsterParser.ts:199 | the comma-separated clauses are trimmed |
| MonsterParser.Before | src/utils/monsterParser.ts:94 | the longest start of the text without the character; the character follows it when present |
| MonsterParser.Parenthesised | src/utils/monsterParser.ts:101-135 | a match is a non-empty text without ')' |
| MonsterParser.SignedNumeral | src/utils/monsterParser.ts:204 | a match is a sign ('+', '−' or '-') followed by digits |
| MonsterParser.ReplaceFirst | src/utils/monsterParser.ts:206 | the first occurrence of c becomes d and every other character is kept, so the length is kept |
| MonsterParser.AlignmentStart | src/utils/monsterParser.ts:84 | the leftmost place where the alignment pattern matches, or the end |
| MonsterParser.SizeWordFrom | src/utils/monsterParser.ts:86 | the first size word from position j on that, in any case, starts the text and is followed by white space; none exactly when no such word exists |
| MonsterParser.Capitalize | src/utils/monsterParser.ts:88 | the first character upper-cased and the others lower-cased, so the word is kept up to case |
| MonsterParser.FindType | src/utils/monsterParser.ts:96 | the first listed type equal to the base type up to case; none exactly when no listed type is |
| MonsterParser.LeadingRating | src/utils/monsterParser.ts:111 | the longest start of digits and '/' |
| MonsterParser.FindRating | src/utils/monsterParser.ts:111 | the rating at the leftmost place the CR pattern matches, which is non-empty; none exactly when it matches nowhere |
| MonsterParser.ApplyTypeLine | src/utils/monsterParser.ts:66-107 | only the monster size, type and tag may change |
| MonsterParser.ApplyRating | src/utils/monsterParser.ts:110-114 | only the challenge rating may change |
| MonsterParser.ApplyArmorClass | src/utils/monsterParser.ts:117-127 | only ac and its armour type may change |
| MonsterParser.ApplyHitPoints | src/utils/monsterParser.ts:129-139 | only hp and its formula may change |
| MonsterParser.ApplyScore | src/utils/monsterParser.ts:147-182 | only the scores may change |
| MonsterParser.ApplyProficiencyBonus | src/utils/monsterParser.ts:373-377 | only the proficiency bonus may change |
| MonsterParser.ApplySenses | src/utils/monsterParser.ts:317-355 | only senses and skills may change |
| MonsterParser.TopLine | src/utils/monsterParser.ts:66-182 | only the type line fields, rating, ac, hp, speed and scores may change |
| MonsterParser.LanguageList | src/utils/monsterParser.ts:358-369 | '—', '-' and 'none' in any case give the empty list |
| MonsterParser.SkillNamedFrom | src/utils/monsterParser.ts:252-253 | a found skill's label starts the clause |
| MonsterParser.SaveClauseStep | src/utils/monsterParser.ts:200-214 | one pass of the loop gives exactly the clause's update |
| MonsterParser.ReadSaves | src/utils/monsterParser.ts:185-216 | the loop over the clauses applies each in order |
| MonsterParser.SkillClauseStep | src/utils/monsterParser.ts:251-268 | one pass of the loop gives exactly the clause's update |
| MonsterParser.ReadSkills | src/utils/monsterParser.ts:219-270 | the loop over the clauses applies each in order |
| MonsterParser.SkillsAfterComplete | src/utils/monsterParser.ts:244-268 | reading skills clauses keeps all 18 skills |
| MonsterParser.FirstDigit | src/utils/monsterParser.ts:332 | the position of the first digit, or the end |
| MonsterParser.ReadSenses | src/utils/monsterParser.ts:317-355 | the loop over the clauses gives exactly the senses update |
| MonsterParser.DetailLine | src/utils/monsterParser.ts:185-378 | only saves, skills, the lists, senses, languages and bonus may change, and all 18 skills remain |
| MonsterParser.FillLine | src/utils/monsterParser.ts:42-391 | the card stays a small monster with all 18 skills and no texts; only the first line sets the name |
| MonsterParser.Filled | src/utils/monsterParser.ts:26-63 | after any number of lines: a small monster with all 18 skills, named by the first line unless that is a header |
| MonsterParser.Finish | src/utils/monsterParser.ts:404-412 | traits, actions and bonus actions are set, joined with '\n', exactly when their lines were collected |
| MonsterParser.ReadTopLine | src/utils/monsterParser.ts:59-182 | the method's tests give exactly the top-line step |
| MonsterParser.ReadDetailLine | src/utils/monsterParser.ts:185-378 | the method's tests give exactly the detail-line step |
| MonsterParser.ParseMonsterStatBlock | src/utils/monsterParser.ts:25-416 | the loop over the lines, with its section and three buffers, computes exactly the parse of the text |
| MonsterParser.ParseStatBlock | src/utils/monsterParser.ts:25-416 | a small monster card with all eighteen skills, named by its first line unless that line is a header; actions only when an "Actions" line exists, bonus actions only when a "Bonus Actions" line does |
| MonsterParser.LastSection | src/utils/monsterParser.ts:46-57 | the actions section is entered only after an 'Actions' line, and the bonus actions section only after a 'Bonus Actions' line |
| MonsterParser.RoutedSection | src/utils/monsterParser.ts:46-57 | the loop's section is the one named by the last header read |
| MonsterParser.RoutedNoActions | src/utils/monsterParser.ts:394-395 | without an 'Actions' line no action is collected |
| MonsterParser.RoutedNoBonusActions | src/utils/monsterParser.ts:396-397 | without a 'Bonus Actions' line no bonus action is collected |
| MonsterParser.RoutedCollects | src/utils/monsterParser.ts:393-402 | every collected line is a line of the text and never a header |
| MonsterParser.RoutedIsCollected | src/utils/monsterParser.ts:393-402 | each collection is exactly the lines that belong to it, in text order: not a header and not consumed, after the header of its section (traits: before any header, from the seventh line on); nothing after "Reactions" |
| MonsterParser.CollectedLinesReadBack | src/utils/monsterParser.ts:404-412 | each joined section splits back into the lines collected |
| StatBlockReadBack.ArmorClassReadsBack | src/utils/monsterParser.ts:117-127 | "Armor Class N (t)" sets ac to N and acType to t, and nothing else |
| StatBlockReadBack.HitPointsReadsBack | src/utils/monsterParser.ts:129-139 | "Hit Points N (f)" sets hp to N and hpFormula to f, and nothing else |
| StatBlockReadBack.GeneratedFormulaReadsBack | src/utils/monsterParser.ts:129-139 | a Hit Points line carrying any formula the HP calculator prints reads back that formula |
| StatBlockReadBack.SignedBonusOfModifier | src/utils/monsterParser.ts:204-209 | a printed modifier after sign-free text is read back as the modifier |
| StatBlockReadBack.SaveNamedOfLabel | src/utils/monsterParser.ts:201-202 | a clause starting with an ability's label names that ability |
| StatBlockReadBack.SaveClauseReadsBack | src/utils/monsterParser.ts:199-214 | "Str +2" and the like set exactly that ability's save to the printed modifier |
| StatBlockReadBack.ParseIntWithoutPlus | src/utils/monsterParser.ts:374-375 | removing a leading '+' does not change parseInt's reading |
| StatBlockReadBack.ProficiencyBonusReadsBack | src/utils/monsterParser.ts:372-377 | "Proficiency Bonus ±m" sets the bonus to m, and nothing else |
| StatBlockReadBack.ScoreLineIsCaption | src/utils/cardHelpers.ts:2-8 | the score line "N (±m)" is the caption calcModifier renders for N |
| StatBlockReadBack.ScoreLineReadsBack | src/utils/monsterParser.ts:147-182 | a score line under an ability header sets that score; the line itself matches the skipped-line pattern |
| StatBlockReadBack.PassiveClauseReadsBack | src/utils/monsterParser.ts:325-327 | "passive Perception N" is read as N |
| StatBlockReadBack.PassiveClauseAlone | src/utils/monsterParser.ts:322 | that clause is a single clause of the senses line |
| StatBlockReadBack.PassiveSensesRead | src/utils/monsterParser.ts:322-341 | a senses line holding only that clause stores no sense and remembers N |
| StatBlockReadBack.SensesPassiveReadsBack | src/utils/monsterParser.ts:317-354 | it sets an empty senses object and the perception modifier to N-10, keeping perception's tier and every other skill |
| StatBlockReadBack.SenseWithRangeReadsBack | src/utils/monsterParser.ts:332-336 | "name N ft." stores the lowercased name with the range "N ft." |
| StatBlockReadBack.SkillNamedOfClause | src/utils/monsterParser.ts:252-253 | a printed skills clause names its own skill, though some labels start alike |
| StatBlockReadBack.SkillBonusOfClause | src/utils/monsterParser.ts:255-258 | its signed bonus is the printed modifier |
| StatBlockReadBack.SkillClauseReadsBack | src/utils/monsterParser.ts:250-268 | "Label ±m" sets exactly that skill to untrained with modifier m |
| StatBlockReadBack.SkillClauseMinusSignReadsBack | src/utils/monsterParser.ts:250-268 | "Label −n" printed with the minus sign U+2212 sets exactly that skill to untrained with modifier -n |
| StatBlockReadBack.MinusSignClause | src/utils/monsterParser.ts:250-268 | a clause "Label −digits" sets exactly that skill to untrained, with the modifier parseInt gives for "-digits" |
| StatBlockReadBack.MinusSignBonus | src/utils/monsterParser.ts:255-258 | a clause whose numeral is written with U+2212 has the bonus parseInt gives for the hyphen-minus form |
| StatBlockReadBack.MinusSignReplaced | src/utils/monsterParser.ts:257 | the U+2212 in front of digits becomes '-', and the digits stay |
| StatBlockReadBack.CaptionThen | src/utils/monsterParser.ts:273-274 | a line built as caption + rest starts with the caption, and `replace` of the caption leaves the rest |
| StatBlockReadBack.DamageImmunitiesLineReadsBack | src/utils/monsterParser.ts:273-281 | "Damage Immunities a, b" sets the immunities to [a, b] and nothing else |
| StatBlockReadBack.DamageResistancesLineReadsBack | src/utils/monsterParser.ts:284-292 | "Damage Resistances a, b" sets the resistances to [a, b] and nothing else |
| StatBlockReadBack.DamageVulnerabilitiesLineReadsBack | src/utils/monsterParser.ts:295-303 | "Damage Vulnerabilities a, b" sets the vulnerabilities to [a, b] and nothing else |
| StatBlockReadBack.ConditionImmunitiesLineReadsBack | src/utils/monsterParser.ts:306-314 | "Condition Immunities a, b" sets the condition immunities to [a, b] and nothing else |
| StatBlockReadBack.LanguagesLineReadsBack | src/utils/monsterParser.ts:358-370 | "Languages a, b" sets the languages to [a, b] and nothing else, unless the list is one of the words for none |
| StatBlockReadBack.NoLanguagesLineReadsBack | src/utils/monsterParser.ts:358-363 | "Languages —", "Languages -" or "Languages none" (any case) sets the languages to [] and nothing else |

## Left out

- The React components and `App.tsx`: page rendering, form widgets and print styles.
- The preferences hook: it stores the visibility flags in browser storage.
- Id generation uses the clock and a random source. The normaliser takes the fresh id as a
  parameter. The import selection takes a function from an item's position to its fresh id.
- File handling in `cardIO.ts` is not modelled: `exportCardsToJSON`, `exportCardToJSON`,
  `triggerImportCards`, the file reader, and `JSON.stringify`/`JSON.parse`. The export filter and
  the import selection work on JSON values.
- `src/utils/advancedPlayerCalculations.ts` is not part of this model. It is a legacy string-typed
  variant of the player derivation that relies on implicit string-to-number conversion.
- Floating point is not modelled. Halving, `Math.ceil` and `Math.floor` on integers are integer
  division. Non-integral numbers and the infinities are not part of the JSON values.
- The NaN branch of `calculateAbilityModifier` (`src/utils/abilityHelpers.ts:21`) is left out, since
  scores are integers. NaN is kept where input is read: `parseInt` returns an optional integer, and
  the normaliser's guards receive `JNaN`.
- `toLowerCase` lowers ASCII letters only. The white space that `trim` and `\s` remove is written
  out as the ECMAScript set.
- The card is a typed record. Its properties that the source reads without a runtime type check
  (texts read with `||`, flags read with `??`) count as absent when they hold a value of another
  JSON type. The calculators' branches for an undefined ability score or proficiency bonus cannot
  occur. For the monster derivation this is `src/utils/monsterCalculations.ts:54`.
- The three calculators require all eighteen skill keys, as their declared type does. A missing
  entry makes the source throw.
- The normaliser does not parse senses or languages. It does not accept numeric strings and does
  not move a legacy darkvision value into senses. The model does the same.
- MonsterParser.ApplyTypeLine: the contract says only which fields the type line may change. What
  it sets is given by its body, and no read-back lemma covers it.
- MonsterParser.ApplyRating: the contract says only that the rating is the one field that may
  change.
- MonsterParser.ApplyArmorClass: the contract is a frame. What the line sets is stated by
  StatBlockReadBack.ArmorClassReadsBack for lines in the printed format.
- MonsterParser.ApplyHitPoints: the contract is a frame. What the line sets is stated by
  StatBlockReadBack.HitPointsReadsBack for lines in the printed format.
- MonsterParser.ApplyScore: the contract is a frame. The score read is stated by
  StatBlockReadBack.ScoreLineReadsBack for score lines.
- MonsterParser.ApplySenses: the contract is a frame. Its effect is stated by
  StatBlockReadBack.SensesPassiveReadsBack and StatBlockReadBack.SenseWithRangeReadsBack for
  single clauses. Lines with several clauses have no lemma beyond the loop's equality.
- MonsterParser.ApplyProficiencyBonus: the contract is a frame. Its effect is stated by
  StatBlockReadBack.ProficiencyBonusReadsBack for printed bonuses.
- MonsterParser.TopLine: the contract says only which fields a top-block line may change.
- InsertCalculations.InsertValues: the function's own contract says only that skills stay complete
  and the card type is kept. What it computes is stated by the lemmas InsertPassThrough,
  InsertOverrides, InsertPlayerFields, InsertMonster, InsertComputedSkill and InsertPrecalculated.
- MonsterCalculations.MonsterValues: the function's own contract says only that skills stay
  complete. What it computes is stated by MonsterPassThrough, MonsterPrecalculated and
  MonsterAutoTiers.
- MonsterParser.LanguageList: the contract states only the cases that give no languages. Any other
  text becomes its comma-separated items, by the function's body.
- MonsterParser.DetailLine: the contract is a frame, plus the completeness of skills. What a line
  sets is stated by StatBlockReadBack for the four damage and condition list lines, the
  `Languages` line, the `Proficiency Bonus` line, a `Senses` line of one clause, and single
  saving-throw and skills clauses. No lemma states what a whole `Saving Throws` or `Skills` line
  of several clauses sets, beyond the clause-by-clause definition.
- SkillHelpers.CreateEmptySkills: as written, `for … of` over the record `ALL_SKILLS` throws on
  every call (`src/utils/skillHelpers.ts:10`). The model builds the map of eighteen empty skills
  from the table's entries.
- InputNormalizer.Normalize: as written it throws on every input, in both branches of its skills
  merge, because it calls `createEmptySkills`. The model returns the normalised card.
- MonsterParser.ParseStatBlock: as written it throws on every input, because it calls
  `createEmptySkills` (`src/utils/monsterParser.ts:34`). The model returns the partial card.
- LevelCalculations.HitDieOf: a class name that every plain object inherits (`constructor`,
  `toString` and the like) counts as unlisted and gets 8. In the source,
  `hitDiceByClass[className] || 8` (`src/utils/levelCalculations.ts:33`) yields the inherited
  function instead. The model has no object prototypes.
- LevelCalculations.MaxHPFor: for such an inherited class name the model applies the d8 formula.
  The source adds the inherited function to a number, which joins strings, and `Math.max` then
  gives NaN.
- ClassConfig.HitDieTablesAgree: holds for every name in the model. In the source it fails for
  inherited names: `find` gives 8, while the lookup in `hitDiceByClass` gives the inherited
  function.
- RaceConfig.DarkvisionForRace: an inherited name such as `toString` gives 0 in the model. In the
  source, `darkvisionByRace[race] ?? 0` (`src/utils/raceConfig.ts:16`) returns the inherited
  function.
- MonsterHP.HitDieSize: an inherited size name gives 8 in the model. In the source,
  `HIT_DIE_BY_SIZE[size] || 8` (`src/utils/monsterHPCalculations.ts:17`) returns the inherited
  function.
- MonsterCalculations.AutoCalc: the skill table is read as the eighteen entries in table order,
  each entry carrying its own key. MonsterCalculations.MonsterValuesSkill and
  MonsterCalculations.MonsterAutoTiers use the same reading. As written, `ALL_SKILLS` in
  `src/utils/skillConfig.ts` is a record whose entries have no `key` property:
  - `src/utils/monsterCalculations.ts:38-40` looks up `inputs.skills[undefined]`, so the modifier
    test is always true. Auto mode then never engages, and every skill copies its modifier.
  - `src/utils/insertCalculations.ts:49` calls `some` on the record, and
    `src/utils/insertCalculations.ts:52` and `src/utils/skillHelpers.ts:10` iterate it with
    `for … of`. Each throws a TypeError, since a record has neither.
- InputNormalizer.SkillsOf: the stored skills object is read as a typed skills map. Only the
  eighteen skill keys are kept, and each entry becomes a typed skill: a tier from a recognised
  spelling, and numbers for the modifier and the value. The source's spread
  (`src/utils/inputNormalizer.ts:41-44`) keeps every other key and the raw entry values. So, with
  the default map built, `skills: {foo: 5}` is exported unchanged by the source but as no skills
  by the model. An entry `athletics: null` makes the source's calculators throw at
  `skill.proficiency`, where the model reads an untrained skill.
