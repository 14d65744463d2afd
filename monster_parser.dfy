/**
 * The stat-block importer: it reads a monster's stat block, pasted as text, line by line, and
 * fills a partial card.  Lines are trimmed and blank ones dropped; each line is recognised by its
 * leading words (a section header, the name, the type line, `Armor Class`, `Hit Points`, an
 * ability header, `Saving Throws`, `Skills`, the damage and condition lists, `Senses`,
 * `Languages`, `Proficiency Bonus`) and anything else is collected as a trait, an action or a
 * bonus action according to the section it falls in.
 */
module MonsterParser {
  import opened Wrappers
  import opened Text
  import opened Shared
  import opened SkillConfig
  import opened CardTypes
  import opened SkillHelpers
  import AbilityHelpers
  import CardHelpers
  import MonsterHP

  // ---------------------------------------------------------------------------------------------
  // the partial card

  /**
   * The object the importer returns.  A field the importer did not set is `None` (the property is
   * absent); the card type, the printed size and the skills map are set when the object is made.
   * `scores` and `saves` hold the ability scores and saving throws that were read.
   */
  datatype Draft = Draft(
    cardType: CardType,
    size: CardSize,
    skills: map<SkillName, Skill>,
    name: Option<string>,
    monsterSize: Option<string>,
    monsterType: Option<string>,
    monsterTypeTag: Option<string>,
    cr: Option<string>,
    ac: Option<int>,
    acType: Option<string>,
    hp: Option<int>,
    hpFormula: Option<string>,
    speed: Option<string>,
    scores: map<Ability, int>,
    saves: map<Ability, int>,
    damageImmunities: Option<seq<string>>,
    damageResistances: Option<seq<string>>,
    damageVulnerabilities: Option<seq<string>>,
    conditionImmunities: Option<seq<string>>,
    senses: Option<map<string, string>>,
    languages: Option<seq<string>>,
    proficiencyBonus: Option<int>,
    traits: Option<string>,
    actions: Option<string>,
    bonusActions: Option<string>)

  /** The object before the first line: a small monster card with the all-default skills. */
  function InitialDraft(skills: map<SkillName, Skill>): Draft {
    Draft(Monster, Small, skills, None, None, None, None, None, None, None, None, None, None,
          map[], map[], None, None, None, None, None, None, None, None, None, None)
  }

  /** The section the importer is in: none yet, or after an `Actions`, `Bonus Actions` or `Reactions` header. */
  datatype Section = NoSection | ActionsSection | BonusActionsSection | ReactionsSection

  // ---------------------------------------------------------------------------------------------
  // lines and lists

  /** `.map(s => s.trim()).filter(s => s)`: the trimmed pieces that are not empty, in order. */
  function NonBlank(parts: seq<string>): (r: seq<string>)
    ensures |r| <= |parts|
    ensures forall l :: l in r ==> l != "" && NoSpaceAtEnds(l)
    ensures forall l :: l in r ==> exists p :: p in parts && Trim(p) == l
    ensures forall p :: p in parts && Trim(p) != "" ==> Trim(p) in r
    ensures r != [] ==> exists i :: 0 <= i < |parts| && r[0] == Trim(parts[i]) && forall k :: 0 <= k < i ==> Trim(parts[k]) == ""
  {
    if parts == [] then []
    else
      var t := Trim(parts[0]);
      var rest := NonBlank(parts[1..]);
      assert forall p :: p in parts ==> p == parts[0] || p in parts[1..];
      ConsOrigins(parts, rest);
      if t != "" then
        assert ([t] + rest)[0] == Trim(parts[0]);
        [t] + rest
      else
        assert rest != [] ==> exists i :: 0 <= i < |parts| && rest[0] == Trim(parts[i]) && forall k :: 0 <= k < i ==> Trim(parts[k]) == "" by {
          if rest != [] {
            var j :| 0 <= j < |parts[1..]| && rest[0] == Trim(parts[1..][j]) && forall k :: 0 <= k < j ==> Trim(parts[1..][k]) == "";
            assert forall k :: 0 <= k < j + 1 ==> Trim(parts[k]) == "" by {
              forall k | 0 <= k < j + 1
                ensures Trim(parts[k]) == ""
              {
                if k > 0 { assert parts[k] == parts[1..][k - 1]; }
              }
            }
          }
        }
        assert (forall k :: 0 <= k < |parts| ==> Trim(parts[k]) == "") <==> (forall k :: 0 <= k < |parts[1..]| ==> Trim(parts[1..][k]) == "") by {
          if forall k :: 0 <= k < |parts[1..]| ==> Trim(parts[1..][k]) == "" {
            forall k | 0 <= k < |parts|
              ensures Trim(parts[k]) == ""
            {
              if k > 0 { assert parts[k] == parts[1..][k - 1]; }
            }
          }
        }
        rest
  }

  /** Items that come from the tail of the pieces, with or without the trimmed head, come from the pieces. */
  lemma ConsOrigins(parts: seq<string>, rest: seq<string>)
    requires parts != []
    requires forall l :: l in rest ==> exists p :: p in parts[1..] && Trim(p) == l
    ensures forall l :: l in rest ==> exists p :: p in parts && Trim(p) == l
    ensures forall l :: l in [Trim(parts[0])] + rest ==> exists p :: p in parts && Trim(p) == l
  {
    forall l | l in [Trim(parts[0])] + rest
      ensures exists p :: p in parts && Trim(p) == l
    {
      if l != Trim(parts[0]) {
        var p :| p in parts[1..] && Trim(p) == l;
        assert p in parts;
      }
    }
  }

  /** Reading the pieces of two texts one after the other keeps the items of each, in order. */
  lemma {:induction false} NonBlankAppend(a: seq<string>, b: seq<string>)
    ensures NonBlank(a + b) == NonBlank(a) + NonBlank(b)
  {
    if a == [] {
      assert a + b == b;
    } else {
      assert (a + b)[0] == a[0];
      assert (a + b)[1..] == a[1..] + b;
      NonBlankAppend(a[1..], b);
    }
  }

  /** A character that no piece contains is in none of the kept lines. */
  lemma {:induction false} NonBlankWithout(parts: seq<string>, c: char)
    requires forall k, i :: 0 <= k < |parts| && 0 <= i < |parts[k]| ==> parts[k][i] != c
    ensures forall l :: l in NonBlank(parts) ==> c !in l
  {
    if parts != [] {
      NonBlankWithout(parts[1..], c);
      TrimKeepsCharacters(parts[0]);
    }
  }

  /** The lines the importer reads: the text split at line feeds, trimmed, blank lines dropped. */
  function Lines(text: string): seq<string> {
    NonBlank(Split(text, {'\n'}))
  }

  /** `.split(/[,;]/).map(trim).filter(item => item.length > 0)`: the items of a damage, condition or language list. */
  function ListItems(text: string): (r: seq<string>)
    ensures forall l :: l in r ==> l != "" && NoSpaceAtEnds(l) && ',' !in l && ';' !in l
    ensures forall l :: l in r ==> exists p :: p in Split(text, {',', ';'}) && Trim(p) == l
    ensures forall p :: p in Split(text, {',', ';'}) && Trim(p) != "" ==> Trim(p) in r
  {
    var pieces := Split(text, {',', ';'});
    NonBlankWithout(pieces, ',');
    NonBlankWithout(pieces, ';');
    NonBlank(pieces)
  }

  /** `.split(',').map(s => s.trim())`: the comma-separated clauses, each trimmed, none dropped. */
  function Clauses(text: string): (r: seq<string>)
    ensures forall i :: 0 <= i < |r| ==> NoSpaceAtEnds(r[i])
  {
    var pieces := Split(text, {','});
    seq(|pieces|, i requires 0 <= i < |pieces| => Trim(pieces[i]))
  }

  /** Trimming only removes characters from the ends. */
  lemma TrimKeepsCharacters(s: string)
    ensures forall c :: c in Trim(s) ==> c in s
  {
    var r := Trim(s);
    var a := |s| - |TrimStart(s)|;
    TrimIsInfix(s);
    forall c | c in r
      ensures c in s
    {
      var i :| 0 <= i < |r| && r[i] == c;
      assert s[a..a + |r|][i] == s[a + i];
    }
  }

  /** `line.replace(prefix, '')` on a line that starts with `prefix`: the first occurrence is the prefix itself. */
  function RemovePrefix(line: string, prefix: string): string
    requires StartsWith(line, prefix)
  {
    line[|prefix|..]
  }

  // ---------------------------------------------------------------------------------------------
  // the small regular expressions

  /** The longest prefix of `s` without the character `c`. */
  function Before(s: string, c: char): (r: string)
    ensures StartsWith(s, r) && c !in r
    ensures |r| == |s| || s[|r|] == c
  {
    if |s| > 0 && s[0] != c then [s[0]] + Before(s[1..], c) else ""
  }

  /**
   * `/\(([^)]+)\)/`: the text inside the leftmost `(` that is followed by at least one character
   * other than `)` and then by a `)`.
   */
  function Parenthesised(s: string): (r: Option<string>)
    ensures r.Some? ==> r.value != "" && ')' !in r.value
    decreases |s|
  {
    if |s| == 0 then None
    else if s[0] == '(' && Before(s[1..], ')') != "" && |Before(s[1..], ')')| < |s| - 1 then Some(Before(s[1..], ')'))
    else Parenthesised(s[1..])
  }

  /** `[+−-]`: the plus sign, the minus sign U+2212 that printed stat blocks use, and the hyphen-minus. */
  predicate IsSignChar(c: char) {
    c == '+' || c == '\U{2212}' || c == '-'
  }

  /** `/([+−-]\d+)/`: the leftmost sign followed by digits, with all the digits that follow it. */
  function SignedNumeral(s: string): (r: Option<string>)
    ensures r.Some? ==> |r.value| >= 2 && IsSignChar(r.value[0]) && AllDigits(r.value[1..])
    decreases |s|
  {
    if |s| < 2 then None
    else if IsSignChar(s[0]) && IsDigit(s[1]) then Some([s[0]] + LeadingDigits(s[1..]))
    else SignedNumeral(s[1..])
  }

  /** `s.replace(c, d)` with a one-character pattern: the first `c`, if any, becomes `d`. */
  function ReplaceFirst(s: string, c: char, d: char): (r: string)
    ensures |r| == |s|
    ensures forall i :: 0 <= i < |s| ==> r[i] == if s[i] == c && c !in s[..i] then d else s[i]
  {
    if s == [] then []
    else if s[0] == c then [d] + s[1..]
    else
      var rest := ReplaceFirst(s[1..], c, d);
      assert forall i :: 1 <= i < |s| ==> s[..i] == [s[0]] + s[1..][..i - 1];
      [s[0]] + rest
  }

  /** `s.replace(c, '')` with a one-character pattern: the first `c`, if any, is removed. */
  function RemoveFirst(s: string, c: char): string {
    if s == [] then []
    else if s[0] == c then s[1..]
    else [s[0]] + RemoveFirst(s[1..], c)
  }

  /** The signed bonus of a clause: its first signed numeral with `−` read as `-`, through `parseInt`. */
  function SignedBonus(clause: string): Option<int> {
    var m := SignedNumeral(clause);
    if m.None? then None else ParseInt(ReplaceFirst(m.value, '\U{2212}', '-'))
  }

  // ---------------------------------------------------------------------------------------------
  // the type line

  const MonsterSizes: seq<string> := ["Tiny", "Small", "Medium", "Large", "Huge", "Gargantuan"]

  const MonsterTypes: seq<string> := [
    "Aberration", "Beast", "Celestial", "Construct", "Dragon", "Elemental", "Fey",
    "Fiend", "Giant", "Humanoid", "Monstrosity", "Ooze", "Plant", "Undead"]

  /** A second line is the type line when it names one of the fourteen creature types anywhere. */
  predicate MentionsType(line: string) {
    || Contains(line, "Humanoid") || Contains(line, "Beast") || Contains(line, "Dragon")
    || Contains(line, "Undead") || Contains(line, "Fiend") || Contains(line, "Celestial")
    || Contains(line, "Construct") || Contains(line, "Elemental") || Contains(line, "Fey")
    || Contains(line, "Giant") || Contains(line, "Monstrosity") || Contains(line, "Ooze")
    || Contains(line, "Plant") || Contains(line, "Aberration")
  }

  /** The characters `.` does not match. */
  predicate IsLineTerminator(c: char) {
    c == '\n' || c == '\r' || c == '\U{2028}' || c == '\U{2029}'
  }

  predicate StartsWithAlignment(t: string) {
    || StartsWithIgnoreCase(t, "Any") || StartsWithIgnoreCase(t, "Lawful")
    || StartsWithIgnoreCase(t, "Neutral") || StartsWithIgnoreCase(t, "Chaotic")
    || StartsWithIgnoreCase(t, "Good") || StartsWithIgnoreCase(t, "Evil")
    || StartsWithIgnoreCase(t, "Unaligned")
  }

  /** Whether `/, (Any|Lawful|Neutral|Chaotic|Good|Evil|Unaligned).*$/i` matches at `p`. */
  predicate AlignmentAt(s: string, p: nat)
    requires p <= |s|
  {
    StartsWith(s[p..], ", ") && StartsWithAlignment(s[p + 2..])
    && forall k :: p <= k < |s| ==> !IsLineTerminator(s[k])
  }

  /** Where the alignment clause starts, at `from` or later; the length of `s` when there is none. */
  function AlignmentStart(s: string, from: nat): (r: nat)
    requires from <= |s|
    ensures from <= r <= |s|
    ensures r < |s| ==> AlignmentAt(s, r)
    ensures forall p :: from <= p < r ==> !AlignmentAt(s, p)
    decreases |s| - from
  {
    if from == |s| then |s|
    else if AlignmentAt(s, from) then from
    else AlignmentStart(s, from + 1)
  }

  /** The type line without its alignment: everything before the leftmost alignment clause. */
  function StripAlignment(line: string): string {
    line[..AlignmentStart(line, 0)]
  }

  /** Whether the `j`-th size word, in any case, starts the text and is followed by white space. */
  predicate SizeWordAt(s: string, j: nat)
    requires j < |MonsterSizes|
  {
    var w := MonsterSizes[j];
    StartsWithIgnoreCase(s, w) && |w| < |s| && IsSpace(s[|w|])
  }

  /**
   * `/^(Tiny|Small|Medium|Large|Huge|Gargantuan)\s+/i`: the first size word, from `j` on, that
   * starts the text and is followed by white space; none when no size word from `j` on does.
   */
  function SizeWordFrom(s: string, j: nat): (r: Option<nat>)
    requires j <= |MonsterSizes|
    ensures r.Some? ==> j <= r.value < |MonsterSizes| && SizeWordAt(s, r.value)
    ensures forall k :: j <= k < (if r.Some? then r.value else |MonsterSizes|) ==> !SizeWordAt(s, k)
    decreases |MonsterSizes| - j
  {
    if j == |MonsterSizes| then None
    else if SizeWordAt(s, j) then Some(j)
    else SizeWordFrom(s, j + 1)
  }

  /** `w.charAt(0).toUpperCase() + w.slice(1).toLowerCase()`: the first letter upper-cased, the others lower-cased. */
  function Capitalize(w: string): (r: string)
    ensures |r| == |w|
    ensures |w| > 0 ==> r[0] == UpperChar(w[0])
    ensures forall i :: 1 <= i < |w| ==> r[i] == LowerChar(w[i])
    ensures ToLower(r) == ToLower(w)
  {
    if w == [] then [] else [UpperChar(w[0])] + ToLower(w[1..])
  }

  /**
   * `VALID_TYPES.find(t => t.toLowerCase() === base.toLowerCase())`, from position `j` on: the
   * first type equal to `base` up to case; none when no type from `j` on is.
   */
  function FindType(base: string, j: nat): (r: Option<nat>)
    requires j <= |MonsterTypes|
    ensures r.Some? ==> j <= r.value < |MonsterTypes| && ToLower(MonsterTypes[r.value]) == ToLower(base)
    ensures forall k :: j <= k < (if r.Some? then r.value else |MonsterTypes|) ==> ToLower(MonsterTypes[k]) != ToLower(base)
    decreases |MonsterTypes| - j
  {
    if j == |MonsterTypes| then None
    else if ToLower(MonsterTypes[j]) == ToLower(base) then Some(j)
    else FindType(base, j + 1)
  }

  /** The size word that starts the type line, if any. */
  function SizeWord(s: string): Option<nat> {
    SizeWordFrom(s, 0)
  }

  /** The creature type a base type names, if any. */
  function TypeNamed(base: string): Option<nat> {
    FindType(base, 0)
  }

  /**
   * The type line (`Medium Humanoid (goblinoid), Neutral Evil`): without a leading size word
   * nothing is read; otherwise the size, the base type when it is one of the fourteen, and the
   * trimmed text of the first parentheses as the tag.
   */
  function ApplyTypeLine(d: Draft, line: string): (r: Draft)
    ensures r == d.(monsterSize := r.monsterSize, monsterType := r.monsterType, monsterTypeTag := r.monsterTypeTag)
  {
    var fullType := StripAlignment(line);
    var j := SizeWord(fullType);
    if j.None? then d
    else
      var w := MonsterSizes[j.value];
      var size := Capitalize(fullType[..|w|]);
      var d1 := if size in MonsterSizes then d.(monsterSize := Some(size)) else d;
      // the match runs on over all the white space after the word
      var typeText := Trim(TrimStart(fullType[|w|..]));
      var baseType := Trim(Split(typeText, {'('})[0]);
      var t := TypeNamed(baseType);
      var d2 := if t.Some? then d1.(monsterType := Some(MonsterTypes[t.value])) else d1;
      var tag := Parenthesised(typeText);
      if tag.Some? then d2.(monsterTypeTag := Some(Trim(tag.value))) else d2
  }

  // ---------------------------------------------------------------------------------------------
  // the single-value lines

  /** `[\d/]`. */
  predicate IsRatingChar(c: char) {
    IsDigit(c) || c == '/'
  }

  /** The longest prefix of digits and slashes. */
  function LeadingRating(s: string): (r: string)
    ensures StartsWith(s, r) && forall i :: 0 <= i < |r| ==> IsRatingChar(r[i])
    ensures |r| == |s| || !IsRatingChar(s[|r|])
  {
    if |s| > 0 && IsRatingChar(s[0]) then [s[0]] + LeadingRating(s[1..]) else ""
  }

  /** `/CR\s+([\d/]+)/` anchored at the start of `s`. */
  function RatingAt(s: string): Option<string> {
    if !StartsWith(s, "CR") then None
    else
      var after := s[2..];
      var rest := TrimStart(after);
      if |rest| == |after| || LeadingRating(rest) == "" then None else Some(LeadingRating(rest))
  }

  /** `/CR\s+([\d/]+)/`: the rating at the leftmost place it matches; none when it matches nowhere. */
  function FindRating(s: string): (r: Option<string>)
    ensures r.Some? ==> r.value != ""
    ensures r.None? <==> forall p :: 0 <= p < |s| ==> RatingAt(s[p..]).None?
    ensures r.Some? ==> exists p :: 0 <= p < |s| && r == RatingAt(s[p..]) && forall q :: 0 <= q < p ==> RatingAt(s[q..]).None?
    decreases |s|
  {
    if s == [] then None
    else if RatingAt(s).Some? then
      assert s[0..] == s;
      RatingAt(s)
    else
      var rest := FindRating(s[1..]);
      assert s[0..] == s;
      assert forall p :: 0 <= p < |s| - 1 ==> s[1..][p..] == s[p + 1..];
      assert forall p :: 1 <= p < |s| ==> s[p..] == s[1..][p - 1..];
      rest
  }

  /** A `CR` line sets the challenge rating when the pattern matches. */
  function ApplyRating(d: Draft, line: string): (r: Draft)
    ensures r == d.(cr := r.cr)
  {
    var m := FindRating(line);
    if m.Some? then d.(cr := m) else d
  }

  /** An `Armor Class` line: its leading digits set the armour class, its first parentheses the armour type. */
  function ApplyArmorClass(d: Draft, line: string): (r: Draft)
    requires StartsWith(line, "Armor Class ")
    ensures r == d.(ac := r.ac, acType := r.acType)
  {
    var acLine := RemovePrefix(line, "Armor Class ");
    var digits := LeadingDigits(acLine);
    var d1 := if digits != "" then d.(ac := Some(DigitsValue(digits))) else d;
    var t := Parenthesised(acLine);
    if t.Some? then d1.(acType := t) else d1
  }

  /** A `Hit Points` line: its leading digits set the hit points, its first parentheses the dice formula. */
  function ApplyHitPoints(d: Draft, line: string): (r: Draft)
    requires StartsWith(line, "Hit Points ")
    ensures r == d.(hp := r.hp, hpFormula := r.hpFormula)
  {
    var hpLine := RemovePrefix(line, "Hit Points ");
    var digits := LeadingDigits(hpLine);
    var d1 := if digits != "" then d.(hp := Some(DigitsValue(digits))) else d;
    var f := Parenthesised(hpLine);
    if f.Some? then d1.(hpFormula := f) else d1
  }

  /** The ability a header line (`STR`, ..., `CHA`) introduces. */
  function AbilityHeader(line: string): Option<Ability> {
    if line == "STR" then Some(Str)
    else if line == "DEX" then Some(Dex)
    else if line == "CON" then Some(Con)
    else if line == "INT" then Some(Int)
    else if line == "WIS" then Some(Wis)
    else if line == "CHA" then Some(Cha)
    else None
  }

  /** The line after an ability header: its leading digits, when there are any, are the score. */
  function ApplyScore(d: Draft, a: Ability, nextLine: string): (r: Draft)
    ensures r == d.(scores := r.scores)
  {
    var digits := LeadingDigits(nextLine);
    if digits != "" then d.(scores := d.scores[a := DigitsValue(digits)]) else d
  }

  /** A `Proficiency Bonus` line: the rest of the line, its first `+` removed, through `parseInt`. */
  function ApplyProficiencyBonus(d: Draft, line: string): (r: Draft)
    requires StartsWith(line, "Proficiency Bonus ")
    ensures r == d.(proficiencyBonus := r.proficiencyBonus)
  {
    var bonus := ParseInt(RemoveFirst(RemovePrefix(line, "Proficiency Bonus "), '+'));
    if bonus.Some? then d.(proficiencyBonus := bonus) else d
  }

  /** `Languages —`, `Languages -` or `Languages none` (in any case) lists none; otherwise the list items. */
  function LanguageList(text: string): (r: seq<string>)
    ensures text == "\U{2014}" || text == "-" || ToLower(text) == "none" ==> r == []
  {
    if text == "\U{2014}" || text == "-" || ToLower(text) == "none" then [] else ListItems(text)
  }

  // ---------------------------------------------------------------------------------------------
  // saving throws and skills

  /** How a stat block names an ability in its saving throws. */
  function SaveLabel(a: Ability): string {
    match a
    case Str => "Str"
    case Dex => "Dex"
    case Con => "Con"
    case Int => "Int"
    case Wis => "Wis"
    case Cha => "Cha"
  }

  /** The first of the six labels, in the order Str, Dex, Con, Int, Wis, Cha, that starts the clause. */
  function SaveNamed(clause: string): Option<Ability> {
    if StartsWith(clause, SaveLabel(Str)) then Some(Str)
    else if StartsWith(clause, SaveLabel(Dex)) then Some(Dex)
    else if StartsWith(clause, SaveLabel(Con)) then Some(Con)
    else if StartsWith(clause, SaveLabel(Int)) then Some(Int)
    else if StartsWith(clause, SaveLabel(Wis)) then Some(Wis)
    else if StartsWith(clause, SaveLabel(Cha)) then Some(Cha)
    else None
  }

  /** One saving-throw clause: a named ability with a signed bonus gets that bonus. */
  function SaveClause(saves: map<Ability, int>, clause: string): map<Ability, int> {
    var a := SaveNamed(clause);
    if a.None? then saves
    else
      var bonus := SignedBonus(clause);
      if bonus.None? then saves else saves[a.value := bonus.value]
  }

  /** The saving throws after reading the clauses in order. */
  function SavesAfter(saves: map<Ability, int>, clauses: seq<string>): map<Ability, int> {
    if clauses == [] then saves
    else SaveClause(SavesAfter(saves, clauses[..|clauses| - 1]), clauses[|clauses| - 1])
  }

  /**
   * The first skill, in table order, whose label (`Animal Handling`, `Sleight of Hand`, ...)
   * starts the clause, looking from position `j` of the table on.
   */
  function SkillNamedFrom(clause: string, j: nat): (r: Option<SkillName>)
    requires j <= |AllSkills|
    ensures r.Some? ==> StartsWith(clause, Info(r.value).displayName)
    decreases |AllSkills| - j
  {
    if j == |AllSkills| then None
    else if StartsWith(clause, Info(AllSkills[j]).displayName) then Some(AllSkills[j])
    else SkillNamedFrom(clause, j + 1)
  }

  /** The skill a clause names, if any: the first in table order whose label starts it. */
  function SkillNamed(clause: string): Option<SkillName> {
    SkillNamedFrom(clause, 0)
  }

  /** One skills clause: a named skill with a signed bonus becomes untrained with that modifier. */
  function SkillClause(skills: map<SkillName, Skill>, clause: string): map<SkillName, Skill> {
    var k := SkillNamed(clause);
    if k.None? then skills
    else
      var bonus := SignedBonus(clause);
      if bonus.None? then skills else skills[k.value := Skill(Some(Untrained), Some(bonus.value), None)]
  }

  /** The skills after reading the clauses in order. */
  function SkillsAfter(skills: map<SkillName, Skill>, clauses: seq<string>): map<SkillName, Skill> {
    if clauses == [] then skills
    else SkillClause(SkillsAfter(skills, clauses[..|clauses| - 1]), clauses[|clauses| - 1])
  }

  lemma SavesAfterStep(saves: map<Ability, int>, clauses: seq<string>, j: nat)
    requires j < |clauses|
    ensures SavesAfter(saves, clauses[..j + 1]) == SaveClause(SavesAfter(saves, clauses[..j]), clauses[j])
  {
    assert clauses[..j + 1][..j] == clauses[..j];
  }

  lemma SkillsAfterStep(skills: map<SkillName, Skill>, clauses: seq<string>, j: nat)
    requires j < |clauses|
    ensures SkillsAfter(skills, clauses[..j + 1]) == SkillClause(SkillsAfter(skills, clauses[..j]), clauses[j])
  {
    assert clauses[..j + 1][..j] == clauses[..j];
  }

  /** One pass of the saving-throw loop: the first name the clause starts with, and its signed bonus. */
  method SaveClauseStep(r: map<Ability, int>, save: string) returns (r': map<Ability, int>)
    ensures r' == SaveClause(r, save)
  {
    r' := r;
    var a := SaveNamed(save);
    if a.Some? {
      var bonus := SignedBonus(save);
      if bonus.Some? {
        r' := r[a.value := bonus.value];
      }
    }
  }

  /** `Saving Throws Str +2, Dex +4`: each clause in turn, as the importer's loop reads it. */
  method ReadSaves(saves: map<Ability, int>, savesText: string) returns (r: map<Ability, int>)
    ensures r == SavesAfter(saves, Clauses(savesText))
  {
    var clauses := Clauses(savesText);
    r := saves;
    for j := 0 to |clauses|
      invariant r == SavesAfter(saves, clauses[..j])
    {
      var save := clauses[j];
      r := SaveClauseStep(r, save);
      SavesAfterStep(saves, clauses, j);
    }
    assert clauses[..|clauses|] == clauses;
  }

  /** One pass of the skills loop: the first name the clause starts with, and its signed bonus. */
  method SkillClauseStep(r: map<SkillName, Skill>, skill: string) returns (r': map<SkillName, Skill>)
    ensures r' == SkillClause(r, skill)
  {
    r' := r;
    var k := SkillNamed(skill);
    if k.Some? {
      var bonus := SignedBonus(skill);
      if bonus.Some? {
        r' := r[k.value := Skill(Some(Untrained), Some(bonus.value), None)];
      }
    }
  }

  /** `Skills Perception +13, Stealth +9`: each clause in turn, as the importer's loop reads it. */
  method ReadSkills(skills: map<SkillName, Skill>, skillsText: string) returns (r: map<SkillName, Skill>)
    ensures r == SkillsAfter(skills, Clauses(skillsText))
  {
    var clauses := Clauses(skillsText);
    r := skills;
    for j := 0 to |clauses|
      invariant r == SkillsAfter(skills, clauses[..j])
    {
      var skill := clauses[j];
      r := SkillClauseStep(r, skill);
      SkillsAfterStep(skills, clauses, j);
    }
    assert clauses[..|clauses|] == clauses;
  }

  // ---------------------------------------------------------------------------------------------
  // senses

  /** `/passive\s+perception\s+(\d+)/i` anchored at the start of `s`. */
  function PassiveAt(s: string): Option<nat> {
    if !StartsWithIgnoreCase(s, "passive") then None
    else
      var a := s[7..];
      var b := TrimStart(a);
      if |b| == |a| || !StartsWithIgnoreCase(b, "perception") then None
      else
        var c := b[10..];
        var e := TrimStart(c);
        var digits := LeadingDigits(e);
        if |e| == |c| || digits == "" then None else Some(DigitsValue(digits))
  }

  /** `/passive\s+perception\s+(\d+)/i`: the number at the leftmost place it matches. */
  function FindPassive(s: string): Option<nat>
    decreases |s|
  {
    if s == [] then None
    else if PassiveAt(s).Some? then PassiveAt(s)
    else FindPassive(s[1..])
  }

  /** The position of the first digit, or the length when there is none. */
  function FirstDigit(s: string): (p: nat)
    ensures p <= |s| && (p < |s| ==> IsDigit(s[p]))
    ensures forall i :: 0 <= i < p ==> !IsDigit(s[i])
  {
    if s == [] || IsDigit(s[0]) then 0 else 1 + FirstDigit(s[1..])
  }

  /** `ft` or `ft.`, in any case. */
  predicate IsFeet(t: string) {
    (|t| == 2 || (|t| == 3 && t[2] == '.')) && LowerChar(t[0]) == 'f' && LowerChar(t[1]) == 't'
  }

  /** `[a-z\s]` in any case, throughout. */
  predicate IsNameText(s: string) {
    forall i :: 0 <= i < |s| ==> IsLetter(s[i]) || IsSpace(s[i])
  }

  /**
   * `/^([a-z\s]+?)\s+(\d+\s*ft\.?)$/i`: a name of letters and white space, white space, then a
   * range of digits, optional white space and `ft` or `ft.`.  The name group is lazy, so it is the
   * shortest non-empty prefix after which only white space remains before the digits.  Gives the
   * trimmed, lower-cased name and the trimmed range.
   */
  function SenseWithRange(part: string): Option<(string, string)> {
    var p := FirstDigit(part);
    if p == |part| then None
    else
      var prefix := part[..p];
      var rest := part[p..];
      var digits := LeadingDigits(rest);
      var nameLength := if TrimEnd(prefix) == "" then 1 else |TrimEnd(prefix)|;
      if IsNameText(prefix) && nameLength < |prefix| && IsSpace(prefix[|prefix| - 1])
         && IsFeet(TrimStart(rest[|digits|..]))
      then Some((ToLower(Trim(prefix[..nameLength])), Trim(rest)))
      else None
  }

  /** What the senses loop has gathered: the senses by name, and the last passive Perception read. */
  datatype SensesRead = SensesRead(senses: map<string, string>, passivePerception: Option<nat>)

  /** One senses clause: a passive Perception, a sense with a range, or any other non-empty clause with range `''`. */
  function SenseClause(acc: SensesRead, part: string): SensesRead {
    var passive := FindPassive(part);
    if passive.Some? then acc.(passivePerception := passive)
    else
      var sense := SenseWithRange(part);
      if sense.Some? then acc.(senses := acc.senses[sense.value.0 := sense.value.1])
      else if Trim(part) != "" then acc.(senses := acc.senses[Trim(part) := ""])
      else acc
  }

  function SensesAfter(parts: seq<string>): SensesRead {
    if parts == [] then SensesRead(map[], None)
    else SenseClause(SensesAfter(parts[..|parts| - 1]), parts[|parts| - 1])
  }

  /**
   * A `Senses` line: the senses object replaces any earlier one, and a passive Perception `N`
   * sets the perception modifier to `N - 10`, keeping the rest of that skill's entry.
   */
  function ApplySenses(d: Draft, sensesText: string): (r: Draft)
    ensures r == d.(senses := r.senses, skills := r.skills)
  {
    var read := SensesAfter(Clauses(sensesText));
    var d1 := d.(senses := Some(read.senses));
    if read.passivePerception.None? then d1
    else
      var entry := if Perception in d1.skills then d1.skills[Perception] else Skill(None, None, None);
      d1.(skills := d1.skills[Perception := entry.(modifier := Some(read.passivePerception.value - 10))])
  }

  /** The senses loop of the importer, then the conversion of passive Perception into the perception modifier. */
  method ReadSenses(result: Draft, sensesText: string) returns (r: Draft)
    ensures r == ApplySenses(result, sensesText)
  {
    var senses: map<string, string> := map[];
    var passivePerception: Option<nat> := None;
    var parts := Clauses(sensesText);
    for j := 0 to |parts|
      invariant SensesRead(senses, passivePerception) == SensesAfter(parts[..j])
    {
      var part := parts[j];
      var passiveMatch := FindPassive(part);
      if passiveMatch.Some? {
        passivePerception := passiveMatch;
      } else {
        var senseMatch := SenseWithRange(part);
        if senseMatch.Some? {
          senses := senses[senseMatch.value.0 := senseMatch.value.1];
        } else if Trim(part) != "" {
          senses := senses[Trim(part) := ""];
        }
      }
      assert parts[..j + 1][..j] == parts[..j];
    }
    assert parts[..|parts|] == parts;
    r := result.(senses := Some(senses));
    if passivePerception.Some? {
      var perceptionModifier := passivePerception.value - 10;
      var entry := if Perception in r.skills then r.skills[Perception] else Skill(None, None, None);
      r := r.(skills := r.skills[Perception := entry.(modifier := Some(perceptionModifier))]);
    }
  }

  // ---------------------------------------------------------------------------------------------
  // lines the importer skips

  /** `[−+\-\d]`. */
  predicate IsScoreChar(c: char) {
    c == '\U{2212}' || c == '+' || c == '-' || IsDigit(c)
  }

  /** `/^\d+\s*\([−+\-\d]+\)$/`: a score with its modifier, such as `18 (+4)`. */
  predicate IsScoreLine(line: string) {
    var digits := LeadingDigits(line);
    var t := TrimStart(line[|digits|..]);
    digits != "" && |t| >= 3 && t[0] == '(' && t[|t| - 1] == ')'
    && forall k :: 1 <= k < |t| - 1 ==> IsScoreChar(t[k])
  }

  /** Experience, role and score lines carry nothing the card keeps. */
  predicate IsSkipped(line: string) {
    || Contains(line, "XP") || Contains(line, "Controller") || Contains(line, "Brute")
    || Contains(line, "Skirmisher") || Contains(line, "Defender") || Contains(line, "Lurker")
    || IsScoreLine(line)
  }

  /** The three headers that switch the section. */
  predicate IsHeader(line: string) {
    line == "Actions" || line == "Bonus Actions" || line == "Reactions"
  }

  // ---------------------------------------------------------------------------------------------
  // the line loop

  /** What no line rewrites: a monster card of printed size small with every skill, and no collected text yet. */
  predicate Settled(d: Draft) {
    && d.cardType == Monster && d.size == Small && Complete(d.skills)
    && d.traits.None? && d.actions.None? && d.bonusActions.None?
  }

  /** Reading skills clauses only replaces entries, so every skill keeps one. */
  lemma {:induction false} SkillsAfterComplete(skills: map<SkillName, Skill>, clauses: seq<string>)
    ensures Complete(skills) ==> Complete(SkillsAfter(skills, clauses))
  {
    if clauses != [] {
      SkillsAfterComplete(skills, clauses[..|clauses| - 1]);
    }
  }

  /** Whether a line after the first sets one of the top-block fields: type line, rating, armour class, hit points, speed or a score. */
  predicate IsTopLine(lines: seq<string>, i: nat)
    requires i < |lines|
  {
    var line := lines[i];
    || (i == 1 && MentionsType(line)) || StartsWith(line, "CR ") || StartsWith(line, "Armor Class ")
    || StartsWith(line, "Hit Points ") || StartsWith(line, "Speed ")
    || (AbilityHeader(line).Some? && i + 1 < |lines|)
  }

  /** Whether a line sets one of the detail fields: saves, skills, the four lists, senses, languages or the proficiency bonus. */
  predicate IsDetailLine(line: string) {
    || StartsWith(line, "Saving Throws ") || StartsWith(line, "Skills ")
    || StartsWith(line, "Damage Immunities ") || StartsWith(line, "Damage Resistances ")
    || StartsWith(line, "Damage Vulnerabilities ") || StartsWith(line, "Condition Immunities ")
    || StartsWith(line, "Senses ") || StartsWith(line, "Languages ") || StartsWith(line, "Proficiency Bonus ")
  }

  /** What a top-block line sets: the first of the tests that holds decides. */
  function TopLine(d: Draft, lines: seq<string>, i: nat): (r: Draft)
    requires i < |lines|
    ensures r == d.(monsterSize := r.monsterSize, monsterType := r.monsterType, monsterTypeTag := r.monsterTypeTag,
                    cr := r.cr, ac := r.ac, acType := r.acType, hp := r.hp, hpFormula := r.hpFormula,
                    speed := r.speed, scores := r.scores)
  {
    var line := lines[i];
    if i == 1 && MentionsType(line) then ApplyTypeLine(d, line)
    else if StartsWith(line, "CR ") then ApplyRating(d, line)
    else if StartsWith(line, "Armor Class ") then ApplyArmorClass(d, line)
    else if StartsWith(line, "Hit Points ") then ApplyHitPoints(d, line)
    else if StartsWith(line, "Speed ") then d.(speed := Some(RemovePrefix(line, "Speed ")))
    else if AbilityHeader(line).Some? && i + 1 < |lines| then ApplyScore(d, AbilityHeader(line).value, lines[i + 1])
    else d
  }

  /** What a detail line sets: the first of the tests that holds decides. */
  function DetailLine(d: Draft, line: string): (r: Draft)
    ensures r == d.(saves := r.saves, skills := r.skills, damageImmunities := r.damageImmunities,
                    damageResistances := r.damageResistances, damageVulnerabilities := r.damageVulnerabilities,
                    conditionImmunities := r.conditionImmunities, senses := r.senses, languages := r.languages,
                    proficiencyBonus := r.proficiencyBonus)
    ensures Complete(d.skills) ==> Complete(r.skills)
  {
    if StartsWith(line, "Saving Throws ") then
      d.(saves := SavesAfter(d.saves, Clauses(RemovePrefix(line, "Saving Throws "))))
    else if StartsWith(line, "Skills ") then
      SkillsAfterComplete(d.skills, Clauses(RemovePrefix(line, "Skills ")));
      d.(skills := SkillsAfter(d.skills, Clauses(RemovePrefix(line, "Skills "))))
    else if StartsWith(line, "Damage Immunities ") then
      d.(damageImmunities := Some(ListItems(RemovePrefix(line, "Damage Immunities "))))
    else if StartsWith(line, "Damage Resistances ") then
      d.(damageResistances := Some(ListItems(RemovePrefix(line, "Damage Resistances "))))
    else if StartsWith(line, "Damage Vulnerabilities ") then
      d.(damageVulnerabilities := Some(ListItems(RemovePrefix(line, "Damage Vulnerabilities "))))
    else if StartsWith(line, "Condition Immunities ") then
      d.(conditionImmunities := Some(ListItems(RemovePrefix(line, "Condition Immunities "))))
    else if StartsWith(line, "Senses ") then ApplySenses(d, RemovePrefix(line, "Senses "))
    else if StartsWith(line, "Languages ") then d.(languages := Some(LanguageList(RemovePrefix(line, "Languages "))))
    else if StartsWith(line, "Proficiency Bonus ") then ApplyProficiencyBonus(d, line)
    else d
  }

  /** The section a header line switches to. */
  function HeaderSection(line: string): Section {
    if line == "Actions" then ActionsSection
    else if line == "Bonus Actions" then BonusActionsSection
    else if line == "Reactions" then ReactionsSection
    else NoSection
  }

  /** A line the importer is done with before the routing to sections: the first line, a field line or a skipped line. */
  predicate IsConsumed(lines: seq<string>, i: nat)
    requires i < |lines|
  {
    i == 0 || IsTopLine(lines, i) || IsDetailLine(lines[i]) || IsSkipped(lines[i])
  }

  /** What one line sets in the object: the name, a top-block field or a detail field. */
  function FillLine(d: Draft, lines: seq<string>, i: nat): (r: Draft)
    requires i < |lines|
    ensures Settled(d) ==> Settled(r)
    ensures i > 0 ==> r.name == d.name
  {
    var line := lines[i];
    if IsHeader(line) then d
    else if i == 0 then d.(name := Some(line))
    else if IsTopLine(lines, i) then TopLine(d, lines, i)
    else if IsDetailLine(line) then DetailLine(d, line)
    else d
  }

  /**
   * The object after the first `n` lines: a small monster card with all eighteen skills, whose
   * name is the first line unless that line is a section header.
   */
  function Filled(lines: seq<string>, n: nat): (d: Draft)
    requires n <= |lines|
    ensures Settled(d)
    ensures d.name == if n > 0 && !IsHeader(lines[0]) then Some(lines[0]) else None
  {
    if n == 0 then InitialDraft(EmptySkills()) else FillLine(Filled(lines, n - 1), lines, n - 1)
  }

  /** The current section and the lines collected so far. */
  datatype Routing = Routing(
    section: Section,
    traitsLines: seq<string>,
    actionsLines: seq<string>,
    bonusActionsLines: seq<string>)

  /**
   * Where one line goes: a header switches the section; any other line the importer has not
   * consumed is an action in the actions section, a bonus action in the bonus-actions section,
   * a trait before any header from the seventh line on, and dropped otherwise.
   */
  function RouteLine(rt: Routing, lines: seq<string>, i: nat): Routing
    requires i < |lines|
  {
    var line := lines[i];
    if IsHeader(line) then rt.(section := HeaderSection(line))
    else if IsConsumed(lines, i) then rt
    else if rt.section == ActionsSection then rt.(actionsLines := rt.actionsLines + [line])
    else if rt.section == BonusActionsSection then rt.(bonusActionsLines := rt.bonusActionsLines + [line])
    else if rt.section == NoSection && i > 5 then rt.(traitsLines := rt.traitsLines + [line])
    else rt
  }

  /** The routing after the first `n` lines. */
  function Routed(lines: seq<string>, n: nat): Routing
    requires n <= |lines|
  {
    if n == 0 then Routing(NoSection, [], [], []) else RouteLine(Routed(lines, n - 1), lines, n - 1)
  }

  /**
   * After the loop: each non-empty collection of lines becomes its field, joined with line feeds;
   * an empty one leaves its field as it was.  Nothing else changes.
   */
  function Finish(d: Draft, rt: Routing): (r: Draft)
    ensures r == d.(traits := r.traits, actions := r.actions, bonusActions := r.bonusActions)
    ensures r.traits == if rt.traitsLines == [] then d.traits else Some(Join(rt.traitsLines, "\n"))
    ensures r.actions == if rt.actionsLines == [] then d.actions else Some(Join(rt.actionsLines, "\n"))
    ensures r.bonusActions == if rt.bonusActionsLines == [] then d.bonusActions else Some(Join(rt.bonusActionsLines, "\n"))
  {
    var d1 := if |rt.traitsLines| > 0 then d.(traits := Some(Join(rt.traitsLines, "\n"))) else d;
    var d2 := if |rt.actionsLines| > 0 then d1.(actions := Some(Join(rt.actionsLines, "\n"))) else d1;
    if |rt.bonusActionsLines| > 0 then d2.(bonusActions := Some(Join(rt.bonusActionsLines, "\n"))) else d2
  }

  /** What `parseMonsterStatBlock` returns for a text: the fields the lines set, then the lines routed to sections. */
  function ParseStatBlock(text: string): (d: Draft)
    ensures d.cardType == Monster && d.size == Small && Complete(d.skills)
    ensures var lines := Lines(text);
            d.name == if |lines| > 0 && !IsHeader(lines[0]) then Some(lines[0]) else None
    ensures d.actions.Some? ==> "Actions" in Lines(text)
    ensures d.bonusActions.Some? ==> "Bonus Actions" in Lines(text)
  {
    var lines := Lines(text);
    assert lines[..|lines|] == lines;
    assert "Actions" !in lines ==> Routed(lines, |lines|).actionsLines == [] by {
      if "Actions" !in lines {
        RoutedNoActions(lines, |lines|);
      }
    }
    assert "Bonus Actions" !in lines ==> Routed(lines, |lines|).bonusActionsLines == [] by {
      if "Bonus Actions" !in lines {
        RoutedNoBonusActions(lines, |lines|);
      }
    }
    Finish(Filled(lines, |lines|), Routed(lines, |lines|))
  }

  /** The top-block lines of `parseMonsterStatBlock`. */
  method ReadTopLine(d: Draft, lines: seq<string>, i: nat) returns (result: Draft)
    requires i < |lines|
    ensures result == TopLine(d, lines, i)
  {
    var line := lines[i];
    result := d;
    if i == 1 && MentionsType(line) {
      result := ApplyTypeLine(result, line);
    } else if StartsWith(line, "CR ") {
      result := ApplyRating(result, line);
    } else if StartsWith(line, "Armor Class ") {
      result := ApplyArmorClass(result, line);
    } else if StartsWith(line, "Hit Points ") {
      result := ApplyHitPoints(result, line);
    } else if StartsWith(line, "Speed ") {
      result := result.(speed := Some(RemovePrefix(line, "Speed ")));
    } else if AbilityHeader(line).Some? && i + 1 < |lines| {
      result := ApplyScore(result, AbilityHeader(line).value, lines[i + 1]);
    }
  }

  /** The detail lines of `parseMonsterStatBlock`. */
  method ReadDetailLine(d: Draft, line: string) returns (result: Draft)
    ensures result == DetailLine(d, line)
  {
    result := d;
    if StartsWith(line, "Saving Throws ") {
      var saves := ReadSaves(d.saves, RemovePrefix(line, "Saving Throws "));
      result := result.(saves := saves);
    } else if StartsWith(line, "Skills ") {
      var skillValues := ReadSkills(d.skills, RemovePrefix(line, "Skills "));
      result := result.(skills := skillValues);
    } else if StartsWith(line, "Damage Immunities ") {
      result := result.(damageImmunities := Some(ListItems(RemovePrefix(line, "Damage Immunities "))));
    } else if StartsWith(line, "Damage Resistances ") {
      result := result.(damageResistances := Some(ListItems(RemovePrefix(line, "Damage Resistances "))));
    } else if StartsWith(line, "Damage Vulnerabilities ") {
      result := result.(damageVulnerabilities := Some(ListItems(RemovePrefix(line, "Damage Vulnerabilities "))));
    } else if StartsWith(line, "Condition Immunities ") {
      result := result.(conditionImmunities := Some(ListItems(RemovePrefix(line, "Condition Immunities "))));
    } else if StartsWith(line, "Senses ") {
      result := ReadSenses(result, RemovePrefix(line, "Senses "));
    } else if StartsWith(line, "Languages ") {
      result := result.(languages := Some(LanguageList(RemovePrefix(line, "Languages "))));
    } else if StartsWith(line, "Proficiency Bonus ") {
      result := ApplyProficiencyBonus(result, line);
    }
  }

  /**
   * `parseMonsterStatBlock`: reads the lines in order, updating the object, the current section
   * and the three line collections, then stores the collections that are not empty.
   */
  method ParseMonsterStatBlock(text: string) returns (result: Draft)
    ensures result == ParseStatBlock(text)
  {
    var lines := Lines(text);
    var skills := CreateEmptySkills();
    result := InitialDraft(skills);
    var currentSection := NoSection;
    var traitsLines: seq<string> := [];
    var actionsLines: seq<string> := [];
    var bonusActionsLines: seq<string> := [];
    for i := 0 to |lines|
      invariant result == Filled(lines, i)
      invariant Routing(currentSection, traitsLines, actionsLines, bonusActionsLines) == Routed(lines, i)
    {
      var line := lines[i];
      if line == "Actions" {
        currentSection := ActionsSection;
      } else if line == "Bonus Actions" {
        currentSection := BonusActionsSection;
      } else if line == "Reactions" {
        currentSection := ReactionsSection;
      } else if i == 0 {
        result := result.(name := Some(line));
      } else if IsTopLine(lines, i) {
        result := ReadTopLine(result, lines, i);
      } else if IsDetailLine(line) {
        result := ReadDetailLine(result, line);
      } else if IsSkipped(line) {
      } else if currentSection == ActionsSection {
        actionsLines := actionsLines + [line];
      } else if currentSection == BonusActionsSection {
        bonusActionsLines := bonusActionsLines + [line];
      } else if currentSection == NoSection && i > 5 {
        traitsLines := traitsLines + [line];
      }
    }
    if |traitsLines| > 0 {
      result := result.(traits := Some(Join(traitsLines, "\n")));
    }
    if |actionsLines| > 0 {
      result := result.(actions := Some(Join(actionsLines, "\n")));
    }
    if |bonusActionsLines| > 0 {
      result := result.(bonusActions := Some(Join(bonusActionsLines, "\n")));
    }
  }

  // ---------------------------------------------------------------------------------------------
  // where lines go

  /** The section named by the last header among the first `n` lines, or none. */
  function LastSection(lines: seq<string>, n: nat): (s: Section)
    requires n <= |lines|
    ensures s == ActionsSection ==> "Actions" in lines[..n]
    ensures s == BonusActionsSection ==> "Bonus Actions" in lines[..n]
  {
    if n == 0 then NoSection
    else
      assert lines[..n] == lines[..n - 1] + [lines[n - 1]];
      if IsHeader(lines[n - 1]) then HeaderSection(lines[n - 1]) else LastSection(lines, n - 1)
  }

  /** The section is always the one the last header read named. */
  lemma {:induction false} RoutedSection(lines: seq<string>, n: nat)
    requires n <= |lines|
    ensures Routed(lines, n).section == LastSection(lines, n)
  {
    if n > 0 {
      RoutedSection(lines, n - 1);
      RouteLineSection(Routed(lines, n - 1), lines, n - 1);
      LastSectionStep(lines, n);
    }
  }

  /** The last header among `n` lines is the `n`-th line, when it is one, or the last among the first `n - 1`. */
  lemma LastSectionStep(lines: seq<string>, n: nat)
    requires 0 < n <= |lines|
    ensures LastSection(lines, n) == if IsHeader(lines[n - 1]) then HeaderSection(lines[n - 1]) else LastSection(lines, n - 1)
  {
  }

  /** Only a header changes the section. */
  lemma RouteLineSection(rt: Routing, lines: seq<string>, i: nat)
    requires i < |lines|
    ensures RouteLine(rt, lines, i).section == if IsHeader(lines[i]) then HeaderSection(lines[i]) else rt.section
  {
  }

  /** Actions are collected only once their header has been read. */
  lemma {:induction false} RoutedNoActions(lines: seq<string>, n: nat)
    requires n <= |lines| && "Actions" !in lines[..n]
    ensures Routed(lines, n).actionsLines == []
  {
    if n > 0 {
      assert lines[..n] == lines[..n - 1] + [lines[n - 1]];
      RoutedNoActions(lines, n - 1);
      RoutedSection(lines, n - 1);
    }
  }

  /** Bonus actions are collected only once their header has been read. */
  lemma {:induction false} RoutedNoBonusActions(lines: seq<string>, n: nat)
    requires n <= |lines| && "Bonus Actions" !in lines[..n]
    ensures Routed(lines, n).bonusActionsLines == []
  {
    if n > 0 {
      assert lines[..n] == lines[..n - 1] + [lines[n - 1]];
      RoutedNoBonusActions(lines, n - 1);
      RoutedSection(lines, n - 1);
    }
  }

  /**
   * Whether the line at `i` belongs to the collection of section `sec`: it is neither a header nor
   * a consumed line, the last header before it named `sec`, and, for the traits collected before
   * any header, it is the seventh line or later.  No line belongs to the reactions section.
   */
  predicate BelongsTo(lines: seq<string>, i: nat, sec: Section)
    requires i < |lines|
  {
    && !IsHeader(lines[i]) && !IsConsumed(lines, i)
    && LastSection(lines, i) == sec && sec != ReactionsSection
    && (sec == NoSection ==> i > 5)
  }

  /** The lines among the first `n` that belong to section `sec`, in text order. */
  function Collected(lines: seq<string>, n: nat, sec: Section): (r: seq<string>)
    requires n <= |lines|
    ensures |r| <= n
  {
    if n == 0 then []
    else Collected(lines, n - 1, sec) + (if BelongsTo(lines, n - 1, sec) then [lines[n - 1]] else [])
  }

  /**
   * The routing collects exactly the lines that belong to each section, in text order: the
   * traits are the lines belonging to no section, the actions and bonus actions those after
   * their headers; lines after `Reactions` go nowhere.
   */
  lemma {:induction false} RoutedIsCollected(lines: seq<string>, n: nat)
    requires n <= |lines|
    ensures Routed(lines, n).traitsLines == Collected(lines, n, NoSection)
    ensures Routed(lines, n).actionsLines == Collected(lines, n, ActionsSection)
    ensures Routed(lines, n).bonusActionsLines == Collected(lines, n, BonusActionsSection)
  {
    if n > 0 {
      RoutedIsCollected(lines, n - 1);
      RoutedSection(lines, n - 1);
    }
  }

  /** Every line of `collected` is one of `lines` and none is a section header. */
  predicate Kept(collected: seq<string>, lines: seq<string>) {
    forall l :: l in collected ==> l in lines && !IsHeader(l)
  }

  /** Appending a line of the text that is not a header keeps a collection kept. */
  lemma KeptAppend(collected: seq<string>, lines: seq<string>, i: nat)
    requires Kept(collected, lines) && i < |lines| && !IsHeader(lines[i])
    ensures Kept(collected + [lines[i]], lines)
  {
    forall l | l in collected + [lines[i]]
      ensures l in lines && !IsHeader(l)
    {
      if l !in collected {
        assert l == lines[i];
      }
    }
  }

  /** One line adds itself to at most its section's collection, and only when it is not a header. */
  lemma RouteLineKeeps(rt: Routing, lines: seq<string>, i: nat)
    requires i < |lines| && Kept(rt.traitsLines, lines) && Kept(rt.actionsLines, lines) && Kept(rt.bonusActionsLines, lines)
    ensures var r := RouteLine(rt, lines, i);
            Kept(r.traitsLines, lines) && Kept(r.actionsLines, lines) && Kept(r.bonusActionsLines, lines)
  {
    var line := lines[i];
    if !IsHeader(line) && !IsConsumed(lines, i) {
      KeptAppend(rt.traitsLines, lines, i);
      KeptAppend(rt.actionsLines, lines, i);
      KeptAppend(rt.bonusActionsLines, lines, i);
    }
  }

  /** Every collected line is a line of the text, and none of them is a section header. */
  lemma {:induction false} RoutedCollects(lines: seq<string>, n: nat)
    requires n <= |lines|
    ensures var rt := Routed(lines, n);
            Kept(rt.traitsLines, lines) && Kept(rt.actionsLines, lines) && Kept(rt.bonusActionsLines, lines)
  {
    if n > 0 {
      RoutedCollects(lines, n - 1);
      RouteLineKeeps(Routed(lines, n - 1), lines, n - 1);
    }
  }

  // ---------------------------------------------------------------------------------------------
  // printed lists and collected lines read back

  /** Text without a separator stays one piece. */
  lemma {:induction false} SplitWithoutSeparator(s: string, seps: set<char>)
    requires forall i :: 0 <= i < |s| ==> s[i] !in seps
    ensures Split(s, seps) == [s]
  {
    if s != [] {
      SplitWithoutSeparator(s[1..], seps);
      assert [s[0]] + s[1..] == s;
    }
  }

  /** A separator ends the first piece. */
  lemma {:induction false} SplitAtSeparator(a: string, c: char, b: string, seps: set<char>)
    requires c in seps && forall i :: 0 <= i < |a| ==> a[i] !in seps
    ensures Split(a + [c] + b, seps) == [a] + Split(b, seps)
  {
    if a == [] {
      assert a + [c] + b == [c] + b;
      assert ([c] + b)[1..] == b;
    } else {
      SplitAtSeparator(a[1..], c, b, seps);
      assert (a + [c] + b)[1..] == a[1..] + [c] + b;
      assert [a[0]] + a[1..] == a;
    }
  }

  /** Text without separators in front of a piece joins that piece. */
  lemma {:induction false} SplitAfterPad(pad: string, x: string, seps: set<char>)
    requires forall i :: 0 <= i < |pad| ==> pad[i] !in seps
    ensures Split(pad + x, seps) == [pad + Split(x, seps)[0]] + Split(x, seps)[1..]
  {
    var r := Split(x, seps);
    if pad == [] {
      assert pad + x == x;
      assert pad + r[0] == r[0];
      assert [r[0]] + r[1..] == r;
    } else {
      SplitAfterPad(pad[1..], x, seps);
      var rest := Split(pad[1..] + x, seps);
      assert rest[0] == pad[1..] + r[0] && rest[1..] == r[1..];
      assert (pad + x)[0] == pad[0] && pad[0] !in seps;
      assert (pad + x)[1..] == pad[1..] + x;
      assert Split(pad + x, seps) == [[pad[0]] + rest[0]] + rest[1..];
      assert [pad[0]] + (pad[1..] + r[0]) == pad + r[0];
    }
  }

  /**
   * Joining items with a separator character and some padding, then splitting at the separators,
   * gives the items back, every one after the first behind the padding.
   */
  lemma {:induction false} SplitOfJoin(items: seq<string>, c: char, pad: string, seps: set<char>)
    requires |items| > 0 && c in seps
    requires forall i :: 0 <= i < |pad| ==> pad[i] !in seps
    requires forall k, i :: 0 <= k < |items| && 0 <= i < |items[k]| ==> items[k][i] !in seps
    ensures var r := Split(Join(items, [c] + pad), seps);
            |r| == |items| && r[0] == items[0] && forall k :: 1 <= k < |items| ==> r[k] == pad + items[k]
  {
    if |items| == 1 {
      SplitWithoutSeparator(items[0], seps);
    } else {
      var rest := Join(items[1..], [c] + pad);
      SplitOfJoin(items[1..], c, pad, seps);
      assert Join(items, [c] + pad) == items[0] + [c] + (pad + rest);
      SplitAtSeparator(items[0], c, pad + rest, seps);
      SplitAfterPad(pad, rest, seps);
      var r := Split(Join(items, [c] + pad), seps);
      forall k | 1 <= k < |items|
        ensures r[k] == pad + items[k]
      {
        assert items[1..][k - 1] == items[k];
      }
    }
  }

  /** White space in front of a text that starts with something else is all that `TrimStart` removes. */
  lemma TrimStartOfPadded(pad: string, x: string)
    requires forall i :: 0 <= i < |pad| ==> IsSpace(pad[i])
    requires x != "" && !IsSpace(x[0])
    ensures TrimStart(pad + x) == x
  {
    var s := pad + x;
    var r := TrimStart(s);
    TrimStartIsSuffix(s);
    assert s[|pad|] == x[0];
    assert forall i :: 0 <= i < |pad| ==> s[i] == pad[i];
    assert |s| - |r| == |pad|;
    assert s[|pad|..] == x;
  }

  /** White space in front of a trimmed, non-empty text is all that trimming removes. */
  lemma TrimOfPadded(pad: string, x: string)
    requires forall i :: 0 <= i < |pad| ==> IsSpace(pad[i])
    requires x != "" && NoSpaceAtEnds(x)
    ensures Trim(pad + x) == x
  {
    TrimStartOfPadded(pad, x);
    TrimStartOfPadded("", x);
    assert "" + x == x;
    TrimOfTrimmed(x);
  }

  /** Pieces that trim to non-empty items keep every one of them. */
  lemma {:induction false} NonBlankOfPieces(parts: seq<string>, items: seq<string>)
    requires |parts| == |items|
    requires forall k :: 0 <= k < |items| ==> items[k] != "" && Trim(parts[k]) == items[k]
    ensures NonBlank(parts) == items
  {
    if parts != [] {
      NonBlankOfPieces(parts[1..], items[1..]);
      assert [items[0]] + items[1..] == items;
    }
  }

  /** No item of a clean list holds a separator, by position. */
  lemma CleanItems(items: seq<string>, seps: set<char>)
    requires forall l :: l in items ==> forall c :: c in seps ==> c !in l
    ensures forall k, i :: 0 <= k < |items| && 0 <= i < |items[k]| ==> items[k][i] !in seps
  {
    forall k, i | 0 <= k < |items| && 0 <= i < |items[k]|
      ensures items[k][i] !in seps
    {
      assert items[k] in items;
    }
  }

  /** A list of clean items printed as `a, b, c` reads back as the same list. */
  lemma ListItemsOfJoin(items: seq<string>)
    requires forall l :: l in items ==> l != "" && NoSpaceAtEnds(l) && ',' !in l && ';' !in l
    ensures ListItems(Join(items, ", ")) == items
  {
    var seps := {',', ';'};
    if items != [] {
      CleanItems(items, seps);
      assert ", " == [','] + " ";
      SplitOfJoin(items, ',', " ", seps);
      var r := Split(Join(items, ", "), seps);
      forall k | 0 <= k < |items|
        ensures items[k] != "" && Trim(r[k]) == items[k]
      {
        assert items[k] in items;
        if k == 0 {
          TrimOfTrimmed(items[0]);
        } else {
          TrimOfPadded(" ", items[k]);
        }
      }
      NonBlankOfPieces(r, items);
    }
  }

  /** Clean lines joined with line feeds read back as the same lines. */
  lemma LinesOfJoin(items: seq<string>)
    requires forall l :: l in items ==> l != "" && NoSpaceAtEnds(l) && '\n' !in l
    ensures Lines(Join(items, "\n")) == items
  {
    var seps := {'\n'};
    if items != [] {
      CleanItems(items, seps);
      assert "\n" == ['\n'] + "";
      SplitOfJoin(items, '\n', "", seps);
      var r := Split(Join(items, "\n"), seps);
      forall k | 0 <= k < |items|
        ensures items[k] != "" && Trim(r[k]) == items[k]
      {
        assert items[k] in items;
        assert r[k] == items[k] by {
          if k > 0 {
            assert "" + items[k] == items[k];
          }
        }
        TrimOfTrimmed(items[k]);
      }
      NonBlankOfPieces(r, items);
    }
  }

  /** Every line the importer reads is trimmed, non-empty and free of line feeds. */
  lemma CleanLines(text: string)
    ensures forall l :: l in Lines(text) ==> l != "" && NoSpaceAtEnds(l) && '\n' !in l
  {
    NonBlankWithout(Split(text, {'\n'}), '\n');
  }

  /** Splitting the traits, actions or bonus actions at line feeds gives back the lines routed to them. */
  lemma CollectedLinesReadBack(text: string)
    ensures var lines := Lines(text);
            var rt := Routed(lines, |lines|);
            && Lines(Join(rt.traitsLines, "\n")) == rt.traitsLines
            && Lines(Join(rt.actionsLines, "\n")) == rt.actionsLines
            && Lines(Join(rt.bonusActionsLines, "\n")) == rt.bonusActionsLines
  {
    var lines := Lines(text);
    RoutedCollects(lines, |lines|);
    CleanLines(text);
    var rt := Routed(lines, |lines|);
    LinesOfJoin(rt.traitsLines);
    LinesOfJoin(rt.actionsLines);
    LinesOfJoin(rt.bonusActionsLines);
  }
}
