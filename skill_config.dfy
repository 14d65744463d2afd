/**
 * The fixed table of the eighteen skills (key, label, governing ability and the legacy flat field
 * names of the player record) and the filter that selects the skills a user has chosen to show.
 */
module SkillConfig {
  import opened Shared

  /** The eighteen skill keys. */
  datatype SkillName =
    | Acrobatics | AnimalHandling | Arcana | Athletics | Deception | History
    | Insight | Intimidation | Investigation | Medicine | Nature | Perception
    | Performance | Persuasion | Religion | SleightOfHand | Stealth | Survival

  /** One row of the skill table. */
  datatype SkillInfo = SkillInfo(
    key: SkillName,
    name: string,          // the key as spelled in stored cards, e.g. "animalHandling"
    displayName: string,   // the label shown in the editor
    ability: Ability,
    passiveField: string,  // legacy flat field receiving the passive value
    profField: string,     // legacy flat field holding the proficiency tier
    modField: string)      // legacy flat field holding the manual modifier

  /** The row of the skill table for one key. */
  function Info(k: SkillName): (info: SkillInfo)
    ensures info.key == k && info.ability == AbilityOf(k) && info.passiveField == info.name
  {
    match k
    case Acrobatics => SkillInfo(k, "acrobatics", "Acrobatics", Dex, "acrobatics", "profAcrobatics", "modAcrobatics")
    case AnimalHandling => SkillInfo(k, "animalHandling", "Animal Handling", Wis, "animalHandling", "profAnimalHandling", "modAnimalHandling")
    case Arcana => SkillInfo(k, "arcana", "Arcana", Int, "arcana", "profArcana", "modArcana")
    case Athletics => SkillInfo(k, "athletics", "Athletics", Str, "athletics", "profAthletics", "modAthletics")
    case Deception => SkillInfo(k, "deception", "Deception", Cha, "deception", "profDeception", "modDeception")
    case History => SkillInfo(k, "history", "History", Int, "history", "profHistory", "modHistory")
    case Insight => SkillInfo(k, "insight", "Insight", Wis, "insight", "profInsight", "modInsight")
    case Intimidation => SkillInfo(k, "intimidation", "Intimidation", Cha, "intimidation", "profIntimidation", "modIntimidation")
    case Investigation => SkillInfo(k, "investigation", "Investigation", Int, "investigation", "profInvestigation", "modInvestigation")
    case Medicine => SkillInfo(k, "medicine", "Medicine", Wis, "medicine", "profMedicine", "modMedicine")
    case Nature => SkillInfo(k, "nature", "Nature", Int, "nature", "profNature", "modNature")
    case Perception => SkillInfo(k, "perception", "Perception", Wis, "perception", "profPerception", "modPerception")
    case Performance => SkillInfo(k, "performance", "Performance", Cha, "performance", "profPerformance", "modPerformance")
    case Persuasion => SkillInfo(k, "persuasion", "Persuasion", Cha, "persuasion", "profPersuasion", "modPersuasion")
    case Religion => SkillInfo(k, "religion", "Religion", Int, "religion", "profReligion", "modReligion")
    case SleightOfHand => SkillInfo(k, "sleightOfHand", "Sleight of Hand", Dex, "sleightOfHand", "profSleightOfHand", "modSleightOfHand")
    case Stealth => SkillInfo(k, "stealth", "Stealth", Dex, "stealth", "profStealth", "modStealth")
    case Survival => SkillInfo(k, "survival", "Survival", Wis, "survival", "profSurvival", "modSurvival")
  }

  /** The keys of the skill table, in its declared (alphabetical) order. */
  const AllSkills: seq<SkillName> := [
    Acrobatics, AnimalHandling, Arcana, Athletics, Deception, History,
    Insight, Intimidation, Investigation, Medicine, Nature, Perception,
    Performance, Persuasion, Religion, SleightOfHand, Stealth, Survival]

  /** The position of a skill in the table: the table lists every skill exactly once. */
  function SkillIndex(k: SkillName): (i: nat)
    ensures i < |AllSkills| && AllSkills[i] == k
    ensures forall j :: 0 <= j < |AllSkills| && AllSkills[j] == k ==> j == i
  {
    match k
    case Acrobatics => 0
    case AnimalHandling => 1
    case Arcana => 2
    case Athletics => 3
    case Deception => 4
    case History => 5
    case Insight => 6
    case Intimidation => 7
    case Investigation => 8
    case Medicine => 9
    case Nature => 10
    case Perception => 11
    case Performance => 12
    case Persuasion => 13
    case Religion => 14
    case SleightOfHand => 15
    case Stealth => 16
    case Survival => 17
  }

  /** The ability a skill is rolled with; constitution governs no skill. */
  function AbilityOf(k: SkillName): (a: Ability)
    ensures a != Con
    ensures a == Str <==> k == Athletics
    ensures a == Dex <==> (k == Acrobatics || k == SleightOfHand || k == Stealth)
    ensures a == Int <==> (k == Arcana || k == History || k == Investigation || k == Nature || k == Religion)
    ensures a == Wis <==> (k == AnimalHandling || k == Insight || k == Medicine || k == Perception || k == Survival)
    ensures a == Cha <==> (k == Deception || k == Intimidation || k == Performance || k == Persuasion)
  {
    match k
    case Athletics => Str
    case Acrobatics | SleightOfHand | Stealth => Dex
    case Arcana | History | Investigation | Nature | Religion => Int
    case AnimalHandling | Insight | Medicine | Perception | Survival => Wis
    case Deception | Intimidation | Performance | Persuasion => Cha
  }

  /** The table has eighteen rows, every skill in one of them, and the stored names tell the rows apart. */
  lemma TableShape()
    ensures |AllSkills| == 18
    ensures forall k :: k in AllSkills
    ensures forall i, j :: 0 <= i < j < |AllSkills| ==> AllSkills[i] != AllSkills[j]
    ensures forall k, k' :: k != k' ==> Info(k).name != Info(k').name
  {
    TableDistinct();
    TableComplete();
    NamesDistinct();
  }

  lemma TableDistinct()
    ensures forall i, j :: 0 <= i < j < |AllSkills| ==> AllSkills[i] != AllSkills[j]
  {
    forall i, j | 0 <= i < j < |AllSkills|
      ensures AllSkills[i] != AllSkills[j]
    {
      assert SkillIndex(AllSkills[i]) == i;
    }
  }

  lemma TableComplete()
    ensures forall k :: k in AllSkills
  {
    forall k ensures k in AllSkills {
      assert AllSkills[SkillIndex(k)] == k;
    }
  }

  lemma NamesDistinct()
    ensures forall k, k' :: k != k' ==> Info(k).name != Info(k').name
  {
  }

  // ---------------------------------------------------------------------------------------------
  // visibility preferences

  /** The per-skill visibility flags of the user preferences; an absent flag reads as hidden. */
  type SkillVisibility = map<SkillName, bool>

  predicate Visible(vis: SkillVisibility, k: SkillName) {
    k in vis && vis[k]
  }

  /** The skills of the table from position `from` on whose flag is set, in table order. */
  function VisibleFrom(vis: SkillVisibility, from: nat): seq<SkillName>
    requires from <= |AllSkills|
    decreases |AllSkills| - from
  {
    if from == |AllSkills| then []
    else
      var rest := VisibleFrom(vis, from + 1);
      if Visible(vis, AllSkills[from]) then [AllSkills[from]] + rest else rest
  }

  lemma {:induction false} VisibleFromContents(vis: SkillVisibility, from: nat)
    requires from <= |AllSkills|
    ensures forall k :: k in VisibleFrom(vis, from) <==> from <= SkillIndex(k) && Visible(vis, k)
    ensures forall i, j :: 0 <= i < j < |VisibleFrom(vis, from)| ==>
              SkillIndex(VisibleFrom(vis, from)[i]) < SkillIndex(VisibleFrom(vis, from)[j])
    decreases |AllSkills| - from
  {
    if from < |AllSkills| {
      VisibleFromContents(vis, from + 1);
    }
  }

  /** `getVisibleSkills`: exactly the skills whose flag is set, each once, in table order. */
  function VisibleSkills(vis: SkillVisibility): (r: seq<SkillName>)
    ensures forall k :: k in r <==> Visible(vis, k)
    ensures InTableOrder(r)
  {
    VisibleFromContents(vis, 0);
    VisibleFrom(vis, 0)
  }

  /** Showing every skill lists the whole table. */
  lemma {:induction false} AllVisibleFrom(vis: SkillVisibility, from: nat)
    requires from <= |AllSkills|
    requires forall k :: Visible(vis, k)
    ensures VisibleFrom(vis, from) == AllSkills[from..]
    decreases |AllSkills| - from
  {
    if from < |AllSkills| {
      AllVisibleFrom(vis, from + 1);
      assert AllSkills[from..] == [AllSkills[from]] + AllSkills[from + 1..];
    }
  }

  lemma AllVisible(vis: SkillVisibility)
    requires forall k :: Visible(vis, k)
    ensures VisibleSkills(vis) == AllSkills
  {
    AllVisibleFrom(vis, 0);
  }

  /** Hiding every skill lists none. */
  lemma {:induction false} NoneVisibleFrom(vis: SkillVisibility, from: nat)
    requires from <= |AllSkills|
    requires forall k :: !Visible(vis, k)
    ensures VisibleFrom(vis, from) == []
    decreases |AllSkills| - from
  {
    if from < |AllSkills| {
      NoneVisibleFrom(vis, from + 1);
    }
  }

  lemma NoneVisible(vis: SkillVisibility)
    requires forall k :: !Visible(vis, k)
    ensures VisibleSkills(vis) == []
  {
    NoneVisibleFrom(vis, 0);
  }

  /** Whether a skill is shown before the user changes anything. */
  predicate DefaultVisible(k: SkillName) {
    match k
    case Arcana | Insight | Investigation | Nature | Perception | Stealth | Survival => true
    case _ => false
  }

  /** The visibility the editor starts with: a flag for every skill. */
  const DefaultSkillVisibility: SkillVisibility := map k | k in AllSkills :: DefaultVisible(k)

  /** Listed in strictly increasing table order. */
  predicate InTableOrder(r: seq<SkillName>) {
    forall i, j :: 0 <= i < j < |r| ==> SkillIndex(r[i]) < SkillIndex(r[j])
  }

  /** A list in table order is determined by which skills it holds. */
  lemma {:induction false} TableOrderUnique(r: seq<SkillName>, t: seq<SkillName>)
    requires InTableOrder(r) && InTableOrder(t)
    requires forall k :: k in r <==> k in t
    ensures r == t
    decreases |r|
  {
    if r != [] {
      HeadsAgree(r, t);
      forall k
        ensures k in r[1..] <==> k in t[1..]
      {
        if k in r[1..] {
          TailMember(r, t, k);
        }
        if k in t[1..] {
          TailMember(t, r, k);
        }
      }
      TableOrderUnique(r[1..], t[1..]);
      assert r == [r[0]] + r[1..] && t == [t[0]] + t[1..];
    } else if t != [] {
      HeadIsMember(t);
      assert false;
    }
  }

  /** Two lists in table order holding the same skills start with the same one. */
  lemma HeadsAgree(r: seq<SkillName>, t: seq<SkillName>)
    requires InTableOrder(r) && InTableOrder(t) && r != []
    requires forall k :: k in r <==> k in t
    ensures t != [] && r[0] == t[0]
  {
    HeadIsMember(r);
    var i :| 0 <= i < |t| && t[i] == r[0];
    HeadIsMember(t);
    var j :| 0 <= j < |r| && r[j] == t[0];
    assert SkillIndex(t[0]) <= SkillIndex(r[0]);
    assert SkillIndex(r[0]) <= SkillIndex(t[0]);
  }

  /** A skill after the shared head of one list comes after it in the other too. */
  lemma TailMember(r: seq<SkillName>, t: seq<SkillName>, k: SkillName)
    requires InTableOrder(r) && InTableOrder(t) && r != [] && t != [] && r[0] == t[0]
    requires k in r[1..] && k in t
    ensures k in t[1..]
  {
    var i :| 1 <= i < |r| && r[i] == k;
    var m :| 0 <= m < |t| && t[m] == k;
    assert m != 0;
    assert t[1..][m - 1] == k;
  }

  lemma HeadIsMember(t: seq<SkillName>)
    requires t != []
    ensures t[0] in t
  {
  }

  const DefaultShown: seq<SkillName> :=
    [Arcana, Insight, Investigation, Nature, Perception, Stealth, Survival]

  lemma DefaultShownShape()
    ensures InTableOrder(DefaultShown)
    ensures forall k :: k in DefaultShown <==> DefaultVisible(k)
  {
    var idx := [2, 6, 8, 10, 11, 16, 17];
    assert forall i :: 0 <= i < 7 ==> SkillIndex(DefaultShown[i]) == idx[i];
    assert forall i, j :: 0 <= i < j < 7 ==> idx[i] < idx[j];
  }

  lemma DefaultFlags()
    ensures forall k :: Visible(DefaultSkillVisibility, k) <==> DefaultVisible(k)
  {
    TableShape();
  }

  /** Under the default preferences seven skills are shown, in this order. */
  lemma DefaultVisibleSkills()
    ensures VisibleSkills(DefaultSkillVisibility) == DefaultShown
  {
    DefaultShownShape();
    DefaultFlags();
    TableOrderUnique(VisibleSkills(DefaultSkillVisibility), DefaultShown);
  }
}
