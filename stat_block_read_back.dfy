/**
 * What the stat-block importer makes of lines printed in the standard stat-block format: an
 * `Armor Class` or `Hit Points` line, a score line under an ability header, a saving-throw or
 * skills clause, a `Proficiency Bonus` line, a passive Perception, a sense with a range, and a
 * damage, condition or `Languages` list line each give back the values they were printed from.
 */
module StatBlockReadBack {
  import opened Wrappers
  import opened Text
  import opened Shared
  import opened CardTypes
  import opened SkillConfig
  import opened AbilityHelpers
  import opened MonsterParser
  import MonsterHP
  import CardHelpers

  // ---------------------------------------------------------------------------------------------
  // the small regular expressions on printed text

  /** `Before` stops at the first `c`. */
  lemma {:induction false} BeforeOf(t: string, c: char, rest: string)
    requires c !in t
    ensures Before(t + [c] + rest, c) == t
  {
    if t != [] {
      BeforeOf(t[1..], c, rest);
      assert (t + [c] + rest)[1..] == t[1..] + [c] + rest;
      assert [t[0]] + t[1..] == t;
    }
  }

  /** The first parentheses after text without a `(` hold `t`. */
  lemma {:induction false} ParenthesisedAfter(a: string, t: string, rest: string)
    requires '(' !in a && t != "" && ')' !in t
    ensures Parenthesised(a + "(" + t + ")" + rest) == Some(t)
  {
    var s := a + "(" + t + ")" + rest;
    if a == [] {
      assert s == "(" + t + ")" + rest;
      assert s[1..] == t + [')'] + rest;
      BeforeOf(t, ')', rest);
    } else {
      ParenthesisedAfter(a[1..], t, rest);
      assert s[0] == a[0] && s[1..] == a[1..] + "(" + t + ")" + rest;
    }
  }

  /** A number followed by text that does not start with a digit reads back as that number. */
  lemma NumberThen(n: nat, b: string)
    requires b == [] || !IsDigit(b[0])
    ensures LeadingDigits(NatToString(n) + b) == NatToString(n)
    ensures DigitsValue(LeadingDigits(NatToString(n) + b)) == n
  {
    LeadingDigitsOfConcat(NatToString(n), b);
    DigitsValueOfNatToString(n);
  }

  /** Digits hold no parenthesis. */
  lemma DigitsWithoutParentheses(s: string)
    requires AllDigits(s)
    ensures '(' !in s && ')' !in s
  {
    forall i | 0 <= i < |s|
      ensures s[i] != '(' && s[i] != ')'
    {
      assert IsDigit(s[i]);
    }
  }

  // ---------------------------------------------------------------------------------------------
  // armour class and hit points

  /** `17 (natural armor)`: the number, then its text in parentheses. */
  lemma NumberAndParentheses(n: nat, t: string)
    requires t != "" && ')' !in t
    ensures var s := NatToString(n) + " (" + t + ")";
            && LeadingDigits(s) == NatToString(n) && DigitsValue(NatToString(n)) == n
            && Parenthesised(s) == Some(t)
  {
    var s := NatToString(n) + " (" + t + ")";
    assert s == NatToString(n) + (" (" + t + ")");
    NumberThen(n, " (" + t + ")");
    ParenthesesAfterNumber(NatToString(n), t);
  }

  /** Digits hold no `(`, so the first parentheses after them are the printed ones. */
  lemma ParenthesesAfterNumber(digits: string, t: string)
    requires AllDigits(digits) && t != "" && ')' !in t
    ensures Parenthesised(digits + " (" + t + ")") == Some(t)
  {
    DigitsWithoutParentheses(digits);
    assert digits + " (" + t + ")" == (digits + " ") + "(" + t + ")" + "";
    ParenthesisedAfter(digits + " ", t, "");
  }

  /** `Armor Class 17 (natural armor)` gives armour class 17 of type `natural armor`, and nothing else. */
  lemma ArmorClassReadsBack(d: Draft, n: nat, t: string)
    requires t != "" && ')' !in t
    ensures ApplyArmorClass(d, "Armor Class " + NatToString(n) + " (" + t + ")") == d.(ac := Some(n), acType := Some(t))
  {
    var line := "Armor Class " + NatToString(n) + " (" + t + ")";
    assert RemovePrefix(line, "Armor Class ") == NatToString(n) + " (" + t + ")";
    NumberAndParentheses(n, t);
  }

  /** `Hit Points 45 (6d8 + 18)` gives 45 hit points with formula `6d8 + 18`, and nothing else. */
  lemma HitPointsReadsBack(d: Draft, n: nat, f: string)
    requires f != "" && ')' !in f
    ensures ApplyHitPoints(d, "Hit Points " + NatToString(n) + " (" + f + ")") == d.(hp := Some(n), hpFormula := Some(f))
  {
    var line := "Hit Points " + NatToString(n) + " (" + f + ")";
    assert RemovePrefix(line, "Hit Points ") == NatToString(n) + " (" + f + ")";
    NumberAndParentheses(n, f);
  }

  /** The formula the hit-point calculator writes holds no closing parenthesis. */
  lemma FormulaWithoutParenthesis(numDice: int, dieSize: int, con: int)
    ensures ')' !in MonsterHP.GenerateHPFormula(numDice, dieSize, con)
  {
    if numDice > 0 {
      var a := NatToString(numDice);
      var b := IntToString(dieSize);
      var c := MonsterHP.ModifierSuffix(numDice * con);
      DigitsWithoutParentheses(a);
      if dieSize >= 0 {
        DigitsWithoutParentheses(b);
      } else {
        DigitsWithoutParentheses(b[1..]);
        assert b == [b[0]] + b[1..];
      }
      var total := numDice * con;
      if total > 0 {
        DigitsWithoutParentheses(NatToString(total));
      } else if total < 0 {
        DigitsWithoutParentheses(NatToString(-total));
      }
      assert MonsterHP.GenerateHPFormula(numDice, dieSize, con) == a + "d" + b + c;
    }
  }

  /**
   * A `Hit Points` line printed with the formula the hit-point calculator writes reads back both:
   * the importer and the calculator agree on the formula.
   */
  lemma GeneratedFormulaReadsBack(d: Draft, n: nat, numDice: int, dieSize: int, con: int)
    requires numDice > 0
    ensures var f := MonsterHP.GenerateHPFormula(numDice, dieSize, con);
            ApplyHitPoints(d, "Hit Points " + NatToString(n) + " (" + f + ")") == d.(hp := Some(n), hpFormula := Some(f))
  {
    FormulaWithoutParenthesis(numDice, dieSize, con);
    HitPointsReadsBack(d, n, MonsterHP.GenerateHPFormula(numDice, dieSize, con));
  }

  // ---------------------------------------------------------------------------------------------
  // signed bonuses: saving throws and the proficiency bonus

  /** The first signed numeral after text without a sign is the printed modifier, whole. */
  lemma {:induction false} SignedNumeralAfter(pre: string, v: string)
    requires forall i :: 0 <= i < |pre| ==> !IsSignChar(pre[i])
    requires |v| >= 2 && IsSignChar(v[0]) && AllDigits(v[1..])
    ensures SignedNumeral(pre + v) == Some(v)
  {
    if pre == [] {
      assert pre + v == v;
      LeadingDigitsOfConcat(v[1..], "");
      assert v[1..] + "" == v[1..];
      assert [v[0]] + v[1..] == v;
    } else {
      SignedNumeralAfter(pre[1..], v);
      assert (pre + v)[1..] == pre[1..] + v;
    }
  }

  /** Replacing a character that does not occur changes nothing. */
  lemma {:induction false} ReplaceFirstAbsent(s: string, c: char, d: char)
    requires c !in s
    ensures ReplaceFirst(s, c, d) == s
  {
    if s != [] {
      ReplaceFirstAbsent(s[1..], c, d);
      assert [s[0]] + s[1..] == s;
    }
  }

  /** Removing a character that does not occur changes nothing. */
  lemma {:induction false} RemoveFirstAbsent(s: string, c: char)
    requires c !in s
    ensures RemoveFirst(s, c) == s
  {
    if s != [] {
      RemoveFirstAbsent(s[1..], c);
      assert [s[0]] + s[1..] == s;
    }
  }

  /** Digits hold no sign of any kind. */
  lemma DigitsWithoutSigns(s: string)
    requires AllDigits(s)
    ensures '+' !in s && '-' !in s && '\U{2212}' !in s
  {
    forall i | 0 <= i < |s|
      ensures s[i] != '+' && s[i] != '-' && s[i] != '\U{2212}'
    {
      assert IsDigit(s[i]);
    }
  }

  /** A printed modifier reads back through the saving-throw pattern: its signed numeral, with `−` read as `-`. */
  lemma SignedBonusOfModifier(pre: string, m: int)
    requires forall i :: 0 <= i < |pre| ==> !IsSignChar(pre[i])
    ensures SignedBonus(pre + FormatModifier(m)) == Some(m)
  {
    var f := FormatModifier(m);
    SignedNumeralAfter(pre, f);
    DigitsWithoutSigns(f[1..]);
    assert f == [f[0]] + f[1..];
    ReplaceFirstAbsent(f, '\U{2212}', '-');
  }

  /** Each ability's label names that ability and no earlier one. */
  lemma SaveNamedOfLabel(a: Ability, rest: string)
    ensures SaveNamed(SaveLabel(a) + rest) == Some(a)
  {
    assert (SaveLabel(a) + rest)[..3] == SaveLabel(a);
  }

  /** A saving-throw clause printed as `Dex +4` sets that ability's saving throw to the printed modifier. */
  lemma SaveClauseReadsBack(saves: map<Ability, int>, a: Ability, m: int)
    ensures SaveClause(saves, SaveLabel(a) + " " + FormatModifier(m)) == saves[a := m]
  {
    var f := FormatModifier(m);
    var pre := SaveLabel(a) + " ";
    var clause := SaveLabel(a) + " " + f;
    SaveLabelBeforeBonus(a, f);
    SignedBonusOfModifier(pre, m);
  }

  /** A label and a space hold no sign, and the label names its ability however the clause goes on. */
  lemma SaveLabelBeforeBonus(a: Ability, f: string)
    ensures forall i :: 0 <= i < |SaveLabel(a) + " "| ==> !IsSignChar((SaveLabel(a) + " ")[i])
    ensures SaveNamed(SaveLabel(a) + " " + f) == Some(a)
  {
    assert SaveLabel(a) + " " + f == SaveLabel(a) + (" " + f);
    SaveNamedOfLabel(a, " " + f);
  }

  /** `parseInt` reads a run of digits, with or without a leading plus sign, as the same number. */
  lemma ParseIntWithoutPlus(digits: string)
    requires digits != "" && AllDigits(digits)
    ensures ParseInt(digits) == ParseInt("+" + digits)
  {
    var t := "+" + digits;
    assert IsDigit(digits[0]);
    assert t[0] == '+' && t[1..] == digits;
    TrimStartOfNonSpace(digits);
    TrimStartOfNonSpace(t);
    assert SignStripped(t) == digits;
    assert SignStripped(digits) == digits;
    var v: int := DigitsValue(LeadingDigits(digits));
    LeadingDigitsOfConcat(digits, "");
    assert digits + "" == digits;
    assert ParseInt(digits) == Some(v);
    assert ParseInt(t) == Some(v);
  }

  /** `Proficiency Bonus +3` sets the proficiency bonus to 3, and a negative bonus reads back too. */
  lemma ProficiencyBonusReadsBack(d: Draft, m: int)
    ensures ApplyProficiencyBonus(d, "Proficiency Bonus " + FormatModifier(m)) == d.(proficiencyBonus := Some(m))
  {
    var f := FormatModifier(m);
    var line := "Proficiency Bonus " + f;
    assert RemovePrefix(line, "Proficiency Bonus ") == f;
    DigitsWithoutSigns(f[1..]);
    if m >= 0 {
      assert f == "+" + f[1..];
      assert RemoveFirst(f, '+') == f[1..];
      ParseIntWithoutPlus(f[1..]);
    } else {
      assert f == [f[0]] + f[1..];
      RemoveFirstAbsent(f, '+');
    }
  }

  // ---------------------------------------------------------------------------------------------
  // ability scores

  /** The line under an ability header as the card editor prints it: the score and its modifier in parentheses. */
  function ScoreLine(score: nat): string {
    NatToString(score) + " (" + FormatModifier(AbilityModifier(score)) + ")"
  }

  /** The score line is the caption the card editor renders for that score. */
  lemma ScoreLineIsCaption(score: nat)
    ensures ScoreLine(score) == CardHelpers.CalcModifier(IntToString(score))
  {
    CardHelpers.CalcModifierOfNumber(score);
  }

  /**
   * A score line under an ability header sets that ability's score, and the score line itself is
   * skipped when the loop reaches it.
   */
  lemma ScoreLineReadsBack(d: Draft, a: Ability, score: nat)
    ensures ApplyScore(d, a, ScoreLine(score)) == d.(scores := d.scores[a := score])
    ensures IsScoreLine(ScoreLine(score)) && IsSkipped(ScoreLine(score))
  {
    var f := FormatModifier(AbilityModifier(score));
    var n := NatToString(score);
    var line := ScoreLine(score);
    assert line == n + (" (" + f + ")");
    NumberThen(score, " (" + f + ")");
    ScoreLineTail(n, f);
    assert IsScoreLine(line);
  }

  /** After the digits come a space and the modifier in parentheses: the shape `\s*\([−+\-\d]+\)`. */
  lemma ScoreLineTail(n: string, f: string)
    requires AllDigits(n) && n != ""
    requires |f| >= 2 && (f[0] == '+' || f[0] == '-') && AllDigits(f[1..])
    requires LeadingDigits(n + " (" + f + ")") == n
    ensures IsScoreLine(n + " (" + f + ")")
  {
    TailAfterNumber(n, f);
    ModifierInParentheses(f);
    IsScoreLineWhen(n + " (" + f + ")", n, "(" + f + ")");
  }

  /** After the digits, white space and then the parenthesised modifier. */
  lemma TailAfterNumber(n: string, f: string)
    ensures TrimStart((n + " (" + f + ")")[|n|..]) == "(" + f + ")"
  {
    var tail := "(" + f + ")";
    assert (n + " (" + f + ")")[|n|..] == " " + tail;
    TrimStartOfPadded(" ", tail);
  }

  /** The shape `\d+\s*\([−+\-\d]+\)`, taken a part at a time. */
  lemma IsScoreLineWhen(line: string, digits: string, t: string)
    requires LeadingDigits(line) == digits && digits != ""
    requires TrimStart(line[|digits|..]) == t
    requires |t| >= 3 && t[0] == '(' && t[|t| - 1] == ')'
    requires forall k :: 1 <= k < |t| - 1 ==> IsScoreChar(t[k])
    ensures IsScoreLine(line)
  {
  }

  /** A signed modifier in parentheses is made of score-line characters only. */
  lemma ModifierInParentheses(f: string)
    requires |f| >= 2 && (f[0] == '+' || f[0] == '-') && AllDigits(f[1..])
    ensures var tail := "(" + f + ")";
            |tail| >= 3 && tail[0] == '(' && tail[|tail| - 1] == ')'
            && forall k :: 1 <= k < |tail| - 1 ==> IsScoreChar(tail[k])
  {
    var tail := "(" + f + ")";
    forall k | 1 <= k < |tail| - 1
      ensures IsScoreChar(tail[k])
    {
      assert tail[k] == f[k - 1];
      if k > 1 {
        assert f[k - 1] == f[1..][k - 2];
      }
    }
  }

  // ---------------------------------------------------------------------------------------------
  // senses

  /** The clause a stat block prints for a passive Perception. */
  function PassiveClause(n: nat): string {
    "passive Perception " + NatToString(n)
  }

  /** `passive Perception N` is read as the passive Perception `N`. */
  lemma PassiveClauseReadsBack(n: nat)
    ensures FindPassive(PassiveClause(n)) == Some(n)
  {
    var s := PassiveClause(n);
    var digits := NatToString(n);
    var b := "Perception " + digits;
    PassiveWordStarts(digits);
    PerceptionWordStarts(digits);
    DigitsAfterSpace(n);
    PassiveAtWhen(s, b, digits, n);
  }

  /** The three steps of `/passive\s+perception\s+(\d+)/i`, each taken. */
  lemma PassiveAtWhen(s: string, b: string, e: string, n: nat)
    requires StartsWithIgnoreCase(s, "passive")
    requires b == TrimStart(s[7..]) && |b| < |s[7..]| && StartsWithIgnoreCase(b, "perception")
    requires e == TrimStart(b[10..]) && |e| < |b[10..]|
    requires LeadingDigits(e) != "" && DigitsValue(LeadingDigits(e)) == n
    ensures PassiveAt(s) == Some(n)
  {
  }

  /** The clause starts with `passive`, then white space and the rest. */
  lemma PassiveWordStarts(digits: string)
    requires AllDigits(digits) && digits != ""
    ensures var s := "passive Perception " + digits;
            && StartsWithIgnoreCase(s, "passive")
            && TrimStart(s[7..]) == "Perception " + digits && |s[7..]| == |"Perception " + digits| + 1
  {
    var s := "passive Perception " + digits;
    assert s[..7] == "passive";
    assert s[7..] == " " + ("Perception " + digits);
    TrimStartOfPadded(" ", "Perception " + digits);
  }

  /** After `passive` and its white space comes `Perception`, then white space and the digits. */
  lemma PerceptionWordStarts(digits: string)
    requires AllDigits(digits) && digits != ""
    ensures var b := "Perception " + digits;
            && StartsWithIgnoreCase(b, "perception")
            && b[10..] == " " + digits
  {
    var b := "Perception " + digits;
    assert b[..10] == "Perception";
    assert ToLower(b[..10]) == ToLower("perception");
  }

  /** White space, then the digits of `N`, read as `N`. */
  lemma DigitsAfterSpace(n: nat)
    ensures var digits := NatToString(n);
            && TrimStart(" " + digits) == digits
            && LeadingDigits(digits) != "" && DigitsValue(LeadingDigits(digits)) == n
  {
    var digits := NatToString(n);
    MonsterHP.DigitIsNotSpace(digits[0]);
    TrimStartOfPadded(" ", digits);
    NumberThen(n, []);
    assert digits + [] == digits;
  }

  /** The passive clause holds no comma and no white space at its ends, so it is one senses clause. */
  lemma PassiveClauseAlone(n: nat)
    ensures Clauses(PassiveClause(n)) == [PassiveClause(n)]
  {
    var s := PassiveClause(n);
    var digits := NatToString(n);
    assert s == "passive Perception " + digits;
    forall i | 0 <= i < |s|
      ensures s[i] !in {','}
    {
      if i >= 19 {
        assert s[i] == digits[i - 19];
      }
    }
    SplitWithoutSeparator(s, {','});
    MonsterHP.DigitIsNotSpace(digits[|digits| - 1]);
    assert s[|s| - 1] == digits[|digits| - 1];
    TrimOfTrimmed(s);
  }

  /**
   * A `Senses` line that holds only a passive Perception stores no sense and sets the perception
   * modifier to `N - 10`, keeping the perception tier and every other skill.
   */
  lemma SensesPassiveReadsBack(d: Draft, n: nat)
    requires Perception in d.skills
    ensures var r := ApplySenses(d, PassiveClause(n));
            && r.senses == Some(map[])
            && r.skills == d.skills[Perception := d.skills[Perception].(modifier := Some(n - 10))]
            && r.skills[Perception].proficiency == d.skills[Perception].proficiency
  {
    PassiveClauseAlone(n);
    PassiveSensesRead(n);
  }

  /** Reading the passive clause alone gives no sense and the passive Perception `N`. */
  lemma PassiveSensesRead(n: nat)
    ensures SensesAfter([PassiveClause(n)]) == SensesRead(map[], Some(n))
  {
    var s := PassiveClause(n);
    PassiveClauseReadsBack(n);
    assert [s][..0] == [];
  }

  /** A name of letters, a space, and a range in feet: `darkvision 60 ft.`. */
  function SenseClauseText(name: string, n: nat): string {
    name + " " + NatToString(n) + " ft."
  }

  /** White space after a text that does not end in white space is all that trimming its end removes. */
  lemma TrimEndOfSpaced(x: string)
    requires x != "" && !IsSpace(x[|x| - 1])
    ensures TrimEnd(x + " ") == x
  {
    var s := x + " ";
    assert s[..|s| - 1] == x;
  }

  /** The letters of a name, then a space, hold no digit; the range starts with one. */
  lemma SenseClauseParts(name: string, n: nat)
    requires forall i :: 0 <= i < |name| ==> IsLetter(name[i])
    ensures var part := SenseClauseText(name, n);
            && FirstDigit(part) == |name| + 1
            && part[..|name| + 1] == name + " "
            && part[|name| + 1..] == NatToString(n) + " ft."
  {
    var part := SenseClauseText(name, n);
    var digits := NatToString(n);
    var prefix := name + " ";
    var rest := digits + " ft.";
    assert part == prefix + rest;
    forall i | 0 <= i < |prefix|
      ensures !IsDigit(part[i])
    {
      assert part[i] == prefix[i];
      if i < |name| {
        assert prefix[i] == name[i];
      }
    }
    assert part[|prefix|] == digits[0];
    assert part[..|prefix|] == prefix && part[|prefix|..] == rest;
  }

  /** The range: its digits, then white space and `ft.`, with nothing to trim. */
  lemma RangeParts(n: nat)
    ensures var digits := NatToString(n);
            var rest := digits + " ft.";
            && LeadingDigits(rest) == digits
            && IsFeet(TrimStart(rest[|digits|..]))
            && Trim(rest) == rest
  {
    var digits := NatToString(n);
    var rest := digits + " ft.";
    NumberThen(n, " ft.");
    assert rest[|digits|..] == " ft.";
    TrimStartOfPadded(" ", "ft.");
    MonsterHP.DigitIsNotSpace(digits[0]);
    TrimOfTrimmed(rest);
  }

  /** The name, then a space: letters and white space, whose end trimmed is the name. */
  lemma NameParts(name: string)
    requires name != "" && forall i :: 0 <= i < |name| ==> IsLetter(name[i])
    ensures var prefix := name + " ";
            && TrimEnd(prefix) == name && Trim(prefix[..|name|]) == name
            && forall i :: 0 <= i < |prefix| ==> IsLetter(prefix[i]) || IsSpace(prefix[i])
  {
    var prefix := name + " ";
    assert IsLetter(name[|name| - 1]) && IsLetter(name[0]);
    TrimEndOfSpaced(name);
    assert prefix[..|name|] == name;
    TrimOfTrimmed(name);
    forall i | 0 <= i < |prefix|
      ensures IsLetter(prefix[i]) || IsSpace(prefix[i])
    {
      if i < |name| {
        assert prefix[i] == name[i];
      }
    }
  }

  /** When the conditions of the senses pattern hold, the sense is read from the two parts. */
  lemma SenseWithRangeWhen(part: string, prefix: string, rest: string, nameLength: nat)
    requires FirstDigit(part) == |prefix| && |prefix| < |part|
    requires prefix == part[..|prefix|] && rest == part[|prefix|..]
    requires nameLength == (if TrimEnd(prefix) == "" then 1 else |TrimEnd(prefix)|)
    requires IsNameText(prefix) && nameLength < |prefix| && IsSpace(prefix[|prefix| - 1])
    requires IsFeet(TrimStart(rest[|LeadingDigits(rest)|..]))
    ensures SenseWithRange(part) == Some((ToLower(Trim(prefix[..nameLength])), Trim(rest)))
  {
  }

  /** A sense printed with its range is read as its lower-cased name and the range as printed. */
  lemma SenseWithRangeReadsBack(name: string, n: nat)
    requires name != "" && forall i :: 0 <= i < |name| ==> IsLetter(name[i])
    ensures SenseWithRange(SenseClauseText(name, n)) == Some((ToLower(name), NatToString(n) + " ft."))
  {
    var part := SenseClauseText(name, n);
    var digits := NatToString(n);
    var prefix := name + " ";
    var rest := digits + " ft.";
    SenseClauseParts(name, n);
    RangeParts(n);
    NameParts(name);
    SenseWithRangeWhen(part, prefix, rest, |name|);
  }

  // ---------------------------------------------------------------------------------------------
  // skills clauses

  /**
   * The skill whose label begins with the four given characters, reading only as many of them as
   * it takes to tell the labels apart (the first four always do).
   */
  function SkillOfLabelStart(a: char, b: char, c: char, d: char): Option<SkillName> {
    match a
    case 'A' =>
      if b == 'c' then Some(Acrobatics) else if b == 'n' then Some(AnimalHandling)
      else if b == 'r' then Some(Arcana) else if b == 't' then Some(Athletics) else None
    case 'D' => Some(Deception)
    case 'H' => Some(History)
    case 'I' =>
      if c == 's' then Some(Insight) else if c == 't' then Some(Intimidation)
      else if c == 'v' then Some(Investigation) else None
    case 'M' => Some(Medicine)
    case 'N' => Some(Nature)
    case 'P' =>
      if d == 'c' then Some(Perception) else if d == 'f' then Some(Performance)
      else if d == 's' then Some(Persuasion) else None
    case 'R' => Some(Religion)
    case 'S' =>
      if b == 'l' then Some(SleightOfHand) else if b == 't' then Some(Stealth)
      else if b == 'u' then Some(Survival) else None
    case _ => None
  }

  /** Every label is at least four characters long and its first four name its skill. */
  lemma LabelStartNamesSkill(k: SkillName)
    ensures var t := Info(k).displayName;
            |t| >= 4 && SkillOfLabelStart(t[0], t[1], t[2], t[3]) == Some(k)
  {
    match k
    case Acrobatics | AnimalHandling | Arcana | Athletics | Deception => LabelStartA(k);
    case History | Insight | Intimidation | Investigation | Medicine => LabelStartB(k);
    case Nature | Perception | Performance | Persuasion => LabelStartC(k);
    case Religion | SleightOfHand | Stealth | Survival => LabelStartD(k);
  }

  /** `LabelStartNamesSkill` for Acrobatics, Animal Handling, Arcana, Athletics and Deception. */
  lemma LabelStartA(k: SkillName)
    requires k.Acrobatics? || k.AnimalHandling? || k.Arcana? || k.Athletics? || k.Deception?
    ensures var t := Info(k).displayName;
            |t| >= 4 && SkillOfLabelStart(t[0], t[1], t[2], t[3]) == Some(k)
  {
    match k
    case Acrobatics => assert SkillOfLabelStart('A', 'c', 'r', 'o') == Some(Acrobatics);
    case AnimalHandling => assert SkillOfLabelStart('A', 'n', 'i', 'm') == Some(AnimalHandling);
    case Arcana => assert SkillOfLabelStart('A', 'r', 'c', 'a') == Some(Arcana);
    case Athletics => assert SkillOfLabelStart('A', 't', 'h', 'l') == Some(Athletics);
    case Deception => assert SkillOfLabelStart('D', 'e', 'c', 'e') == Some(Deception);
  }

  /** `LabelStartNamesSkill` for History, Insight, Intimidation, Investigation and Medicine. */
  lemma LabelStartB(k: SkillName)
    requires k.History? || k.Insight? || k.Intimidation? || k.Investigation? || k.Medicine?
    ensures var t := Info(k).displayName;
            |t| >= 4 && SkillOfLabelStart(t[0], t[1], t[2], t[3]) == Some(k)
  {
    match k
    case History => assert SkillOfLabelStart('H', 'i', 's', 't') == Some(History);
    case Insight => assert SkillOfLabelStart('I', 'n', 's', 'i') == Some(Insight);
    case Intimidation => assert SkillOfLabelStart('I', 'n', 't', 'i') == Some(Intimidation);
    case Investigation => assert SkillOfLabelStart('I', 'n', 'v', 'e') == Some(Investigation);
    case Medicine => assert SkillOfLabelStart('M', 'e', 'd', 'i') == Some(Medicine);
  }

  /** `LabelStartNamesSkill` for Nature, Perception, Performance and Persuasion. */
  lemma LabelStartC(k: SkillName)
    requires k.Nature? || k.Perception? || k.Performance? || k.Persuasion?
    ensures var t := Info(k).displayName;
            |t| >= 4 && SkillOfLabelStart(t[0], t[1], t[2], t[3]) == Some(k)
  {
    match k
    case Nature => assert SkillOfLabelStart('N', 'a', 't', 'u') == Some(Nature);
    case Perception => assert SkillOfLabelStart('P', 'e', 'r', 'c') == Some(Perception);
    case Performance => assert SkillOfLabelStart('P', 'e', 'r', 'f') == Some(Performance);
    case Persuasion => assert SkillOfLabelStart('P', 'e', 'r', 's') == Some(Persuasion);
  }

  /** `LabelStartNamesSkill` for Religion, Sleight of Hand, Stealth and Survival. */
  lemma LabelStartD(k: SkillName)
    requires k.Religion? || k.SleightOfHand? || k.Stealth? || k.Survival?
    ensures var t := Info(k).displayName;
            |t| >= 4 && SkillOfLabelStart(t[0], t[1], t[2], t[3]) == Some(k)
  {
    match k
    case Religion => assert SkillOfLabelStart('R', 'e', 'l', 'i') == Some(Religion);
    case SleightOfHand => assert SkillOfLabelStart('S', 'l', 'e', 'i') == Some(SleightOfHand);
    case Stealth => assert SkillOfLabelStart('S', 't', 'e', 'a') == Some(Stealth);
    case Survival => assert SkillOfLabelStart('S', 'u', 'r', 'v') == Some(Survival);
  }

  /** No sign from position `i` on, checked one character at a time. */
  predicate NoSignFrom(s: string, i: nat)
    decreases |s| - i
  {
    i >= |s| || (!IsSignChar(s[i]) && NoSignFrom(s, i + 1))
  }

  lemma {:induction false} NoSignFromAll(s: string, i: nat)
    requires NoSignFrom(s, i)
    ensures forall j :: i <= j < |s| ==> !IsSignChar(s[j])
    decreases |s| - i
  {
    if i < |s| {
      NoSignFromAll(s, i + 1);
    }
  }

  /** No label holds a sign. */
  lemma LabelWithoutSigns(k: SkillName)
    ensures NoSignFrom(Info(k).displayName, 0)
  {
    match k
    case Acrobatics | AnimalHandling | Arcana | Athletics | Deception => UnsignedLabelsA(k);
    case History | Insight | Intimidation | Investigation | Medicine => UnsignedLabelsB(k);
    case Nature | Perception | Performance | Persuasion => UnsignedLabelsC(k);
    case Religion | SleightOfHand | Stealth | Survival => UnsignedLabelsD(k);
  }

  /** `LabelWithoutSigns` for Acrobatics, Animal Handling, Arcana, Athletics and Deception. */
  lemma UnsignedLabelsA(k: SkillName)
    requires k.Acrobatics? || k.AnimalHandling? || k.Arcana? || k.Athletics? || k.Deception?
    ensures NoSignFrom(Info(k).displayName, 0)
  {
    match k
    case Acrobatics => assert NoSignFrom("Acrobatics", 0);
    case AnimalHandling => assert NoSignFrom("Animal Handling", 0);
    case Arcana => assert NoSignFrom("Arcana", 0);
    case Athletics => assert NoSignFrom("Athletics", 0);
    case Deception => assert NoSignFrom("Deception", 0);
  }

  /** `LabelWithoutSigns` for History, Insight, Intimidation, Investigation and Medicine. */
  lemma UnsignedLabelsB(k: SkillName)
    requires k.History? || k.Insight? || k.Intimidation? || k.Investigation? || k.Medicine?
    ensures NoSignFrom(Info(k).displayName, 0)
  {
    match k
    case History => assert NoSignFrom("History", 0);
    case Insight => assert NoSignFrom("Insight", 0);
    case Intimidation => assert NoSignFrom("Intimidation", 0);
    case Investigation => assert NoSignFrom("Investigation", 0);
    case Medicine => assert NoSignFrom("Medicine", 0);
  }

  /** `LabelWithoutSigns` for Nature, Perception, Performance and Persuasion. */
  lemma UnsignedLabelsC(k: SkillName)
    requires k.Nature? || k.Perception? || k.Performance? || k.Persuasion?
    ensures NoSignFrom(Info(k).displayName, 0)
  {
    match k
    case Nature => assert NoSignFrom("Nature", 0);
    case Perception => assert NoSignFrom("Perception", 0);
    case Performance => assert NoSignFrom("Performance", 0);
    case Persuasion => assert NoSignFrom("Persuasion", 0);
  }

  /** `LabelWithoutSigns` for Religion, Sleight of Hand, Stealth and Survival. */
  lemma UnsignedLabelsD(k: SkillName)
    requires k.Religion? || k.SleightOfHand? || k.Stealth? || k.Survival?
    ensures NoSignFrom(Info(k).displayName, 0)
  {
    match k
    case Religion => assert NoSignFrom("Religion", 0);
    case SleightOfHand => assert NoSignFrom("Sleight of Hand", 0);
    case Stealth => assert NoSignFrom("Stealth", 0);
    case Survival => assert NoSignFrom("Survival", 0);
  }

  /** A clause that starts with one skill's label starts with no other skill's label. */
  lemma OnlyLabelAtStart(clause: string, k: SkillName, j: SkillName)
    requires StartsWith(clause, Info(k).displayName) && StartsWith(clause, Info(j).displayName)
    ensures j == k
  {
    LabelStartNamesSkill(k);
    LabelStartNamesSkill(j);
    FirstFourOfPrefix(clause, Info(k).displayName);
    FirstFourOfPrefix(clause, Info(j).displayName);
  }

  /** A prefix of at least four characters fixes the first four. */
  lemma FirstFourOfPrefix(s: string, p: string)
    requires StartsWith(s, p) && |p| >= 4
    ensures s[0] == p[0] && s[1] == p[1] && s[2] == p[2] && s[3] == p[3]
  {
    assert s[..|p|] == p;
  }

  /** Looking from any place in the table up to a skill's own, a clause with its label finds that skill. */
  lemma {:induction false} SkillNamedFromReaches(clause: string, k: SkillName, j: nat)
    requires j <= SkillIndex(k) && StartsWith(clause, Info(k).displayName)
    ensures SkillNamedFrom(clause, j) == Some(k)
    decreases SkillIndex(k) - j
  {
    if j < SkillIndex(k) {
      if StartsWith(clause, Info(AllSkills[j]).displayName) {
        OnlyLabelAtStart(clause, k, AllSkills[j]);
      }
      SkillNamedFromReaches(clause, k, j + 1);
    }
  }

  /** A skills clause as a stat block prints it: the label, a space and the signed bonus. */
  function SkillClauseText(k: SkillName, m: int): string {
    Info(k).displayName + " " + FormatModifier(m)
  }

  /** A printed skills clause names its skill. */
  lemma SkillNamedOfClause(k: SkillName, m: int)
    ensures SkillNamed(SkillClauseText(k, m)) == Some(k)
  {
    assert SkillClauseText(k, m) == Info(k).displayName + (" " + FormatModifier(m));
    SkillNamedOfLabelled(k, " " + FormatModifier(m));
  }

  /** Text that starts with a skill's label names that skill. */
  lemma SkillNamedOfLabelled(k: SkillName, rest: string)
    ensures SkillNamed(Info(k).displayName + rest) == Some(k)
  {
    var caption := Info(k).displayName;
    assert (caption + rest)[..|caption|] == caption;
    SkillNamedFromReaches(caption + rest, k, 0);
  }

  /** A printed skills clause carries its bonus. */
  lemma SkillBonusOfClause(k: SkillName, m: int)
    ensures SignedBonus(SkillClauseText(k, m)) == Some(m)
  {
    var pre := Info(k).displayName + " ";
    assert SkillClauseText(k, m) == pre + FormatModifier(m);
    LabelThenSpaceWithoutSigns(k);
    SignedBonusOfModifier(pre, m);
  }

  /** A label and the space after it hold no sign. */
  lemma LabelThenSpaceWithoutSigns(k: SkillName)
    ensures var pre := Info(k).displayName + " ";
            forall i :: 0 <= i < |pre| ==> !IsSignChar(pre[i])
  {
    var caption := Info(k).displayName;
    var pre := caption + " ";
    LabelWithoutSigns(k);
    NoSignFromAll(caption, 0);
    forall i | 0 <= i < |pre|
      ensures !IsSignChar(pre[i])
    {
      if i < |caption| {
        assert pre[i] == caption[i];
      }
    }
  }

  /**
   * A printed skills clause is read back as that skill, untrained, with the printed bonus as its
   * modifier and no value; every other skill stays as it was.
   */
  lemma SkillClauseReadsBack(skills: map<SkillName, Skill>, k: SkillName, m: int)
    ensures SkillClause(skills, SkillClauseText(k, m)) == skills[k := Skill(Some(Untrained), Some(m), None)]
  {
    SkillNamedOfClause(k, m);
    SkillBonusOfClause(k, m);
  }

  /**
   * A skills clause printed with the minus sign U+2212, as published stat blocks print negative
   * bonuses (`Stealth −1`), is read back with the negated bonus.
   */
  lemma SkillClauseMinusSignReadsBack(skills: map<SkillName, Skill>, k: SkillName, n: nat)
    ensures SkillClause(skills, Info(k).displayName + " \U{2212}" + NatToString(n))
            == skills[k := Skill(Some(Untrained), Some(-(n as int)), None)]
  {
    ParseIntOfMinusSigned(n);
    MinusSignClause(skills, k, NatToString(n), -(n as int));
  }

  /** A skills clause whose digits follow the minus sign U+2212 sets that skill as the hyphen-minus form reads. */
  lemma MinusSignClause(skills: map<SkillName, Skill>, k: SkillName, s: string, m: int)
    requires |s| >= 1 && AllDigits(s)
    requires ParseInt("-" + s) == Some(m)
    ensures SkillClause(skills, Info(k).displayName + " \U{2212}" + s) == skills[k := Skill(Some(Untrained), Some(m), None)]
  {
    MinusSignNamed(k, s);
    MinusSignBonus(k, s, m);
  }

  /** A skills clause whose numeral is written with U+2212 still names its own skill. */
  lemma MinusSignNamed(k: SkillName, s: string)
    ensures SkillNamed(Info(k).displayName + " \U{2212}" + s) == Some(k)
  {
    var v := "\U{2212}" + s;
    assert Info(k).displayName + " \U{2212}" + s == Info(k).displayName + (" " + v);
    SkillNamedOfLabelled(k, " " + v);
  }

  /** The bonus of a skills clause printed with the minus sign U+2212 is what the hyphen-minus form reads as. */
  lemma MinusSignBonus(k: SkillName, s: string, m: int)
    requires |s| >= 1 && AllDigits(s)
    requires ParseInt("-" + s) == Some(m)
    ensures SignedBonus(Info(k).displayName + " \U{2212}" + s) == Some(m)
  {
    MinusSignNumeral(k, s);
    MinusSignReplaced(s);
  }

  /** The signed numeral of such a clause is the minus sign U+2212 and the digits. */
  lemma MinusSignNumeral(k: SkillName, s: string)
    requires |s| >= 1 && AllDigits(s)
    ensures SignedNumeral(Info(k).displayName + " \U{2212}" + s) == Some("\U{2212}" + s)
  {
    var pre := Info(k).displayName + " ";
    var v := "\U{2212}" + s;
    assert Info(k).displayName + " \U{2212}" + s == pre + v;
    LabelThenSpaceWithoutSigns(k);
    assert v[1..] == s;
    SignedNumeralAfter(pre, v);
  }

  /** The minus sign U+2212 in front of digits becomes a hyphen-minus, and nothing else changes. */
  lemma MinusSignReplaced(s: string)
    requires AllDigits(s)
    ensures ReplaceFirst("\U{2212}" + s, '\U{2212}', '-') == "-" + s
  {
    var v := "\U{2212}" + s;
    var r := ReplaceFirst(v, '\U{2212}', '-');
    assert v[0] == '\U{2212}';
    assert forall i :: 1 <= i < |v| ==> v[i] == s[i - 1] && v[i] != '\U{2212}';
    assert |r| == |v|;
    assert forall i :: 0 <= i < |r| ==> r[i] == ("-" + s)[i];
  }

  // ---------------------------------------------------------------------------------------------
  // list lines: damage immunities, resistances and vulnerabilities, condition immunities, languages

  /** A line made of a caption and a rest starts with the caption, and removing it leaves the rest. */
  lemma CaptionThen(caption: string, rest: string)
    ensures StartsWith(caption + rest, caption) && RemovePrefix(caption + rest, caption) == rest
  {
    assert (caption + rest)[..|caption|] == caption;
  }

  /** A line that differs from a caption at some position within both does not start with it. */
  lemma NotCaption(line: string, caption: string, i: nat)
    requires i < |line| && i < |caption| && line[i] != caption[i]
    ensures !StartsWith(line, caption)
  {
  }

  /** Items a list line can print and read back: non-empty, no white space at the ends, no separator. */
  predicate ListableItems(items: seq<string>) {
    forall l :: l in items ==> l != "" && NoSpaceAtEnds(l) && ',' !in l && ';' !in l
  }

  /** `Damage Immunities a, b` sets the damage immunities to the printed items, and nothing else. */
  lemma DamageImmunitiesLineReadsBack(d: Draft, items: seq<string>)
    requires ListableItems(items)
    ensures DetailLine(d, "Damage Immunities " + Join(items, ", ")) == d.(damageImmunities := Some(items))
  {
    var line := "Damage Immunities " + Join(items, ", ");
    CaptionThen("Damage Immunities ", Join(items, ", "));
    NotCaption(line, "Saving Throws ", 0);
    NotCaption(line, "Skills ", 0);
    ListItemsOfJoin(items);
  }

  /** `Damage Resistances a, b` sets the damage resistances to the printed items, and nothing else. */
  lemma DamageResistancesLineReadsBack(d: Draft, items: seq<string>)
    requires ListableItems(items)
    ensures DetailLine(d, "Damage Resistances " + Join(items, ", ")) == d.(damageResistances := Some(items))
  {
    var line := "Damage Resistances " + Join(items, ", ");
    CaptionThen("Damage Resistances ", Join(items, ", "));
    NotCaption(line, "Saving Throws ", 0);
    NotCaption(line, "Skills ", 0);
    NotCaption(line, "Damage Immunities ", 7);
    ListItemsOfJoin(items);
  }

  /** `Damage Vulnerabilities a, b` sets the damage vulnerabilities to the printed items, and nothing else. */
  lemma DamageVulnerabilitiesLineReadsBack(d: Draft, items: seq<string>)
    requires ListableItems(items)
    ensures DetailLine(d, "Damage Vulnerabilities " + Join(items, ", ")) == d.(damageVulnerabilities := Some(items))
  {
    var line := "Damage Vulnerabilities " + Join(items, ", ");
    CaptionThen("Damage Vulnerabilities ", Join(items, ", "));
    NotCaption(line, "Saving Throws ", 0);
    NotCaption(line, "Skills ", 0);
    NotCaption(line, "Damage Immunities ", 7);
    NotCaption(line, "Damage Resistances ", 7);
    ListItemsOfJoin(items);
  }

  /** `Condition Immunities a, b` sets the condition immunities to the printed items, and nothing else. */
  lemma ConditionImmunitiesLineReadsBack(d: Draft, items: seq<string>)
    requires ListableItems(items)
    ensures DetailLine(d, "Condition Immunities " + Join(items, ", ")) == d.(conditionImmunities := Some(items))
  {
    var line := "Condition Immunities " + Join(items, ", ");
    CaptionThen("Condition Immunities ", Join(items, ", "));
    NotCaption(line, "Saving Throws ", 0);
    NotCaption(line, "Skills ", 0);
    NotCaption(line, "Damage Immunities ", 0);
    NotCaption(line, "Damage Resistances ", 0);
    NotCaption(line, "Damage Vulnerabilities ", 0);
    ListItemsOfJoin(items);
  }

  /**
   * `Languages a, b` sets the languages to the printed items, and nothing else, unless the printed
   * list is one of the words for no language (`—`, `-` or `none`).
   */
  lemma LanguagesLineReadsBack(d: Draft, items: seq<string>)
    requires ListableItems(items)
    requires var t := Join(items, ", "); t != "\U{2014}" && t != "-" && ToLower(t) != "none"
    ensures DetailLine(d, "Languages " + Join(items, ", ")) == d.(languages := Some(items))
  {
    var line := "Languages " + Join(items, ", ");
    CaptionThen("Languages ", Join(items, ", "));
    NotCaption(line, "Saving Throws ", 0);
    NotCaption(line, "Skills ", 0);
    NotCaption(line, "Damage Immunities ", 0);
    NotCaption(line, "Damage Resistances ", 0);
    NotCaption(line, "Damage Vulnerabilities ", 0);
    NotCaption(line, "Condition Immunities ", 0);
    NotCaption(line, "Senses ", 0);
    ListItemsOfJoin(items);
  }

  /** `Languages —` (or `-`, or `none` in any case) sets the languages to the empty list, and nothing else. */
  lemma NoLanguagesLineReadsBack(d: Draft, word: string)
    requires word == "\U{2014}" || word == "-" || ToLower(word) == "none"
    ensures DetailLine(d, "Languages " + word) == d.(languages := Some([]))
  {
    var line := "Languages " + word;
    CaptionThen("Languages ", word);
    NotCaption(line, "Saving Throws ", 0);
    NotCaption(line, "Skills ", 0);
    NotCaption(line, "Damage Immunities ", 0);
    NotCaption(line, "Damage Resistances ", 0);
    NotCaption(line, "Damage Vulnerabilities ", 0);
    NotCaption(line, "Condition Immunities ", 0);
    NotCaption(line, "Senses ", 0);
  }
}
