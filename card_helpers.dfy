/** The display helpers of the printed card: ability-score captions, bonus signs and the card's millimetre sizes. */
module CardHelpers {
  import opened Wrappers
  import opened Text
  import opened AbilityHelpers

  /**
   * `calcModifierOnly`: the signed modifier of the score `parseInt` reads from the text (with no
   * radix, so `0x` numerals count), or the empty text when nothing can be read.
   */
  function CalcModifierOnly(stat: string): (r: string)
    ensures ParseIntAnyRadix(stat).None? <==> r == ""
    ensures ParseIntAnyRadix(stat).Some? ==>
              ParseInt(r) == Some(AbilityModifier(ParseIntAnyRadix(stat).value))
              && (r[0] == '+' <==> AbilityModifier(ParseIntAnyRadix(stat).value) >= 0)
  {
    var value := ParseIntAnyRadix(stat);
    if value.None? then "" else FormatModifier(AbilityModifier(value.value))
  }

  /** `calcModifier`: the score itself followed by its signed modifier in parentheses. */
  function CalcModifier(stat: string): (r: string)
    ensures ParseIntAnyRadix(stat).None? <==> r == ""
    ensures ParseIntAnyRadix(stat).Some? ==>
              r == IntToString(ParseIntAnyRadix(stat).value) + " (" + CalcModifierOnly(stat) + ")"
  {
    var value := ParseIntAnyRadix(stat);
    if value.None? then ""
    else IntToString(value.value) + " (" + FormatModifier(AbilityModifier(value.value)) + ")"
  }

  /** The caption of a score the editor itself rendered reads back both numbers. */
  lemma CalcModifierOfNumber(score: int)
    ensures CalcModifier(IntToString(score)) == IntToString(score) + " (" + FormatModifier(AbilityModifier(score)) + ")"
    ensures CalcModifierOnly(IntToString(score)) == FormatModifier(AbilityModifier(score))
  {
    ParseIntAnyRadixOfIntToString(score);
  }

  /** A rendered integer has no `0x` prefix, so `parseInt` with no radix reads it back too. */
  lemma ParseIntAnyRadixOfIntToString(score: int)
    ensures ParseIntAnyRadix(IntToString(score)) == Some(score)
  {
    ParseIntOfIntToString(score);
    NoHexPrefixOfIntToString(score);
  }

  lemma NoHexPrefixOfIntToString(score: int)
    ensures !HasHexPrefix(SignStripped(TrimStart(IntToString(score))))
  {
    var s := IntToString(score);
    TrimStartOfNonSpace(s);
    var u := SignStripped(s);
    assert AllDigits(u) by {
      if score < 0 {
        assert u == s[1..];
      }
    }
    if |u| >= 2 {
      assert IsDigit(u[1]);
    }
  }

  lemma CalcModifierExamples()
    ensures CalcModifierOnly("") == ""
    ensures CalcModifier("") == ""
  {
  }

  /** A score of 15 shows as `15 (+2)`, its modifier alone as `+2`. */
  lemma CalcModifierOfFifteen()
    ensures CalcModifier("15") == "15 (+2)" && CalcModifierOnly("15") == "+2"
  {
    var s := IntToString(15);
    var m := FormatModifier(AbilityModifier(15));
    CalcModifierOfNumber(15);
    assert CalcModifier(s) == s + " (" + m + ")" && CalcModifierOnly(s) == m;
    FifteenRendered();
    assert AbilityModifier(15) == 2;
    PlusTwoRendered();
    assert s + " (" + m + ")" == "15 (+2)";
  }

  lemma FifteenRendered()
    ensures IntToString(15) == "15"
  {
    assert NatToString(15) == NatToString(1) + [DigitChar(5)];
  }

  lemma PlusTwoRendered()
    ensures FormatModifier(2) == "+2"
  {
    assert IntToString(2) == "2";
  }

  /** A score of 8 shows as `8 (-1)`, its modifier alone as `-1`. */
  lemma CalcModifierOfEight()
    ensures CalcModifier("8") == "8 (-1)" && CalcModifierOnly("8") == "-1"
  {
    assert IntToString(8) == "8";
    assert AbilityModifier(8) == -1;
    assert FormatModifier(-1) == "-1" by {
      assert IntToString(-1) == "-" + NatToString(1);
    }
    CalcModifierOfNumber(8);
  }

  /**
   * `formatBonus`: the empty text stays empty; otherwise the trimmed text, with a `+` put in front
   * unless it already starts with a sign.
   */
  function FormatBonus(bonus: string): (r: string)
    ensures bonus == "" <==> r == ""
    ensures bonus != "" ==> r[0] == '+' || r[0] == '-'
    ensures bonus != "" ==> (r == Trim(bonus) <==> StartsWith(Trim(bonus), "+") || StartsWith(Trim(bonus), "-"))
    ensures r != Trim(bonus) ==> r == "+" + Trim(bonus)
  {
    if bonus == "" then ""
    else
      var trimmed := Trim(bonus);
      if StartsWith(trimmed, "+") || StartsWith(trimmed, "-") then trimmed else "+" + trimmed
  }

  /** A bare numeral gains a `+`. */
  lemma FormatBonusOfNumeral(s: string)
    requires s != "" && AllDigits(s)
    ensures FormatBonus(s) == "+" + s
  {
    assert !IsSpace(s[0]) && !IsSpace(s[|s| - 1]);
    TrimOfTrimmed(s);
  }

  /** Text made only of white space is not empty, so it becomes a lone `+`. */
  lemma FormatBonusOfBlank(s: string)
    requires s != "" && forall i :: 0 <= i < |s| ==> IsSpace(s[i])
    ensures FormatBonus(s) == "+"
  {
    TrimStartIsSuffix(s);
    assert TrimStart(s) == "";
  }

  /** Formatting a formatted bonus changes nothing. */
  lemma FormatBonusIdempotent(bonus: string)
    ensures FormatBonus(FormatBonus(bonus)) == FormatBonus(bonus)
  {
    var r := FormatBonus(bonus);
    if bonus != "" {
      var t := Trim(bonus);
      if r != t {
        PlusKeepsEnds(t);
      }
      FormatBonusOfSigned(r);
    }
  }

  /** Putting a `+` in front of trimmed text leaves it trimmed. */
  lemma PlusKeepsEnds(t: string)
    requires NoSpaceAtEnds(t)
    ensures NoSpaceAtEnds("+" + t)
  {
    var r := "+" + t;
    if t != [] {
      assert r[|r| - 1] == t[|t| - 1];
    }
  }

  /** Trimmed text that starts with a sign is already formatted. */
  lemma FormatBonusOfSigned(r: string)
    requires r != "" && NoSpaceAtEnds(r) && (r[0] == '+' || r[0] == '-')
    ensures FormatBonus(r) == r
  {
    TrimOfTrimmed(r);
    assert StartsWith(r, [r[0]]);
  }

  /** A modifier the editor has already signed is left as it is. */
  lemma FormatBonusOfModifier(m: int)
    ensures FormatBonus(FormatModifier(m)) == FormatModifier(m)
  {
    var r := FormatModifier(m);
    SignedNumeralEnds(r);
    FormatBonusOfSigned(r);
  }

  /** A sign followed by digits has no white space at either end. */
  lemma SignedNumeralEnds(r: string)
    requires |r| >= 2 && (r[0] == '+' || r[0] == '-') && AllDigits(r[1..])
    ensures NoSpaceAtEnds(r)
  {
    assert r[|r| - 1] == r[1..][|r| - 2];
    assert IsDigit(r[|r| - 1]);
  }

  /** The millimetre measures of one card size. */
  datatype Measures = Measures(
    containerWidth: nat, containerHeight: nat,
    cardWidth: nat, cardHeight: nat,
    playerOpeningWidth: nat, playerOpeningHeight: nat, playerOpeningTop: nat,
    dmContentWidth: nat, dmContentHeight: nat)

  /** The measures of the large and the small card. */
  function SizeMeasures(isLarge: bool): (m: Measures)
    ensures m.cardHeight == m.containerHeight
    ensures 2 * m.cardWidth <= m.containerWidth
    ensures m.playerOpeningWidth < m.cardWidth
    ensures m.playerOpeningTop + m.playerOpeningHeight <= m.cardHeight
    ensures m.dmContentWidth < m.cardWidth && m.dmContentHeight < m.cardHeight
  {
    if isLarge then Measures(128, 89, 64, 89, 59, 83, 3, 59, 85)
    else Measures(76, 77, 37, 77, 33, 43, 4, 33, 73)
  }

  /** The measures as the style sheet writes them. */
  datatype Dimensions = Dimensions(
    containerWidth: string, containerHeight: string,
    cardWidth: string, cardHeight: string,
    playerOpeningWidth: string, playerOpeningHeight: string, playerOpeningTop: string,
    dmContentWidth: string, dmContentHeight: string)

  function Mm(n: nat): (r: string)
    ensures |r| >= 3 && r[|r| - 2..] == "mm"
  {
    NatToString(n) + "mm"
  }

  /** `getCardDimensions`: every measure of the chosen size, in millimetres. */
  function CardDimensions(isLarge: bool): (d: Dimensions)
    ensures d.cardHeight == d.containerHeight
    ensures d.playerOpeningWidth == d.dmContentWidth
  {
    var m := SizeMeasures(isLarge);
    Dimensions(Mm(m.containerWidth), Mm(m.containerHeight), Mm(m.cardWidth), Mm(m.cardHeight),
               Mm(m.playerOpeningWidth), Mm(m.playerOpeningHeight), Mm(m.playerOpeningTop),
               Mm(m.dmContentWidth), Mm(m.dmContentHeight))
  }

  /** Every measure of the large card, as the style sheet writes it. */
  lemma LargeCardDimensions()
    ensures CardDimensions(true) == Dimensions("128mm", "89mm", "64mm", "89mm", "59mm", "83mm", "3mm", "59mm", "85mm")
  {
    assert Mm(128) == "128mm" by { assert NatToString(128) == NatToString(12) + ['8']; }
    assert Mm(89) == "89mm" by { assert NatToString(89) == "89"; }
    assert Mm(64) == "64mm" by { assert NatToString(64) == "64"; }
    assert Mm(59) == "59mm" by { assert NatToString(59) == "59"; }
    assert Mm(83) == "83mm" by { assert NatToString(83) == "83"; }
    assert Mm(3) == "3mm" by { assert NatToString(3) == "3"; }
    assert Mm(85) == "85mm" by { assert NatToString(85) == "85"; }
  }

  /** Every measure of the small card, as the style sheet writes it. */
  lemma SmallCardDimensions()
    ensures CardDimensions(false) == Dimensions("76mm", "77mm", "37mm", "77mm", "33mm", "43mm", "4mm", "33mm", "73mm")
  {
    assert Mm(76) == "76mm" by { assert NatToString(76) == "76"; }
    assert Mm(77) == "77mm" by { assert NatToString(77) == "77"; }
    assert Mm(37) == "37mm" by { assert NatToString(37) == "37"; }
    assert Mm(33) == "33mm" by { assert NatToString(33) == "33"; }
    assert Mm(43) == "43mm" by { assert NatToString(43) == "43"; }
    assert Mm(4) == "4mm" by { assert NatToString(4) == "4"; }
    assert Mm(73) == "73mm" by { assert NatToString(73) == "73"; }
  }
}
