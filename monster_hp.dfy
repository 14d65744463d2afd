/**
 * Monster hit points: the hit die a creature size rolls, the average-roll hit points of a number
 * of such dice, the `NdD ± K` formula the stat block prints, and the reader that takes the
 * number of dice back out of such a formula.
 */
module MonsterHP {
  import opened Text

  /** The hit die of each creature size. */
  const HitDieBySize: map<string, int> := map[
    "Tiny" := 4, "Small" := 6, "Medium" := 8, "Large" := 10, "Huge" := 12, "Gargantuan" := 20]

  /** `getHitDieSize`: the size's hit die, or 8 for a size the table does not list. */
  function HitDieSize(size: string): (d: int)
    ensures size !in HitDieBySize ==> d == 8
    ensures size in HitDieBySize ==> d == HitDieBySize[size]
    ensures d in {4, 6, 8, 10, 12, 20}
  {
    if size in HitDieBySize && HitDieBySize[size] != 0 then HitDieBySize[size] else 8
  }

  lemma HitDieSizeExamples()
    ensures HitDieSize("Tiny") == 4 && HitDieSize("Small") == 6 && HitDieSize("Medium") == 8
    ensures HitDieSize("Large") == 10 && HitDieSize("Huge") == 12 && HitDieSize("Gargantuan") == 20
    ensures HitDieSize("Colossal") == 8 && HitDieSize("") == 8
  {
  }

  /**
   * `calculateMonsterHP`: no dice give 0 hit points; otherwise the average roll `(d + 1) / 2` of
   * each die, summed and rounded down once, plus the constitution modifier once per die.
   */
  function CalculateMonsterHP(numDice: int, dieSize: int, conModifier: int): (hp: int)
    ensures numDice <= 0 ==> hp == 0
    ensures numDice > 0 ==>
              var dice := hp - numDice * conModifier;
              2 * dice <= numDice * (dieSize + 1) < 2 * dice + 2
  {
    if numDice <= 0 then 0
    else numDice * (dieSize + 1) / 2 + numDice * conModifier
  }

  lemma CalculateMonsterHPExamples()
    ensures CalculateMonsterHP(33, 20, 10) == 676
    ensures CalculateMonsterHP(10, 8, -2) == 25
    ensures CalculateMonsterHP(5, 6, 0) == 17
    ensures CalculateMonsterHP(3, 4, 1) == 10
    ensures CalculateMonsterHP(5, 8, 1) == 27
    ensures CalculateMonsterHP(0, 8, 3) == 0
  {
  }

  /** With a modifier that is not negative, one more die always gives more hit points. */
  lemma CalculateMonsterHPMonotone(numDice: int, dieSize: int, conModifier: int)
    requires numDice >= 1 && dieSize >= 1 && conModifier >= 0
    ensures CalculateMonsterHP(numDice, dieSize, conModifier) < CalculateMonsterHP(numDice + 1, dieSize, conModifier)
  {
  }

  /** The printed modifier part of a formula: nothing, ` + T` or ` - |T|`. */
  function ModifierSuffix(total: int): (r: string)
    ensures total == 0 <==> r == ""
    ensures total > 0 ==> r == " + " + NatToString(total)
    ensures total < 0 ==> r == " - " + NatToString(-total)
  {
    if total == 0 then ""
    else if total > 0 then " + " + NatToString(total)
    else " - " + NatToString(-total)
  }

  /** `generateHPFormula`: `NdD`, then the total modifier `N * c` with its sign spelled out. */
  function GenerateHPFormula(numDice: int, dieSize: int, conModifier: int): (r: string)
    ensures numDice <= 0 <==> r == ""
  {
    if numDice <= 0 then ""
    else NatToString(numDice) + "d" + IntToString(dieSize) + ModifierSuffix(numDice * conModifier)
  }

  lemma GenerateHPFormulaExamples()
    ensures GenerateHPFormula(33, 20, 10) == "33d20 + 330"
  {
    TwoDigits(33);
    TwoDigits(20);
    assert NatToString(330) == NatToString(33) + "0";
  }

  lemma GenerateHPFormulaExample15()
    ensures GenerateHPFormula(15, 12, 6) == "15d12 + 90"
  {
    TwoDigits(15);
    TwoDigits(12);
    TwoDigits(90);
  }

  lemma GenerateHPFormulaSmallExamples()
    ensures GenerateHPFormula(10, 8, -2) == "10d8 - 20"
    ensures GenerateHPFormula(5, 6, 0) == "5d6"
    ensures GenerateHPFormula(1, 4, 1) == "1d4 + 1"
  {
    TwoDigits(10);
    TwoDigits(20);
  }

  /** A two-digit number prints as its two digits. */
  lemma TwoDigits(n: nat)
    requires 10 <= n < 100
    ensures NatToString(n) == [DigitChar(n / 10), DigitChar(n % 10)]
  {
  }

  /**
   * The pattern `^(\d+)d\d+` at `k`: the text starts with `k >= 1` digits, then `d`, then a digit.
   * The group captures the first `k` characters.
   */
  predicate DiceMatchAt(t: string, k: nat) {
    1 <= k && k + 1 < |t| && AllDigits(t[..k]) && t[k] == 'd' && IsDigit(t[k + 1])
  }

  /** `parseHitDiceFromFormula`: the digits before `d<digit>` at the start of the trimmed text, or 0. */
  function ParseHitDiceFromFormula(formula: string): (n: nat)
    ensures formula == "" ==> n == 0
    ensures (forall k: nat :: !DiceMatchAt(Trim(formula), k)) ==> n == 0
    ensures forall k: nat :: DiceMatchAt(Trim(formula), k) ==> n == DigitsValue(Trim(formula)[..k])
  {
    if formula == "" then 0
    else
      var t := Trim(formula);
      var digits := LeadingDigits(t);
      MatchIsLeadingDigits(t);
      if DiceMatchAt(t, |digits|) then DigitsValue(digits) else 0
  }

  /** The greedy group is the whole run of leading digits: the match, if any, is at that run's end. */
  lemma MatchIsLeadingDigits(t: string)
    ensures forall k: nat :: DiceMatchAt(t, k) ==> k == |LeadingDigits(t)|
  {
    forall k: nat | DiceMatchAt(t, k)
      ensures k == |LeadingDigits(t)|
    {
      var r := LeadingDigits(t);
      if |r| < k {
        assert false;
      } else if |r| > k {
        assert false;
      }
    }
  }

  /** Texts without a dice count read as 0. */
  lemma ParseHitDiceInvalid()
    ensures ParseHitDiceFromFormula("invalid") == 0
    ensures ParseHitDiceFromFormula("100") == 0
    ensures ParseHitDiceFromFormula("") == 0
  {
    var a := "invalid";
    assert a[0] == 'i' && a[|a| - 1] == 'd';
    ParseDigitsOnly(a);
    var b := "100";
    assert b[0] == '1' && b[|b| - 1] == '0';
    DigitIsNotSpace(b[0]);
    DigitIsNotSpace(b[|b| - 1]);
    ParseDigitsOnly(b);
  }

  /** A trimmed text that neither starts with a digit nor contains a `d` has no match. */
  lemma ParseDigitsOnly(t: string)
    requires NoSpaceAtEnds(t)
    requires t == [] || !IsDigit(t[0]) || forall i :: 0 <= i < |t| ==> t[i] != 'd'
    ensures ParseHitDiceFromFormula(t) == 0
  {
    TrimOfTrimmed(t);
  }

  /** A printed formula starts with the first digit of its dice count and ends with a digit. */
  lemma FormulaEnds(numDice: int, dieSize: int, conModifier: int)
    requires numDice > 0
    ensures var f := GenerateHPFormula(numDice, dieSize, conModifier);
            f == NatToString(numDice) + ("d" + IntToString(dieSize) + ModifierSuffix(numDice * conModifier))
            && NoSpaceAtEnds(f)
  {
    var n := NatToString(numDice);
    var tail := "d" + IntToString(dieSize) + ModifierSuffix(numDice * conModifier);
    ConcatAssoc(n, "d", IntToString(dieSize), ModifierSuffix(numDice * conModifier));
    TailEndsInDigit(dieSize, numDice * conModifier);
    DigitsAtEnds(n, tail);
  }

  lemma ConcatAssoc<T>(a: seq<T>, b: seq<T>, c: seq<T>, d: seq<T>)
    ensures a + b + c + d == a + (b + c + d)
  {
  }

  lemma DigitsAtEnds(n: string, tail: string)
    requires |n| > 0 && IsDigit(n[0]) && |tail| > 0 && IsDigit(tail[|tail| - 1])
    ensures NoSpaceAtEnds(n + tail)
  {
    var f := n + tail;
    assert f[|f| - 1] == tail[|tail| - 1];
    assert f[0] == n[0];
    DigitIsNotSpace(f[0]);
    DigitIsNotSpace(f[|f| - 1]);
  }

  lemma DigitIsNotSpace(c: char)
    requires IsDigit(c)
    ensures !IsSpace(c)
  {
  }

  lemma TailEndsInDigit(dieSize: int, total: int)
    ensures var tail := "d" + IntToString(dieSize) + ModifierSuffix(total);
            IsDigit(tail[|tail| - 1])
  {
    var d := IntToString(dieSize);
    var suffix := ModifierSuffix(total);
    var tail := "d" + d + suffix;
    if suffix == "" {
      assert tail[|tail| - 1] == d[|d| - 1];
      if dieSize < 0 {
        assert d[|d| - 1] == d[1..][|d| - 2];
      }
    } else {
      var m: nat := if total > 0 then total else -total;
      var digits := NatToString(m);
      assert suffix == suffix[..3] + digits;
      assert tail[|tail| - 1] == suffix[|suffix| - 1] == digits[|digits| - 1];
    }
  }

  /** Every formula the printer writes for some dice and a non-negative die reads back as its number of dice. */
  lemma ParseGeneratedFormula(numDice: int, dieSize: int, conModifier: int)
    requires numDice > 0 && dieSize >= 0
    ensures ParseHitDiceFromFormula(GenerateHPFormula(numDice, dieSize, conModifier)) == numDice
  {
    var n := NatToString(numDice);
    var d := IntToString(dieSize);
    var f := GenerateHPFormula(numDice, dieSize, conModifier);
    FormulaEnds(numDice, dieSize, conModifier);
    TrimOfTrimmed(f);
    assert DiceMatchAt(f, |n|) by {
      assert f[..|n|] == n;
      assert f[|n|] == 'd';
      assert f[|n| + 1] == d[0];
    }
    assert f[..|n|] == n;
    DigitsValueOfNatToString(numDice);
  }

  /** A formula printed for a negative die has no digit after its `d` and reads back as 0. */
  lemma ParseNegativeDieFormula(numDice: int, dieSize: int, conModifier: int)
    requires numDice > 0 && dieSize < 0
    ensures ParseHitDiceFromFormula(GenerateHPFormula(numDice, dieSize, conModifier)) == 0
  {
    var n := NatToString(numDice);
    var d := IntToString(dieSize);
    var f := GenerateHPFormula(numDice, dieSize, conModifier);
    FormulaEnds(numDice, dieSize, conModifier);
    TrimOfTrimmed(f);
    MatchIsLeadingDigits(f);
    LeadingDigitsOfConcat(n, "d" + d + ModifierSuffix(numDice * conModifier));
    assert f[|n| + 1] == '-';
  }
}
