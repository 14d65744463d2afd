/**
 * The string primitives of JavaScript that the card editor relies on: `trim`, `startsWith`,
 * `includes`, `split`, `join`, ASCII `toLowerCase`, the template rendering of an integer
 * (`${n}`) and `parseInt(s, 10)`.
 */
module Text {
  import opened Wrappers

  /**
   * JavaScript's white space and line terminators: the set that `String.prototype.trim`,
   * the regular-expression class `\s` and `parseInt` all skip.
   */
  predicate IsSpace(c: char) {
    || c == ' ' || c == '\t' || c == '\n' || c == '\r' || c == '\U{B}' || c == '\U{C}'
    || c == '\U{A0}' || c == '\U{1680}' || ('\U{2000}' <= c <= '\U{200A}')
    || c == '\U{2028}' || c == '\U{2029}' || c == '\U{202F}' || c == '\U{205F}'
    || c == '\U{3000}' || c == '\U{FEFF}'
  }

  predicate IsDigit(c: char) {
    '0' <= c <= '9'
  }

  /** The class `[a-z]` under the `i` flag. */
  predicate IsLetter(c: char) {
    ('a' <= c <= 'z') || ('A' <= c <= 'Z')
  }

  predicate AllDigits(s: string) {
    forall i :: 0 <= i < |s| ==> IsDigit(s[i])
  }

  predicate NoSpaceAtEnds(s: string) {
    s == [] || (!IsSpace(s[0]) && !IsSpace(s[|s| - 1]))
  }

  // ---------------------------------------------------------------------------------------------
  // trim

  function TrimStart(s: string): (r: string)
    ensures |r| <= |s|
    ensures r == [] || !IsSpace(r[0])
    ensures forall i :: 0 <= i < |s| - |r| ==> IsSpace(s[i])
  {
    if |s| > 0 && IsSpace(s[0]) then TrimStart(s[1..]) else s
  }

  function TrimEnd(s: string): (r: string)
    ensures |r| <= |s|
    ensures r == [] || !IsSpace(r[|r| - 1])
    ensures forall i :: |r| <= i < |s| ==> IsSpace(s[i])
  {
    if |s| > 0 && IsSpace(s[|s| - 1]) then TrimEnd(s[..|s| - 1]) else s
  }

  /** What `TrimStart` leaves is a suffix of its argument. */
  lemma {:induction false} TrimStartIsSuffix(s: string)
    ensures TrimStart(s) == s[|s| - |TrimStart(s)|..]
  {
    if |s| > 0 && IsSpace(s[0]) {
      TrimStartIsSuffix(s[1..]);
      assert s[1..][|s[1..]| - |TrimStart(s[1..])|..] == s[|s| - |TrimStart(s)|..];
    }
  }

  /** What `TrimEnd` leaves is a prefix of its argument. */
  lemma {:induction false} TrimEndIsPrefix(s: string)
    ensures TrimEnd(s) == s[..|TrimEnd(s)|]
  {
    if |s| > 0 && IsSpace(s[|s| - 1]) {
      TrimEndIsPrefix(s[..|s| - 1]);
      assert s[..|s| - 1][..|TrimEnd(s)|] == s[..|TrimEnd(s)|];
    }
  }

  /** `s.trim()`: the longest infix with no white space at either end, obtained by removing only white space. */
  function Trim(s: string): (r: string)
    ensures NoSpaceAtEnds(r)
    ensures |r| <= |s|
  {
    TrimEndIsPrefix(TrimStart(s));
    TrimEnd(TrimStart(s))
  }

  /**
   * What `Trim` leaves is the part of `s` between its leading and its trailing white space:
   * everything removed before it and after it is white space.
   */
  lemma TrimIsInfix(s: string)
    ensures var a := |s| - |TrimStart(s)|;
            var r := Trim(s);
            a + |r| <= |s| && r == s[a..a + |r|] &&
            (forall i :: 0 <= i < a ==> IsSpace(s[i])) &&
            (forall i :: a + |r| <= i < |s| ==> IsSpace(s[i]))
  {
    var t := TrimStart(s);
    var a := |s| - |t|;
    var r := Trim(s);
    TrimStartIsSuffix(s);
    TrimEndIsPrefix(t);
    assert r == s[a..][..|r|];
    forall i | a + |r| <= i < |s|
      ensures IsSpace(s[i])
    {
      assert s[i] == t[i - a];
    }
  }

  lemma TrimOfTrimmed(s: string)
    requires NoSpaceAtEnds(s)
    ensures Trim(s) == s
  {
  }

  // ---------------------------------------------------------------------------------------------
  // prefixes, searching, case

  /** `s.startsWith(p)`. */
  predicate StartsWith(s: string, p: string) {
    |p| <= |s| && s[..|p|] == p
  }

  /** `s.includes(p)`. */
  predicate Contains(s: string, p: string)
    decreases |s|
  {
    StartsWith(s, p) || (|s| > 0 && Contains(s[1..], p))
  }

  function LowerChar(c: char): char {
    if 'A' <= c <= 'Z' then (c as int + 32) as char else c
  }

  function UpperChar(c: char): char {
    if 'a' <= c <= 'z' then (c as int - 32) as char else c
  }

  /** `s.toLowerCase()` on ASCII letters. */
  function ToLower(s: string): (r: string)
    ensures |r| == |s|
    ensures forall i :: 0 <= i < |s| ==> r[i] == LowerChar(s[i])
  {
    seq(|s|, i requires 0 <= i < |s| => LowerChar(s[i]))
  }

  /** Case-insensitive prefix test, as a regular expression with the `i` flag does it. */
  predicate StartsWithIgnoreCase(s: string, p: string) {
    |p| <= |s| && ToLower(s[..|p|]) == ToLower(p)
  }

  // ---------------------------------------------------------------------------------------------
  // split and join

  /** `s.split(c)` for a separator character, or `s.split(/[...]/)` for a character class. */
  function Split(s: string, seps: set<char>): (r: seq<string>)
    ensures |r| >= 1
    ensures forall k, i :: 0 <= k < |r| && 0 <= i < |r[k]| ==> r[k][i] !in seps
  {
    if |s| == 0 then [""]
    else
      var rest := Split(s[1..], seps);
      if s[0] in seps then [""] + rest
      else [[s[0]] + rest[0]] + rest[1..]
  }

  /** `parts.join(sep)`. */
  function Join(parts: seq<string>, sep: string): (r: string)
  {
    if |parts| == 0 then ""
    else if |parts| == 1 then parts[0]
    else parts[0] + sep + Join(parts[1..], sep)
  }

  /** Splitting on one separator and joining with it again gives back the text. */
  lemma {:induction false} JoinSplit(s: string, c: char)
    ensures Join(Split(s, {c}), [c]) == s
  {
    if |s| > 0 {
      JoinSplit(s[1..], c);
      var rest := Split(s[1..], {c});
      if s[0] != c {
        if |rest| > 1 {
          assert Join(rest, [c]) == rest[0] + [c] + Join(rest[1..], [c]);
          assert [[s[0]] + rest[0]] + rest[1..] == [[s[0]] + rest[0]] + rest[1..];
          assert Join([[s[0]] + rest[0]] + rest[1..], [c])
              == ([s[0]] + rest[0]) + [c] + Join(rest[1..], [c]);
        }
      } else {
        assert Split(s, {c}) == [""] + rest;
        assert ([""] + rest)[1..] == rest;
      }
    }
  }

  // ---------------------------------------------------------------------------------------------
  // decimal numerals

  function DigitValue(c: char): nat
    requires IsDigit(c)
  {
    c as int - '0' as int
  }

  function DigitChar(d: nat): (c: char)
    requires d < 10
    ensures IsDigit(c) && DigitValue(c) == d
  {
    (d + '0' as int) as char
  }

  /** The value of a decimal numeral (leading zeros allowed, as `parseInt` allows them). */
  function DigitsValue(s: string): nat
    requires AllDigits(s)
  {
    if s == [] then 0 else DigitsValue(s[..|s| - 1]) * 10 + DigitValue(s[|s| - 1])
  }

  /** The longest prefix of `s` made of decimal digits: the match of `/^(\d+)/` when non-empty. */
  function LeadingDigits(s: string): (r: string)
    ensures AllDigits(r)
    ensures StartsWith(s, r)
    ensures |r| == |s| || !IsDigit(s[|r|])
  {
    if |s| > 0 && IsDigit(s[0]) then [s[0]] + LeadingDigits(s[1..]) else ""
  }

  /** The template rendering `${n}` of a non-negative integer. */
  function NatToString(n: nat): (r: string)
    ensures |r| >= 1 && AllDigits(r)
    ensures r[0] == '0' <==> n == 0
    ensures |r| == 1 || r[0] != '0'
  {
    if n < 10 then [DigitChar(n)] else NatToString(n / 10) + [DigitChar(n % 10)]
  }

  /** The template rendering `${i}` of an integer: a minus sign for negatives, no sign otherwise. */
  function IntToString(i: int): (r: string)
    ensures i >= 0 ==> |r| >= 1 && AllDigits(r)
    ensures i < 0 ==> |r| >= 2 && r[0] == '-' && AllDigits(r[1..])
    ensures i >= 0 ==> (r[0] == '0' <==> i == 0)
    ensures i >= 0 ==> |r| == 1 || r[0] != '0'
    ensures i < 0 ==> r[1] != '0'
  {
    if i < 0 then "-" + NatToString(-i) else NatToString(i)
  }

  lemma {:induction false} DigitsValueOfNatToString(n: nat)
    ensures DigitsValue(NatToString(n)) == n
  {
    if n >= 10 {
      DigitsValueOfNatToString(n / 10);
      var s := NatToString(n);
      assert s[..|s| - 1] == NatToString(n / 10);
    }
  }

  lemma {:induction false} LeadingDigitsOfConcat(a: string, b: string)
    requires AllDigits(a)
    requires b == [] || !IsDigit(b[0])
    ensures LeadingDigits(a + b) == a
  {
    if a != [] {
      assert (a + b)[1..] == a[1..] + b;
      LeadingDigitsOfConcat(a[1..], b);
    } else {
      assert a + b == b;
    }
  }

  /**
   * `parseInt(s, 10)`: skip leading white space, accept one optional sign, then read the longest
   * run of decimal digits; `None` (NaN) when that run is empty.
   */
  function ParseInt(s: string): (r: Option<int>)
    ensures r.None? <==> LeadingDigits(SignStripped(TrimStart(s))) == ""
  {
    var t := TrimStart(s);
    var digits := LeadingDigits(SignStripped(t));
    if digits == "" then None
    else
      var v: int := DigitsValue(digits);
      if |t| > 0 && t[0] == '-' then Some(-v) else Some(v)
  }

  function SignStripped(t: string): string {
    if |t| > 0 && (t[0] == '-' || t[0] == '+') then t[1..] else t
  }

  /** `parseInt` reads back every integer that `${i}` renders. */
  lemma ParseIntOfIntToString(i: int)
    ensures ParseInt(IntToString(i)) == Some(i)
  {
    var n: nat := if i < 0 then -i else i;
    var s := NatToString(n);
    DigitsValueOfNatToString(n);
    LeadingDigitsOfConcat(s, "");
    assert s + "" == s;
    var t := IntToString(i);
    assert t[0] == '-' || IsDigit(t[0]);
    TrimStartOfNonSpace(t);
    if i < 0 {
      assert t == "-" + s;
      assert SignStripped(t) == s;
    } else {
      assert SignStripped(t) == s;
    }
  }

  lemma TrimStartOfNonSpace(t: string)
    requires |t| > 0 && (t[0] == '-' || t[0] == '+' || IsDigit(t[0]))
    ensures TrimStart(t) == t
  {
    assert !IsSpace(t[0]);
  }

  predicate IsHexDigit(c: char) {
    IsDigit(c) || ('a' <= c <= 'f') || ('A' <= c <= 'F')
  }

  function HexDigitValue(c: char): (v: nat)
    requires IsHexDigit(c)
    ensures v < 16
  {
    if IsDigit(c) then DigitValue(c)
    else if 'a' <= c <= 'f' then c as int - 'a' as int + 10
    else c as int - 'A' as int + 10
  }

  /** The longest prefix of `s` made of hexadecimal digits. */
  function LeadingHexDigits(s: string): (r: string)
    ensures StartsWith(s, r)
    ensures forall i :: 0 <= i < |r| ==> IsHexDigit(r[i])
    ensures |r| == |s| || !IsHexDigit(s[|r|])
  {
    if |s| > 0 && IsHexDigit(s[0]) then [s[0]] + LeadingHexDigits(s[1..]) else ""
  }

  function HexValue(s: string): nat
    requires forall i :: 0 <= i < |s| ==> IsHexDigit(s[i])
  {
    if s == [] then 0 else HexValue(s[..|s| - 1]) * 16 + HexDigitValue(s[|s| - 1])
  }

  predicate HasHexPrefix(u: string) {
    |u| >= 2 && u[0] == '0' && (u[1] == 'x' || u[1] == 'X')
  }

  /**
   * `parseInt(s)` with no radix: as `ParseInt`, except that after the sign a `0x` or `0X` prefix
   * switches to hexadecimal digits.
   */
  function ParseIntAnyRadix(s: string): (r: Option<int>)
    ensures !HasHexPrefix(SignStripped(TrimStart(s))) ==> r == ParseInt(s)
  {
    var t := TrimStart(s);
    var u := SignStripped(t);
    if HasHexPrefix(u) then
      var digits := LeadingHexDigits(u[2..]);
      if digits == "" then None
      else
        var v: int := HexValue(digits);
        if |t| > 0 && t[0] == '-' then Some(-v) else Some(v)
    else ParseInt(s)
  }

  /** `parseInt` reads a hyphen-minus followed by digits as the negated value of the digits. */
  lemma ParseIntOfMinusDigits(s: string, n: nat)
    requires |s| >= 1 && AllDigits(s) && DigitsValue(s) == n
    ensures ParseInt("-" + s) == Some(-(n as int))
  {
    var t := "-" + s;
    LeadingDigitsOfConcat(s, "");
    assert s + "" == s;
    TrimStartOfNonSpace(t);
    assert t[0] == '-' && t[1..] == s;
    assert SignStripped(t) == s;
    assert LeadingDigits(SignStripped(TrimStart(t))) == s;
  }

  /** `parseInt` reads a plus sign followed by digits as the value of the digits. */
  lemma ParseIntOfPlusDigits(s: string, n: nat)
    requires |s| >= 1 && AllDigits(s) && DigitsValue(s) == n
    ensures ParseInt("+" + s) == Some(n)
  {
    var t := "+" + s;
    LeadingDigitsOfConcat(s, "");
    assert s + "" == s;
    TrimStartOfNonSpace(t);
    assert SignStripped(t) == s;
  }

  /** `parseInt` reads a hyphen-minus followed by digits as the negated numeral. */
  lemma ParseIntOfMinusSigned(n: nat)
    ensures ParseInt("-" + NatToString(n)) == Some(-(n as int))
  {
    DigitsValueOfNatToString(n);
    ParseIntOfMinusDigits(NatToString(n), n);
  }

  /** `parseInt` also reads back an integer written with an explicit plus sign. */
  lemma ParseIntOfPlusSigned(n: nat)
    ensures ParseInt("+" + NatToString(n)) == Some(n)
  {
    DigitsValueOfNatToString(n);
    ParseIntOfPlusDigits(NatToString(n), n);
  }
}
