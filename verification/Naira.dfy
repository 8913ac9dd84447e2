/** Naira amounts as text: printing kobo with grouped digits, and reading what people type. */
module Naira {
  import opened Wrappers
  import opened Decimal
  import opened WhiteSpace

  // --- Printing ------------------------------------------------------------------------------

  /** Thousands separators, from the right. */
  function Grouped(digits: string): string {
    if |digits| <= 3 then digits else Grouped(digits[..|digits| - 3]) + "," + digits[|digits| - 3..]
  }

  function TwoDigits(n: nat): (s: string)
    requires n < 100
    ensures AllDigits(s) && |s| == 2 && Value(s) == n
  {
    assert Value([DigitChar(n / 10)]) == n / 10 by { assert [DigitChar(n / 10)][..0] == ""; }
    assert [DigitChar(n / 10), DigitChar(n % 10)][..1] == [DigitChar(n / 10)];
    [DigitChar(n / 10), DigitChar(n % 10)]
  }

  function FormatNaira(kobo: nat): string {
    Grouped(Digits(kobo / 100)) + "." + TwoDigits(kobo % 100)
  }

  /** Counted from the right, exactly every fourth character is a comma, and none leads. */
  lemma {:induction false} GroupsOfThree(digits: string)
    requires AllDigits(digits) && digits != ""
    ensures var g := Grouped(digits);
      && g != "" && IsDigit(g[0])
      && forall i :: 0 <= i < |g| ==> if i % 4 == 3 then g[|g| - 1 - i] == ',' else IsDigit(g[|g| - 1 - i])
  {
    if |digits| > 3 {
      var front := digits[..|digits| - 3];
      GroupsOfThree(front);
      var f, g := Grouped(front), Grouped(digits);
      assert |g| == |f| + 4 && g[..|f|] == f;
      forall i | 0 <= i < |g| ensures if i % 4 == 3 then g[|g| - 1 - i] == ',' else IsDigit(g[|g| - 1 - i]) {
        if i >= 4 {
          assert g[|g| - 1 - i] == f[|f| - 1 - (i - 4)];
          assert (i - 4) % 4 == i % 4;
        }
      }
    }
  }

  /** Two decimals behind a point, a comma before every three digits left of it, and no zero that leads. */
  lemma PrintedShape(kobo: nat)
    ensures var t := FormatNaira(kobo);
      && |t| >= 4 && t[|t| - 3] == '.' && IsDigit(t[|t| - 2]) && IsDigit(t[|t| - 1])
      && (forall i :: 0 <= i < |t| - 3 ==> if i % 4 == 3 then t[|t| - 4 - i] == ',' else IsDigit(t[|t| - 4 - i]))
      && IsDigit(t[0]) && (kobo >= 100 ==> t[0] != '0') && (kobo < 100 ==> |t| == 4 && t[0] == '0')
  {
    var whole, cents := Grouped(Digits(kobo / 100)), TwoDigits(kobo % 100);
    var t := FormatNaira(kobo);
    assert t == whole + "." + cents && |t| == |whole| + 3;
    GroupsOfThree(Digits(kobo / 100));
    GroupedFirst(Digits(kobo / 100));
    forall i | 0 <= i < |t| - 3 ensures if i % 4 == 3 then t[|t| - 4 - i] == ',' else IsDigit(t[|t| - 4 - i]) {
      assert t[|t| - 4 - i] == whole[|whole| - 1 - i];
    }
    if kobo >= 100 {
      NoLeadingZero(kobo / 100);
    } else {
      DigitIs(0);
    }
  }

  lemma {:induction false} GroupedFirst(digits: string)
    requires digits != ""
    ensures Grouped(digits) != "" && Grouped(digits)[0] == digits[0]
  {
    if |digits| > 3 {
      GroupedFirst(digits[..|digits| - 3]);
    }
  }

  // --- Reading ---------------------------------------------------------------------------------

  const NAIRA_SIGN: char := '\U{20A6}'

  predicate IsDecoration(c: char) { c == NAIRA_SIGN || c == ',' || IsSpace(c) }

  function Cleaned(s: string): string {
    if s == "" then ""
    else
      var last := s[|s| - 1];
      Cleaned(s[..|s| - 1]) + if IsDecoration(last) then "" else [last]
  }

  /** Length of the longest prefix of digits. */
  function DigitRun(s: string): (n: nat)
    ensures n <= |s| && AllDigits(s[..n]) && (n < |s| ==> !IsDigit(s[n]))
  {
    if s == "" || !IsDigit(s[0]) then 0
    else
      var n := 1 + DigitRun(s[1..]);
      assert forall i :: 0 < i < n ==> s[i] == s[1..][i - 1];
      n
  }

  /** One or more digits, then nothing or a point with one or two digits; in kobo. */
  function ParseNaira(input: string): Option<nat> {
    var c := Cleaned(input);
    var n := DigitRun(c);
    var rest := c[n..];
    if n == 0 then None
    else if rest == "" then Some(Value(c[..n]) * 100)
    else if rest[0] == '.' && 2 <= |rest| <= 3 && AllDigits(rest[1..]) then
      Some(Value(c[..n]) * 100 + if |rest| == 2 then Value(rest[1..]) * 10 else Value(rest[1..]))
    else None
  }

  // --- What the text means ------------------------------------------------------------------------

  /** `c` is the whole part `w` and, when there is one, a point and the fraction `f`. */
  predicate IsAmount(c: string, w: string, f: string) {
    && w != "" && AllDigits(w) && AllDigits(f) && |f| <= 2
    && c == w + if f == "" then "" else "." + f
  }

  lemma {:induction false} DigitRunOf(w: string, r: string)
    requires AllDigits(w) && (r != "" ==> !IsDigit(r[0]))
    ensures DigitRun(w + r) == |w|
  {
    if w != "" {
      assert (w + r)[1..] == w[1..] + r;
      DigitRunOf(w[1..], r);
    } else {
      assert w + r == r;
    }
  }

  lemma AmountParses(input: string, w: string, f: string)
    requires IsAmount(Cleaned(input), w, f)
    ensures ParseNaira(input).Some? && ParseNaira(input).value * Pow10(|f|) == 100 * Value(w + f)
  {
    var c := Cleaned(input);
    var r := if f == "" then "" else "." + f;
    DigitRunOf(w, r);
    assert c[..|w|] == w && c[|w|..] == r;
    ValueOfAppend(w, f);
    assert Pow10(0) == 1 && Pow10(1) == 10 && Pow10(2) == 100;
    if f != "" {
      assert r[1..] == f;
    }
  }

  lemma ParsedIsAmount(input: string) returns (w: string, f: string)
    requires ParseNaira(input).Some?
    ensures IsAmount(Cleaned(input), w, f)
  {
    var c := Cleaned(input);
    var n := DigitRun(c);
    w, f := c[..n], if c[n..] == "" then "" else c[n..][1..];
    assert c == c[..n] + c[n..];
    if f != "" {
      assert c[n..] == "." + f;
    }
  }

  /**
   Exactly what is read, and as what: text that is a plain amount once decorations are dropped,
   as 100 times its decimal value.
   */
  lemma ParsesIff(input: string, kobo: nat)
    ensures ParseNaira(input) == Some(kobo)
      <==> exists w, f :: IsAmount(Cleaned(input), w, f) && kobo * Pow10(|f|) == 100 * Value(w + f)
  {
    if ParseNaira(input) == Some(kobo) {
      var w, f := ParsedIsAmount(input);
      AmountParses(input, w, f);
    }
    if w, f :| IsAmount(Cleaned(input), w, f) && kobo * Pow10(|f|) == 100 * Value(w + f) {
      AmountParses(input, w, f);
      Cancel(kobo, ParseNaira(input).value, Pow10(|f|));
    }
  }

  lemma Cancel(a: nat, b: nat, m: nat)
    requires m > 0 && a * m == b * m
    ensures a == b
  {
  }

  // --- Round trip ------------------------------------------------------------------------------------

  /** Cleaning one character more. */
  lemma CleanedStep(front: string, last: char)
    ensures Cleaned(front + [last]) == Cleaned(front) + if IsDecoration(last) then "" else [last]
    ensures Cleaned("") == ""
  {
    hide IsDecoration;
    assert (front + [last])[..|front + [last]| - 1] == front;
  }

  /** What may stand around and inside an amount: the currency sign, commas and white space. */
  lemma {:induction false} DecorationsIff(s: string)
    ensures Cleaned(s) == "" <==> forall i :: 0 <= i < |s| ==> s[i] == '\U{20A6}' || s[i] == ',' || IsSpace(s[i])
  {
    hide Cleaned, IsSpace;
    if s == "" {
      CleanedStep("", ',');
    } else {
      var front, last := s[..|s| - 1], s[|s| - 1];
      assert s == front + [last];
      DecorationsIff(front);
      CleanedStep(front, last);
    }
  }

  lemma {:induction false} CleanedConcat(a: string, b: string)
    ensures Cleaned(a + b) == Cleaned(a) + Cleaned(b)
  {
    hide Cleaned, IsDecoration;
    if b == "" {
      CleanedStep("", ',');
      assert a + b == a;
    } else {
      var front, last := b[..|b| - 1], b[|b| - 1];
      assert b == front + [last] && a + b == (a + front) + [last];
      CleanedConcat(a, front);
      CleanedStep(front, last);
      CleanedStep(a + front, last);
    }
  }

  lemma DigitIsPlain(c: char)
    requires IsDigit(c)
    ensures !IsDecoration(c)
  {
  }

  lemma {:induction false} CleanedDigits(s: string)
    requires AllDigits(s)
    ensures Cleaned(s) == s
  {
    hide Cleaned, IsDecoration, IsDigit;
    if s == "" {
      CleanedStep("", ',');
    } else {
      var front, last := s[..|s| - 1], s[|s| - 1];
      assert s == front + [last];
      CleanedDigits(front);
      DigitIsPlain(last);
      CleanedStep(front, last);
    }
  }

  /** Cleaning undoes grouping, for any number of groups. */
  lemma {:induction false} CleanedGroups(s: string)
    requires AllDigits(s)
    ensures Cleaned(Grouped(s)) == s
  {
    hide Cleaned;
    if |s| <= 3 {
      CleanedDigits(s);
    } else {
      var front, back := s[..|s| - 3], s[|s| - 3..];
      CleanedGroups(front);
      CleanedDigits(back);
      CleanedConcat(Grouped(front) + ",", back);
      CleanedConcat(Grouped(front), ",");
      CleanedComma();
      assert s == front + back;
    }
  }

  lemma CleanedComma()
    ensures Cleaned(",") == "" && Cleaned(".") == "."
  {
    assert ","[..0] == "" && "."[..0] == "";
  }

  lemma CleanedNaira(kobo: nat)
    ensures Cleaned(FormatNaira(kobo)) == Digits(kobo / 100) + "." + TwoDigits(kobo % 100)
  {
    hide Cleaned, Grouped;
    var whole, cents := Grouped(Digits(kobo / 100)), TwoDigits(kobo % 100);
    CleanedConcat(whole + ".", cents);
    CleanedConcat(whole, ".");
    CleanedGroups(Digits(kobo / 100));
    CleanedDigits(cents);
    CleanedComma();
  }

  lemma PrintedValue(kobo: nat)
    ensures Value(Digits(kobo / 100) + TwoDigits(kobo % 100)) == kobo
  {
    ValueOfAppend(Digits(kobo / 100), TwoDigits(kobo % 100));
    ValueOfDigits(kobo / 100);
    assert Pow10(2) == 100 by { assert Pow10(1) == 10; }
  }

  /** Every printed amount reads back as itself, with or without decorations around it. */
  lemma RoundTrip(kobo: nat, before: string, after: string)
    requires Cleaned(before) == "" && Cleaned(after) == ""
    ensures ParseNaira(before + FormatNaira(kobo) + after) == Some(kobo)
  {
    hide Digits, Value, Cleaned, FormatNaira, ParseNaira;
    var w, f := Digits(kobo / 100), TwoDigits(kobo % 100);
    CleanedNaira(kobo);
    CleanedConcat(before + FormatNaira(kobo), after);
    CleanedConcat(before, FormatNaira(kobo));
    var input := before + FormatNaira(kobo) + after;
    assert Cleaned(input) == w + ("." + f);
    AmountParses(input, w, f);
    PrintedValue(kobo);
    assert Pow10(2) == 100 by { assert Pow10(1) == 10; }
  }

  /** Different amounts never print alike. */
  lemma FormatInjective(a: nat, b: nat)
    requires FormatNaira(a) == FormatNaira(b)
    ensures a == b
  {
    RoundTrip(a, "", "");
    RoundTrip(b, "", "");
    assert "" + FormatNaira(a) + "" == "" + FormatNaira(b) + "";
  }
}
