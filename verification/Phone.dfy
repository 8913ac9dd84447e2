/** Phone numbers as stored, normalized to E.164 digits without a plus (ITU-T E.164, section 6). */
module Phone {
  import opened Wrappers
  import opened Decimal
  import opened WhiteSpace

  const MIN_DIGITS := 8
  const MAX_DIGITS := 15
  const NIGERIA := "234"
  const NATIONAL_LENGTH := 10

  datatype Unroutable = Empty | NotDialable | NoDigits | BadCountryCode | MalformedNigerian | WrongLength

  predicate StartsWith(s: string, p: string) { p <= s }

  function WithoutPlus(s: string): string { if StartsWith(s, "+") then s[1..] else s }

  predicate DialChar(c: char) { IsDigit(c) || IsSpace(c) || c == '(' || c == ')' || c == '.' || c == '-' }

  /** One optional plus, then one or more dial characters. */
  predicate Dialable(s: string) {
    WithoutPlus(s) != "" && forall i :: 0 <= i < |WithoutPlus(s)| ==> DialChar(WithoutPlus(s)[i])
  }

  function DigitsOf(s: string): (d: string)
    ensures AllDigits(d)
  {
    if s == "" then ""
    else DigitsOf(s[..|s| - 1]) + if IsDigit(s[|s| - 1]) then [s[|s| - 1]] else ""
  }

  function WithoutZeros(d: string): (r: string)
    ensures |r| <= |d| && (AllDigits(d) ==> AllDigits(r))
    ensures r != "" ==> r[0] != '0'
  {
    if d != "" && d[0] == '0' then WithoutZeros(d[1..]) else d
  }

  predicate Mobile(d: string) { |d| == NATIONAL_LENGTH && '7' <= d[0] <= '9' }

  /** The trunk and bare national forms get the default country code. */
  function WithCountry(plus: bool, d: string, country: string): Result<string, Unroutable> {
    if StartsWith(d, "0") then
      if plus then Err(BadCountryCode) else Ok(country + WithoutZeros(d))
    else if country == NIGERIA && Mobile(d) then Ok(NIGERIA + d)
    else Ok(d)
  }

  function Checked(d: string): Result<string, Unroutable> {
    if StartsWith(d, NIGERIA) && |d| != |NIGERIA| + NATIONAL_LENGTH then Err(MalformedNigerian)
    else if |d| < MIN_DIGITS || |d| > MAX_DIGITS then Err(WrongLength)
    else Ok(d)
  }

  /** From the plus and the digits alone. */
  function FromDigits(plus: bool, d: string, country: string): Result<string, Unroutable> {
    match WithCountry(plus, if !plus && StartsWith(d, "00") then d[2..] else d, country)
    case Err(e) => Err(e)
    case Ok(full) => Checked(full)
  }

  function Normalized(raw: string, country: string): Result<string, Unroutable> {
    var t := Trim(raw);
    if t == "" then Err(Empty)
    else if !Dialable(t) then Err(NotDialable)
    else if DigitsOf(t) == "" then Err(NoDigits)
    else FromDigits(StartsWith(t, "+"), DigitsOf(t), country)
  }

  /** `digits` is rewritten branch by branch. */
  method NormalizeMsisdn(raw: string, country: string) returns (r: Result<string, Unroutable>)
    ensures r == Normalized(raw, country)
  {
    var trimmed := Trim(raw);
    if trimmed == "" {
      return Err(Empty);
    }
    if !Dialable(trimmed) {
      return Err(NotDialable);
    }
    var hadPlus := StartsWith(trimmed, "+");
    var digits := DigitsOf(trimmed);
    if digits == "" {
      return Err(NoDigits);
    }
    if !hadPlus && StartsWith(digits, "00") {
      digits := digits[2..];
    }
    if StartsWith(digits, "0") {
      if hadPlus {
        return Err(BadCountryCode);
      }
      digits := country + WithoutZeros(digits);
    } else if country == NIGERIA && |digits| == NATIONAL_LENGTH && '7' <= digits[0] <= '9' {
      digits := NIGERIA + digits;
    }
    if StartsWith(digits, NIGERIA) && |digits| != |NIGERIA| + NATIONAL_LENGTH {
      return Err(MalformedNigerian);
    }
    if |digits| < MIN_DIGITS || |digits| > MAX_DIGITS {
      return Err(WrongLength);
    }
    return Ok(digits);
  }

  // --- Laws ---------------------------------------------------------------------------------------

  /** A country code is one to three digits, the first not zero. */
  predicate CountryCode(c: string) { 1 <= |c| <= 3 && AllDigits(c) && c[0] != '0' }

  /** An E.164 number as this function may return it: 8 to 15 digits, and 13 of them in Nigeria. */
  predicate Routable(d: string) {
    AllDigits(d) && 8 <= |d| <= 15 && d[0] != '0' && (d[..3] == "234" ==> |d| == 13)
  }

  /** A Nigerian mobile number as it is written at home, without the trunk zero. */
  predicate NationalMobile(n: string) {
    AllDigits(n) && |n| == 10 && (n[0] == '7' || n[0] == '8' || n[0] == '9')
  }

  lemma CompletedIsRoutable(plus: bool, d: string, country: string)
    requires AllDigits(d) && CountryCode(country) && FromDigits(plus, d, country).Ok?
    ensures Routable(FromDigits(plus, d, country).value)
  {
    var e := if !plus && StartsWith(d, "00") then d[2..] else d;
    assert StartsWith(e, "0") <==> e != "" && e[0] == '0';
    var full := FromDigits(plus, d, country).value;
    assert WithCountry(plus, e, country) == Ok(full);
  }

  /** Whatever is returned is 8 to 15 digits without a leading zero. */
  lemma ResultIsRoutable(raw: string, country: string)
    requires CountryCode(country) && Normalized(raw, country).Ok?
    ensures Routable(Normalized(raw, country).value)
  {
    CompletedIsRoutable(StartsWith(Trim(raw), "+"), DigitsOf(Trim(raw)), country);
  }

  lemma {:induction false} DigitsOfDigits(s: string)
    requires AllDigits(s)
    ensures DigitsOf(s) == s
  {
    if s != "" {
      var front, last := s[..|s| - 1], s[|s| - 1];
      DigitsOfDigits(front);
      assert IsDigit(last) && DigitsOf(s) == front + [last];
      assert s == front + [last];
    }
  }

  lemma {:induction false} DigitsOfConcat(a: string, b: string)
    ensures DigitsOf(a + b) == DigitsOf(a) + DigitsOf(b)
  {
    if b == "" {
      assert a + b == a;
    } else {
      assert (a + b)[..|a + b| - 1] == a + b[..|b| - 1];
      DigitsOfConcat(a, b[..|b| - 1]);
    }
  }

  lemma DigitsAfterPlus(d: string)
    requires AllDigits(d)
    ensures DigitsOf("+" + d) == d
  {
    DigitsOfDigits(d);
    DigitsOfConcat("+", d);
    assert DigitsOf("+") == "" by { assert "+"[..0] == ""; }
  }

  /** Plain digits, with or without a plus before them, go straight to the digit rules. */
  lemma PlainNumber(plus: bool, d: string, country: string)
    requires AllDigits(d) && d != ""
    ensures Normalized(if plus then "+" + d else d, country) == FromDigits(plus, d, country)
  {
    hide FromDigits, Trim, DigitsOf;
    var s := if plus then "+" + d else d;
    NothingToTrim(s);
    assert StartsWith(s, "+") == plus && WithoutPlus(s) == d by {
      assert plus ==> s[1..] == d;
      assert !plus ==> s[0] == d[0];
    }
    DigitsOfDigits(d);
    DigitsAfterPlus(d);
  }

  /** Normalizing a second time changes nothing. */
  lemma Idempotent(raw: string, country: string)
    requires CountryCode(country) && Normalized(raw, country).Ok?
    ensures Normalized(Normalized(raw, country).value, country) == Normalized(raw, country)
  {
    var d := Normalized(raw, country).value;
    ResultIsRoutable(raw, country);
    PlainNumber(false, d, country);
    assert !StartsWith(d, "0") && !StartsWith(d, "00");
    if country == NIGERIA && Mobile(d) {
      NoBareMobile(StartsWith(Trim(raw), "+"), DigitsOf(Trim(raw)), d);
    }
  }

  /** With the Nigerian default no bare national number is returned. */
  lemma NoBareMobile(plus: bool, ds: string, d: string)
    requires AllDigits(ds) && FromDigits(plus, ds, NIGERIA) == Ok(d)
    ensures !Mobile(d)
  {
    var e := if !plus && StartsWith(ds, "00") then ds[2..] else ds;
    assert WithCountry(plus, e, NIGERIA) == Ok(d);
    assert (NIGERIA + e)[0] == '2' && (NIGERIA + WithoutZeros(e))[0] == '2';
  }

  /** Punctuation and spaces do not matter: only the plus and the digits do. */
  lemma OnlyDigitsMatter(a: string, b: string, country: string)
    requires Dialable(Trim(a)) && Dialable(Trim(b))
    requires StartsWith(Trim(a), "+") == StartsWith(Trim(b), "+") && DigitsOf(Trim(a)) == DigitsOf(Trim(b))
    ensures Normalized(a, country) == Normalized(b, country)
  {
  }

  lemma BareForm(n: string)
    requires NationalMobile(n)
    ensures Normalized(n, NIGERIA) == Ok(NIGERIA + n)
  {
    PlainNumber(false, n, NIGERIA);
    assert n[0] != '0' && !StartsWith(n, "0") && !StartsWith(n, "00");
    assert StartsWith(NIGERIA + n, NIGERIA);
  }

  lemma FullForm(plus: bool, n: string)
    requires NationalMobile(n)
    ensures Normalized(if plus then "+" + (NIGERIA + n) else NIGERIA + n, NIGERIA) == Ok(NIGERIA + n)
  {
    hide Normalized;
    var full := NIGERIA + n;
    PlainNumber(plus, full, NIGERIA);
    assert full[0] == '2' && StartsWith(full, NIGERIA) && !StartsWith(full, "0") && !StartsWith(full, "00");
  }

  /** The five ways a Nigerian mobile number is written lead to one. */
  lemma NigerianForms(n: string)
    requires NationalMobile(n)
    ensures Normalized("0" + n, "234") == Ok("234" + n)
    ensures Normalized(n, "234") == Ok("234" + n)
    ensures Normalized("234" + n, "234") == Ok("234" + n)
    ensures Normalized("+234" + n, "234") == Ok("234" + n)
    ensures Normalized("00234" + n, "234") == Ok("234" + n)
  {
    hide Normalized;
    var full := NIGERIA + n;
    assert full[0] == '2';
    TrunkForm(n);
    BareForm(n);
    FullForm(false, n);
    FullForm(true, n);
    AccessForm(full);
    assert "+234" + n == "+" + full;
    assert "00234" + n == "00" + full;
  }

  lemma TrunkForm(n: string)
    requires NationalMobile(n)
    ensures Normalized("0" + n, NIGERIA) == Ok(NIGERIA + n)
  {
    var s := "0" + n;
    PlainNumber(false, s, NIGERIA);
    assert s[1] == n[0] && !StartsWith(s, "00") && StartsWith(s, "0");
    assert WithoutZeros(s) == n by { assert s[1..] == n; }
    assert StartsWith(NIGERIA + n, NIGERIA);
  }

  /** `00` is as good as a plus for a number that starts with a country code. */
  lemma AccessForm(full: string)
    requires AllDigits(full) && full != "" && full[0] != '0'
    ensures forall country :: Normalized("00" + full, country) == Normalized("+" + full, country)
  {
    forall country ensures Normalized("00" + full, country) == Normalized("+" + full, country) {
      var s := "00" + full;
      PlainNumber(false, s, country);
      PlainNumber(true, full, country);
      assert StartsWith(s, "00") && s[2..] == full && !StartsWith(full, "0");
    }
  }

  /** Everywhere else the trunk zero stands for the default country code. */
  lemma TrunkZero(d: string, country: string)
    requires CountryCode(country) && AllDigits(d) && d != "" && d[0] != '0' && Routable(country + d)
    ensures Normalized("0" + d, country) == Ok(country + d)
  {
    var s := "0" + d;
    PlainNumber(false, s, country);
    assert s[1] == d[0] && !StartsWith(s, "00") && StartsWith(s, "0");
    assert WithoutZeros(s) == d by { assert s[1..] == d; }
    RoutableIsChecked(country + d);
  }

  lemma RoutableIsChecked(d: string)
    requires Routable(d)
    ensures Checked(d) == Ok(d)
  {
  }

  /**
   Exactly which explicit international numbers are kept. Behind a plus or `00` a routable number is
   returned as it is, unless the default is Nigeria and the number has ten digits and starts with 7,
   8 or 9: that one is taken for a national number although its country code was written out.
   */
  lemma InternationalKeptIff(e: string, country: string)
    requires Routable(e) && CountryCode(country)
    ensures Normalized("+" + e, country) == Ok(e) <==> !(country == "234" && NationalMobile(e))
    ensures Normalized("00" + e, country) == Ok(e) <==> !(country == "234" && NationalMobile(e))
    ensures country == "234" && NationalMobile(e) ==> Normalized("+" + e, country) == Ok("234" + e)
  {
    PlainNumber(true, e, country);
    AccessForm(e);
    RoutableIsChecked(e);
    assert !StartsWith(e, "0");
    assert StartsWith(NIGERIA + e, NIGERIA);
  }

  // --- What is refused ------------------------------------------------------------------------------

  /** A plus with a zero behind it is no country code, whatever the default. */
  lemma PlusZeroIsRefused(d: string, country: string)
    requires AllDigits(d)
    ensures Normalized("+0" + d, country) == Err(BadCountryCode)
  {
    assert "+0" + d == "+" + ("0" + d);
    PlainNumber(true, "0" + d, country);
  }

  /** A number written with its country code is refused for its length alone, and this is which. */
  lemma LengthRefusedIff(d: string, country: string)
    requires AllDigits(d) && d != "" && d[0] != '0' && !(country == "234" && NationalMobile(d))
    ensures Normalized("+" + d, country) == Err(MalformedNigerian) <==> |d| >= 3 && d[..3] == "234" && |d| != 13
    ensures Normalized("+" + d, country) == Err(WrongLength) <==>
      !(|d| >= 3 && d[..3] == "234") && (|d| < 8 || |d| > 15)
    ensures Normalized("+" + d, country).Ok? ==> Normalized("+" + d, country).value == d
  {
    PlainNumber(true, d, country);
    assert !StartsWith(d, "0");
    assert StartsWith(d, "234") <==> |d| >= 3 && d[..3] == "234";
  }

  /** White space around a number changes nothing. */
  lemma SpaceAroundIgnored(before: string, s: string, after: string, country: string)
    requires AllSpaces(before) && AllSpaces(after) && Trimmed(s)
    ensures Normalized(before + s + after, country) == Normalized(s, country)
  {
    TrimsBoth(before, s, after);
    NothingToTrim(s);
  }

  /** A blank, a bracket, a point or a dash inside a number changes nothing. */
  lemma PunctuationIgnored(a: string, c: char, b: string, country: string)
    requires a != "" && b != "" && Trimmed(a + b) && (c == ' ' || c == '(' || c == ')' || c == '.' || c == '-')
    requires Normalized(a + b, country).Ok?
    ensures Normalized(a + [c] + b, country) == Normalized(a + b, country)
  {
    hide FromDigits, Trim, DigitsOf;
    var s, t := a + b, a + [c] + b;
    assert t[0] == s[0] && t[|t| - 1] == s[|s| - 1];
    NothingToTrim(s);
    NothingToTrim(t);
    DigitsOfConcat(a, b);
    DigitsOfConcat(a + [c], b);
    DigitsOfConcat(a, [c]);
    NoDigit(c);
    assert DigitsOf(t) == DigitsOf(s);
    StillDialable(a, c, b);
  }

  lemma NoDigit(c: char)
    requires !IsDigit(c)
    ensures DigitsOf([c]) == ""
  {
    assert [c][..0] == "";
  }

  lemma StillDialable(a: string, c: char, b: string)
    requires a != "" && b != "" && DialChar(c) && Dialable(a + b)
    ensures Dialable(a + [c] + b) && StartsWith(a + [c] + b, "+") == StartsWith(a + b, "+")
  {
    var s, t := a + b, a + [c] + b;
    assert s[0] == a[0] == t[0];
    var p := if StartsWith(a, "+") then 1 else 0;
    var u, v := WithoutPlus(s), WithoutPlus(t);
    assert u == s[p..] && v == t[p..];
    forall i | 0 <= i < |v| ensures DialChar(v[i]) {
      assert v[i] == t[i + p];
      if i + p < |a| {
        assert v[i] == u[i];
      } else if i + p > |a| {
        assert v[i] == u[i - 1];
      }
    }
  }

  /** Any other character refuses the whole number: an address or a word is never squeezed into digits. */
  lemma OtherTextIsRefused(a: string, c: char, b: string, country: string)
    requires Trimmed(a + [c] + b) && !IsDigit(c) && !IsSpace(c)
    requires c != '(' && c != ')' && c != '.' && c != '-' && (c == '+' ==> a != "")
    ensures Normalized(a + [c] + b, country) == Err(NotDialable)
  {
    var t := a + [c] + b;
    NothingToTrim(t);
    var p := if StartsWith(t, "+") then 1 else 0;
    assert t[0] == if a == "" then c else a[0];
    assert WithoutPlus(t)[|a| - p] == t[|a|] == c;
  }
}
