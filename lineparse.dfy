/** The per-line parse of the bulk import (fintracker/app/routes.py, `import_expenses`):
    `parts = line.split()`, the date `strptime(parts[0], "%d/%m/%Y")`, the description
    `" ".join(parts[1:-2])`, the amount `float(parts[-2].replace(",", ""))` and the currency
    `parts[-1]`. Every step that raises makes the line `None`. */
module LineParse {
  import opened Wrappers
  import opened Text
  import opened Records

  predicate IsDigit(c: char) {
    '0' <= c <= '9'
  }

  predicate AllDigits(s: string) {
    forall i :: 0 <= i < |s| ==> IsDigit(s[i])
  }

  /** The value of a string of decimal digits (0 for the empty string). */
  function DigitsValue(s: string): nat
    requires AllDigits(s)
    decreases |s|
  {
    if s == [] then 0 else 10 * DigitsValue(s[..|s| - 1]) + (s[|s| - 1] as int - '0' as int)
  }

  function Pow10(n: nat): (p: nat)
    ensures p >= 1
  {
    if n == 0 then 1 else 10 * Pow10(n - 1)
  }

  // ---------------------------------------------------------------------------------------
  // Dates

  predicate IsLeapYear(y: int) {
    y % 4 == 0 && (y % 100 != 0 || y % 400 == 0)
  }

  function DaysInMonth(m: int, y: int): int
    requires 1 <= m <= 12
  {
    if m == 2 then (if IsLeapYear(y) then 29 else 28)
    else if m == 4 || m == 6 || m == 9 || m == 11 then 30
    else 31
  }

  /** A day Python's `datetime` accepts. */
  predicate ValidDate(d: Date) {
    1 <= d.year <= 9999 && 1 <= d.month <= 12 && 1 <= d.day <= DaysInMonth(d.month, d.year)
  }

  /** `datetime.strptime(t, "%d/%m/%Y")`: one or two digits of day, one or two of month, exactly
      four of year, the whole token matched, and the day must exist. */
  function ParseDate(t: string): (r: Option<Date>)
    ensures r.Some? ==> ValidDate(r.value) && '/' in t
  {
    var f := SplitOn(t, '/');
    if |f| == 3 && 1 <= |f[0]| <= 2 && AllDigits(f[0]) && 1 <= |f[1]| <= 2 && AllDigits(f[1])
       && |f[2]| == 4 && AllDigits(f[2])
    then
      var d := Date(DigitsValue(f[0]), DigitsValue(f[1]), DigitsValue(f[2]));
      if ValidDate(d) then Some(d) else None
    else None
  }

  // ---------------------------------------------------------------------------------------
  // Amounts

  function RemoveCommas(s: string): (r: string)
    ensures ',' !in r
  {
    if s == [] then [] else (if s[0] == ',' then [] else [s[0]]) + RemoveCommas(s[1..])
  }

  /** Digits with an optional fractional part: `12`, `12.`, `12.5`, `.5`. */
  function ParseUnsigned(t: string): (r: Option<real>)
    ensures r.Some? ==> r.value >= 0.0
  {
    var f := SplitOn(t, '.');
    if |f| == 1 && f[0] != [] && AllDigits(f[0]) then Some(DigitsValue(f[0]) as real)
    else if |f| == 2 && AllDigits(f[0]) && AllDigits(f[1]) && (f[0] != [] || f[1] != []) then
      Some(PointValue(f[0], f[1]))
    else None
  }

  /** The value of `whole.frac`. */
  function PointValue(whole: string, frac: string): (v: real)
    requires AllDigits(whole) && AllDigits(frac)
    ensures v >= 0.0
  {
    DigitsValue(whole) as real + DigitsValue(frac) as real / Pow10(|frac|) as real
  }

  /** An accepted unsigned amount holds only digits and points. */
  lemma ParseUnsignedChars(t: string)
    requires ParseUnsigned(t).Some?
    ensures forall i :: 0 <= i < |t| ==> IsDigit(t[i]) || t[i] == '.'
  {
    var f := SplitOn(t, '.');
    JoinSplitOn(t, '.');
    if |f| == 2 {
      assert t == f[0] + ['.'] + f[1];
    }
  }

  /** An accepted amount token never holds a `/`, so a date token is never an amount. */
  lemma ParseDecimalNoSlash(t: string)
    requires ParseDecimal(t).Some?
    ensures '/' !in t
  {
    if t != [] && (t[0] == '-' || t[0] == '+') {
      ParseUnsignedChars(t[1..]);
      assert t == [t[0]] + t[1..];
    } else {
      ParseUnsignedChars(t);
    }
  }

  /** `float(t)` on a token: an optional sign and an unsigned decimal. */
  function ParseDecimal(t: string): Option<real> {
    if t != [] && t[0] == '-' then
      match ParseUnsigned(t[1..])
      case None => None
      case Some(v) => Some(-v)
    else if t != [] && t[0] == '+' then ParseUnsigned(t[1..])
    else ParseUnsigned(t)
  }

  /** `float(t.replace(",", ""))`. */
  function ParseAmount(t: string): Option<real> {
    ParseDecimal(RemoveCommas(t))
  }

  // ---------------------------------------------------------------------------------------
  // Lines

  datatype ParsedLine = ParsedLine(date: Date, description: string, amount: real, currency: string)

  /** The parse of the tokens of one line, with Python's negative indexing: one token fails at
      `parts[-2]`, and two tokens fail because `parts[-2]` is then the date token. */
  function ParseTokens(parts: seq<string>): Option<ParsedLine> {
    if |parts| == 0 then None
    else match ParseDate(parts[0])
      case None => None
      case Some(date) =>
        if |parts| < 2 then None
        else
          var n := |parts|;
          match ParseAmount(parts[n - 2])
          case None => None
          case Some(amount) =>
            var description := if n >= 3 then Join(" ", parts[1..n - 2]) else "";
            Some(ParsedLine(date, description, amount, parts[n - 1]))
  }

  lemma {:induction false} RemoveCommasKeeps(s: string, c: char)
    requires c != ',' && c in s
    ensures c in RemoveCommas(s)
  {
    if s[0] != c {
      assert c in s[1..];
      RemoveCommasKeeps(s[1..], c);
    }
  }

  function ParseLine(line: string): Option<ParsedLine> {
    ParseTokens(Words(line))
  }

  // ---------------------------------------------------------------------------------------
  // Formatting, the inverse used to state what the parser accepts

  function DigitChar(n: int): (c: char)
    requires 0 <= n < 10
    ensures IsDigit(c) && c as int - '0' as int == n
  {
    ('0' as int + n) as char
  }

  /** `n` written with exactly `w` digits, zero-padded. */
  function Padded(n: nat, w: nat): (s: string)
    requires n < Pow10(w)
    ensures |s| == w && AllDigits(s) && DigitsValue(s) == n
  {
    if w == 0 then []
    else
      var s := Padded(n / 10, w - 1) + [DigitChar(n % 10)];
      assert s[..|s| - 1] == Padded(n / 10, w - 1);
      s
  }

  /** `n` in decimal with no leading zeros. */
  function Decimal(n: nat): (s: string)
    ensures s != [] && AllDigits(s) && DigitsValue(s) == n
  {
    if n < 10 then [DigitChar(n)]
    else
      var s := Decimal(n / 10) + [DigitChar(n % 10)];
      assert s[..|s| - 1] == Decimal(n / 10);
      s
  }

  /** A day as `dd/mm/yyyy`. */
  function FormatDate(d: Date): string
    requires ValidDate(d)
  {
    Padded(d.day, 2) + "/" + Padded(d.month, 2) + "/" + Padded(d.year, 4)
  }

  /** The amount that `c` minor units (cents) stand for. */
  function CentsValue(c: nat): real {
    c as real / 100.0
  }

  /** An amount of minor units as `units.cc`. */
  function FormatCents(c: nat): string {
    Decimal(c / 100) + "." + Padded(c % 100, 2)
  }

  lemma ParseDateOfFormat(d: Date)
    requires ValidDate(d)
    ensures ParseDate(FormatDate(d)) == Some(d)
  {
    var p0, p1, p2 := Padded(d.day, 2), Padded(d.month, 2), Padded(d.year, 4);
    assert '/' !in p0 && '/' !in p1 && '/' !in p2;
    assert FormatDate(d) == p0 + ['/'] + p1 + ['/'] + p2;
    SplitOnThree(p0, p1, p2, '/');
  }

  lemma RemoveCommasNoop(s: string)
    requires ',' !in s
    ensures RemoveCommas(s) == s
  {
  }

  /** Commas anywhere in the amount token are ignored. */
  lemma ParseAmountIgnoresComma(a: string, b: string)
    ensures ParseAmount(a + "," + b) == ParseAmount(a + b)
  {
    calc {
      RemoveCommas(a + "," + b);
      { RemoveCommasOfConcat(a + ",", b); }
      RemoveCommas(a + ",") + RemoveCommas(b);
      { RemoveCommasOfConcat(a, ","); }
      RemoveCommas(a) + RemoveCommas(b);
      { RemoveCommasOfConcat(a, b); }
      RemoveCommas(a + b);
    }
  }

  lemma {:induction false} RemoveCommasOfConcat(a: string, b: string)
    ensures RemoveCommas(a + b) == RemoveCommas(a) + RemoveCommas(b)
  {
    if a != [] {
      assert (a + b)[0] == a[0] && (a + b)[1..] == a[1..] + b;
      RemoveCommasOfConcat(a[1..], b);
    } else {
      assert a + b == b;
    }
  }

  lemma ParseUnsignedOfPoint(u: string, f: string)
    requires u != [] && AllDigits(u) && AllDigits(f)
    ensures ParseUnsigned(u + "." + f) == Some(PointValue(u, f))
  {
    var t := u + "." + f;
    assert '.' !in u by { assert forall i :: 0 <= i < |u| ==> IsDigit(u[i]); }
    assert '.' !in f by { assert forall i :: 0 <= i < |f| ==> IsDigit(f[i]); }
    assert t == u + ['.'] + f;
    SplitOnConcat(u, '.', f);
    var parts := SplitOn(t, '.');
    assert parts == [u, f];
  }

  lemma CentsArith(c: nat)
    ensures (c / 100) as real + (c % 100) as real / 100.0 == CentsValue(c)
  {
    assert c == 100 * (c / 100) + c % 100;
    assert c as real == 100.0 * (c / 100) as real + (c % 100) as real;
  }

  lemma ParseAmountOfFormat(c: nat)
    ensures ParseAmount(FormatCents(c)) == Some(CentsValue(c))
  {
    var u, f := Decimal(c / 100), Padded(c % 100, 2);
    var t := FormatCents(c);
    assert t == u + ['.'] + f;
    assert ',' !in u by { assert forall i :: 0 <= i < |u| ==> IsDigit(u[i]); }
    assert ',' !in f by { assert forall i :: 0 <= i < |f| ==> IsDigit(f[i]); }
    RemoveCommasNoop(t);
    assert RemoveCommas(t) == t;
    assert t[0] == u[0] && IsDigit(u[0]);
    assert ParseDecimal(t) == ParseUnsigned(t);
    ParseUnsignedOfPoint(u, f);
    assert Pow10(2) == 100;
    CentsArith(c);
  }

  predicate IsToken(w: string) {
    w != [] && NoPySpace(w)
  }

  /** A line as a bank statement writes it: date, words of description, amount, currency. */
  function FormatLine(d: Date, words: seq<string>, cents: nat, currency: string): string
    requires ValidDate(d)
  {
    Join(" ", [FormatDate(d)] + words + [FormatCents(cents), currency])
  }

  lemma NoPySpaceConcat(a: string, b: string)
    requires NoPySpace(a) && NoPySpace(b)
    ensures NoPySpace(a + b)
  {
    forall i | 0 <= i < |a + b| ensures !IsPySpace((a + b)[i]) {
      if i >= |a| { assert (a + b)[i] == b[i - |a|]; }
    }
  }

  lemma DigitsNoPySpace(s: string)
    requires AllDigits(s)
    ensures NoPySpace(s)
  {
    forall i | 0 <= i < |s| ensures !IsPySpace(s[i]) {
      assert IsDigit(s[i]);
    }
  }

  lemma FormattedFieldsAreTokens(d: Date, cents: nat)
    requires ValidDate(d)
    ensures IsToken(FormatDate(d)) && IsToken(FormatCents(cents))
  {
    var p0, p1, p2 := Padded(d.day, 2), Padded(d.month, 2), Padded(d.year, 4);
    DigitsNoPySpace(p0);
    DigitsNoPySpace(p1);
    DigitsNoPySpace(p2);
    NoPySpaceConcat(p0, "/");
    NoPySpaceConcat(p0 + "/", p1);
    NoPySpaceConcat(p0 + "/" + p1, "/");
    NoPySpaceConcat(p0 + "/" + p1 + "/", p2);
    var u, f := Decimal(cents / 100), Padded(cents % 100, 2);
    DigitsNoPySpace(u);
    DigitsNoPySpace(f);
    NoPySpaceConcat(u, ".");
    NoPySpaceConcat(u + ".", f);
  }

  /** The token-level parse of date, words, amount and currency. */
  lemma ParseTokensOfFields(dt: string, words: seq<string>, am: string, currency: string,
                            date: Date, amount: real)
    requires ParseDate(dt) == Some(date) && ParseAmount(am) == Some(amount)
    ensures ParseTokens([dt] + words + [am, currency])
         == Some(ParsedLine(date, Join(" ", words), amount, currency))
  {
    var parts := [dt] + words + [am, currency];
    var n := |parts|;
    assert parts[0] == dt;
    assert parts[n - 2] == am;
    assert parts[n - 1] == currency;
    assert parts[1..n - 2] == words;
  }

  /** A line whose tokens are joined by single spaces splits back into those tokens. */
  lemma ParseLineOfTokens(parts: seq<string>)
    requires forall i :: 0 <= i < |parts| ==> IsToken(parts[i])
    ensures ParseLine(Join(" ", parts)) == ParseTokens(parts)
  {
    WordsOfJoin(parts);
  }

  lemma FieldsAreTokens(dt: string, words: seq<string>, am: string, currency: string)
    requires IsToken(dt) && IsToken(am) && IsToken(currency)
    requires forall i :: 0 <= i < |words| ==> IsToken(words[i])
    ensures var parts := [dt] + words + [am, currency];
      forall i :: 0 <= i < |parts| ==> IsToken(parts[i])
  {
    var parts := [dt] + words + [am, currency];
    forall i | 0 <= i < |parts| ensures IsToken(parts[i]) {
      if 0 < i < |parts| - 2 { assert parts[i] == words[i - 1]; }
    }
  }

  /** A line of a date token, description words, an amount token and a currency parses into
      those fields. */
  lemma ParseLineOfFields(dt: string, words: seq<string>, am: string, currency: string,
                          date: Date, amount: real)
    requires IsToken(dt) && IsToken(am) && IsToken(currency)
    requires forall i :: 0 <= i < |words| ==> IsToken(words[i])
    requires ParseDate(dt) == Some(date) && ParseAmount(am) == Some(amount)
    ensures ParseLine(Join(" ", [dt] + words + [am, currency]))
         == Some(ParsedLine(date, Join(" ", words), amount, currency))
  {
    FieldsAreTokens(dt, words, am, currency);
    ParseLineOfTokens([dt] + words + [am, currency]);
    ParseTokensOfFields(dt, words, am, currency, date, amount);
  }

  /** Every well-formed line parses back to its date, its words joined by single spaces, its
      amount and its currency; with no words the description is empty. */
  lemma ParseLineOfFormat(d: Date, words: seq<string>, cents: nat, currency: string)
    requires ValidDate(d)
    requires forall i :: 0 <= i < |words| ==> IsToken(words[i])
    requires IsToken(currency)
    ensures ParseLine(FormatLine(d, words, cents, currency))
         == Some(ParsedLine(d, Join(" ", words), CentsValue(cents), currency))
  {
    FormattedFieldsAreTokens(d, cents);
    ParseDateOfFormat(d);
    ParseAmountOfFormat(cents);
    ParseLineOfFields(FormatDate(d), words, FormatCents(cents), currency, d, CentsValue(cents));
  }

  /** A line of exactly two tokens never imports: its amount token is its date token. */
  lemma TwoTokensNeverParse(line: string)
    requires |Words(line)| == 2
    ensures ParseLine(line) == None
  {
    var parts := Words(line);
    if ParseDate(parts[0]).Some? {
      RemoveCommasKeeps(parts[0], '/');
      if ParseDecimal(RemoveCommas(parts[0])).Some? {
        ParseDecimalNoSlash(RemoveCommas(parts[0]));
      }
    }
  }
}
