/** Calendar dates as `java.time.LocalDate` holds them, restricted to the
    years 0000-9999 that `toString` writes with four plain digits, and the
    ISO-8601 text form (`yyyy-mm-dd`) that `toString` produces and
    `LocalDate.parse` accepts. */
module Dates {
  import opened Results

  datatype Date = Date(year: int, month: int, day: int) {
    /** A real day of the proleptic Gregorian calendar, in the modelled years. */
    predicate Valid() {
      0 <= year <= 9999 && 1 <= month <= 12 && 1 <= day <= DaysInMonth(year, month)
    }
  }

  /** A date that `LocalDate` can hold and `toString` writes in ten characters. */
  type ValidDate = d: Date | d.Valid() witness Date(1970, 1, 1)

  predicate IsLeapYear(y: int) {
    y % 4 == 0 && (y % 100 != 0 || y % 400 == 0)
  }

  function DaysInMonth(y: int, m: int): int
    requires 1 <= m <= 12
  {
    if m == 2 then (if IsLeapYear(y) then 29 else 28)
    else if m == 4 || m == 6 || m == 9 || m == 11 then 30
    else 31
  }

  predicate IsDigit(c: char) {
    '0' <= c <= '9'
  }

  function DigitChar(n: int): (c: char)
    requires 0 <= n < 10
    ensures IsDigit(c)
  {
    ('0' as int + n) as char
  }

  function DigitValue(c: char): int
    requires IsDigit(c)
  {
    c as int - '0' as int
  }

  predicate AllDigits(s: string) {
    forall i :: 0 <= i < |s| ==> IsDigit(s[i])
  }

  /** The decimal number a string of digits spells. */
  function Number(s: string): int
    requires AllDigits(s)
  {
    if s == [] then 0 else Number(s[..|s| - 1]) * 10 + DigitValue(s[|s| - 1])
  }

  /** `n` written with exactly `width` digits, leading zeros included. */
  function Padded(n: int, width: nat): (s: string)
    requires 0 <= n
    ensures |s| == width && AllDigits(s)
  {
    if width == 0 then [] else Padded(n / 10, width - 1) + [DigitChar(n % 10)]
  }

  function Power10(k: nat): (p: int)
    ensures p >= 1
  {
    if k == 0 then 1 else 10 * Power10(k - 1)
  }

  lemma {:induction false} NumberOfPadded(n: int, width: nat)
    requires 0 <= n < Power10(width)
    ensures Number(Padded(n, width)) == n
  {
    if width > 0 {
      var s := Padded(n, width);
      assert s[..|s| - 1] == Padded(n / 10, width - 1);
      NumberOfPadded(n / 10, width - 1);
    }
  }

  lemma {:induction false} PaddedOfNumber(s: string)
    requires AllDigits(s)
    ensures 0 <= Number(s) < Power10(|s|)
    ensures Padded(Number(s), |s|) == s
  {
    if s != [] {
      var init := s[..|s| - 1];
      PaddedOfNumber(init);
      var n := Number(s);
      assert n / 10 == Number(init) && n % 10 == DigitValue(s[|s| - 1]);
      assert s == init + [s[|s| - 1]];
    }
  }

  /** `LocalDate.toString()`: `yyyy-mm-dd`. */
  function ToIsoString(d: Date): (s: string)
    requires d.Valid()
    ensures |s| == 10 && s[4] == '-' && s[7] == '-'
  {
    Padded(d.year, 4) + "-" + Padded(d.month, 2) + "-" + Padded(d.day, 2)
  }

  /** `LocalDate.parse(text)` with the strict ISO_LOCAL_DATE format: four
      year digits, two month digits and two day digits that name a real day. */
  function ParseIso(s: string): (r: Result<Date>)
    ensures r.Ok? ==> r.value.Valid()
    ensures r.Err? ==> r.error == BadDate(s)
  {
    if |s| == 10 && s[4] == '-' && s[7] == '-'
       && AllDigits(s[..4]) && AllDigits(s[5..7]) && AllDigits(s[8..])
    then
      var d := Date(Number(s[..4]), Number(s[5..7]), Number(s[8..]));
      if d.Valid() then Ok(d) else Err(BadDate(s))
    else Err(BadDate(s))
  }

  /** Printing then parsing gives the date back. */
  lemma ParseToIso(d: Date)
    requires d.Valid()
    ensures ParseIso(ToIsoString(d)) == Ok(d)
  {
    var s := ToIsoString(d);
    assert s[..4] == Padded(d.year, 4);
    assert s[5..7] == Padded(d.month, 2);
    assert s[8..] == Padded(d.day, 2);
    NumberOfPadded(d.year, 4);
    NumberOfPadded(d.month, 2);
    NumberOfPadded(d.day, 2);
  }

  /** A ten-character text is its three fields joined at positions 4 and 7. */
  lemma SplitIso(s: string)
    requires |s| == 10 && s[4] == '-' && s[7] == '-'
    ensures s == s[..4] + "-" + s[5..7] + "-" + s[8..]
  {
  }

  /** Parsing accepts only the canonical spelling: printing the parsed date
      gives back the very text that was parsed. */
  lemma ToIsoOfParse(s: string)
    requires ParseIso(s).Ok?
    ensures ToIsoString(ParseIso(s).value) == s
  {
    var y, m, dd := s[..4], s[5..7], s[8..];
    var d := ParseIso(s).value;
    assert d.year == Number(y) && d.month == Number(m) && d.day == Number(dd);
    PaddedOfNumber(y);
    PaddedOfNumber(m);
    PaddedOfNumber(dd);
    SplitIso(s);
  }
}
