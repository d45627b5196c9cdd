/**
  * Calendar dates as Python's `datetime` handles them here: parsing with
  * `strptime` in the formats '%Y-%m-%d' and '%d/%m/%Y', writing with
  * `strftime('%Y-%m-%d')`, and comparison.
  *
  * `strptime` matches each directive with a fixed regular expression
  * ('%Y' four digits; '%m' "1[0-2]|0[1-9]|[1-9]"; '%d'
  * "3[01]|[12]\d|0[1-9]|[1-9]| [1-9]"), requires the whole string to be
  * consumed, and then builds the date, which fails when the year is 0 or the
  * day is past the end of the month. None of the directive patterns contains
  * the separator, so the string matches exactly when it splits at the
  * separator into three pieces that each match their directive; that is how
  * the parsers below are written.
  */
module Dates {
  import opened Wrappers
  import opened Text

  datatype Date = Date(year: int, month: int, day: int)

  predicate IsLeapYear(y: int) {
    y % 4 == 0 && (y % 100 != 0 || y % 400 == 0)
  }

  function DaysInMonth(y: int, m: int): int
    requires 1 <= m <= 12
  {
    if m == 2 then (if IsLeapYear(y) then 29 else 28)
    else if m == 4 || m == 6 || m == 9 || m == 11 then 30
    else 31
  }

  /** The dates `datetime` can represent: years 1 to 9999 and real days of real months. */
  predicate Valid(d: Date) {
    && 1 <= d.year <= 9999
    && 1 <= d.month <= 12
    && 1 <= d.day <= DaysInMonth(d.year, d.month)
  }

  /** `a < b` on datetimes at midnight: chronological order. */
  predicate Before(a: Date, b: Date) {
    || a.year < b.year
    || (a.year == b.year && a.month < b.month)
    || (a.year == b.year && a.month == b.month && a.day < b.day)
  }

  /** `a <= b` on datetimes. */
  predicate NotAfter(a: Date, b: Date) {
    a == b || Before(a, b)
  }

  /** Why `strptime` raised: an argument that is not a `str` (TypeError), text that does not
      match the format, or a date `datetime` cannot represent (ValueError). */
  datatype DateError = NotText | BadFormat | YearOutOfRange | DayOutOfRange

  /** '%Y': exactly four ASCII digits. */
  function YearToken(t: string): (r: Option<int>)
    ensures r.Some? ==> 0 <= r.value <= 9999
  {
    if |t| == 4 && AllDigits(t) then Some(DigitsValue(t)) else None
  }

  /** '%m': "1[0-2]|0[1-9]|[1-9]", that is one digit 1-9 or two digits worth 1 to 12. */
  function MonthToken(t: string): (r: Option<int>)
    ensures r.Some? ==> 1 <= r.value <= 12
  {
    if |t| == 1 && '1' <= t[0] <= '9' then Some(DigitsValue(t))
    else if |t| == 2 && AllDigits(t) && 1 <= DigitsValue(t) <= 12 then Some(DigitsValue(t))
    else None
  }

  /** '%d': "3[01]|[12]\d|0[1-9]|[1-9]| [1-9]": one digit 1-9, two digits worth 1 to 31,
      or a space followed by a digit 1-9. */
  function DayToken(t: string): (r: Option<int>)
    ensures r.Some? ==> 1 <= r.value <= 31
  {
    if |t| == 1 && '1' <= t[0] <= '9' then Some(DigitsValue(t))
    else if |t| == 2 && AllDigits(t) && 1 <= DigitsValue(t) <= 31 then Some(DigitsValue(t))
    else if |t| == 2 && t[0] == ' ' && '1' <= t[1] <= '9' then Some(DigitsValue(t[1..]))
    else None
  }

  /** `datetime(y, m, d)` for a month already known to be 1 to 12: the year is checked first, then the day. */
  function MakeDate(y: int, m: int, d: int): Result<Date, DateError>
  {
    if !(1 <= y <= 9999) then Failure(YearOutOfRange)
    else if !(1 <= m <= 12 && 1 <= d <= DaysInMonth(y, m)) then Failure(DayOutOfRange)
    else Success(Date(y, m, d))
  }

  /** Builds the date from three directive matches, in the order year, month, day. */
  function FromTokens(y: Option<int>, m: Option<int>, d: Option<int>): (r: Result<Date, DateError>)
    ensures r.Success? ==> Valid(r.value)
    ensures r.Success? ==> y == Some(r.value.year) && m == Some(r.value.month) && d == Some(r.value.day)
  {
    if y.Some? && m.Some? && d.Some? then MakeDate(y.value, m.value, d.value) else Failure(BadFormat)
  }

  /** `datetime.strptime(s, '%Y-%m-%d')`. */
  function ParseIso(s: string): (r: Result<Date, DateError>)
    ensures r.Success? ==> Valid(r.value)
  {
    var parts := Split(s, '-');
    if |parts| != 3 then Failure(BadFormat)
    else FromTokens(YearToken(parts[0]), MonthToken(parts[1]), DayToken(parts[2]))
  }

  /** `datetime.strptime(s, '%d/%m/%Y')`, the date format of the CSV export. */
  function ParseDmy(s: string): (r: Result<Date, DateError>)
    ensures r.Success? ==> Valid(r.value)
  {
    var parts := Split(s, '/');
    if |parts| != 3 then Failure(BadFormat)
    else FromTokens(YearToken(parts[2]), MonthToken(parts[1]), DayToken(parts[0]))
  }

  /** `d.strftime('%Y-%m-%d')`: zero-padded year, month and day. */
  function FormatIso(d: Date): string
    requires Valid(d)
  {
    Pad(d.year, 4) + "-" + Pad(d.month, 2) + "-" + Pad(d.day, 2)
  }

  lemma FormatIsoParts(d: Date)
    requires Valid(d)
    ensures FormatIso(d) == Join([Pad(d.year, 4), Pad(d.month, 2), Pad(d.day, 2)], '-')
    ensures '-' !in Pad(d.year, 4) && '-' !in Pad(d.month, 2) && '-' !in Pad(d.day, 2)
    ensures ' ' !in FormatIso(d) && |FormatIso(d)| == 10
  {
    var parts := [Pad(d.year, 4), Pad(d.month, 2), Pad(d.day, 2)];
    assert Join(parts[2..], '-') == parts[2];
    assert Join(parts[1..], '-') == parts[1] + "-" + parts[2];
    var s := FormatIso(d);
    forall i | 0 <= i < |s| ensures s[i] != ' ' {
      if i < 4 { assert s[i] == parts[0][i]; }
      else if 5 <= i < 7 { assert s[i] == parts[1][i - 5]; }
      else if 8 <= i { assert s[i] == parts[2][i - 8]; }
    }
  }

  /** What `strftime` writes, `strptime` reads back as the same date. */
  lemma ParseFormatIso(d: Date)
    requires Valid(d)
    ensures ParseIso(FormatIso(d)) == Success(d)
  {
    var y, m, dd := Pad(d.year, 4), Pad(d.month, 2), Pad(d.day, 2);
    FormatIsoParts(d);
    SplitJoin([y, m, dd], '-');
    assert Split(FormatIso(d), '-') == [y, m, dd];
    PaddedTokens(d);
  }

  /** Each zero-padded field is read back by its directive. */
  lemma PaddedTokens(d: Date)
    requires Valid(d)
    ensures YearToken(Pad(d.year, 4)) == Some(d.year)
    ensures MonthToken(Pad(d.month, 2)) == Some(d.month)
    ensures DayToken(Pad(d.day, 2)) == Some(d.day)
  {
    assert Pow10(2) == 100 && Pow10(4) == 10000;
    PadValue(d.year, 4);
    PadValue(d.month, 2);
    PadValue(d.day, 2);
  }

  /** `strptime(s, '%d/%m/%Y')` reads back a date written as zero-padded DD/MM/YYYY. */
  lemma ParseDmyPadded(d: Date)
    requires Valid(d)
    ensures ParseDmy(Pad(d.day, 2) + "/" + Pad(d.month, 2) + "/" + Pad(d.year, 4)) == Success(d)
  {
    var dd, m, y := Pad(d.day, 2), Pad(d.month, 2), Pad(d.year, 4);
    assert dd + "/" + m + "/" + y == dd + ['/'] + (m + ['/'] + y);
    assert forall t: string :: AllDigits(t) ==> '/' !in t;
    SplitThree(dd, m, y, '/');
    PaddedTokens(d);
  }

  /** A string `strptime` accepts is exactly what `strftime` would write for its date when it is
      ten characters long with no space: every field zero-padded. */
  lemma ParsedIsCanonical(s: string, d: Date)
    requires ParseIso(s) == Success(d)
    ensures FormatIso(d) == s <==> |s| == 10 && ' ' !in s
  {
    FormatIsoParts(d);
    var parts := Split(s, '-');
    var y, m, dd := parts[0], parts[1], parts[2];
    assert parts[1..][1..] == parts[2..];
    assert Join(parts[2..], '-') == dd;
    assert Join(parts[1..], '-') == m + "-" + dd;
    assert s == y + "-" + m + "-" + dd;
    if |s| == 10 && ' ' !in s {
      assert |m| + |dd| == 4;
      assert |m| == 2 && |dd| == 2;
      assert dd[0] == s[8];
      assert AllDigits(dd);
      PadOfValue(y);
      PadOfValue(m);
      PadOfValue(dd);
    }
  }

  /** Zero-padded dates compare as strings the way the dates compare in time. */
  lemma FormatIsoOrder(a: Date, b: Date)
    requires Valid(a) && Valid(b)
    ensures Less(FormatIso(a), FormatIso(b)) <==> Before(a, b)
  {
    assert Pow10(2) == 100 && Pow10(4) == 10000;
    LessFields(Pad(a.year, 4), Pad(a.month, 2), Pad(a.day, 2), Pad(b.year, 4), Pad(b.month, 2), Pad(b.day, 2));
    PadOrder(a.year, b.year, 4);
    PadOrder(a.month, b.month, 2);
    PadOrder(a.day, b.day, 2);
    if Pad(a.year, 4) == Pad(b.year, 4) { PadInjective(a.year, b.year, 4); }
    if Pad(a.month, 2) == Pad(b.month, 2) { PadInjective(a.month, b.month, 2); }
  }

  /** The same with `<=`: Python's `FormatIso(a) <= FormatIso(b)` exactly when `a <= b`. */
  lemma FormatIsoOrderEq(a: Date, b: Date)
    requires Valid(a) && Valid(b)
    ensures LessEq(FormatIso(a), FormatIso(b)) <==> NotAfter(a, b)
  {
    FormatIsoOrder(a, b);
    if FormatIso(a) == FormatIso(b) {
      FormatIsoOrder(b, a);
      LessIrreflexive(FormatIso(a));
    }
  }

  /** Three '-'-free pieces joined by '-' parse as the date their tokens denote. */
  lemma ParseIsoPieces(y: string, m: string, d: string, date: Date)
    requires '-' !in y && '-' !in m && '-' !in d
    requires YearToken(y) == Some(date.year) && MonthToken(m) == Some(date.month) && DayToken(d) == Some(date.day)
    requires Valid(date)
    ensures ParseIso(y + ['-'] + (m + ['-'] + d)) == Success(date)
  {
    SplitThree(y, m, d, '-');
  }

  lemma ParseYear2025()
    ensures YearToken("2025") == Some(2025)
  {
    assert "2025"[..3] == "202" && "202"[..2] == "20" && "20"[..1] == "2";
  }

  /** The value of a two-digit token is ten times its first digit plus its second. */
  lemma TwoDigitToken(t: string)
    requires |t| == 2 && AllDigits(t)
    ensures DigitsValue(t) == 10 * (t[0] as int - '0' as int) + (t[1] as int - '0' as int)
  {
    assert t[..1][..0] == [];
  }
}
