/**
 * Dates as the ledger stores them: text in the ISO 8601 complete calendar
 * date format `YYYY-MM-DD`, read back with `strptime(text, '%Y-%m-%d')`.
 *
 * `ParseDate` follows what that call accepts: the directive `%Y` matches
 * exactly four digits, `%m` the first of `1[0-2]`, `0[1-9]`, `[1-9]` that
 * matches, `%d` the first of `3[01]`, `[12]\d`, `0[1-9]`, `[1-9]`, ` [1-9]`;
 * text left over after the day is an error, and so is a date that the
 * calendar does not have (year 0, or a day past the end of its month).
 */
module Dates {
  import opened Wrappers

  /** A calendar date, as `datetime` holds one. */
  datatype Date = Date(year: int, month: int, day: int)

  /** The four ways `strptime(text, '%Y-%m-%d')` raises `ValueError`. */
  datatype DateError =
    | FormatMismatch   // the text does not match the pattern
    | UnconvertedData  // the pattern matched a proper prefix of the text
    | YearOutOfRange   // year 0
    | DayOutOfRange    // a day past the end of its month

  const MinYear := 1
  const MaxYear := 9999

  /** The Gregorian leap-year rule. */
  predicate IsLeapYear(y: int) {
    y % 4 == 0 && (y % 100 != 0 || y % 400 == 0)
  }

  function DaysInMonth(y: int, m: int): (n: int)
    requires 1 <= m <= 12
    ensures 28 <= n <= 31
  {
    if m == 2 then (if IsLeapYear(y) then 29 else 28)
    else if m == 4 || m == 6 || m == 9 || m == 11 then 30
    else 31
  }

  /** A date that `datetime` can represent. */
  predicate ValidDate(d: Date) {
    MinYear <= d.year <= MaxYear && 1 <= d.month <= 12 && 1 <= d.day <= DaysInMonth(d.year, d.month)
  }

  /** The fields the pattern can capture, before the calendar is consulted. */
  predicate PatternFields(d: Date) {
    0 <= d.year <= 9999 && 1 <= d.month <= 12 && 1 <= d.day <= 31
  }

  predicate IsDigit(c: char) {
    '0' <= c <= '9'
  }

  function DigitValue(c: char): (v: int)
    requires IsDigit(c)
    ensures 0 <= v <= 9
  {
    c as int - '0' as int
  }

  function DigitChar(v: int): (c: char)
    requires 0 <= v <= 9
    ensures IsDigit(c) && DigitValue(c) == v
  {
    (v + '0' as int) as char
  }

  /** `%Y`: exactly four digits; yields the year and the text after it. */
  function MatchYear(s: string): (r: Option<(int, string)>)
    ensures r.Some? ==> 0 <= r.value.0 <= 9999
  {
    if |s| >= 4 && IsDigit(s[0]) && IsDigit(s[1]) && IsDigit(s[2]) && IsDigit(s[3]) then
      Some((1000 * DigitValue(s[0]) + 100 * DigitValue(s[1]) + 10 * DigitValue(s[2]) + DigitValue(s[3]), s[4..]))
    else
      None
  }

  /** `%m`: the first of `1[0-2]`, `0[1-9]`, `[1-9]` that matches. */
  function MatchMonth(s: string): (r: Option<(int, string)>)
    ensures r.Some? ==> 1 <= r.value.0 <= 12
  {
    if |s| >= 2 && s[0] == '1' && '0' <= s[1] <= '2' then Some((10 + DigitValue(s[1]), s[2..]))
    else if |s| >= 2 && s[0] == '0' && '1' <= s[1] <= '9' then Some((DigitValue(s[1]), s[2..]))
    else if |s| >= 1 && '1' <= s[0] <= '9' then Some((DigitValue(s[0]), s[1..]))
    else None
  }

  /** `%d`: the first of `3[01]`, `[12]\d`, `0[1-9]`, `[1-9]`, ` [1-9]` that matches. */
  function MatchDay(s: string): (r: Option<(int, string)>)
    ensures r.Some? ==> 1 <= r.value.0 <= 31
  {
    if |s| >= 2 && s[0] == '3' && (s[1] == '0' || s[1] == '1') then Some((30 + DigitValue(s[1]), s[2..]))
    else if |s| >= 2 && (s[0] == '1' || s[0] == '2') && IsDigit(s[1]) then
      Some((10 * DigitValue(s[0]) + DigitValue(s[1]), s[2..]))
    else if |s| >= 2 && s[0] == '0' && '1' <= s[1] <= '9' then Some((DigitValue(s[1]), s[2..]))
    else if |s| >= 1 && '1' <= s[0] <= '9' then Some((DigitValue(s[0]), s[1..]))
    else if |s| >= 2 && s[0] == ' ' && '1' <= s[1] <= '9' then Some((DigitValue(s[1]), s[2..]))
    else None
  }

  /**
   * The pattern `%Y-%m-%d` matched against the start of `s`: the captured
   * fields and the text after the day. Taking the first alternative of each
   * directive is what the regular expression does here: every alternative
   * of `%Y` and `%m` that is not taken would leave a digit where the
   * pattern needs `-`, so no backtracking can succeed where this fails.
   */
  function MatchPattern(s: string): (r: Option<(Date, string)>)
    ensures r.Some? ==> PatternFields(r.value.0)
  {
    match MatchYear(s)
    case None => None
    case Some((y, afterYear)) =>
      if |afterYear| == 0 || afterYear[0] != '-' then None
      else
        match MatchMonth(afterYear[1..])
        case None => None
        case Some((m, afterMonth)) =>
          if |afterMonth| == 0 || afterMonth[0] != '-' then None
          else
            match MatchDay(afterMonth[1..])
            case None => None
            case Some((d, rest)) => Some((Date(y, m, d), rest))
  }

  /** `datetime.strptime(s, '%Y-%m-%d')`: a date, or the reason it raises. */
  function ParseDate(s: string): (r: Result<Date, DateError>)
    ensures r.Ok? ==> ValidDate(r.value)
  {
    match MatchPattern(s)
    case None => Err(FormatMismatch)
    case Some((d, rest)) =>
      if rest != [] then Err(UnconvertedData)
      else if d.year < MinYear then Err(YearOutOfRange)
      else if d.day > DaysInMonth(d.year, d.month) then Err(DayOutOfRange)
      else Ok(d)
  }

  /** The `month` of the parsed date, or the error the parse raises. */
  function MonthOf(s: string): (r: Result<int, DateError>)
    ensures r.Ok? <==> ParseDate(s).Ok?
    ensures r.Ok? ==> 1 <= r.value <= 12 && r.value == ParseDate(s).value.month
    ensures r.Err? ==> r.error == ParseDate(s).error
  {
    match ParseDate(s)
    case Ok(d) => Ok(d.month)
    case Err(e) => Err(e)
  }

  function Pad2(n: int): (s: string)
    requires 0 <= n <= 99
    ensures |s| == 2
  {
    [DigitChar(n / 10), DigitChar(n % 10)]
  }

  /** `strftime('%Y-%m-%d')`: four-digit year, two-digit month and day. */
  function FormatDate(d: Date): (s: string)
    requires PatternFields(d)
    ensures |s| == 10 && s[4] == '-' && s[7] == '-'
  {
    Pad2(d.year / 100) + Pad2(d.year % 100) + "-" + Pad2(d.month) + "-" + Pad2(d.day)
  }

  /**
   * Formatting a date the pattern can capture and parsing it back gives the
   * date when the calendar has it, and otherwise exactly the error that
   * `datetime` reports: canonical text parses if and only if it names a
   * real date.
   */
  lemma FormatThenParse(d: Date)
    requires PatternFields(d)
    ensures ParseDate(FormatDate(d)) ==
      if d.year < MinYear then Err(YearOutOfRange)
      else if d.day > DaysInMonth(d.year, d.month) then Err(DayOutOfRange)
      else Ok(d)
  {
  }

  lemma DigitRoundTrip(c: char)
    requires IsDigit(c)
    ensures DigitChar(DigitValue(c)) == c
  {
  }

  lemma Pad2Digits(a: int, b: int)
    requires 0 <= a <= 9 && 0 <= b <= 9
    ensures Pad2(10 * a + b) == [DigitChar(a), DigitChar(b)]
  {
    assert (10 * a + b) / 10 == a && (10 * a + b) % 10 == b;
  }

  /** Four digits matched as a year are its zero-padded spelling. */
  lemma YearSpelling(s: string, y: int, rest: string)
    requires MatchYear(s) == Some((y, rest))
    ensures Pad2(y / 100) + Pad2(y % 100) == s[..4] && rest == s[4..]
  {
    var a, b, c, e := DigitValue(s[0]), DigitValue(s[1]), DigitValue(s[2]), DigitValue(s[3]);
    assert y == 100 * (10 * a + b) + (10 * c + e);
    assert y / 100 == 10 * a + b && y % 100 == 10 * c + e;
    Pad2Digits(a, b);
    Pad2Digits(c, e);
    DigitRoundTrip(s[0]); DigitRoundTrip(s[1]); DigitRoundTrip(s[2]); DigitRoundTrip(s[3]);
    assert s[..4] == [s[0], s[1]] + [s[2], s[3]];
  }

  /** A month matched from two characters is their zero-padded spelling. */
  lemma MonthSpelling(s: string, m: int, rest: string)
    requires MatchMonth(s) == Some((m, rest)) && |rest| + 2 == |s|
    ensures Pad2(m) == s[..2] && rest == s[2..]
  {
    DigitRoundTrip(s[1]);
  }

  /** A day matched from two characters, the first not a space, is their zero-padded spelling. */
  lemma DaySpelling(s: string, d: int, rest: string)
    requires MatchDay(s) == Some((d, rest)) && |rest| + 2 == |s| && s[0] != ' '
    ensures Pad2(d) == s[..2] && rest == s[2..]
  {
    DigitRoundTrip(s[0]);
    DigitRoundTrip(s[1]);
  }

  /**
   * The converse of `FormatThenParse`: text of ten characters that parses,
   * with no space before the day, is the canonical spelling of its date.
   */
  lemma ParseThenFormat(s: string, d: Date)
    requires ParseDate(s) == Ok(d) && |s| == 10 && s[8] != ' '
    ensures FormatDate(d) == s
  {
    var (y, afterYear) := MatchYear(s).value;
    YearSpelling(s, y, afterYear);
    var (m, afterMonth) := MatchMonth(afterYear[1..]).value;
    var (day, rest) := MatchDay(afterMonth[1..]).value;
    assert MatchPattern(s) == Some((Date(y, m, day), rest)) && rest == [];
    assert |afterMonth| <= 3 && |afterYear[1..]| == 5;
    MonthSpelling(afterYear[1..], m, afterMonth);
    assert afterMonth[1..] == s[8..];
    DaySpelling(afterMonth[1..], day, rest);
    assert s == s[..4] + "-" + s[5..7] + "-" + s[8..];
  }

  /** A valid date, formatted, parses back to itself. */
  lemma FormattedDateParses(d: Date)
    requires ValidDate(d)
    ensures ParseDate(FormatDate(d)) == Ok(d)
  {
  }

  /** The month read back from a formatted valid date is its month. */
  lemma MonthOfFormatted(d: Date)
    requires ValidDate(d)
    ensures MonthOf(FormatDate(d)) == Ok(d.month)
  {
  }

  /** `YYYY-02-29` parses exactly in leap years. */
  lemma LeapDay(y: int)
    requires MinYear <= y <= MaxYear
    ensures ParseDate(FormatDate(Date(y, 2, 29))).Ok? <==> IsLeapYear(y)
  {
  }

  /** The pattern also accepts a one-digit month, and a day written as one digit or a space and a digit. */
  lemma LenientExamples()
    ensures ParseDate("2024-3-5") == Ok(Date(2024, 3, 5))
    ensures ParseDate("2024-03- 5") == Ok(Date(2024, 3, 5))
  {
  }

  /** A month past 12 or a two-digit year does not match; a third day digit is left over. */
  lemma MalformedExamples()
    ensures ParseDate("2024-13-01") == Err(FormatMismatch)
    ensures ParseDate("24-03-15") == Err(FormatMismatch)
    ensures ParseDate("2024-03-155") == Err(UnconvertedData)
  {
  }

  /** Year 0 and the 31st of April match the pattern but are not dates. */
  lemma CalendarExamples()
    ensures ParseDate("0000-01-01") == Err(YearOutOfRange)
    ensures ParseDate("2023-04-31") == Err(DayOutOfRange)
  {
  }
}
