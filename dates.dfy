/** The two date conversions the daily log relies on: reading a
    "YYYY-MM-DD" string the way `datetime.strptime(s, "%Y-%m-%d")` does, and
    writing a date with `strftime("%b. %-d, %Y")` in the C locale. */
module Dates {
  import opened Wrappers
  import opened Text

  datatype Date = Date(year: int, month: int, day: int)

  predicate IsLeap(y: int)
  {
    y % 4 == 0 && (y % 100 != 0 || y % 400 == 0)
  }

  function DaysIn(m: int, y: int): int
  {
    if m == 2 then (if IsLeap(y) then 29 else 28)
    else if m == 4 || m == 6 || m == 9 || m == 11 then 30
    else 31
  }

  /** A day of the proleptic Gregorian calendar that `datetime` can hold. */
  predicate ValidDate(dt: Date)
  {
    1 <= dt.year <= 9999 && 1 <= dt.month <= 12 && 1 <= dt.day <= DaysIn(dt.month, dt.year)
  }

  predicate NonZeroDigit(c: char) { '1' <= c <= '9' }

  /** The `%m` pattern `1[0-2]|0[1-9]|[1-9]` followed by the literal "-":
      the month and the number of characters taken, dash included. */
  function MonthField(s: string): (r: Option<(int, nat)>)
    ensures r.Some? ==> 1 <= r.value.0 <= 12 && 2 <= r.value.1 <= 3 && r.value.1 <= |s|
  {
    if |s| >= 3 && s[0] == '1' && '0' <= s[1] <= '2' && s[2] == '-' then Some((10 + DigitValue(s[1]), 3))
    else if |s| >= 3 && s[0] == '0' && NonZeroDigit(s[1]) && s[2] == '-' then Some((DigitValue(s[1]), 3))
    else if |s| >= 2 && NonZeroDigit(s[0]) && s[1] == '-' then Some((DigitValue(s[0]), 2))
    else None
  }

  /** The `%d` pattern `3[01]|[12]\d|0[1-9]|[1-9]| [1-9]`: the first
      alternative that matches wins, and the day and the number of characters
      it took are returned. */
  function DayField(s: string): (r: Option<(int, nat)>)
    ensures r.Some? ==> 1 <= r.value.0 <= 31 && 1 <= r.value.1 <= 2 && r.value.1 <= |s|
  {
    if |s| >= 2 && s[0] == '3' && (s[1] == '0' || s[1] == '1') then Some((30 + DigitValue(s[1]), 2))
    else if |s| >= 2 && (s[0] == '1' || s[0] == '2') && IsDigit(s[1]) then Some((10 * DigitValue(s[0]) + DigitValue(s[1]), 2))
    else if |s| >= 2 && s[0] == '0' && NonZeroDigit(s[1]) then Some((DigitValue(s[1]), 2))
    else if |s| >= 1 && NonZeroDigit(s[0]) then Some((DigitValue(s[0]), 1))
    else if |s| >= 2 && s[0] == ' ' && NonZeroDigit(s[1]) then Some((DigitValue(s[1]), 2))
    else None
  }

  /** The `%Y-%m-%d` regular expression matched at the start of `s`: the
      three fields and the length of the match. */
  function MatchPrefix(s: string): (r: Option<(Date, nat)>)
    ensures r.Some? ==>
      0 <= r.value.0.year <= 9999 && 1 <= r.value.0.month <= 12 && 1 <= r.value.0.day <= 31 && r.value.1 <= |s|
  {
    if |s| >= 5 && IsDigit(s[0]) && IsDigit(s[1]) && IsDigit(s[2]) && IsDigit(s[3]) && s[4] == '-' then
      DigitsValueBound(s[..4]);
      match MonthField(s[5..])
      case None => None
      case Some((m, c)) =>
        match DayField(s[5 + c..])
        case None => None
        case Some((d, e)) => Some((Date(DigitsValue(s[..4]), m, d), 5 + c + e))
    else None
  }

  const DateFormat := "%Y-%m-%d"

  /** `datetime.strptime(s, "%Y-%m-%d")`: the regular expression must match
      the whole text, and the fields must form a real calendar day; each
      failure raises its own ValueError. */
  function Strptime(s: string): (r: Result<Date>)
    ensures r.Ok? ==> ValidDate(r.value)
    ensures r.Err? ==> r.error.ValueError?
  {
    match MatchPrefix(s)
    case None =>
      Err(ValueError("time data " + QuoteString(s) + " does not match format " + QuoteString(DateFormat)))
    case Some((dt, n)) =>
      if n < |s| then Err(ValueError("unconverted data remains: " + s[n..]))
      else if dt.year == 0 then Err(ValueError("year 0 is out of range"))
      else if dt.day > DaysIn(dt.month, dt.year) then Err(ValueError("day is out of range for month"))
      else Ok(dt)
  }

  /** The parsed day, when the text parses. */
  function ParseDate(s: string): (r: Option<Date>)
    ensures r.Some? ==> ValidDate(r.value)
  {
    match Strptime(s)
    case Ok(dt) => Some(dt)
    case Err(_) => None
  }

  /** `utils.is_valid_date_format(s)`: strptime raises no ValueError. */
  predicate IsValidDateFormat(s: string)
  {
    Strptime(s).Ok?
  }

  const MonthAbbr: seq<string> :=
    ["Jan", "Feb", "Mar", "Apr", "May", "Jun", "Jul", "Aug", "Sep", "Oct", "Nov", "Dec"]

  /** `strftime("%b. %-d, %Y")`: abbreviated month, the day without padding
      and the year. */
  function FormatDate(dt: Date): string
    requires ValidDate(dt)
  {
    MonthAbbr[dt.month - 1] + ". " + NatToString(dt.day) + ", " + NatToString(dt.year)
  }

  /** The two digits of 0..99, zero-padded. */
  function TwoDigits(n: nat): (r: string)
    requires n < 100
    ensures |r| == 2 && IsDigit(r[0]) && IsDigit(r[1])
  {
    [DigitChar(n / 10), DigitChar(n % 10)]
  }

  /** The canonical "YYYY-MM-DD" form of a date from year 1000 on. */
  function IsoDate(dt: Date): (r: string)
    requires ValidDate(dt) && dt.year >= 1000
  {
    [DigitChar(dt.year / 1000), DigitChar(dt.year / 100 % 10), DigitChar(dt.year / 10 % 10), DigitChar(dt.year % 10)]
      + "-" + TwoDigits(dt.month) + "-" + TwoDigits(dt.day)
  }

  // ---------------------------------------------------------------- lemmas

  /** Four digits read as a number stay below 10000. */
  lemma DigitsValueBound(s: string)
    requires |s| == 4 && forall k :: 0 <= k < 4 ==> IsDigit(s[k])
    ensures DigitsValue(s) <= 9999
  {
    assert s[..1][..0] == [] && s[..2][..1] == s[..1] && s[..3][..2] == s[..2] && s[..4][..3] == s[..3];
    assert DigitsValue(s[..1]) <= 9;
    assert DigitsValue(s[..2]) <= 99;
    assert DigitsValue(s[..3]) <= 999;
    assert s[..4] == s;
  }

  lemma DigitCharValue(d: nat)
    requires d < 10
    ensures IsDigit(DigitChar(d)) && DigitValue(DigitChar(d)) == d
  {
  }

  /** Four digits read as a number, place by place. */
  lemma DigitsValueFour(s: string)
    requires |s| == 4 && forall k :: 0 <= k < 4 ==> IsDigit(s[k])
    ensures DigitsValue(s) == 1000 * DigitValue(s[0]) + 100 * DigitValue(s[1]) + 10 * DigitValue(s[2]) + DigitValue(s[3])
  {
    assert s[..1][..0] == [] && s[..2][..1] == s[..1] && s[..3][..2] == s[..2] && s[..4][..3] == s[..3];
    assert DigitsValue(s[..1]) == DigitValue(s[0]);
    assert DigitsValue(s[..2]) == 10 * DigitValue(s[0]) + DigitValue(s[1]);
    assert DigitsValue(s[..3]) == 100 * DigitValue(s[0]) + 10 * DigitValue(s[1]) + DigitValue(s[2]);
    assert s[..4] == s;
  }

  /** A four-digit year is its digits weighted by place. */
  lemma Places(y: int)
    requires 1000 <= y <= 9999
    ensures y == 1000 * (y / 1000) + 100 * (y / 100 % 10) + 10 * (y / 10 % 10) + y % 10
    ensures y / 1000 < 10
  {
    assert y / 10 == 10 * (y / 100) + y / 10 % 10;
    assert y / 100 == 10 * (y / 1000) + y / 100 % 10;
  }

  lemma FourDigits(y: int)
    requires 1000 <= y <= 9999
    ensures var s := [DigitChar(y / 1000), DigitChar(y / 100 % 10), DigitChar(y / 10 % 10), DigitChar(y % 10)];
      (forall k :: 0 <= k < 4 ==> IsDigit(s[k])) && DigitsValue(s) == y
  {
    Places(y);
    var s := [DigitChar(y / 1000), DigitChar(y / 100 % 10), DigitChar(y / 10 % 10), DigitChar(y % 10)];
    DigitCharValue(y / 1000);
    DigitCharValue(y / 100 % 10);
    DigitCharValue(y / 10 % 10);
    DigitCharValue(y % 10);
    DigitsValueFour(s);
  }

  /** Every date written in the canonical form is read back as itself. */
  lemma IsoDateRoundTrip(dt: Date)
    requires ValidDate(dt) && dt.year >= 1000
    ensures Strptime(IsoDate(dt)) == Ok(dt)
  {
    var s := IsoDate(dt);
    FourDigits(dt.year);
    assert s[..4] == [DigitChar(dt.year / 1000), DigitChar(dt.year / 100 % 10), DigitChar(dt.year / 10 % 10), DigitChar(dt.year % 10)];
    assert s[5..] == TwoDigits(dt.month) + "-" + TwoDigits(dt.day);
    MonthRead(dt.month, TwoDigits(dt.day));
    assert s[8..] == TwoDigits(dt.day);
    DayRead(dt.day);
  }

  /** A zero-padded month and its dash are read back as that month. */
  lemma MonthRead(m: int, rest: string)
    requires 1 <= m <= 12
    ensures MonthField(TwoDigits(m) + "-" + rest) == Some((m, 3))
  {
    DigitCharValue(m / 10);
    DigitCharValue(m % 10);
  }

  /** A zero-padded day is read back as that day. */
  lemma DayRead(d: int)
    requires 1 <= d <= 31
    ensures DayField(TwoDigits(d)) == Some((d, 2))
  {
    DigitCharValue(d / 10);
    DigitCharValue(d % 10);
  }

  lemma Year2023()
    ensures DigitsValue("2023") == 2023
  {
    assert "2023"[..3] == "202" && "202"[..2] == "20" && "20"[..1] == "2" && "2"[..0] == "";
  }

  /** A single-digit month or day is accepted. */
  lemma SingleDigitMonthAccepted()
    ensures Strptime("2023-1-1") == Ok(Date(2023, 1, 1))
  {
    var s := "2023-1-1";
    assert s[..4] == "2023";
    Year2023();
    assert s[5..] == "1-1";
    assert MonthField("1-1") == Some((1, 2));
    assert s[7..] == "1";
  }

  /** A three-digit year fails to match the pattern. */
  lemma ShortYearRejected()
    ensures Strptime("223-01-01") == Err(ValueError("time data " + QuoteString("223-01-01") + " does not match format " + QuoteString(DateFormat)))
  {
  }

  /** A trailing time is unconverted data. */
  lemma TrailingTimeRejected()
    ensures Strptime("2023-01-01" + "T00:00:00") == Err(ValueError("unconverted data remains: " + "T00:00:00"))
  {
    var t := "2023-01-01" + "T00:00:00";
    assert t[..4] == "2023";
    assert t[5..] == "01-01T00:00:00";
    assert MonthField(t[5..]) == Some((1, 3));
    assert t[8..] == "01T00:00:00";
    assert DayField(t[8..]) == Some((1, 2));
    assert t[10..] == "T00:00:00";
  }

  /** A day past the end of its month is out of range. */
  lemma DayPastMonthEndRejected()
    ensures Strptime("2023-02-29") == Err(ValueError("day is out of range for month"))
  {
    var f := "2023-02-29";
    assert f[..4] == "2023";
    Year2023();
    assert f[5..] == "02-29";
    assert MonthField("02-29") == Some((2, 3));
    assert f[8..] == "29";
    assert !IsLeap(2023);
  }

  lemma FormatSample()
    ensures FormatDate(Date(2023, 11, 3)) == "Nov. 3, 2023"
  {
    Year2023String();
    assert MonthAbbr[10] == "Nov" && NatToString(3) == "3";
  }

  lemma Year2023String()
    ensures NatToString(2023) == "2023"
  {
    assert NatToString(2023) == NatToString(202) + "3";
    assert NatToString(202) == NatToString(20) + "2";
    assert NatToString(20) == "20";
  }
}
