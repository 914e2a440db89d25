/**
 * Calendar dates in the layout "2006-01-02", the one the service uses to
 * validate the date of a by-date request. What `time.Parse` accepts with that
 * layout is the `full-date` production of section 5.6 of RFC 3339, restricted
 * as section 5.7 of RFC 3339 says (months 01-12, days 01 up to the length of
 * the month, with the Gregorian leap-year rule).
 */
module Calendar {
  import opened Wrappers
  import opened Decimal

  datatype Date = Date(year: int, month: int, day: int)

  predicate IsLeap(year: int) {
    year % 4 == 0 && (year % 100 != 0 || year % 400 == 0)
  }

  function DaysIn(month: int, year: int): (n: int)
    requires 1 <= month <= 12
    ensures 28 <= n <= 31
    ensures n == 29 <==> month == 2 && IsLeap(year)
  {
    if month == 2 then (if IsLeap(year) then 29 else 28)
    else if month == 4 || month == 6 || month == 9 || month == 11 then 30
    else 31
  }

  /** A date that "2006-01-02" can write: a four-digit year and a day that exists. */
  predicate ValidDate(d: Date) {
    && 0 <= d.year <= 9999
    && 1 <= d.month <= 12
    && 1 <= d.day <= DaysIn(d.month, d.year)
  }

  /** The RFC 3339 `full-date` grammar: date-fullyear "-" date-month "-" date-mday. */
  predicate IsFullDate(s: string) {
    && |s| == 10
    && AllDigits(s[..4]) && s[4] == '-' && AllDigits(s[5..7]) && s[7] == '-' && AllDigits(s[8..])
    && 1 <= Number(s[5..7]) <= 12
    && 1 <= Number(s[8..]) <= DaysIn(Number(s[5..7]), Number(s[..4]))
  }

  /**
   * `time.Parse("2006-01-02", s)`, chunk by chunk as the layout is walked:
   * the year takes exactly four characters and they must all be digits, each
   * '-' must be present, month and day are fixed two-digit numbers, nothing
   * may follow, and the day is checked against the month last.
   */
  function ParseDate(s: string): (r: Option<Date>)
    ensures r.Some? ==> ValidDate(r.value)
  {
    if |s| < 4 || !IsDigit(s[0]) || !AllDigits(s[..4]) then None
    else
      var year := Number(s[..4]);
      var afterYear := s[4..];
      if |afterYear| == 0 || afterYear[0] != '-' then None
      else
        match GetNum(afterYear[1..], true)
        case None => None
        case Some((month, afterMonth)) =>
          if month < 1 || 12 < month then None
          else if |afterMonth| == 0 || afterMonth[0] != '-' then None
          else
            match GetNum(afterMonth[1..], true)
            case None => None
            case Some((day, rest)) =>
              if |rest| > 0 then None
              else if day < 1 || DaysIn(month, year) < day then None
              else Some(Date(year, month, day))
  }

  /** The inverse of ParseDate on valid dates: "YYYY-MM-DD". */
  function FormatDate(d: Date): (s: string)
    requires ValidDate(d)
    ensures |s| == 10
  {
    Padded(d.year, 4) + "-" + Padded(d.month, 2) + "-" + Padded(d.day, 2)
  }

  /** The parser accepts exactly the RFC 3339 full-dates, and reads the three fields off them. */
  lemma ParseDateIsFullDate(s: string)
    ensures ParseDate(s).Some? <==> IsFullDate(s)
    ensures ParseDate(s).Some? ==>
              ParseDate(s).value == Date(Number(s[..4]), Number(s[5..7]), Number(s[8..]))
  {
    if |s| >= 4 && IsDigit(s[0]) && AllDigits(s[..4]) && |s| >= 5 && s[4] == '-' {
      var afterYear := s[4..];
      assert afterYear[1..] == s[5..];
      if |s| >= 7 && IsDigit(s[5]) && IsDigit(s[6]) {
        assert s[5..][..2] == s[5..7];
        assert s[5..][2..] == s[7..];
        if |s| >= 10 && s[7] == '-' && IsDigit(s[8]) && IsDigit(s[9]) {
          assert s[7..][1..][..2] == s[8..10];
          assert s[7..][1..][2..] == s[10..];
          if |s| == 10 {
            assert s[8..] == s[8..10];
          }
        }
      }
    }
  }

  /** Formatting a valid date and parsing it back gives the date. */
  lemma FormatThenParse(d: Date)
    requires ValidDate(d)
    ensures ParseDate(FormatDate(d)) == Some(d)
  {
    var s := FormatDate(d);
    assert s[..4] == Padded(d.year, 4);
    assert s[5..7] == Padded(d.month, 2);
    assert s[8..] == Padded(d.day, 2);
    ParseDateIsFullDate(s);
  }

  /** Whatever the parser accepts is exactly the text of the date it returns. */
  lemma ParseThenFormat(s: string)
    requires ParseDate(s).Some?
    ensures FormatDate(ParseDate(s).value) == s
  {
    ParseDateIsFullDate(s);
    PaddedNumber(s[..4]);
    PaddedNumber(s[5..7]);
    PaddedNumber(s[8..]);
    assert s == s[..4] + "-" + s[5..7] + "-" + s[8..];
  }
}
