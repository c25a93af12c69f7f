/**
 * Calendar dates in the `DD.MM.YYYY` text form accepted by the date fields,
 * and the age computation used for birthdays (proleptic Gregorian calendar,
 * years 1 to 9999, as Python's `datetime.date` allows).
 */
module Dates {
  import opened Results
  import opened Text

  datatype Date = Date(day: int, month: int, year: int)

  predicate IsLeapYear(year: int) {
    year % 4 == 0 && (year % 100 != 0 || year % 400 == 0)
  }

  function DaysInMonth(month: int, year: int): int
    requires 1 <= month <= 12
  {
    if month == 2 then (if IsLeapYear(year) then 29 else 28)
    else if month == 4 || month == 6 || month == 9 || month == 11 then 30
    else 31
  }

  /** A day that exists in the calendar. */
  predicate IsCalendarDate(d: Date) {
    && 1 <= d.year <= 9999
    && 1 <= d.month <= 12
    && 1 <= d.day <= DaysInMonth(d.month, d.year)
  }

  /** `DD.MM.YYYY`, zero-padded. */
  function Format(d: Date): (s: string)
    requires IsCalendarDate(d)
    ensures |s| == 10
  {
    Digits(d.day, 2) + "." + Digits(d.month, 2) + "." + Digits(d.year, 4)
  }

  /** Ten characters: two digits, a dot, two digits, a dot, four digits. */
  predicate HasDateShape(s: string) {
    && |s| == 10
    && s[2] == '.' && s[5] == '.'
    && AllDigits(s[0..2]) && AllDigits(s[3..5]) && AllDigits(s[6..10])
  }

  /**
   * Reads a date in `DD.MM.YYYY` form. Text of another shape, and a shape
   * naming no real day (`31.02.2022`, `40.40.2000`), gives None.
   */
  function Parse(s: string): (r: Option<Date>)
    ensures r.Some? ==> HasDateShape(s) && IsCalendarDate(r.value) && Format(r.value) == s
  {
    if HasDateShape(s) then
      var d := Date(Number(s[0..2]), Number(s[3..5]), Number(s[6..10]));
      if IsCalendarDate(d) then
        DigitsOfNumber(s[0..2]);
        DigitsOfNumber(s[3..5]);
        DigitsOfNumber(s[6..10]);
        assert s == s[0..2] + "." + s[3..5] + "." + s[6..10];
        Some(d)
      else None
    else None
  }

  /** The texts `Parse` accepts are exactly the texts of real days. */
  lemma ParsesIffFormatted(s: string)
    ensures Parse(s).Some? <==> exists d :: IsCalendarDate(d) && Format(d) == s
  {
    if exists d :: IsCalendarDate(d) && Format(d) == s {
      var d :| IsCalendarDate(d) && Format(d) == s;
      ParseFormat(d);
    }
  }

  /** A text parses to a day at most `maxAge` years before `today` exactly when it is the text of such a real day. */
  lemma ParsedAgeIffFormatted(s: string, today: Date, maxAge: int)
    ensures (Parse(s).Some? && AgeOn(Parse(s).value, today) <= maxAge)
            <==> exists d :: IsCalendarDate(d) && Format(d) == s && AgeOn(d, today) <= maxAge
  {
    if exists d :: IsCalendarDate(d) && Format(d) == s && AgeOn(d, today) <= maxAge {
      var d :| IsCalendarDate(d) && Format(d) == s && AgeOn(d, today) <= maxAge;
      ParseFormat(d);
    }
  }

  /** Every real day is read back from its own text. */
  lemma ParseFormat(d: Date)
    requires IsCalendarDate(d)
    ensures Parse(Format(d)) == Some(d)
  {
    var s := Format(d);
    assert Pow10(2) == 100 && Pow10(4) == 10000;
    NumberOfDigits(d.day, 2);
    NumberOfDigits(d.month, 2);
    NumberOfDigits(d.year, 4);
    assert s[0..2] == Digits(d.day, 2);
    assert s[3..5] == Digits(d.month, 2);
    assert s[6..10] == Digits(d.year, 4);
  }

  /** Texts of the right shape naming no day, and a two-digit year, are all refused. */
  lemma RejectedDates()
    ensures Parse("31.02.2022") == None
    ensures Parse("40.40.2000") == None
    ensures Parse("12.12.12") == None
  {
    NoThirtyFirstOfFebruary();
    var t := "40.40.2000";
    assert t[3..5] == "40" && "40"[..1] == "4";
  }

  lemma NoThirtyFirstOfFebruary()
    ensures Parse("31.02.2022") == None
  {
    var s := "31.02.2022";
    assert "2022"[..3] == "202" && "202"[..2] == "20" && "20"[..1] == "2";
    assert Number("2022") == 2022;
    assert s[0..2] == "31" && s[3..5] == "02" && s[6..10] == "2022";
    assert "31"[..1] == "3" && "02"[..1] == "0";
  }

  /**
   * Completed years from `birth` to `today`: the difference of the years,
   * less one when today's month and day come before the birthday's.
   */
  function AgeOn(birth: Date, today: Date): int {
    var beforeBirthday :=
      today.month < birth.month || (today.month == birth.month && today.day < birth.day);
    today.year - birth.year - (if beforeBirthday then 1 else 0)
  }
}
