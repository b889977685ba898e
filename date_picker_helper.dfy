/**
 * The date-picker helper: dates as strings, shifted by whole days, and the
 * last day of the previous month. Dates are the calendar fields a JavaScript
 * Date reports in local time (full year, month from 0, day of month).
 */
module DatePickerHelper {
  import opened JsCore

  // ---------------------------------------------------------------------------
  // The Gregorian calendar

  predicate IsLeapYear(y: int)
  {
    y % 4 == 0 && (y % 100 != 0 || y % 400 == 0)
  }

  /** The number of days of month `m` (0 = January) in year `y`. */
  function DaysInMonth(y: int, m: int): (n: int)
    requires 0 <= m < 12
    ensures 28 <= n <= 31
    ensures m == 1 ==> (n == 29 <==> IsLeapYear(y)) && (n == 28 <==> !IsLeapYear(y))
    ensures m != 1 ==> (n == 30 <==> m in {3, 5, 8, 10}) && (n == 31 <==> m !in {3, 5, 8, 10})
  {
    if m == 1 then (if IsLeapYear(y) then 29 else 28)
    else if m == 3 || m == 5 || m == 8 || m == 10 then 30
    else 31
  }

  /** getFullYear(), getMonth() and getDate() of a Date. */
  datatype Date = Date(year: int, month: int, day: int)

  /** The fields of a real date. */
  predicate ValidDate(d: Date)
  {
    0 <= d.month < 12 && 1 <= d.day <= DaysInMonth(d.year, d.month)
  }

  /** The date one day later. */
  function NextDay(d: Date): (r: Date)
    requires ValidDate(d)
    ensures ValidDate(r)
    ensures r.year == d.year || (r.year == d.year + 1 && d.month == 11 && d.day == 31 && r.month == 0 && r.day == 1)
  {
    if d.day < DaysInMonth(d.year, d.month) then d.(day := d.day + 1)
    else if d.month < 11 then Date(d.year, d.month + 1, 1)
    else Date(d.year + 1, 0, 1)
  }

  /** The date one day earlier. */
  function PrevDay(d: Date): (r: Date)
    requires ValidDate(d)
    ensures ValidDate(r)
    ensures r.year == d.year || (r.year == d.year - 1 && d.month == 0 && d.day == 1 && r.month == 11 && r.day == 31)
  {
    if d.day > 1 then d.(day := d.day - 1)
    else if d.month > 0 then Date(d.year, d.month - 1, DaysInMonth(d.year, d.month - 1))
    else Date(d.year - 1, 11, 31)
  }

  /** A day forwards and a day back cancel out, in either order. */
  lemma PrevNext(d: Date)
    requires ValidDate(d)
    ensures PrevDay(NextDay(d)) == d && NextDay(PrevDay(d)) == d
  {
  }

  /** `new Date(d.getTime() + 86400 * n * 1000)`, counted in whole days. */
  function AddDays(d: Date, n: int): (r: Date)
    requires ValidDate(d)
    ensures ValidDate(r)
    decreases if n >= 0 then n else -n
  {
    if n == 0 then d
    else if n > 0 then AddDays(NextDay(d), n - 1)
    else AddDays(PrevDay(d), n + 1)
  }

  lemma {:induction false} AddDaysLast(d: Date, n: int)
    requires ValidDate(d) && n != 0
    ensures n > 0 ==> AddDays(d, n) == NextDay(AddDays(d, n - 1))
    ensures n < 0 ==> AddDays(d, n) == PrevDay(AddDays(d, n + 1))
    decreases if n >= 0 then n else -n
  {
    if n > 1 {
      AddDaysLast(NextDay(d), n - 1);
    } else if n < -1 {
      AddDaysLast(PrevDay(d), n + 1);
    }
  }

  /** Shifting by `n` days and then by `-n` days gives the date back. */
  lemma {:induction false} AddDaysInverse(d: Date, n: int)
    requires ValidDate(d)
    ensures AddDays(AddDays(d, n), -n) == d
    decreases if n >= 0 then n else -n
  {
    if n > 0 {
      var y := AddDays(d, n - 1);
      AddDaysLast(d, n);
      PrevNext(y);
      assert AddDays(NextDay(y), -n) == AddDays(PrevDay(NextDay(y)), -n + 1);
      AddDaysInverse(d, n - 1);
    } else if n < 0 {
      var y := AddDays(d, n + 1);
      AddDaysLast(d, n);
      PrevNext(y);
      assert AddDays(PrevDay(y), -n) == AddDays(NextDay(PrevDay(y)), -n - 1);
      AddDaysInverse(d, n + 1);
    }
  }

  // ---------------------------------------------------------------------------
  // getDateString

  /** getDateString(year, month, day, s): the month gets a leading zero when
      `month + 1 <= 10`, the day when `day < 10`. */
  function GetDateString(year: int, month: int, day: int, s: string): string
  {
    var date := IntToString(year) + s;
    var date' := date + (if month + 1 <= 10 then "0" + IntToString(month) + s else IntToString(month) + s);
    date' + (if day < 10 then "0" + IntToString(day) else IntToString(day))
  }

  /** The padded text of a number from 1 to 31. */
  function TwoDigits(n: int): string
    requires 1 <= n <= 31
  {
    if n < 10 then "0" + NatToString(n) else NatToString(n)
  }

  lemma TwoDigitsLength(n: int)
    ensures 1 <= n < 10 ==> |IntToString(n)| == 1
    ensures 10 <= n <= 31 ==> |IntToString(n)| == 2
  {
    if 1 <= n < 10 {
      assert IntToString(n) == [DigitChar(n)];
    } else if 10 <= n <= 31 {
      assert IntToString(n) == NatToString(n / 10) + [DigitChar(n % 10)];
      assert NatToString(n / 10) == [DigitChar(n / 10)];
    }
  }

  lemma TwoDigitsAllDigits(n: int)
    requires 1 <= n <= 31
    ensures AllDigits(TwoDigits(n))
  {
    if n < 10 {
      assert forall i :: 1 <= i < 2 ==> TwoDigits(n)[i] == NatToString(n)[i - 1];
    }
  }

  /** Two digits that read back as the number. */
  lemma {:induction false} TwoDigitsRead(n: int)
    requires 1 <= n <= 31
    ensures |TwoDigits(n)| == 2 && AllDigits(TwoDigits(n)) && ParseNat(TwoDigits(n)) == n
  {
    TwoDigitsLength(n);
    NatToStringRoundTrip(n);
    if n < 10 {
      var t := TwoDigits(n);
      assert t[..1] == "0" && t[1] == DigitChar(n);
      assert ParseNat("0") == 0;
    }
  }

  /** For a calendar month (1 to 12) and a day of month, the string is the
      year, the separator, two digits for the month, the separator again and
      two digits for the day, and the two-digit parts read back as the month
      and the day. */
  lemma DateStringParts(year: int, month: int, day: int, s: string)
    requires 1 <= month <= 12 && 1 <= day <= 31
    ensures GetDateString(year, month, day, s) == IntToString(year) + s + TwoDigits(month) + s + TwoDigits(day)
    ensures |TwoDigits(month)| == 2 && ParseNat(TwoDigits(month)) == month
    ensures |TwoDigits(day)| == 2 && ParseNat(TwoDigits(day)) == day
  {
    TwoDigitsRead(month);
    TwoDigitsRead(day);
    TwoDigitsLength(month);
    TwoDigitsLength(day);
    assert TwoDigits(month) == if month + 1 <= 10 then "0" + IntToString(month) else IntToString(month);
    assert TwoDigits(day) == if day < 10 then "0" + IntToString(day) else IntToString(day);
  }

  // ---------------------------------------------------------------------------
  // getDateFormat

  /** No letter the format replaces. */
  predicate Plain(format: string)
  {
    forall i :: 0 <= i < |format| ==> format[i] !in "Ymdynj"
  }

  /** The six texts getDateFormat writes: the year, the padded month and
      day, the year again, and the month and day as they are. */
  datatype Fields = Fields(dYear: string, dMonth: string, dDay: string, year: string, month: string, day: string)

  /** A leading zero for a one-character number. */
  function Pad(t: string): string
  {
    if |t| == 1 then "0" + t else t
  }

  function FieldsOf(date: Date): Fields
  {
    var year := IntToString(date.year);
    var month := IntToString(date.month + 1);
    var day := IntToString(date.day);
    Fields(year, Pad(month), Pad(day), year, month, day)
  }

  /** The six replacements, in the order the code makes them. */
  function FormatWith(format: string, f: Fields): string
  {
    ReplaceFirst(ReplaceFirst(ReplaceFirst(ReplaceFirst(ReplaceFirst(ReplaceFirst(
      format, 'Y', f.dYear), 'm', f.dMonth), 'd', f.dDay), 'y', f.year), 'n', f.month), 'j', f.day)
  }

  /** The date moved by `days` when that is given and not zero. */
  function Shifted(d: Date, days: Option<int>): Date
    requires ValidDate(d)
  {
    if days.Some? && days.value != 0 then AddDays(d, days.value) else d
  }

  /** getDateFormat(d, format, days): the date moved by `days` when that is
      given and not zero; then the first Y, m, d, y, n and j of the format, in
      that order, become the year, the padded month and day, the year again,
      and the unpadded month and day. */
  function GetDateFormat(d: Date, format: string, days: Option<int>): string
    requires ValidDate(d)
  {
    FormatWith(format, FieldsOf(Shifted(d, days)))
  }

  /** For a real date: Y and y are both the full year, m and d the two-digit
      month (from 1) and day, n and j the same numbers without padding. */
  lemma FieldsPadded(d: Date)
    requires ValidDate(d)
    ensures FieldsOf(d).dYear == IntToString(d.year) && FieldsOf(d).year == FieldsOf(d).dYear
    ensures FieldsOf(d).dMonth == TwoDigits(d.month + 1) && FieldsOf(d).dDay == TwoDigits(d.day)
    ensures FieldsOf(d).month == IntToString(d.month + 1) && FieldsOf(d).day == IntToString(d.day)
  {
    TwoDigitsLength(d.month + 1);
    TwoDigitsLength(d.day);
  }

  /** Without an offset, or with an offset of zero, the date's own fields
      are written. */
  lemma Unshifted(d: Date, format: string)
    requires ValidDate(d)
    ensures GetDateFormat(d, format, None) == FormatWith(format, FieldsOf(d))
    ensures GetDateFormat(d, format, Some(0)) == FormatWith(format, FieldsOf(d))
  {
    assert Shifted(d, None) == d && Shifted(d, Some(0)) == d;
  }

  /** A format with none of the six letters comes back as it is. */
  lemma PlainUnchanged(d: Date, format: string, days: Option<int>)
    requires ValidDate(d) && Plain(format)
    ensures GetDateFormat(d, format, days) == format
  {
    assert 'Y' !in format && 'm' !in format && 'd' !in format;
    assert 'y' !in format && 'n' !in format && 'j' !in format;
  }

  lemma ReplaceYear(y: string)
    ensures ReplaceFirst("Y-m-d", 'Y', y) == y + "-m-d"
  {
    assert "Y-m-d" == [] + ['Y'] + "-m-d";
    ReplaceFirstAt([], "-m-d", 'Y', y);
  }

  lemma ReplaceMonth(y: string, m: string)
    requires 'm' !in y
    ensures ReplaceFirst(y + "-m-d", 'm', m) == y + "-" + m + "-d"
  {
    assert y + "-m-d" == (y + "-") + ['m'] + "-d";
    assert 'm' !in y + "-";
    ReplaceFirstAt(y + "-", "-d", 'm', m);
  }

  lemma ReplaceDay(y: string, m: string, dd: string)
    requires 'd' !in y && 'd' !in m
    ensures ReplaceFirst(y + "-" + m + "-d", 'd', dd) == y + "-" + m + "-" + dd
  {
    var a := y + "-" + m + "-";
    assert y + "-" + m + "-d" == a + ['d'] + [];
    assert 'd' !in a;
    ReplaceFirstAt(a, [], 'd', dd);
  }

  /** Digits and dashes only. */
  predicate DigitsOrDash(s: string)
  {
    forall i :: 0 <= i < |s| ==> IsDigit(s[i]) || s[i] == '-'
  }

  lemma KeepDigitsOrDash(s: string, c: char, rep: string)
    requires DigitsOrDash(s) && !IsDigit(c) && c != '-'
    ensures ReplaceFirst(s, c, rep) == s
  {
    assert c !in s;
  }

  /** "Y-m-d" with digit strings for the year, month and day. */
  lemma {:induction false} FormatYmd(f: Fields)
    requires AllDigits(f.dYear) && AllDigits(f.dMonth) && AllDigits(f.dDay)
    ensures FormatWith("Y-m-d", f) == f.dYear + "-" + f.dMonth + "-" + f.dDay
  {
    var y, m, dd := f.dYear, f.dMonth, f.dDay;
    DigitsLack(y, 'm');
    DigitsLack(y, 'd');
    DigitsLack(m, 'd');
    ReplaceYear(y);
    ReplaceMonth(y, m);
    ReplaceDay(y, m, dd);
    var s3 := y + "-" + m + "-" + dd;
    assert DigitsOrDash(s3);
    KeepDigitsOrDash(s3, 'y', f.year);
    KeepDigitsOrDash(s3, 'n', f.month);
    KeepDigitsOrDash(s3, 'j', f.day);
  }

  /** "Y-m-d" without a shift gives the year, then two digits each for the
      month and the day. */
  lemma {:induction false} FormatYmdDate(d: Date)
    requires ValidDate(d) && d.year >= 0
    ensures GetDateFormat(d, "Y-m-d", None) == IntToString(d.year) + "-" + TwoDigits(d.month + 1) + "-" + TwoDigits(d.day)
  {
    assert Shifted(d, None) == d;
    var f := FieldsOf(d);
    assert GetDateFormat(d, "Y-m-d", None) == FormatWith("Y-m-d", f);
    FieldsPadded(d);
    TwoDigitsAllDigits(d.month + 1);
    TwoDigitsAllDigits(d.day);
    FormatYmd(f);
  }

  /** For "Y-m-d" and a year from 0 on, getDateFormat and getDateString agree
      on every date: both give the year, then the zero-padded month and day. */
  lemma {:induction false} FormatMatchesDateString(d: Date)
    requires ValidDate(d) && d.year >= 0
    ensures GetDateFormat(d, "Y-m-d", None) == GetDateString(d.year, d.month + 1, d.day, "-")
  {
    FormatYmdDate(d);
    DateStringParts(d.year, d.month + 1, d.day, "-");
  }

  // ---------------------------------------------------------------------------
  // getBeforeDay

  /** The year `new Date(year, …)` uses: 0 to 99 mean 1900 to 1999. */
  function DateYear(year: int): int
  {
    if 0 <= year <= 99 then 1900 + year else year
  }

  /** `new Date(year, month, 0).getDate()`: day 0 of a month is the last day
      of the month before it; months outside 0 to 11 carry into the year. */
  function LastDayBefore(year: int, month: int): (n: int)
    ensures 28 <= n <= 31
  {
    var y := DateYear(year) + month / 12;
    var m := month % 12;
    if m == 0 then DaysInMonth(y - 1, 11) else DaysInMonth(y, m - 1)
  }

  /** getBeforeDay(year, month, week): the first date of the previous month
      still shown in a first week that starts `week` days before the 1st. */
  function GetBeforeDay(year: int, month: int, week: int): (r: int)
    ensures r + week - 1 == LastDayBefore(year, month)
    ensures year >= 100 && 1 <= month <= 12 ==> r == DaysInMonth(year, month - 1) - week + 1
    ensures year >= 101 && month == 0 ==> r == 31 - week + 1
  {
    var day := LastDayBefore(year, month);
    if year >= 100 && 1 <= month <= 12 then
      LastDayOfMonth(year, month);
      day - week + 1
    else if year >= 101 && month == 0 then
      LastDayBeforeJanuary(year);
      day - week + 1
    else
      day - week + 1
  }

  /** For a calendar month `month` (1 = January) of a year from 100 on, the
      day is the length of that month, so February has 29 days exactly in
      leap years. */
  lemma LastDayOfMonth(year: int, month: int)
    requires year >= 100 && 1 <= month <= 12
    ensures LastDayBefore(year, month) == DaysInMonth(year, month - 1)
    ensures month == 2 ==> (LastDayBefore(year, month) == 29 <==> IsLeapYear(year))
  {
    if month == 12 {
      assert month / 12 == 1 && month % 12 == 0;
    } else {
      assert month / 12 == 0 && month % 12 == month;
    }
  }

  /** Month 0 is December of the year before. */
  lemma LastDayBeforeJanuary(year: int)
    requires year >= 101
    ensures LastDayBefore(year, 0) == 31
  {
  }

  /** Years 0 to 99 are read as 1900 to 1999: year 0 gives a February of 28
      days although the proleptic year 0 is a leap year. */
  lemma TwoDigitYear()
    ensures IsLeapYear(0) && LastDayBefore(0, 2) == 28
    ensures LastDayBefore(4, 2) == 29
  {
    assert DateYear(0) == 1900 && !IsLeapYear(1900);
    assert DateYear(4) == 1904 && IsLeapYear(1904);
  }

  /** Every day of a week starting at the last day of the month can be shown. */
  lemma BeforeDayRange(year: int, month: int, week: int)
    requires 0 <= week <= 6
    ensures 22 <= GetBeforeDay(year, month, week) <= 32
  {
  }
}
