/** Proleptic Gregorian calendar dates as Python's `datetime` handles them:
    days in a month, stepping a day, adding `timedelta(days=n)`, ordering,
    and the `%Y-%m-%d` text form written by `strftime` and read by `strptime`. */
module Calendar {
  import opened Values
  import opened Text

  datatype Date = Date(year: int, month: int, day: int)

  predicate IsLeapYear(year: int) {
    year % 4 == 0 && (year % 100 != 0 || year % 400 == 0)
  }

  /** The Gregorian month lengths, leap Februaries included. */
  function DaysInMonth(year: int, month: int): (n: int)
    requires 1 <= month <= 12
    ensures 28 <= n <= 31
    ensures month == 2 ==> (n == 29 <==> IsLeapYear(year))
  {
    if month == 2 then (if IsLeapYear(year) then 29 else 28)
    else if month == 4 || month == 6 || month == 9 || month == 11 then 30
    else 31
  }

  predicate ValidDate(d: Date) {
    1 <= d.month <= 12 && 1 <= d.day <= DaysInMonth(d.year, d.month)
  }

  /** `datetime(year + 1, 1, 1)` for December, else `datetime(year, month + 1, 1)`. */
  function FirstOfNextMonth(year: int, month: int): (d: Date)
    requires 1 <= month <= 12
    ensures ValidDate(d) && d.day == 1
  {
    if month == 12 then Date(year + 1, 1, 1) else Date(year, month + 1, 1)
  }

  /** `d + timedelta(days=1)` */
  function NextDay(d: Date): (e: Date)
    requires ValidDate(d)
    ensures ValidDate(e)
  {
    if d.day < DaysInMonth(d.year, d.month) then d.(day := d.day + 1)
    else FirstOfNextMonth(d.year, d.month)
  }

  /** `d - timedelta(days=1)` */
  function PrevDay(d: Date): (e: Date)
    requires ValidDate(d)
    ensures ValidDate(e)
  {
    if d.day > 1 then d.(day := d.day - 1)
    else if d.month == 1 then Date(d.year - 1, 12, 31)
    else Date(d.year, d.month - 1, DaysInMonth(d.year, d.month - 1))
  }

  /** Stepping one day forward and one day back are inverse. */
  lemma NextDayPrevDay(d: Date)
    requires ValidDate(d)
    ensures PrevDay(NextDay(d)) == d
    ensures NextDay(PrevDay(d)) == d
  {
  }

  /** The last day of a month, computed as the source does: the day before
      the first day of the following month. */
  function LastDayOfMonth(year: int, month: int): (n: int)
    requires 1 <= month <= 12
    ensures n == DaysInMonth(year, month)
    ensures NextDay(Date(year, month, n)) == FirstOfNextMonth(year, month)
  {
    PrevDay(FirstOfNextMonth(year, month)).day
  }

  /** `d + timedelta(days=n)` */
  function AddDays(d: Date, n: nat): (e: Date)
    requires ValidDate(d)
    ensures ValidDate(e)
    decreases n
  {
    if n == 0 then d else AddDays(NextDay(d), n - 1)
  }

  /** Adding days that do not run past the month's end only moves the day. */
  lemma {:induction false} AddDaysWithinMonth(d: Date, n: nat)
    requires ValidDate(d) && d.day + n <= DaysInMonth(d.year, d.month)
    ensures AddDays(d, n) == d.(day := d.day + n)
    decreases n
  {
    if n > 0 {
      AddDaysWithinMonth(NextDay(d), n - 1);
    }
  }

  /** The order of `datetime` values at midnight. */
  predicate Before(a: Date, b: Date) {
    a.year < b.year
    || (a.year == b.year && (a.month < b.month || (a.month == b.month && a.day < b.day)))
  }

  lemma BeforeTransitive(a: Date, b: Date, c: Date)
    requires Before(a, b) && Before(b, c)
    ensures Before(a, c)
  {
  }

  /** `Before` is a strict total order. */
  lemma BeforeTotal(a: Date, b: Date)
    ensures !Before(a, a)
    ensures Before(a, b) || a == b || Before(b, a)
    ensures !(Before(a, b) && Before(b, a))
  {
  }

  /** A positive number of days always lands strictly later. */
  lemma {:induction false} AddDaysIsLater(d: Date, n: nat)
    requires ValidDate(d) && 0 < n
    ensures Before(d, AddDays(d, n))
    decreases n
  {
    if n > 1 {
      AddDaysIsLater(NextDay(d), n - 1);
      BeforeTransitive(d, NextDay(d), AddDays(d, n));
    }
  }

  function Pow10(k: nat): nat {
    if k == 0 then 1 else 10 * Pow10(k - 1)
  }

  /** The last `width` decimal digits of `n`, zero-padded. */
  function Pad(n: nat, width: nat): (s: string)
    ensures |s| == width && AllDigits(s)
  {
    if width == 0 then [] else Pad(n / 10, width - 1) + [DigitChar(n % 10)]
  }

  lemma {:induction false} PadValue(n: nat, width: nat)
    requires n < Pow10(width)
    ensures DigitsValue(Pad(n, width)) == n
  {
    if width > 0 {
      var s := Pad(n, width);
      assert s[..|s| - 1] == Pad(n / 10, width - 1);
      assert n / 10 < Pow10(width - 1);
      PadValue(n / 10, width - 1);
    }
  }

  lemma PadTwo(n: nat)
    requires n < 100
    ensures Pad(n, 2) == [DigitChar(n / 10), DigitChar(n % 10)]
  {
    var t := n / 10;
    assert t < 10;
    assert t % 10 == t;
    assert Pad(t, 1) == Pad(t / 10, 0) + [DigitChar(t % 10)];
  }

  /** `d.strftime('%Y-%m-%d')` with a four-digit year. */
  function FormatIsoDate(d: Date): (s: string)
    requires 0 <= d.year <= 9999 && 1 <= d.month <= 12 && 1 <= d.day <= 31
    ensures |s| == 10
  {
    Pad(d.year, 4) + "-" + Pad(d.month, 2) + "-" + Pad(d.day, 2)
  }

  /** The `%m` field of `strptime`: `1[0-2]|0[1-9]|[1-9]`. */
  function MonthField(t: string): Option<int> {
    if |t| == 1 && '1' <= t[0] <= '9' then Some(DigitValue(t[0]))
    else if |t| == 2 && t[0] == '1' && '0' <= t[1] <= '2' then Some(10 + DigitValue(t[1]))
    else if |t| == 2 && t[0] == '0' && '1' <= t[1] <= '9' then Some(DigitValue(t[1]))
    else None
  }

  /** The `%d` field of `strptime`: `3[01]|[12]\d|0[1-9]|[1-9]| [1-9]`. */
  function DayField(t: string): Option<int> {
    if |t| == 1 && '1' <= t[0] <= '9' then Some(DigitValue(t[0]))
    else if |t| == 2 && t[0] == '3' && '0' <= t[1] <= '1' then Some(30 + DigitValue(t[1]))
    else if |t| == 2 && '1' <= t[0] <= '2' && IsDigit(t[1]) then Some(10 * DigitValue(t[0]) + DigitValue(t[1]))
    else if |t| == 2 && (t[0] == '0' || t[0] == ' ') && '1' <= t[1] <= '9' then Some(DigitValue(t[1]))
    else None
  }

  /** The `datetime` constructor's checks: year at least 1, day within the month. */
  function DateOf(year: int, month: Option<int>, day: Option<int>): (r: Option<Date>)
    ensures r.Some? ==> ValidDate(r.value) && r.value.year == year
  {
    if month.Some? && day.Some? && 1 <= year && 1 <= month.value <= 12
       && 1 <= day.value <= DaysInMonth(year, month.value)
    then Some(Date(year, month.value, day.value))
    else None
  }

  /** `datetime.strptime(s, '%Y-%m-%d')`: four digits, a dash, a one- or
      two-digit month, a dash, a day field, nothing left over, and a date that
      exists. `None` stands for the ValueError. */
  function ParseIsoDate(s: string): (r: Option<Date>)
    ensures r.Some? ==> ValidDate(r.value)
  {
    if |s| < 5 || s[4] != '-' || !AllDigits(s[..4]) then None
    else
      var year := DigitsValue(s[..4]);
      var rest := s[5..];
      if 2 <= |rest| && rest[1] == '-' then DateOf(year, MonthField(rest[..1]), DayField(rest[2..]))
      else if 3 <= |rest| && rest[2] == '-' then DateOf(year, MonthField(rest[..2]), DayField(rest[3..]))
      else None
  }

  /** The text `strftime` writes for a day number from 1 to 31 reads back
      as that day, and a month number from 1 to 12 as that month. */
  lemma FieldsOfPad(n: nat)
    requires 1 <= n <= 31
    ensures DayField(Pad(n, 2)) == Some(n)
    ensures n <= 12 ==> MonthField(Pad(n, 2)) == Some(n)
  {
    PadTwo(n);
  }

  /** `strptime` reads the fields `strftime` wrote and then applies the
      `datetime` checks to them. */
  lemma ParseFormatted(d: Date)
    requires 1 <= d.year <= 9999 && 1 <= d.month <= 12 && 1 <= d.day <= 31
    ensures ParseIsoDate(FormatIsoDate(d)) == DateOf(d.year, Some(d.month), Some(d.day))
  {
    var s := FormatIsoDate(d);
    assert Pow10(4) == 10000;
    PadValue(d.year, 4);
    assert s[..4] == Pad(d.year, 4);
    FieldsOfPad(d.month);
    FieldsOfPad(d.day);
    var rest := s[5..];
    assert rest == Pad(d.month, 2) + "-" + Pad(d.day, 2);
    assert rest[..2] == Pad(d.month, 2);
    assert rest[3..] == Pad(d.day, 2);
  }

  /** Every date with a four-digit year survives `strftime` then `strptime`. */
  lemma FormatParseRoundTrip(d: Date)
    requires ValidDate(d) && 1 <= d.year <= 9999
    ensures ParseIsoDate(FormatIsoDate(d)) == Some(d)
  {
    ParseFormatted(d);
  }

  /** A day past the month's end is written but not read back. */
  lemma ImpossibleDayRejected(d: Date)
    requires 1 <= d.year <= 9999 && 1 <= d.month <= 12 && DaysInMonth(d.year, d.month) < d.day <= 31
    ensures ParseIsoDate(FormatIsoDate(d)).None?
  {
    ParseFormatted(d);
  }
}
