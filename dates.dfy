/**
 * Calendar dates and timestamps: the leap-year rule, month lengths
 * (`calendar.monthrange`), zero-padded formatting (`str(datetime)`, `strftime`)
 * and the `strptime` formats the reports parse.
 */
module Dates {
  import opened Wrappers
  import opened Text

  datatype DateTime = DateTime(year: int, month: int, day: int, hour: int, minute: int, second: int)

  /** A calendar day, as the triple `strptime` yields. */
  datatype Date = Date(year: int, month: int, day: int)

  predicate IsLeap(y: int) { y % 4 == 0 && (y % 100 != 0 || y % 400 == 0) }

  /** The second value of `calendar.monthrange(y, m)`. */
  function DaysInMonth(y: int, m: int): (d: int)
    requires 1 <= m <= 12
    ensures 28 <= d <= 31
    ensures m == 2 ==> (d == 29 <==> IsLeap(y))
    ensures m != 2 ==> (d == 30 <==> m in {4, 6, 9, 11})
  {
    if m == 2 then (if IsLeap(y) then 29 else 28)
    else if m == 4 || m == 6 || m == 9 || m == 11 then 30
    else 31
  }

  /** The dates Python's `date` accepts. */
  predicate ValidDate(d: Date) {
    1 <= d.year <= 9999 && 1 <= d.month <= 12 && 1 <= d.day <= DaysInMonth(d.year, d.month)
  }

  predicate ValidDateTime(t: DateTime) {
    ValidDate(Date(t.year, t.month, t.day))
    && 0 <= t.hour < 24 && 0 <= t.minute < 60 && 0 <= t.second < 60
  }

  function DayOf(t: DateTime): Date { Date(t.year, t.month, t.day) }

  /** Chronological order of timestamps. */
  predicate NotAfter(a: DateTime, b: DateTime) {
    a.year < b.year || (a.year == b.year && (
    a.month < b.month || (a.month == b.month && (
    a.day < b.day || (a.day == b.day && (
    a.hour < b.hour || (a.hour == b.hour && (
    a.minute < b.minute || (a.minute == b.minute && a.second <= b.second)))))))))
  }

  /** Chronological order of days. */
  predicate DayNotAfter(a: Date, b: Date) {
    a.year < b.year || (a.year == b.year && (a.month < b.month || (a.month == b.month && a.day <= b.day)))
  }

  /** `n` written with at least `width` digits, zero-padded on the left (`f"{n:0{width}d}"`). */
  function Pad(n: nat, width: nat): (r: String)
    ensures AllDigits(r) && |r| >= width
  {
    var d := NatToString(n);
    if |d| >= width then d else Zeros(width - |d|) + d
  }

  function Zeros(k: nat): (z: String)
    ensures |z| == k && forall i :: 0 <= i < k ==> z[i] == '0'
  {
    if k == 0 then [] else "0" + Zeros(k - 1)
  }

  /** Reading back a padded number gives the number. */
  lemma PadValue(n: nat, width: nat)
    ensures DigitsValue(Pad(n, width)) == n
  {
    var d := NatToString(n);
    NatToStringValue(n);
    if |d| < width {
      DigitsValueZeros(Zeros(width - |d|), d);
    }
  }

  /** A number below 10^width fills exactly `width` digits. */
  lemma PadWidth(n: nat, width: nat)
    requires width >= 1 && n < Pow10(width)
    ensures |Pad(n, width)| == width
  {
    NatToStringLength(n, width);
  }

  function Pow10(k: nat): (p: nat)
    ensures p >= 1
  {
    if k == 0 then 1 else 10 * Pow10(k - 1)
  }

  lemma {:induction false} NatToStringLength(n: nat, width: nat)
    requires width >= 1 && n < Pow10(width)
    ensures |NatToString(n)| <= width
  {
    if n >= 10 {
      NatToStringLength(n / 10, width - 1);
    }
  }

  /** A number of at least 10^(width-1) needs at least `width` digits. */
  lemma {:induction false} NatToStringLong(n: nat, width: nat)
    requires width >= 1 && n >= Pow10(width - 1)
    ensures |NatToString(n)| >= width
  {
    if width > 1 {
      assert n / 10 >= Pow10(width - 2);
      NatToStringLong(n / 10, width - 1);
    }
  }

  /** A number of exactly `width` digits is written without padding. */
  lemma PadExact(n: nat, width: nat)
    requires width >= 1 && Pow10(width - 1) <= n < Pow10(width)
    ensures Pad(n, width) == NatToString(n) && |Pad(n, width)| == width
  {
    NatToStringLong(n, width);
    NatToStringLength(n, width);
  }

  /** `date.isoformat()` / `strftime('%Y-%m-%d')`. */
  function IsoDate(d: Date): String
    requires d.year >= 0 && d.month >= 0 && d.day >= 0
  {
    Pad(d.year, 4) + "-" + Pad(d.month, 2) + "-" + Pad(d.day, 2)
  }

  /** `str(datetime)`: `YYYY-MM-DD HH:MM:SS`. */
  function DateTimeString(t: DateTime): String
    requires t.year >= 0 && t.month >= 0 && t.day >= 0 && t.hour >= 0 && t.minute >= 0 && t.second >= 0
  {
    IsoDate(DayOf(t)) + " " + ClockString(t)
  }

  /** The `HH:MM:SS` part of `str(datetime)`. */
  function ClockString(t: DateTime): String
    requires t.hour >= 0 && t.minute >= 0 && t.second >= 0
  {
    Pad(t.hour, 2) + ":" + Pad(t.minute, 2) + ":" + Pad(t.second, 2)
  }

  /** `strftime('%d.%m.%Y')`. */
  function DottedDate(d: Date): String
    requires d.year >= 0 && d.month >= 0 && d.day >= 0
  {
    Pad(d.day, 2) + "." + Pad(d.month, 2) + "." + Pad(d.year, 4)
  }

  /** The month field of `strptime` (`1[0-2]|0[1-9]|[1-9]`): one or two digits with a value from 1 to `max`. */
  function Field(s: String, max: nat): (r: Option<nat>)
    ensures r.Some? ==> 1 <= r.value <= max
  {
    if 1 <= |s| <= 2 && AllDigits(s) && 1 <= DigitsValue(s) <= max then Some(DigitsValue(s)) else None
  }

  /** The day field of `strptime` (`3[01]|[12]\d|0[1-9]|[1-9]| [1-9]`): the month field's forms up to 31, or a space and one digit from 1 to 9. */
  function DayField(s: String): (r: Option<nat>)
    ensures r.Some? ==> 1 <= r.value <= 31
  {
    if |s| == 2 && s[0] == ' ' then Field(s[1..], 9) else Field(s, 31)
  }

  /** `datetime.strptime(s, '%Y-%m-%d')`, which must consume the whole string and yield a valid date. */
  function ParseIsoDate(s: String): (r: Option<Date>)
    ensures r.Some? ==> ValidDate(r.value)
  {
    if |s| >= 8 && AllDigits(s[..4]) && s[4] == '-' then
      match IndexFrom(s, "-", 5)
      case None => None
      case Some(j) =>
        var y := DigitsValue(s[..4]);
        match (Field(s[5..j], 12), DayField(s[j + 1..]))
        case (Some(m), Some(d)) =>
          if ValidDate(Date(y, m, d)) then Some(Date(y, m, d)) else None
        case _ => None
    else None
  }

  /** `datetime.strptime(s, '%d.%m.%Y')` on a string already known to be `dd.mm.yyyy`. */
  function ParseDottedDate(s: String): (r: Option<Date>)
    requires |s| == 10 && s[2] == '.' && s[5] == '.'
    requires AllDigits(s[..2]) && AllDigits(s[3..5]) && AllDigits(s[6..])
    ensures r.Some? ==> ValidDate(r.value)
  {
    var d := Date(DigitsValue(s[6..]), DigitsValue(s[3..5]), DigitsValue(s[..2]));
    if ValidDate(d) then Some(d) else None
  }

  /** The layout of `yyyy-mm-dd` as `ParseIsoDate` takes it apart. */
  lemma IsoLayout(y: String, m: String, dd: String)
    requires |y| == 4 && |m| == 2 && AllDigits(m)
    ensures var s := y + "-" + m + "-" + dd;
      s[..4] == y && s[4] == '-' && IndexFrom(s, "-", 5) == Some(7) && s[5..7] == m && s[8..] == dd
  {
    var s := y + "-" + m + "-" + dd;
    assert s[5] == m[0] && s[6] == m[1];
    assert !OccursAt(s, "-", 5) && !OccursAt(s, "-", 6);
    assert OccursAt(s, "-", 7);
    assert s[5..7] == m && s[8..] == dd;
  }

  /** `strptime` reads back what `isoformat` wrote. */
  lemma ParseIsoDateRoundTrip(d: Date)
    requires ValidDate(d)
    ensures ParseIsoDate(IsoDate(d)) == Some(d)
  {
    var y := Pad(d.year, 4);
    var m := Pad(d.month, 2);
    var dd := Pad(d.day, 2);
    PadWidth(d.year, 4);
    PadWidth(d.month, 2);
    PadWidth(d.day, 2);
    PadValue(d.year, 4);
    PadValue(d.month, 2);
    PadValue(d.day, 2);
    assert IsoDate(d) == y + "-" + m + "-" + dd;
    IsoLayout(y, m, dd);
    assert Field(m, 12) == Some(d.month);
    assert DayField(dd) == Some(d.day);
  }

  /** `strptime` also reads a day written as a space and one digit, as `%e` writes it. */
  lemma ParseIsoDateSpacedDay(d: Date)
    requires ValidDate(d) && d.day <= 9
    ensures ParseIsoDate(Pad(d.year, 4) + "-" + Pad(d.month, 2) + "-" + [' ', DigitChar(d.day)]) == Some(d)
  {
    var y := Pad(d.year, 4);
    var m := Pad(d.month, 2);
    var dd := [' ', DigitChar(d.day)];
    PadWidth(d.year, 4);
    PadWidth(d.month, 2);
    PadValue(d.year, 4);
    PadValue(d.month, 2);
    IsoLayout(y, m, dd);
    assert Field(m, 12) == Some(d.month);
    assert dd[1..] == [DigitChar(d.day)];
    assert DigitsValue(dd[1..]) == d.day;
  }

  /** A timestamp's `str()` never parses as a bare `%Y-%m-%d` date. */
  lemma DateTimeStringNotIsoDate(t: DateTime)
    requires ValidDateTime(t)
    ensures ParseIsoDate(DateTimeString(t)).None?
  {
    var s := DateTimeString(t);
    var d := DayOf(t);
    PadWidth(d.year, 4);
    PadWidth(d.month, 2);
    PadWidth(d.day, 2);
    PadWidth(t.hour, 2);
    PadWidth(t.minute, 2);
    PadWidth(t.second, 2);
    var iso := IsoDate(d);
    assert |iso| == 10;
    assert s[4] == '-' && s[7] == '-' && s[10] == ' ';
    assert s[5] == Pad(d.month, 2)[0] && s[6] == Pad(d.month, 2)[1];
    assert !OccursAt(s, "-", 5) && !OccursAt(s, "-", 6);
    assert OccursAt(s, "-", 7);
    assert IndexFrom(s, "-", 5) == Some(7);
    assert |s[8..]| == 11;
  }

  /** The first and the last second of month `m` of year `y`: the window a monthly report covers. */
  function MonthStart(y: int, m: int): DateTime { DateTime(y, m, 1, 0, 0, 0) }

  function MonthEnd(y: int, m: int): DateTime
    requires 1 <= m <= 12
  {
    DateTime(y, m, DaysInMonth(y, m), 23, 59, 59)
  }

  /** A timestamp lies in the month window exactly when its year and month are that month's. */
  lemma InMonthIff(t: DateTime, y: int, m: int)
    requires 1 <= m <= 12 && ValidDateTime(t)
    ensures NotAfter(MonthStart(y, m), t) && NotAfter(t, MonthEnd(y, m)) <==> t.year == y && t.month == m
  {
  }
}
