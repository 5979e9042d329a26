/** Naive datetimes at one-second resolution, Python's `isoformat`/`fromisoformat` pair,
    and the `strptime(s, '%Y-%m-%d')` parse used by the task filter and the date form field. */
module DateTimes {
  import opened Wrappers

  predicate IsDigit(c: char) { '0' <= c <= '9' }

  predicate AllDigits(s: string) { forall i :: 0 <= i < |s| ==> IsDigit(s[i]) }

  function Pow10(k: nat): (p: nat)
    ensures p >= 1
  {
    if k == 0 then 1 else 10 * Pow10(k - 1)
  }

  function DigitValue(c: char): (v: nat)
    requires IsDigit(c)
    ensures v < 10
  {
    c as int - '0' as int
  }

  function Digit(v: nat): (c: char)
    requires v < 10
    ensures IsDigit(c) && DigitValue(c) == v
  {
    ('0' as int + v) as char
  }

  /** The number a string of decimal digits denotes (Python's `int()` on ASCII digits). */
  function DigitsValue(s: string): (n: nat)
    requires AllDigits(s)
    ensures n < Pow10(|s|)
  {
    if s == [] then 0 else DigitsValue(s[..|s| - 1]) * 10 + DigitValue(s[|s| - 1])
  }

  /** `n` written with exactly `width` digits, zero-padded on the left (`'%0<width>d' % n`). */
  function Padded(n: nat, width: nat): (s: string)
    ensures |s| == width && AllDigits(s)
  {
    if width == 0 then "" else Padded(n / 10, width - 1) + [Digit(n % 10)]
  }

  lemma {:induction false} PaddedRoundTrip(n: nat, width: nat)
    requires n < Pow10(width)
    ensures DigitsValue(Padded(n, width)) == n
  {
    if width > 0 {
      assert n / 10 < Pow10(width - 1);
      PaddedRoundTrip(n / 10, width - 1);
      var s := Padded(n, width);
      assert s[..|s| - 1] == Padded(n / 10, width - 1);
    }
  }

  lemma TwoDigits(n: nat)
    ensures Padded(n, 2) == [Digit((n / 10) % 10), Digit(n % 10)]
  {
    assert Padded(n / 10, 1) == [Digit((n / 10) % 10)];
  }

  // ---------------------------------------------------------------- calendar

  predicate IsLeap(year: int)
  {
    year % 4 == 0 && (year % 100 != 0 || year % 400 == 0)
  }

  function DaysInMonth(year: int, month: int): (n: int)
    requires 1 <= month <= 12
    ensures 28 <= n <= 31
  {
    if month == 2 then (if IsLeap(year) then 29 else 28)
    else if month == 4 || month == 6 || month == 9 || month == 11 then 30
    else 31
  }

  /** A calendar day; Python's `date` accepts years 1 through 9999. */
  datatype Date = Date(year: int, month: int, day: int)

  predicate ValidDate(d: Date)
  {
    1 <= d.year <= 9999 && 1 <= d.month <= 12 && 1 <= d.day <= DaysInMonth(d.year, d.month)
  }

  datatype DateTimeFields = DateTimeFields(year: int, month: int, day: int, hour: int, minute: int, second: int)

  predicate ValidFields(f: DateTimeFields)
  {
    && ValidDate(Date(f.year, f.month, f.day))
    && 0 <= f.hour < 24 && 0 <= f.minute < 60 && 0 <= f.second < 60
  }

  /** Python's naive `datetime` (microseconds are not modelled). */
  type DateTime = f: DateTimeFields | ValidFields(f) witness DateTimeFields(1, 1, 1, 0, 0, 0)

  /** The calendar day of a datetime: SQLite's `date(...)` of a stored datetime. */
  function DateOf(t: DateTime): (d: Date)
    ensures ValidDate(d)
  {
    Date(t.year, t.month, t.day)
  }

  predicate IsMidnight(t: DateTime)
  {
    t.hour == 0 && t.minute == 0 && t.second == 0
  }

  /** A `date` stored into a DateTime column becomes midnight of that day. */
  function AtMidnight(d: Date): (t: DateTime)
    requires ValidDate(d)
    ensures DateOf(t) == d && IsMidnight(t)
  {
    DateTimeFields(d.year, d.month, d.day, 0, 0, 0)
  }

  /** Chronological order `a <= b`; SQLite compares the stored ISO strings, which agrees. */
  predicate NotAfter(a: DateTime, b: DateTime)
  {
    if a.year != b.year then a.year < b.year
    else if a.month != b.month then a.month < b.month
    else if a.day != b.day then a.day < b.day
    else if a.hour != b.hour then a.hour < b.hour
    else if a.minute != b.minute then a.minute < b.minute
    else a.second <= b.second
  }

  lemma NotAfterTotalOrder(a: DateTime, b: DateTime, c: DateTime)
    ensures NotAfter(a, a)
    ensures NotAfter(a, b) || NotAfter(b, a)
    ensures NotAfter(a, b) && NotAfter(b, a) ==> a == b
    ensures NotAfter(a, b) && NotAfter(b, c) ==> NotAfter(a, c)
  {
  }

  // ---------------------------------------------------------------- isoformat / fromisoformat

  /** `datetime.isoformat()` of a datetime without microseconds: `YYYY-MM-DDTHH:MM:SS`. */
  function IsoFormat(t: DateTime): (s: string)
    ensures |s| == 19 && s != ""
  {
    Padded(t.year, 4) + "-" + Padded(t.month, 2) + "-" + Padded(t.day, 2) + "T"
    + Padded(t.hour, 2) + ":" + Padded(t.minute, 2) + ":" + Padded(t.second, 2)
  }

  function Fields(year: int, month: int, day: int, hour: int, minute: int, second: int): (r: Option<DateTime>)
    ensures r.Some? <==> ValidFields(DateTimeFields(year, month, day, hour, minute, second))
    ensures r.Some? ==> r.value == DateTimeFields(year, month, day, hour, minute, second)
  {
    var f := DateTimeFields(year, month, day, hour, minute, second);
    if ValidFields(f) then Some(f) else None
  }

  /** The time part after the separator: `HH`, `HH:MM` or `HH:MM:SS`. */
  function IsoTime(t: string): Option<(nat, nat, nat)>
  {
    if |t| == 2 && AllDigits(t) then Some((DigitsValue(t), 0, 0))
    else if |t| == 5 && AllDigits(t[..2]) && t[2] == ':' && AllDigits(t[3..]) then
      Some((DigitsValue(t[..2]), DigitsValue(t[3..]), 0))
    else if |t| == 8 && AllDigits(t[..2]) && t[2] == ':' && AllDigits(t[3..5]) && t[5] == ':' && AllDigits(t[6..]) then
      Some((DigitsValue(t[..2]), DigitsValue(t[3..5]), DigitsValue(t[6..])))
    else None
  }

  /** `datetime.fromisoformat(s)`: `YYYY-MM-DD`, optionally followed by any one separator
      character and a time; out-of-range fields raise ValueError (here: None). */
  function FromIsoFormat(s: string): (r: Option<DateTime>)
    ensures r.Some? ==> |s| >= 10 && AllDigits(s[..4]) && AllDigits(s[5..7]) && AllDigits(s[8..10])
    ensures r.Some? ==> DateOf(r.value) == Date(DigitsValue(s[..4]), DigitsValue(s[5..7]), DigitsValue(s[8..10]))
    ensures |s| < 10 ==> r.None?
  {
    if |s| < 10 || !AllDigits(s[..4]) || s[4] != '-' || !AllDigits(s[5..7]) || s[7] != '-' || !AllDigits(s[8..10]) then None
    else
      var time: Option<(nat, nat, nat)> := if |s| == 10 then Some((0, 0, 0)) else IsoTime(s[11..]);
      match time
      case None => None
      case Some((h, mi, se)) => Fields(DigitsValue(s[..4]), DigitsValue(s[5..7]), DigitsValue(s[8..10]), h, mi, se)
  }

  /** `fromisoformat(isoformat(t)) == t`: the export/backup formats read back exactly. */
  lemma IsoRoundTrip(t: DateTime)
    ensures FromIsoFormat(IsoFormat(t)) == Some(t)
  {
    var s := IsoFormat(t);
    assert s[..4] == Padded(t.year, 4);
    assert s[5..7] == Padded(t.month, 2);
    assert s[8..10] == Padded(t.day, 2);
    var u := s[11..];
    assert u[..2] == Padded(t.hour, 2);
    assert u[3..5] == Padded(t.minute, 2);
    assert u[6..] == Padded(t.second, 2);
    PaddedRoundTrip(t.year, 4);
    PaddedRoundTrip(t.month, 2);
    PaddedRoundTrip(t.day, 2);
    PaddedRoundTrip(t.hour, 2);
    PaddedRoundTrip(t.minute, 2);
    PaddedRoundTrip(t.second, 2);
  }

  // ---------------------------------------------------------------- strptime(s, '%Y-%m-%d')

  /** `%m` followed by the literal `-`: the alternatives `1[0-2]`, `0[1-9]`, `[1-9]` in that
      order, backtracking when the `-` does not follow.  Returns the month and the rest after `-`. */
  function MatchMonth(t: string): (r: Option<(int, string)>)
    ensures r.Some? ==> 1 <= r.value.0 <= 12 && |r.value.1| < |t|
  {
    if |t| >= 3 && t[0] == '1' && '0' <= t[1] <= '2' && t[2] == '-' then Some((10 + DigitValue(t[1]), t[3..]))
    else if |t| >= 3 && t[0] == '0' && '1' <= t[1] <= '9' && t[2] == '-' then Some((DigitValue(t[1]), t[3..]))
    else if |t| >= 2 && '1' <= t[0] <= '9' && t[1] == '-' then Some((DigitValue(t[0]), t[2..]))
    else None
  }

  /** `%d` at the end of the pattern: the first of `3[01]`, `[12]\d`, `0[1-9]`, `[1-9]`, ` [1-9]`
      that matches, with the number of characters it consumed. */
  function MatchDay(t: string): (r: Option<(int, nat)>)
    ensures r.Some? ==> 1 <= r.value.0 <= 31 && 1 <= r.value.1 <= 2 && r.value.1 <= |t|
  {
    if |t| >= 2 && t[0] == '3' && '0' <= t[1] <= '1' then Some((30 + DigitValue(t[1]), 2))
    else if |t| >= 2 && '1' <= t[0] <= '2' && IsDigit(t[1]) then Some((10 * DigitValue(t[0]) + DigitValue(t[1]), 2))
    else if |t| >= 2 && t[0] == '0' && '1' <= t[1] <= '9' then Some((DigitValue(t[1]), 2))
    else if |t| >= 1 && '1' <= t[0] <= '9' then Some((DigitValue(t[0]), 1))
    else if |t| >= 2 && t[0] == ' ' && '1' <= t[1] <= '9' then Some((DigitValue(t[1]), 2))
    else None
  }

  /** `datetime.strptime(s, '%Y-%m-%d').date()`: four-digit year, one- or two-digit month and
      day; trailing characters ("unconverted data remains"), year 0 and a day past the end of
      the month raise ValueError (here: None). */
  function ParseYmd(s: string): (r: Option<Date>)
    ensures r.Some? ==> ValidDate(r.value)
    ensures r.Some? ==> |s| >= 8 && AllDigits(s[..4]) && s[4] == '-' && r.value.year == DigitsValue(s[..4])
  {
    if |s| < 5 || !AllDigits(s[..4]) || s[4] != '-' then None
    else
      match MatchMonth(s[5..])
      case None => None
      case Some((month, rest)) =>
        match MatchDay(rest)
        case None => None
        case Some((day, used)) =>
          var date := Date(DigitsValue(s[..4]), month, day);
          if used == |rest| && ValidDate(date) then Some(date) else None
  }

  /** `date.strftime('%Y-%m-%d')`, the inverse of ParseYmd on valid dates. */
  function FormatYmd(d: Date): (s: string)
    requires ValidDate(d)
    ensures |s| == 10
  {
    Padded(d.year, 4) + "-" + Padded(d.month, 2) + "-" + Padded(d.day, 2)
  }

  lemma YmdRoundTrip(d: Date)
    requires ValidDate(d)
    ensures ParseYmd(FormatYmd(d)) == Some(d)
  {
    var s := FormatYmd(d);
    assert s[..4] == Padded(d.year, 4);
    PaddedRoundTrip(d.year, 4);
    var m := Padded(d.month, 2);
    var dd := Padded(d.day, 2);
    assert s[5..] == m + "-" + dd;
    TwoDigits(d.month);
    TwoDigits(d.day);
    assert MatchMonth(s[5..]) == Some((d.month, dd));
  }

  /** A string that is not a date at all parses to nothing. */
  lemma NotADate()
    ensures ParseYmd("not-a-date") == None
  {
  }
}
