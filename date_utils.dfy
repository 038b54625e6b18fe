/** The date helpers of lib/date-utils.ts. A date is a local day number:
    day 0 is Thursday 1970-01-01, and the calendar is the proleptic
    Gregorian one that `Date` uses. */
module DateUtils {

  /** `getDay()`: 0 is Sunday and 6 is Saturday. */
  function Weekday(d: int): (w: int)
    ensures 0 <= w < 7
  {
    (d + 4) % 7
  }

  lemma WeekdayStep(d: int, k: int)
    requires 0 <= k
    ensures Weekday(d + k) == (Weekday(d) + k) % 7
  {
  }

  /** The day offset `(7 - getDay()) % 7`. */
  function SundayOffset(d: int): (k: int)
    ensures 0 <= k <= 6
  {
    (7 - Weekday(d)) % 7
  }

  /** `getNextSunday`: the day moved forward by the offset. */
  function NextSunday(d: int): (r: int)
    ensures d <= r <= d + 6
  {
    d + SundayOffset(d)
  }

  /** The result is the earliest Sunday on or after the input: it is a Sunday,
      it is the input itself when that is a Sunday, it is at most six days
      later, and no day in between is a Sunday. */
  lemma NextSundayIsEarliest(d: int)
    ensures Weekday(NextSunday(d)) == 0
    ensures d <= NextSunday(d) <= d + 6
    ensures Weekday(d) == 0 ==> NextSunday(d) == d
    ensures forall e :: d <= e < NextSunday(d) ==> Weekday(e) != 0
  {
    var w := Weekday(d);
    forall e | d <= e < NextSunday(d) ensures Weekday(e) != 0 {
      WeekdayStep(d, e - d);
    }
    WeekdayStep(d, SundayOffset(d));
  }

  /** Year, month (1-12) and day of month (1-31) of a day number. */
  datatype Civil = Civil(year: int, month: int, day: int)

  /** The days-to-civil conversion. Days are counted from 0000-03-01 in eras
      of 400 years (146097 days); an era splits into four centuries of 36524
      days (the last one a day longer), a century into 4-year cycles of 1461
      days (the last one a day shorter), a cycle into years of 365 days (the
      last one a day longer). Years start in March, so the leap day is the
      last day of a year. */
  function CivilFromDays(d: int): (c: Civil)
    ensures 1 <= c.month <= 12 && 1 <= c.day <= 31
  {
    var z := d + 719468;
    var era := z / 146097;
    var doe := z - era * 146097;
    var (doy, yoe) := DayOfEra(doe);
    var mp := (5 * doy + 2) / 153;
    MonthBounds(doy, mp);
    var day := doy - (153 * mp + 2) / 5 + 1;
    var month := if mp < 10 then mp + 3 else mp - 9;
    Civil(yoe + era * 400 + (if month <= 2 then 1 else 0), month, day)
  }

  /** Day of the year (0..365) and year (0..399) of a day of the era. */
  function DayOfEra(doe: int): (r: (int, int))
    requires 0 <= doe < 146097
    ensures 0 <= r.0 <= 365 && 0 <= r.1 <= 399
  {
    var century := if doe / 36524 < 3 then doe / 36524 else 3;
    var doc := doe - 36524 * century;
    assert 0 <= doc <= 36524;
    var cycle := doc / 1461;
    var doq := doc - 1461 * cycle;
    assert 0 <= cycle <= 24 && 0 <= doq < 1461;
    var year := if doq / 365 < 3 then doq / 365 else 3;
    (doq - 365 * year, 100 * century + 4 * cycle + year)
  }

  /** The March-based month index of a day of the year, and the day of that month. */
  lemma MonthBounds(doy: int, mp: int)
    requires 0 <= doy <= 365 && mp == (5 * doy + 2) / 153
    ensures 0 <= mp <= 11
    ensures 1 <= doy - (153 * mp + 2) / 5 + 1 <= 31
  {
  }

  /** `getMonth() + 1` and `getDate()`. */
  function Month(d: int): int { CivilFromDays(d).month }
  function DayOfMonth(d: int): int { CivilFromDays(d).day }

  /** The decimal digit character of 0..9. */
  function DigitChar(n: int): (c: char)
    requires 0 <= n <= 9
    ensures '0' <= c <= '9' && DigitValue(c) == n
  {
    ('0' as int + n) as char
  }

  function DigitValue(c: char): int {
    if '0' <= c <= '9' then (c as int) - ('0' as int) else 0
  }

  /** `n.toString().padStart(2, '0')` for 0 <= n < 100. */
  function Pad2(n: int): (s: string)
    requires 0 <= n < 100
    ensures |s| == 2 && '0' <= s[0] <= '9' && '0' <= s[1] <= '9'
    ensures 10 * DigitValue(s[0]) + DigitValue(s[1]) == n
  {
    [DigitChar(n / 10), DigitChar(n % 10)]
  }

  /** The weekday names, Sunday first. */
  const WeekdayChars: seq<char> := ['日', '月', '火', '水', '木', '金', '土']

  /** `formatDate`: `MM/DD(W)`. */
  function FormatDate(d: int): (s: string)
    ensures |s| == 8
    ensures s[2] == '/' && s[5] == '(' && s[7] == ')'
    ensures '0' <= s[0] <= '9' && '0' <= s[1] <= '9' && '0' <= s[3] <= '9' && '0' <= s[4] <= '9'
    ensures 10 * DigitValue(s[0]) + DigitValue(s[1]) == Month(d)
    ensures 10 * DigitValue(s[3]) + DigitValue(s[4]) == DayOfMonth(d)
    ensures s[6] == WeekdayChars[Weekday(d)]
  {
    Pad2(Month(d)) + "/" + Pad2(DayOfMonth(d)) + "(" + [WeekdayChars[Weekday(d)]] + ")"
  }

  /** Fixed points of the calendar: the epoch, the fixture's first day and a
      leap day. */
  lemma EpochIsThursdayJanuaryFirst()
    ensures CivilFromDays(0) == Civil(1970, 1, 1) && Weekday(0) == 4
  {
    assert 719468 / 146097 == 4 && 719468 - 4 * 146097 == 135080;
    assert DayOfEra(135080) == (306, 369);
  }

  lemma NewYear2024()
    ensures CivilFromDays(19723) == Civil(2024, 1, 1) && Weekday(19723) == 1
  {
    assert 739191 / 146097 == 5 && 739191 - 5 * 146097 == 8706;
    assert DayOfEra(8706) == (306, 23);
  }

  lemma LeapDay2024()
    ensures CivilFromDays(19782) == Civil(2024, 2, 29)
  {
    assert 739250 / 146097 == 5 && 739250 - 5 * 146097 == 8765;
    assert DayOfEra(8765) == (365, 23);
  }
}
