/**
 * Time as the browser's `Date` sees it: an instant is a count of milliseconds
 * since 1970-01-01T00:00:00Z. The browser's local zone is taken to be UTC, so
 * the local getters and setters (`getHours`, `setHours`, `setMinutes`,
 * `setDate`) and the UTC rendering (`toISOString`) agree. The wall clock is
 * never read here: callers pass `now` in.
 */
module Clock {
  import opened Text
  import opened Wrappers

  type Instant = int

  const MsPerSecond: int := 1000
  const MsPerMinute: int := 60000
  const MsPerHour: int := 3600000
  const MsPerDay: int := 86400000

  /** A proleptic Gregorian calendar date. */
  datatype Date = Date(year: int, month: int, day: int)

  // ---------------------------------------------------------------- calendar

  /**
   * The date `z` days after 1970-01-01, counted as in Howard Hinnant's
   * `civil_from_days`: eras of 400 years starting on March 1st, each split into
   * centuries, four-year blocks and years.
   */
  function CivilFromDays(z: int): (d: Date)
    ensures 1 <= d.month <= 12 && 1 <= d.day <= 31
  {
    var z' := z + 719468;
    var era := z' / 146097;
    var doe := z' % 146097;
    var yoe := YearOfEra(doe);
    var doy := doe - (365 * yoe + yoe / 4 - yoe / 100);
    DayOfYearBounds(doe);
    var mp := (5 * doy + 2) / 153;
    var day := doy - (153 * mp + 2) / 5 + 1;
    var month := if mp < 10 then mp + 3 else mp - 9;
    var y := yoe + era * 400;
    Date(if month <= 2 then y + 1 else y, month, day)
  }

  /**
   * The year within a 400-year era of day `doe` of the era: whole centuries of
   * 36524 days (the last one a day longer), whole four-year blocks of 1461 days
   * and whole years of 365 days (the fourth one a day longer).
   */
  function YearOfEra(doe: int): (yoe: int)
    requires 0 <= doe < 146097
    ensures 0 <= yoe <= 399
  {
    var century := if doe == 146096 then 3 else doe / 36524;
    var r := doe - 36524 * century;
    var year := if r % 1461 == 1460 then 3 else r % 1461 / 365;
    100 * century + 4 * (r / 1461) + year
  }

  /** Day `doe` of the era falls within its year: at most 365 days after the year's start. */
  lemma DayOfYearBounds(doe: int)
    requires 0 <= doe < 146097
    ensures var yoe := YearOfEra(doe); 0 <= doe - (365 * yoe + yoe / 4 - yoe / 100) <= 365
  {
    var century := if doe == 146096 then 3 else doe / 36524;
    var r := doe - 36524 * century;
    var block, rest := r / 1461, r % 1461;
    var year := if rest == 1460 then 3 else rest / 365;
    var yoe := YearOfEra(doe);
    assert yoe == 100 * century + 4 * block + year;
    assert 0 <= block <= 24;
    FloorDecompose(yoe, 4, 25 * century + block, year);
    FloorDecompose(yoe, 100, century, 4 * block + year);
    assert 365 * yoe + yoe / 4 - yoe / 100 == 36524 * century + 1461 * block + 365 * year;
  }

  /** The number of days from 1970-01-01 to `d` (Hinnant's `days_from_civil`); days past the month's end roll over. */
  function DaysFromCivil(d: Date): int {
    MonthStart(d.year, d.month) + d.day - 1
  }

  /** The number of days from 1970-01-01 to the first day of `month` in `year`. */
  function MonthStart(year: int, month: int): int {
    var y := if month <= 2 then year - 1 else year;
    var era := y / 400;
    var yoe := y % 400;
    var mp := if month > 2 then month - 3 else month + 9;
    var doe := yoe * 365 + yoe / 4 - yoe / 100 + (153 * mp + 2) / 5;
    era * 146097 + doe - 719468
  }

  /** Counting the days back from the date of day `z` gives `z`. */
  lemma DaysFromCivilInverse(z: int)
    ensures DaysFromCivil(CivilFromDays(z)) == z
  {
    var z' := z + 719468;
    var era := z' / 146097;
    var doe := z' % 146097;
    var yoe := YearOfEra(doe);
    DayOfYearBounds(doe);
    var doy := doe - (365 * yoe + yoe / 4 - yoe / 100);
    var mp := (5 * doy + 2) / 153;
    var d := CivilFromDays(z);
    var y := if d.month <= 2 then d.year - 1 else d.year;
    assert y == yoe + era * 400;
    EraSplit(yoe, era);
  }

  lemma EraSplit(r: int, q: int)
    requires 0 <= r < 400
    ensures (r + q * 400) / 400 == q && (r + q * 400) % 400 == r
  {
  }

  // ---------------------------------------------------------------- getters

  function DayNumber(t: Instant): int {
    t / MsPerDay
  }

  /** `getFullYear`, `getMonth() + 1`, `getDate()`. */
  function DateOf(t: Instant): (d: Date)
    ensures 1 <= d.month <= 12 && 1 <= d.day <= 31
  {
    CivilFromDays(DayNumber(t))
  }

  /** `getHours()`. */
  function Hours(t: Instant): (h: nat)
    ensures h < 24
  {
    (t % MsPerDay) / MsPerHour
  }

  /** `getMinutes()`. */
  function Minutes(t: Instant): (m: nat)
    ensures m < 60
  {
    (t % MsPerHour) / MsPerMinute
  }

  /** `getSeconds()`. */
  function Seconds(t: Instant): (s: nat)
    ensures s < 60
  {
    (t % MsPerMinute) / MsPerSecond
  }

  /** `getMilliseconds()`. */
  function Millis(t: Instant): (ms: nat)
    ensures ms < 1000
  {
    t % MsPerSecond
  }

  /** The greatest multiple of `unit` not after `t`. */
  function FloorTo(t: int, unit: int): int
    requires unit > 0
  {
    t - t % unit
  }

  lemma {:induction false} MulAtLeast(a: int, b: int)
    requires a >= 1 && b > 0
    ensures a * b >= b
  {
    if a > 1 {
      MulAtLeast(a - 1, b);
      assert a * b == (a - 1) * b + b;
    }
  }

  /** A value written as `k` whole units plus a remainder below one unit has that remainder and floor. */
  lemma FloorDecompose(x: int, unit: int, k: int, rem: int)
    requires unit > 0 && x == k * unit + rem && 0 <= rem < unit
    ensures x / unit == k && x % unit == rem && FloorTo(x, unit) == k * unit
  {
    var q := x / unit;
    var r := x % unit;
    assert x == q * unit + r;
    var d := k - q;
    assert d * unit == r - rem by {
      assert k * unit - q * unit == d * unit;
    }
    if d > 0 {
      MulAtLeast(d, unit);
    } else if d < 0 {
      MulAtLeast(-d, unit);
    }
  }

  // ---------------------------------------------------------------- setters

  /** `setHours(h, m, s, ms)`: midnight of `t`'s day plus the given clock time; values out of range roll over into other days. */
  function SetHours(t: Instant, h: int, m: int, s: int, ms: int): Instant {
    DayNumber(t) * MsPerDay + h * MsPerHour + m * MsPerMinute + s * MsPerSecond + ms
  }

  /** `setMinutes(m, s, ms)`: the start of `t`'s hour plus the given time; values out of range roll over. */
  function SetMinutes(t: Instant, m: int, s: int, ms: int): Instant {
    t - t % MsPerHour + m * MsPerMinute + s * MsPerSecond + ms
  }

  /** `setMinutes(m)`: as `SetMinutes`, keeping `t`'s seconds and milliseconds. */
  function SetMinutesOnly(t: Instant, m: int): Instant {
    t - t % MsPerHour + m * MsPerMinute + t % MsPerMinute
  }

  /** `setDate(day)`: the same month, year and clock time on day `day`, which rolls over into other months. */
  function SetDate(t: Instant, day: int): Instant {
    DaysFromCivil(Date(DateOf(t).year, DateOf(t).month, day)) * MsPerDay + t % MsPerDay
  }

  /** `d.setDate(d.getDate() - 1)` is exactly one day earlier, across month and year boundaries too. */
  lemma PreviousDate(t: Instant)
    ensures SetDate(t, DateOf(t).day - 1) == t - MsPerDay
    ensures DayNumber(SetDate(t, DateOf(t).day - 1)) == DayNumber(t) - 1
  {
    var d := DateOf(t);
    DaysFromCivilInverse(DayNumber(t));
    DayBefore(t, DaysFromCivil(Date(d.year, d.month, d.day - 1)));
  }

  /** Day `DayNumber(t) - 1` at `t`'s clock time is `t` less one day. */
  lemma DayBefore(t: Instant, k: int)
    requires k == DayNumber(t) - 1
    ensures k * MsPerDay + t % MsPerDay == t - MsPerDay
    ensures DayNumber(t - MsPerDay) == k
  {
    FloorDecompose(t - MsPerDay, MsPerDay, k, t % MsPerDay);
  }

  // ---------------------------------------------------------------- rendering

  /** The year as `toISOString` writes it: four digits, or a sign and six digits outside 0000..9999. */
  function YearText(y: int): string {
    if 0 <= y <= 9999 then Pad(y, 4)
    else if y < 0 then "-" + Pad(-y, 6)
    else "+" + Pad(y, 6)
  }

  /** `YYYY-MM-DD`. */
  function DateText(d: Date): string
    requires 1 <= d.month <= 12 && 1 <= d.day <= 31
  {
    YearText(d.year) + "-" + Pad(d.month, 2) + "-" + Pad(d.day, 2)
  }

  /** `HH:mm:ss`. */
  function ClockText(t: Instant): string {
    Pad(Hours(t), 2) + ":" + Pad(Minutes(t), 2) + ":" + Pad(Seconds(t), 2)
  }

  /** `Date.prototype.toISOString`: `YYYY-MM-DDTHH:mm:ss.sssZ`. */
  function IsoString(t: Instant): string {
    DateText(DateOf(t)) + "T" + ClockText(t) + "." + Pad(Millis(t), 3) + "Z"
  }

  /** `toISOString().split('.')[0] + 'Z'`: the ISO string without its fraction of a second. */
  function IsoSeconds(t: Instant): string {
    BeforeFirst(IsoString(t), '.') + "Z"
  }

  /** `toISOString().split('T')[0]`: the date alone. */
  function IsoDate(t: Instant): string {
    BeforeFirst(IsoString(t), 'T')
  }

  predicate FourDigitYear(t: Instant) {
    0 <= DateOf(t).year <= 9999
  }

  /** `s` is `YYYY-MM-DD` spelling the date `d`. */
  predicate DateShape(s: string, d: Date) {
    |s| == 10 && 'T' !in s && '.' !in s && AllDigitsBut(s, {4, 7}) && s[4] == '-' && s[7] == '-'
    && DigitsValue(s[..4]) == d.year && DigitsValue(s[5..7]) == d.month && DigitsValue(s[8..10]) == d.day
  }

  /** `s` is `HH:mm:ss` spelling the clock time `h`, `mi`, `sec`. */
  predicate ClockShape(s: string, h: int, mi: int, sec: int) {
    |s| == 8 && 'T' !in s && '.' !in s && AllDigitsBut(s, {2, 5}) && s[2] == ':' && s[5] == ':'
    && DigitsValue(s[..2]) == h && DigitsValue(s[3..5]) == mi && DigitsValue(s[6..8]) == sec
  }

  /** `s` is `YYYY-MM-DDTHH:mm:ssZ` spelling the date `d` and the clock time `h`, `mi`, `sec`. */
  predicate IsoSecondsText(s: string, d: Date, h: int, mi: int, sec: int) {
    |s| == 20 && AllDigitsBut(s, {4, 7, 10, 13, 16, 19})
    && s[4] == '-' && s[7] == '-' && s[10] == 'T' && s[13] == ':' && s[16] == ':' && s[19] == 'Z'
    && DigitsValue(s[..4]) == d.year && DigitsValue(s[5..7]) == d.month && DigitsValue(s[8..10]) == d.day
    && DigitsValue(s[11..13]) == h && DigitsValue(s[14..16]) == mi && DigitsValue(s[17..19]) == sec
  }

  lemma DateTextShape(d: Date)
    requires 1 <= d.month <= 12 && 1 <= d.day <= 31 && 0 <= d.year <= 9999
    ensures DateShape(DateText(d), d)
  {
    assert Pow10(4) == 10000 && Pow10(2) == 100;
    DigitGroups(Pad(d.year, 4), Pad(d.month, 2), Pad(d.day, 2), '-');
  }

  /** Digit groups of widths 4, 2 and 2 joined by `sep` keep their places and values. */
  lemma DigitGroups(a: string, b: string, c: string, sep: char)
    requires |a| == 4 && |b| == 2 && |c| == 2 && AllDigits(a) && AllDigits(b) && AllDigits(c)
    requires !IsDigit(sep) && sep != 'T' && sep != '.'
    ensures var s := a + [sep] + b + [sep] + c;
      |s| == 10 && 'T' !in s && '.' !in s && AllDigitsBut(s, {4, 7}) && s[4] == sep && s[7] == sep
      && s[..4] == a && s[5..7] == b && s[8..10] == c
  {
    var s := a + [sep] + b + [sep] + c;
    forall i | 0 <= i < 10 && i !in {4, 7} ensures IsDigit(s[i]) {
      if i < 4 { assert s[i] == a[i]; } else if i < 7 { assert s[i] == b[i - 5]; } else { assert s[i] == c[i - 8]; }
    }
    assert s[4] == sep && s[7] == sep;
    forall i | 0 <= i < 10 ensures s[i] != 'T' && s[i] != '.' {
      if i != 4 && i != 7 { assert IsDigit(s[i]); }
    }
    assert s[..4] == a && s[5..7] == b && s[8..10] == c;
  }

  lemma ClockTextShape(t: Instant)
    ensures ClockShape(ClockText(t), Hours(t), Minutes(t), Seconds(t))
  {
    var s := ClockText(t);
    assert s[..2] == Pad(Hours(t), 2);
    assert s[3..5] == Pad(Minutes(t), 2);
    assert s[6..8] == Pad(Seconds(t), 2);
  }

  /** Every character of `s` is a digit except at the positions in `seps`. */
  predicate AllDigitsBut(s: string, seps: set<int>) {
    forall i :: 0 <= i < |s| && i !in seps ==> IsDigit(s[i])
  }

  /**
   * For years 0000..9999 the second-precision ISO text is the date text, a 'T',
   * the clock text and a 'Z': the full ISO text's first 19 characters and a 'Z'.
   */
  lemma IsoSecondsShape(t: Instant)
    requires FourDigitYear(t)
    ensures IsoSeconds(t) == DateText(DateOf(t)) + "T" + ClockText(t) + "Z"
    ensures |IsoSeconds(t)| == 20 && IsoSeconds(t) == IsoString(t)[..19] + "Z"
  {
    DateTextShape(DateOf(t));
    ClockTextShape(t);
    CutFraction(DateText(DateOf(t)), ClockText(t), Pad(Millis(t), 3));
  }

  /** Cutting `dTc.mZ` at its '.' and adding a 'Z' leaves `dTcZ`, when neither `d` nor `c` holds a '.'. */
  lemma CutFraction(d: string, c: string, m: string)
    requires '.' !in d && '.' !in c
    ensures var iso := d + "T" + c + "." + m + "Z";
      BeforeFirst(iso, '.') + "Z" == d + "T" + c + "Z" && iso[..|d| + 1 + |c|] == d + "T" + c
  {
    var head := d + "T" + c;
    assert '.' !in head;
    assert d + "T" + c + "." + m + "Z" == head + ['.'] + (m + "Z");
    BeforeFirstOfJoin(head, '.', m + "Z");
  }

  /** For years 0000..9999 the date-only ISO text is `YYYY-MM-DD` of the instant's date. */
  lemma IsoDateShape(t: Instant)
    requires FourDigitYear(t)
    ensures IsoDate(t) == DateText(DateOf(t)) && |IsoDate(t)| == 10
  {
    DateTextShape(DateOf(t));
    CutTime(DateText(DateOf(t)), ClockText(t), Pad(Millis(t), 3));
  }

  /** Cutting `dTc.mZ` at its first 'T' leaves `d`, when `d` holds no 'T'. */
  lemma CutTime(d: string, c: string, m: string)
    requires 'T' !in d
    ensures BeforeFirst(d + "T" + c + "." + m + "Z", 'T') == d
  {
    assert d + "T" + c + "." + m + "Z" == d + ['T'] + (c + "." + m + "Z");
    BeforeFirstOfJoin(d, 'T', c + "." + m + "Z");
  }

  // ---------------------------------------------------------------- parsing

  /**
   * `new Date(s)` for strings of the shape `YYYY-MM-DDTHH:mm:ssZ`; anything else
   * is an invalid date (`None`).
   */
  function ParseIsoSeconds(s: string): (r: Option<Instant>)
  {
    if |s| == 20 && AllDigitsBut(s, {4, 7, 10, 13, 16, 19})
       && s[4] == '-' && s[7] == '-' && s[10] == 'T' && s[13] == ':' && s[16] == ':' && s[19] == 'Z'
    then
      var y, mo, d := DigitsValue(s[..4]), DigitsValue(s[5..7]), DigitsValue(s[8..10]);
      var h, mi, sec := DigitsValue(s[11..13]), DigitsValue(s[14..16]), DigitsValue(s[17..19]);
      if 1 <= mo <= 12 && 1 <= d <= 31 && h < 24 && mi < 60 && sec < 60 then
        Some(DaysFromCivil(Date(y, mo, d)) * MsPerDay + h * MsPerHour + mi * MsPerMinute + sec * MsPerSecond)
      else None
    else None
  }

  /** Reading the second-precision ISO text back gives the instant truncated to whole seconds. */
  lemma ParseIsoSecondsInverse(t: Instant)
    requires FourDigitYear(t)
    ensures ParseIsoSeconds(IsoSeconds(t)) == Some(FloorTo(t, MsPerSecond))
  {
    var date := DateOf(t);
    var s := IsoSeconds(t);
    IsoSecondsFields(t);
    DaysFromCivilInverse(DayNumber(t));
    TimeOfDaySplit(t);
    ParseFields(s, date, Hours(t), Minutes(t), Seconds(t), FloorTo(t, MsPerSecond));
  }

  lemma ParseFields(s: string, date: Date, h: int, mi: int, sec: int, v: Instant)
    requires IsoSecondsText(s, date, h, mi, sec)
    requires 1 <= date.month <= 12 && 1 <= date.day <= 31 && 0 <= h < 24 && 0 <= mi < 60 && 0 <= sec < 60
    requires v == DaysFromCivil(date) * MsPerDay + h * MsPerHour + mi * MsPerMinute + sec * MsPerSecond
    ensures ParseIsoSeconds(s) == Some(v)
  {
  }

  /** The separators and digit groups of the second-precision ISO text spell the instant's date and clock time. */
  lemma IsoSecondsFields(t: Instant)
    requires FourDigitYear(t)
    ensures IsoSecondsText(IsoSeconds(t), DateOf(t), Hours(t), Minutes(t), Seconds(t))
  {
    IsoSecondsShape(t);
    DateTextShape(DateOf(t));
    ClockTextShape(t);
    JoinFields(DateText(DateOf(t)), ClockText(t), DateOf(t), Hours(t), Minutes(t), Seconds(t));
  }

  lemma JoinFields(d: string, c: string, date: Date, h: int, mi: int, sec: int)
    requires DateShape(d, date) && ClockShape(c, h, mi, sec)
    ensures IsoSecondsText(d + "T" + c + "Z", date, h, mi, sec)
  {
    var s := d + "T" + c + "Z";
    forall i | 0 <= i < 20 && i !in {4, 7, 10, 13, 16, 19} ensures IsDigit(s[i]) {
      if i < 10 { assert s[i] == d[i]; } else { assert s[i] == c[i - 11]; }
    }
    assert s[4] == d[4] && s[7] == d[7] && s[13] == c[2] && s[16] == c[5];
    assert s[..4] == d[..4] && s[5..7] == d[5..7] && s[8..10] == d[8..10];
    assert s[11..13] == c[..2] && s[14..16] == c[3..5] && s[17..19] == c[6..8];
  }

  lemma TimeOfDaySplit(t: Instant)
    ensures DayNumber(t) * MsPerDay + Hours(t) * MsPerHour + Minutes(t) * MsPerMinute + Seconds(t) * MsPerSecond
            == FloorTo(t, MsPerSecond)
  {
    var q, r := t / 86400000, t % 86400000;
    var h, rh := r / 3600000, r % 3600000;
    FloorDecompose(t, 3600000, q * 24 + h, rh);
    var mi, rm := rh / 60000, rh % 60000;
    FloorDecompose(t, 60000, (q * 24 + h) * 60 + mi, rm);
    var sec, ms := rm / 1000, rm % 1000;
    FloorDecompose(t, 1000, ((q * 24 + h) * 60 + mi) * 60 + sec, ms);
  }

  /** An instant on a whole second reads back from its second-precision ISO text unchanged. */
  lemma WholeSecondsRoundTrip(t: Instant)
    requires FourDigitYear(t) && Millis(t) == 0
    ensures ParseIsoSeconds(IsoSeconds(t)) == Some(t)
  {
    assert FloorTo(t, MsPerSecond) == t;
    ParseIsoSecondsInverse(t);
  }
}
