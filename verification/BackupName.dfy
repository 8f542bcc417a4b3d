/** Backup file names of backups/commands.ts: a UTC stamp in the name, its parser, and their order.
    Calendar arithmetic follows section 21.4.1 of ECMA-262. */
module BackupName {
  import opened Text

  const MS_PER_DAY := 86_400_000

  // ---- the calendar ----

  predicate IsLeap(y: int) { y % 4 == 0 && (y % 100 != 0 || y % 400 == 0) }

  /** The day number of January 1 of a year; day 0 is 1970-01-01. */
  function DayFromYear(y: int): int {
    365 * (y - 1970) + (y - 1969) / 4 - (y - 1901) / 100 + (y - 1601) / 400
  }

  lemma {:induction false} QuarterStep(y: int)
    ensures (y - 1968) / 4 - (y - 1969) / 4 == (if y % 4 == 0 then 1 else 0)
  {
  }

  lemma {:induction false} CenturyStep(y: int)
    ensures (y - 1900) / 100 - (y - 1901) / 100 == (if y % 100 == 0 then 1 else 0)
    ensures y % 100 == 0 ==> y % 4 == 0
  {
  }

  lemma {:induction false} FourCenturyStep(y: int)
    ensures (y - 1600) / 400 - (y - 1601) / 400 == (if y % 400 == 0 then 1 else 0)
    ensures y % 400 == 0 ==> y % 100 == 0
  {
  }

  lemma {:induction false} YearLength(y: int)
    ensures DayFromYear(y + 1) == DayFromYear(y) + (if IsLeap(y) then 366 else 365)
  {
    QuarterStep(y);
    CenturyStep(y);
    FourCenturyStep(y);
  }

  /** Days before month m (0 to 12) in a year. */
  function MonthStart(leap: bool, m: nat): nat
    requires m <= 12
  {
    [0, 31, 59, 90, 120, 151, 181, 212, 243, 273, 304, 334, 365][m] + (if leap && m >= 2 then 1 else 0)
  }

  /** The largest year from y on that has begun by a day. */
  function YearSearch(day: int, y: int): (r: int)
    requires DayFromYear(y) <= day
    ensures y <= r && DayFromYear(r) <= day < DayFromYear(r + 1)
    decreases day - DayFromYear(y)
  {
    YearLength(y);
    if DayFromYear(y + 1) <= day then YearSearch(day, y + 1) else y
  }

  function MonthSearch(leap: bool, dayInYear: int, m: nat): (r: nat)
    requires m < 12 && MonthStart(leap, m) <= dayInYear < MonthStart(leap, 12)
    ensures r < 12 && MonthStart(leap, r) <= dayInYear < MonthStart(leap, r + 1)
    decreases 12 - m
  {
    if dayInYear < MonthStart(leap, m + 1) then m else MonthSearch(leap, dayInYear, m + 1)
  }

  /** Times whose year has four digits; toISOString writes a signed six-digit year for the others. */
  ghost predicate FourDigitYear(t: int) {
    DayFromYear(0) <= t / MS_PER_DAY < DayFromYear(10000)
  }

  datatype Civil = Civil(year: nat, month: nat, day: nat, hour: nat, minute: nat, second: nat, ms: nat)

  lemma {:induction false} YearsGrow(a: int, b: int)
    requires a <= b
    ensures DayFromYear(a) <= DayFromYear(b)
    ensures a < b ==> DayFromYear(a + 1) <= DayFromYear(b)
    decreases b - a
  {
    if a < b {
      YearLength(a);
      YearsGrow(a + 1, b);
    }
  }

  function YearOf(day: int): (y: nat)
    requires DayFromYear(0) <= day < DayFromYear(10000)
    ensures y < 10000 && DayFromYear(y) <= day < DayFromYear(y) + (if IsLeap(y) then 366 else 365)
  {
    var y := YearSearch(day, 0);
    YearLength(y);
    assert y < 10000 by {
      if y >= 10000 {
        YearsGrow(10000, y);
      }
    }
    y
  }

  lemma {:induction false} MonthLength(leap: bool, m: nat)
    requires m < 12
    ensures MonthStart(leap, m) < MonthStart(leap, m + 1) <= MonthStart(leap, m) + 31
  {
  }

  /** The UTC fields of a time; month from 1. */
  function CivilOf(t: int): (c: Civil)
    requires FourDigitYear(t)
    ensures c.year < 10000 && 1 <= c.month <= 12 && 1 <= c.day <= 31
    ensures c.hour < 24 && c.minute < 60 && c.second < 60 && c.ms < 1000
  {
    var day, inDay := t / MS_PER_DAY, t % MS_PER_DAY;
    var year := YearOf(day);
    var month := MonthSearch(IsLeap(year), day - DayFromYear(year), 0);
    MonthLength(IsLeap(year), month);
    Civil(year, month + 1, day - DayFromYear(year) - MonthStart(IsLeap(year), month) + 1,
          inDay / 3_600_000, inDay / 60_000 % 60, inDay / 1000 % 60, inDay % 1000)
  }

  /** MakeDate of UTC fields. */
  function TimeOf(c: Civil): int
    requires 1 <= c.month <= 12
  {
    (DayFromYear(c.year) + MonthStart(IsLeap(c.year), c.month - 1) + c.day - 1) * MS_PER_DAY
    + c.hour * 3_600_000 + c.minute * 60_000 + c.second * 1000 + c.ms
  }

  lemma {:induction false} ClockReassembles(inDay: nat)
    requires inDay < MS_PER_DAY
    ensures inDay / 3_600_000 * 3_600_000 + inDay / 60_000 % 60 * 60_000 + inDay / 1000 % 60 * 1000 + inDay % 1000
         == inDay
  {
    assert inDay / 1000 / 60 == inDay / 60_000;
    assert inDay / 60_000 / 60 == inDay / 3_600_000;
  }

  lemma {:induction false} TimeOfCivil(t: int)
    requires FourDigitYear(t)
    ensures TimeOf(CivilOf(t)) == t
  {
    ClockReassembles(t % MS_PER_DAY);
  }

  // ---- the calendar ----

  lemma {:induction false} MonthsGrow(leap: bool, a: nat, b: nat)
    requires a <= b <= 12
    ensures MonthStart(leap, a) <= MonthStart(leap, b)
    decreases b - a
  {
    if a < b {
      MonthLength(leap, a);
      MonthsGrow(leap, a + 1, b);
    }
  }

  /** The one date of a day number. */
  lemma {:induction false} DateIs(day: int, y: nat, m: nat, d: nat)
    requires y < 10000 && 1 <= m <= 12 && 1 <= d <= MonthStart(IsLeap(y), m) - MonthStart(IsLeap(y), m - 1)
    requires day == DayFromYear(y) + MonthStart(IsLeap(y), m - 1) + d - 1
    ensures DayFromYear(0) <= day < DayFromYear(10000)
    ensures YearOf(day) == y && MonthSearch(IsLeap(y), day - DayFromYear(y), 0) == m - 1
  {
    hide DayFromYear, MonthStart, IsLeap, YearSearch, MonthSearch;
    WithinYear(IsLeap(y), m, d);
    YearLength(y);
    YearsGrow(0, y);
    YearsGrow(y + 1, 10000);
    var r := YearOf(day);
    YearLength(r);
    if r < y {
      YearsGrow(r + 1, y);
    } else if y < r {
      YearsGrow(y + 1, r);
    }
    var k := MonthSearch(IsLeap(y), day - DayFromYear(y), 0);
    if k < m - 1 {
      MonthsGrow(IsLeap(y), k + 1, m - 1);
    } else if m - 1 < k {
      MonthsGrow(IsLeap(y), m, k);
    }
  }

  lemma {:induction false} WithinYear(leap: bool, m: nat, d: nat)
    requires 1 <= m <= 12 && 1 <= d <= MonthStart(leap, m) - MonthStart(leap, m - 1)
    ensures MonthStart(leap, 0) == 0 && MonthStart(leap, 12) == (if leap then 366 else 365)
    ensures 0 <= MonthStart(leap, m - 1) + d - 1 < MonthStart(leap, 12)
  {
    MonthsGrow(leap, m, 12);
  }

  /** Thirty days hath September. */
  function DaysIn(y: int, m: nat): nat {
    if m == 2 then (if y % 4 == 0 && (y % 100 != 0 || y % 400 == 0) then 29 else 28)
    else if m == 4 || m == 6 || m == 9 || m == 11 then 30
    else 31
  }

  lemma {:induction false} DaysInMonth(y: int, m: nat)
    requires 1 <= m <= 12
    ensures MonthStart(IsLeap(y), m) - MonthStart(IsLeap(y), m - 1) == DaysIn(y, m)
  {
  }

  /** The date after a date. */
  function NextDate(c: Civil): Civil {
    if c.day < DaysIn(c.year, c.month) then c.(day := c.day + 1)
    else if c.month < 12 then c.(month := c.month + 1, day := 1)
    else c.(year := c.year + 1, month := 1, day := 1)
  }

  function AtTime(c: Civil, inDay: nat): Civil {
    c.(hour := inDay / 3_600_000, minute := inDay / 60_000 % 60, second := inDay / 1000 % 60, ms := inDay % 1000)
  }

  lemma {:induction false} CivilFrom(t: int, c: Civil)
    requires c.year < 10000 && 1 <= c.month <= 12 && 1 <= c.day <= DaysIn(c.year, c.month)
    requires t / MS_PER_DAY == DayNumber(c) && c == AtTime(c, t % MS_PER_DAY)
    ensures FourDigitYear(t) && CivilOf(t) == c
  {
    hide DayFromYear, MonthStart, IsLeap, DaysIn, YearOf, MonthSearch;
    DaysInMonth(c.year, c.month);
    DateIs(t / MS_PER_DAY, c.year, c.month, c.day);
  }

  /** The calendar starts on January 1, 1970, at midnight. */
  lemma {:induction false} EpochIs()
    ensures FourDigitYear(0) && CivilOf(0) == Civil(1970, 1, 1, 0, 0, 0, 0)
  {
    hide DayNumber, DaysIn, CivilOf, FourDigitYear;
    EpochDay();
    CivilFrom(0, Civil(1970, 1, 1, 0, 0, 0, 0));
  }

  lemma {:induction false} EpochDay()
    ensures DayNumber(Civil(1970, 1, 1, 0, 0, 0, 0)) == 0 && DaysIn(1970, 1) == 31
  {
    hide IsLeap, DayFromYear, DaysIn;
    EpochYear();
    JanuaryIsLong(1970);
  }

  lemma {:induction false} JanuaryIsLong(y: int)
    ensures DaysIn(y, 1) == 31
  {
  }

  lemma {:induction false} EpochYear()
    ensures DayFromYear(1970) == 0
  {
    assert 1 / 4 == 0 && 69 / 100 == 0 && 369 / 400 == 0;
  }

  /** A day later it is the next calendar date at the same time of day; the time of day counts the milliseconds. */
  lemma {:induction false} NextDayIsNextDate(t: int)
    requires FourDigitYear(t) && FourDigitYear(t + MS_PER_DAY)
    ensures CivilOf(t + MS_PER_DAY) == NextDate(CivilOf(t))
    ensures var c := CivilOf(t);
      c.hour * 3_600_000 + c.minute * 60_000 + c.second * 1000 + c.ms == t % MS_PER_DAY
  {
    hide DayFromYear, IsLeap, MonthStart, DaysIn, CivilOf, YearOf, MonthSearch, AtTime;
    var c := CivilOf(t);
    ClockReassembles(t % MS_PER_DAY);
    DayOfCivil(t);
    ADayLater(t);
    DayOfNext(c);
    NextKeepsTime(c, t % MS_PER_DAY);
    CivilFrom(t + MS_PER_DAY, NextDate(c));
  }

  lemma {:induction false} ADayLater(t: int)
    ensures (t + MS_PER_DAY) / MS_PER_DAY == t / MS_PER_DAY + 1 && (t + MS_PER_DAY) % MS_PER_DAY == t % MS_PER_DAY
  {
  }

  lemma {:induction false} NextKeepsTime(c: Civil, inDay: nat)
    ensures c == AtTime(c, inDay) ==> NextDate(c) == AtTime(NextDate(c), inDay)
    ensures c == AtTime(c, inDay) ==> c.hour == inDay / 3_600_000 && c.minute == inDay / 60_000 % 60
    ensures c == AtTime(c, inDay) ==> c.second == inDay / 1000 % 60 && c.ms == inDay % 1000
  {
  }

  function DayNumber(c: Civil): int
    requires 1 <= c.month <= 12
  {
    DayFromYear(c.year) + MonthStart(IsLeap(c.year), c.month - 1) + c.day - 1
  }

  lemma {:induction false} DayOfNext(c: Civil)
    requires 1 <= c.month <= 12 && 1 <= c.day <= DaysIn(c.year, c.month)
    ensures var n := NextDate(c);
      1 <= n.month <= 12 && 1 <= n.day <= DaysIn(n.year, n.month) && DayNumber(n) == DayNumber(c) + 1
  {
    hide DayFromYear;
    DaysInMonth(c.year, c.month);
    YearLength(c.year);
  }

  lemma {:induction false} DayOfCivil(t: int)
    requires FourDigitYear(t)
    ensures var c := CivilOf(t);
      && t / MS_PER_DAY == DayNumber(c) && c.day <= DaysIn(c.year, c.month) && c == AtTime(c, t % MS_PER_DAY)
  {
    var c := CivilOf(t);
    DaysInMonth(c.year, c.month);
  }

  // ---- the printer ----

  /** padStart(w, "0") of a number of at most w digits. */
  function Pad(n: nat, w: nat): (s: string)
    ensures |s| == w && forall i :: 0 <= i < w ==> IsDigit(s[i])
  {
    if w == 0 then "" else Pad(n / 10, w - 1) + [Digit(n % 10)]
  }

  function ToIsoString(t: int): string
    requires FourDigitYear(t)
  {
    var c := CivilOf(t);
    Pad(c.year, 4) + "-" + Pad(c.month, 2) + "-" + Pad(c.day, 2) + "T"
    + Pad(c.hour, 2) + ":" + Pad(c.minute, 2) + ":" + Pad(c.second, 2) + "." + Pad(c.ms, 3) + "Z"
  }

  function BackupFilename(database: string, t: int, ext: string): string
    requires FourDigitYear(t)
  {
    database + "-" + ReplaceChar(ToIsoString(t)[..19], ':', "-") + "." + ext
  }

  // ---- the parser ----

  function Extensions(): seq<string> { ["dump.gz", "tar.gz", "tar"] }

  predicate HasLineTerminator(s: string) {
    exists c :: c in s && c in {'\n', '\r', '\U{2028}', '\U{2029}'}
  }

  /** \d{4}-\d{2}-\d{2}T\d{2}-\d{2}-\d{2} */
  predicate IsStamp(s: string) {
    |s| == 19 && forall i :: 0 <= i < 19 ==>
      if i == 4 || i == 7 || i == 13 || i == 16 then s[i] == '-'
      else if i == 10 then s[i] == 'T'
      else IsDigit(s[i])
  }

  predicate EndsWith(s: string, suffix: string) {
    |suffix| <= |s| && s[|s| - |suffix|..] == suffix
  }

  /** The stamp of a name that is `<anything>-<stamp>.<ext>`, the anything being one or more
      characters other than line terminators. */
  function StampBefore(name: string, ext: string): Option<string> {
    var tail := "." + ext;
    var end := |name| - |tail|;
    if end >= 21 && EndsWith(name, tail) && IsStamp(name[end - 19..end]) && name[end - 20] == '-'
       && !HasLineTerminator(name[..end - 20])
    then Some(name[end - 19..end])
    else None
  }

  function MatchStamp(name: string): Option<string> {
    if StampBefore(name, "dump.gz").Some? then StampBefore(name, "dump.gz")
    else if StampBefore(name, "tar.gz").Some? then StampBefore(name, "tar.gz")
    else StampBefore(name, "tar")
  }

  /** Date.parse of the stamp with its clock written with colons and a Z: None where it is NaN. */
  function ParseStamp(s: string): Option<int>
    requires IsStamp(s)
  {
    var c := Civil(Numeral(s[..4]), Numeral(s[5..7]), Numeral(s[8..10]),
                   Numeral(s[11..13]), Numeral(s[14..16]), Numeral(s[17..19]), 0);
    if 1 <= c.month <= 12 && 1 <= c.day <= 31
       && ((c.hour < 24 && c.minute < 60 && c.second < 60) || (c.hour == 24 && c.minute == 0 && c.second == 0))
    then Some(TimeOf(c))
    else None
  }

  function ParseBackupTimestamp(name: string): Option<int> {
    var m := MatchStamp(name);
    if m.Some? && IsStamp(m.value) then ParseStamp(m.value) else None
  }

  // ---- round trip ----

  lemma {:induction false} PowerStep(n: nat, w: nat)
    requires w > 0 && n < Power10(w)
    ensures n / 10 < Power10(w - 1)
  {
  }

  lemma {:induction false} NumeralOfPad(n: nat, w: nat)
    requires n < Power10(w)
    ensures Numeral(Pad(n, w)) == n
  {
    if w > 0 {
      hide Power10;
      PowerStep(n, w);
      NumeralOfPad(n / 10, w - 1);
      assert Pad(n, w)[..w - 1] == Pad(n / 10, w - 1);
    }
  }

  function Power10(w: nat): (p: nat)
    ensures p > 0
  {
    if w == 0 then 1 else 10 * Power10(w - 1)
  }

  /** The stamp a time gets in a name. */
  function Stamp(c: Civil): string {
    Pad(c.year, 4) + ("-" + (Pad(c.month, 2) + ("-" + (Pad(c.day, 2) + ("T"
    + (Pad(c.hour, 2) + ("-" + (Pad(c.minute, 2) + ("-" + Pad(c.second, 2))))))))))
  }

  lemma {:induction false} ReplaceConcat(a: string, b: string, c: char, with: string)
    ensures ReplaceChar(a + b, c, with) == ReplaceChar(a, c, with) + ReplaceChar(b, c, with)
  {
    if a == "" {
      assert a + b == b;
    } else {
      ReplaceConcat(a[1..], b, c, with);
      assert (a + b)[1..] == a[1..] + b;
      PlusAssociates(if a[0] == c then with else [a[0]], ReplaceChar(a[1..], c, with), ReplaceChar(b, c, with));
    }
  }

  lemma {:induction false} NothingToReplace(s: string, c: char, with: string)
    requires c !in s
    ensures ReplaceChar(s, c, with) == s
  {
    if s != "" {
      NothingToReplace(s[1..], c, with);
    }
  }

  /** toISOString, cut and with its colons replaced, is the stamp. */
  lemma {:induction false} StampOfIso(t: int)
    requires FourDigitYear(t)
    ensures ReplaceChar(ToIsoString(t)[..19], ':', "-") == Stamp(CivilOf(t))
  {
    var c := CivilOf(t);
    var date := Pad(c.year, 4) + "-" + Pad(c.month, 2) + "-" + Pad(c.day, 2) + "T";
    var h, mi, s := Pad(c.hour, 2), Pad(c.minute, 2), Pad(c.second, 2);
    IsoHead(date, h, mi, s, Pad(c.ms, 3));
    NothingToReplace(date, ':', "-");
    ClockReplaced(h, mi, s);
    ReplaceConcat(date, h + (":" + (mi + (":" + s))), ':', "-");
    StampAssociates(Pad(c.year, 4), Pad(c.month, 2), Pad(c.day, 2), h + ("-" + (mi + ("-" + s))));
  }

  lemma {:induction false} IsoHead(date: string, h: string, mi: string, s: string, ms: string)
    requires |date| == 11 && |h| == |mi| == |s| == 2
    ensures (date + h + ":" + mi + ":" + s + "." + ms + "Z")[..19] == date + (h + (":" + (mi + (":" + s))))
  {
  }

  lemma {:induction false} StampAssociates(y: string, m: string, d: string, clock: string)
    ensures y + "-" + m + "-" + d + "T" + clock == y + ("-" + (m + ("-" + (d + ("T" + clock)))))
  {
  }

  lemma {:induction false} ClockReplaced(h: string, mi: string, s: string)
    requires ':' !in h && ':' !in mi && ':' !in s
    ensures ReplaceChar(h + (":" + (mi + (":" + s))), ':', "-") == h + ("-" + (mi + ("-" + s)))
  {
    NothingToReplace(h, ':', "-");
    NothingToReplace(mi, ':', "-");
    NothingToReplace(s, ':', "-");
    assert ReplaceChar(":", ':', "-") == "-";
    ReplaceConcat(h, ":" + (mi + (":" + s)), ':', "-");
    ReplaceConcat(":", mi + (":" + s), ':', "-");
    ReplaceConcat(mi, ":" + s, ':', "-");
    ReplaceConcat(":", s, ':', "-");
  }

  lemma {:induction false} StampParts(c: Civil)
    ensures var s := Stamp(c);
            && IsStamp(s)
            && s[..4] == Pad(c.year, 4) && s[5..7] == Pad(c.month, 2) && s[8..10] == Pad(c.day, 2)
            && s[11..13] == Pad(c.hour, 2) && s[14..16] == Pad(c.minute, 2) && s[17..19] == Pad(c.second, 2)
  {
  }

  lemma {:induction false} PadReads(n: nat, w: nat)
    requires (w == 2 && n < 100) || (w == 4 && n < 10000)
    ensures Numeral(Pad(n, w)) == n
  {
    assert Power10(2) == 10 * Power10(1) && Power10(1) == 10 && Power10(4) == 10 * Power10(3) == 100 * Power10(2);
    NumeralOfPad(n, w);
  }

  /** A stamp of any six fields reads as the time they name exactly when month and day are in range and so is the
      clock, where 24:00:00 is midnight. */
  lemma {:induction false} FieldsRead(c: Civil)
    requires c.year <= 9999 && c.month <= 99 && c.day <= 99 && c.hour <= 99 && c.minute <= 99 && c.second <= 99
    ensures IsStamp(Stamp(c))
    ensures ParseStamp(Stamp(c))
         == if 1 <= c.month <= 12 && 1 <= c.day <= 31
               && ((c.hour <= 23 && c.minute <= 59 && c.second <= 59) || (c.hour, c.minute, c.second) == (24, 0, 0))
            then Some(TimeOf(c.(ms := 0))) else None
  {
    StampParts(c);
    PadReads(c.year, 4);
    PadReads(c.month, 2);
    PadReads(c.day, 2);
    PadReads(c.hour, 2);
    PadReads(c.minute, 2);
    PadReads(c.second, 2);
  }

  /** Reading a time's stamp gives that time, floored to the second. */
  lemma {:induction false} ParseOfStamp(t: int)
    requires FourDigitYear(t)
    ensures IsStamp(Stamp(CivilOf(t))) && ParseStamp(Stamp(CivilOf(t))) == Some(t - t % 1000)
  {
    hide TimeOf, Stamp, IsStamp, ParseStamp;
    FlooredTime(t);
    FieldsRead(CivilOf(t));
  }

  lemma {:induction false} FlooredTime(t: int)
    requires FourDigitYear(t)
    ensures TimeOf(CivilOf(t).(ms := 0)) == t - t % 1000
  {
    TimeOfCivil(t);
    assert TimeOf(CivilOf(t)) == TimeOf(CivilOf(t).(ms := 0)) + CivilOf(t).ms;
    MillisecondsOf(t);
  }

  lemma {:induction false} MillisecondsOf(t: int)
    ensures t % MS_PER_DAY % 1000 == t % 1000
  {
    var q, r := t / MS_PER_DAY, t % MS_PER_DAY;
    assert t == 1000 * (86400 * q + r / 1000) + r % 1000;
    RemainderIs(t, 86400 * q + r / 1000, r % 1000);
  }

  lemma {:induction false} RemainderIs(t: int, q: int, r: int)
    requires t == 1000 * q + r && 0 <= r < 1000
    ensures t % 1000 == r
  {
  }

  /** What the regex sees in a printed name. */
  lemma {:induction false} StampOfName(database: string, stamp: string, ext: string)
    requires IsStamp(stamp)
    ensures StampBefore(database + "-" + stamp + "." + ext, ext)
         == if database == "" || HasLineTerminator(database) then None else Some(stamp)
  {
    var name := database + "-" + stamp + "." + ext;
    var end := |name| - |ext| - 1;
    assert name[end..] == "." + ext && name[end - 19..end] == stamp && name[end - 20] == '-';
    assert name[..end - 20] == database;
  }

  /** At most one extension fits a name. */
  lemma {:induction false} OneExtension(name: string, a: string, b: string)
    requires a in Extensions() && b in Extensions() && a != b
    requires EndsWith(name, "." + a)
    ensures !EndsWith(name, "." + b)
  {
    ExtensionsAre();
    SuffixChar(name, "." + a, 0);
    SuffixChar(name, "." + b, 0);
    SuffixChar(name, "." + a, 3);
    SuffixChar(name, "." + b, 3);
  }

  lemma {:induction false} SuffixChar(name: string, suffix: string, k: nat)
    requires k < |suffix|
    ensures EndsWith(name, suffix) ==> k < |name| && name[|name| - 1 - k] == suffix[|suffix| - 1 - k]
  {
    if EndsWith(name, suffix) {
      assert name[|name| - |suffix|..][|suffix| - 1 - k] == name[|name| - 1 - k];
    }
  }

  /** In a name with one of the extensions, the stamp is looked for before that extension only. */
  lemma {:induction false} MatchIs(name: string, ext: string)
    requires ext in Extensions() && EndsWith(name, "." + ext)
    ensures MatchStamp(name) == StampBefore(name, ext)
  {
    ExtensionsAre();
    forall other | other in Extensions() && other != ext ensures !EndsWith(name, "." + other) {
      OneExtension(name, ext, other);
    }
  }

  /** The name codec: a printed name parses to its time floored to the second, whatever stamp-like
      text the database name holds, exactly when the database name is non-empty and on one line. */
  lemma {:induction false} NameReadsBack(database: string, t: int, ext: string)
    requires FourDigitYear(t) && ext in {"dump.gz", "tar.gz", "tar"}
    ensures ParseBackupTimestamp(BackupFilename(database, t, ext)) == Some(t - t % 1000)
            <==> database != "" && forall c :: c in database ==> c !in {'\n', '\r', '\U{2028}', '\U{2029}'}
    ensures database == "" || (exists c :: c in database && c in {'\n', '\r', '\U{2028}', '\U{2029}'})
            ==> ParseBackupTimestamp(BackupFilename(database, t, ext)) == None
  {
    hide CivilOf, Stamp, ToIsoString, ParseStamp, IsStamp;
    StampOfIso(t);
    ParseOfStamp(t);
    var stamp := Stamp(CivilOf(t));
    StampOfName(database, stamp, ext);
    var name := database + "-" + stamp + "." + ext;
    assert name[|name| - |ext| - 1..] == "." + ext;
    MatchIs(name, ext);
  }

  /** What a backup's name is: something on one line, a stamp with its fields in range, and one of the extensions. */
  ghost predicate IsBackupName(name: string, database: string, c: Civil, ext: string) {
    && database != "" && (forall d :: d in database ==> d !in {'\n', '\r', '\U{2028}', '\U{2029}'})
    && c.year <= 9999 && 1 <= c.month <= 12 && 1 <= c.day <= 31
    && ((c.hour <= 23 && c.minute <= 59 && c.second <= 59) || (c.hour, c.minute, c.second) == (24, 0, 0))
    && ext in {"dump.gz", "tar.gz", "tar"} && name == database + "-" + Stamp(c) + "." + ext
  }

  /** Exactly the backups' names parse, to the time their stamp names: any other file of the prefix gives null. */
  lemma {:induction false} ParsesExactly(name: string, time: int)
    ensures ParseBackupTimestamp(name) == Some(time)
       <==> exists database, c, ext :: IsBackupName(name, database, c, ext) && TimeOf(c.(ms := 0)) == time
  {
    hide TimeOf, Stamp, ParseBackupTimestamp;
    if ParseBackupTimestamp(name) == Some(time) {
      var database, c, ext := PartsOfName(name, time);
    }
    if database, c, ext :| IsBackupName(name, database, c, ext) && TimeOf(c.(ms := 0)) == time {
      BackupNameParses(name, database, c, ext);
    }
  }

  lemma {:induction false} BackupNameParses(name: string, database: string, c: Civil, ext: string)
    requires IsBackupName(name, database, c, ext)
    ensures ParseBackupTimestamp(name) == Some(TimeOf(c.(ms := 0)))
  {
    FieldsRead(c);
    hide Stamp, IsStamp, ParseStamp, TimeOf;
    StampOfName(database, Stamp(c), ext);
    assert name[|name| - |ext| - 1..] == "." + ext;
    MatchIs(name, ext);
  }

  lemma {:induction false} LastDigit(m: nat, c: char)
    requires IsDigit(c)
    ensures (10 * m + DigitValue(c)) / 10 == m && Digit((10 * m + DigitValue(c)) % 10) == c
  {
  }

  lemma {:induction false} OneDigitMore(s: string)
    requires s != "" && forall i :: 0 <= i < |s| ==> IsDigit(s[i])
    ensures Numeral(s) == 10 * Numeral(s[..|s| - 1]) + DigitValue(s[|s| - 1])
    ensures Pad(Numeral(s), |s|) == Pad(Numeral(s) / 10, |s| - 1) + [Digit(Numeral(s) % 10)]
  {
  }

  lemma {:induction false} PadOfNumeral(s: string)
    requires forall i :: 0 <= i < |s| ==> IsDigit(s[i])
    ensures Numeral(s) < Power10(|s|) && Pad(Numeral(s), |s|) == s
  {
    if s != "" {
      var n := |s| - 1;
      PadOfNumeral(s[..n]);
      hide Pad, Numeral;
      LastDigit(Numeral(s[..n]), s[n]);
      assert s == s[..n] + [s[n]];
      OneDigitMore(s);
    }
  }

  /** The fields a stamp shows. */
  lemma {:induction false} FieldsOf(s: string) returns (c: Civil)
    requires IsStamp(s)
    ensures c.year <= 9999 && c.month <= 99 && c.day <= 99 && c.hour <= 99 && c.minute <= 99 && c.second <= 99
    ensures Stamp(c) == s
  {
    assert Power10(2) == 10 * Power10(1) && Power10(1) == 10 && Power10(4) == 10 * Power10(3) == 100 * Power10(2);
    PadOfNumeral(s[..4]);
    PadOfNumeral(s[5..7]);
    PadOfNumeral(s[8..10]);
    PadOfNumeral(s[11..13]);
    PadOfNumeral(s[14..16]);
    PadOfNumeral(s[17..19]);
    c := Civil(Numeral(s[..4]), Numeral(s[5..7]), Numeral(s[8..10]),
               Numeral(s[11..13]), Numeral(s[14..16]), Numeral(s[17..19]), 0);
    hide Pad, Numeral, Power10;
    Reassembles(s);
  }

  lemma {:induction false} Reassembles(s: string)
    requires IsStamp(s)
    ensures s == s[..4] + ("-" + (s[5..7] + ("-" + (s[8..10] + ("T"
               + (s[11..13] + ("-" + (s[14..16] + ("-" + s[17..19])))))))))
  {
  }

  lemma {:induction false} StampFound(name: string, ext: string) returns (database: string)
    requires StampBefore(name, ext).Some?
    ensures database != "" && forall d :: d in database ==> d !in {'\n', '\r', '\U{2028}', '\U{2029}'}
    ensures IsStamp(StampBefore(name, ext).value) && name == database + "-" + StampBefore(name, ext).value + "." + ext
  {
    var end := |name| - |ext| - 1;
    database := name[..end - 20];
    hide IsStamp;
    assert "." + ext == name[end..] && name == name[..end - 20] + [name[end - 20]] + name[end - 19..end] + name[end..];
    PlusAssociates(database + "-" + name[end - 19..end], ".", ext);
  }

  lemma {:induction false} PartsOfName(name: string, time: int) returns (database: string, c: Civil, ext: string)
    requires ParseBackupTimestamp(name) == Some(time)
    ensures IsBackupName(name, database, c, ext) && TimeOf(c.(ms := 0)) == time
  {
    hide Stamp, IsStamp, ParseStamp, TimeOf, StampBefore;
    ext := if StampBefore(name, "dump.gz").Some? then "dump.gz"
           else if StampBefore(name, "tar.gz").Some? then "tar.gz" else "tar";
    database := StampFound(name, ext);
    c := FieldsOf(StampBefore(name, ext).value);
    FieldsRead(c);
  }

  /** The years 0000 to 9999, in milliseconds. */
  lemma {:induction false} FourDigitsAre(t: int)
    ensures FourDigitYear(t) <==> -62_167_219_200_000 <= t < 253_402_300_800_000
  {
    assert DayFromYear(0) == -719_528 && DayFromYear(10_000) == 2_932_897;
  }

  lemma {:induction false} ExtensionsAre()
    ensures forall e :: e in Extensions() <==> e == "dump.gz" || e == "tar.gz" || e == "tar"
  {
  }

  // ---- order ----

  lemma {:induction false} PadOrder(m: nat, n: nat, w: nat)
    requires m < Power10(w) && n < Power10(w)
    ensures Less(Pad(m, w), Pad(n, w)) <==> m < n
    ensures Pad(m, w) == Pad(n, w) <==> m == n
  {
    if w > 0 {
      PadOrder(m / 10, n / 10, w - 1);
      var a, b := [Digit(m % 10)], [Digit(n % 10)];
      LessByParts(Pad(m / 10, w - 1), Pad(n / 10, w - 1), a, b);
      assert a[1..] == b[1..] == "";
      assert Pad(m, w)[..w - 1] == Pad(m / 10, w - 1) && Pad(n, w)[..w - 1] == Pad(n / 10, w - 1);
      assert Pad(m, w)[w - 1] == Digit(m % 10) && Pad(n, w)[w - 1] == Digit(n % 10);
    }
  }

  lemma {:induction false} SmallPadOrder(m: nat, n: nat, w: nat, a: string, b: string)
    requires (w == 2 && m < 100 && n < 100) || (w == 4 && m < 10000 && n < 10000)
    ensures Less(Pad(m, w) + a, Pad(n, w) + b) <==> m < n || (m == n && Less(a, b))
  {
    assert Power10(2) == 10 * Power10(1) && Power10(1) == 10 && Power10(4) == 10 * Power10(3) == 100 * Power10(2);
    PadOrder(m, n, w);
    LessByParts(Pad(m, w), Pad(n, w), a, b);
  }

  lemma {:induction false} LessAfter(prefix: string, a: string, b: string)
    ensures Less(prefix + a, prefix + b) <==> Less(a, b)
  {
    LessByParts(prefix, prefix, a, b);
    LessIrreflexive(prefix);
  }

  /** Field by field, most significant first. */
  ghost predicate Earlier(a: Civil, b: Civil) {
    a.year < b.year || (a.year == b.year && (
    a.month < b.month || (a.month == b.month && (
    a.day < b.day || (a.day == b.day && (
    a.hour < b.hour || (a.hour == b.hour && (
    a.minute < b.minute || (a.minute == b.minute &&
    a.second < b.second)))))))))
  }

  ghost predicate Printable(c: Civil) {
    c.year < 10000 && c.month < 100 && c.day < 100 && c.hour < 100 && c.minute < 100 && c.second < 100
  }

  lemma {:induction false} ClockOrder(a: Civil, b: Civil)
    requires Printable(a) && Printable(b)
    ensures Less(ClockPart(a), ClockPart(b))
            <==> a.hour < b.hour || (a.hour == b.hour && (
                 a.minute < b.minute || (a.minute == b.minute && a.second < b.second)))
  {
    var (sa, sb) := (Pad(a.second, 2), Pad(b.second, 2));
    SmallPadOrder(a.second, b.second, 2, "", "");
    assert sa + "" == sa && sb + "" == sb;
    LessAfter("-", sa, sb);
    SmallPadOrder(a.minute, b.minute, 2, "-" + sa, "-" + sb);
    LessAfter("-", Pad(a.minute, 2) + ("-" + sa), Pad(b.minute, 2) + ("-" + sb));
    SmallPadOrder(a.hour, b.hour, 2, "-" + (Pad(a.minute, 2) + ("-" + sa)), "-" + (Pad(b.minute, 2) + ("-" + sb)));
  }

  function ClockPart(c: Civil): string {
    Pad(c.hour, 2) + ("-" + (Pad(c.minute, 2) + ("-" + Pad(c.second, 2))))
  }

  lemma {:induction false} StampOrder(a: Civil, b: Civil)
    requires Printable(a) && Printable(b)
    ensures Less(Stamp(a), Stamp(b)) <==> Earlier(a, b)
  {
    ClockOrder(a, b);
    var ta, tb := "T" + ClockPart(a), "T" + ClockPart(b);
    LessAfter("T", ClockPart(a), ClockPart(b));
    SmallPadOrder(a.day, b.day, 2, ta, tb);
    var da, db := Pad(a.day, 2) + ta, Pad(b.day, 2) + tb;
    LessAfter("-", da, db);
    SmallPadOrder(a.month, b.month, 2, "-" + da, "-" + db);
    var ma, mb := Pad(a.month, 2) + ("-" + da), Pad(b.month, 2) + ("-" + db);
    LessAfter("-", ma, mb);
    SmallPadOrder(a.year, b.year, 4, "-" + ma, "-" + mb);
  }

  /** Whole days of a civil date. */
  function DayOf(c: Civil): int
    requires 1 <= c.month <= 12
  {
    DayFromYear(c.year) + MonthStart(IsLeap(c.year), c.month - 1) + c.day - 1
  }

  function SecondOf(c: Civil): int
    requires 1 <= c.month <= 12
  {
    DayOf(c) * 86400 + c.hour * 3600 + c.minute * 60 + c.second
  }

  ghost predicate Real(c: Civil) {
    && c.year < 10000 && 1 <= c.month <= 12 && 1 <= c.day && c.hour < 24 && c.minute < 60 && c.second < 60
    && MonthStart(IsLeap(c.year), c.month - 1) + c.day <= MonthStart(IsLeap(c.year), c.month)
  }

  lemma {:induction false} EarlierDay(a: Civil, b: Civil)
    requires Real(a) && Real(b)
    requires a.year < b.year || (a.year == b.year && (a.month < b.month || (a.month == b.month && a.day < b.day)))
    ensures DayOf(a) < DayOf(b)
  {
    if a.year < b.year {
      YearLength(a.year);
      YearsGrow(a.year, b.year);
      MonthsGrow(IsLeap(a.year), a.month, 12);
      MonthsGrow(IsLeap(b.year), 0, b.month - 1);
    } else if a.month < b.month {
      MonthsGrow(IsLeap(a.year), a.month, b.month - 1);
    }
  }

  lemma {:induction false} EarlierSecond(a: Civil, b: Civil)
    requires Real(a) && Real(b) && Earlier(a, b)
    ensures SecondOf(a) < SecondOf(b)
  {
    if a.year != b.year || a.month != b.month || a.day != b.day {
      EarlierDay(a, b);
    }
  }

  lemma {:induction false} CivilIsReal(t: int)
    requires FourDigitYear(t)
    ensures Real(CivilOf(t)) && Printable(CivilOf(t)) && SecondOf(CivilOf(t)) == t / 1000
  {
    FlooredTime(t);
    assert TimeOf(CivilOf(t).(ms := 0)) == 1000 * SecondOf(CivilOf(t));
  }

  lemma {:induction false} EarlierIff(a: Civil, b: Civil)
    requires Real(a) && Real(b)
    ensures Earlier(a, b) <==> SecondOf(a) < SecondOf(b)
  {
    if Earlier(a, b) {
      EarlierSecond(a, b);
    } else if Earlier(b, a) {
      EarlierSecond(b, a);
    }
  }

  lemma {:induction false} SameStamp(a: Civil, b: Civil)
    requires Real(a) && Real(b) && Printable(a) && Printable(b)
    ensures Stamp(a) == Stamp(b) <==> SecondOf(a) == SecondOf(b)
  {
    EarlierIff(a, b);
    EarlierIff(b, a);
    if Stamp(a) == Stamp(b) {
      StampOrder(a, b);
      StampOrder(b, a);
      LessIrreflexive(Stamp(a));
    }
  }

  /** The order isomorphism: for one database and extension, names sort as times do, to the second. */
  lemma {:induction false} NamesSortByTime(database: string, ext: string, t: int, u: int)
    requires FourDigitYear(t) && FourDigitYear(u)
    ensures Less(BackupFilename(database, t, ext), BackupFilename(database, u, ext)) <==> t / 1000 < u / 1000
    ensures BackupFilename(database, t, ext) == BackupFilename(database, u, ext) <==> t / 1000 == u / 1000
  {
    var a, b := Stamp(CivilOf(t)), Stamp(CivilOf(u));
    NameText(database, t, ext);
    NameText(database, u, ext);
    NameOrder(database + "-", a, b, "." + ext);
    CivilIsReal(t);
    CivilIsReal(u);
    StampOrder(CivilOf(t), CivilOf(u));
    EarlierIff(CivilOf(t), CivilOf(u));
    SameStamp(CivilOf(t), CivilOf(u));
  }

  lemma {:induction false} NameText(database: string, t: int, ext: string)
    requires FourDigitYear(t)
    ensures BackupFilename(database, t, ext) == database + "-" + (Stamp(CivilOf(t)) + ("." + ext))
    ensures |Stamp(CivilOf(t))| == 19
  {
    StampOfIso(t);
    var stamp := Stamp(CivilOf(t));
    assert database + "-" + stamp + "." + ext == database + "-" + (stamp + ("." + ext));
  }

  lemma {:induction false} NameOrder(prefix: string, a: string, b: string, suffix: string)
    requires |a| == |b|
    ensures Less(prefix + (a + suffix), prefix + (b + suffix)) <==> Less(a, b)
    ensures prefix + (a + suffix) == prefix + (b + suffix) <==> a == b
  {
    LessAfter(prefix, a + suffix, b + suffix);
    LessByParts(a, b, suffix, suffix);
    LessIrreflexive(suffix);
    assert (prefix + (a + suffix))[|prefix|..|prefix| + |a|] == a;
    assert (prefix + (b + suffix))[|prefix|..|prefix| + |b|] == b;
  }
}
