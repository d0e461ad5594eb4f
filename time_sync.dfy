/**
 * `TimeSync` (esp32/utils/time_sync.py): local time as UTC plus a fixed
 * offset, the night window, and the timestamp text the handlers publish.
 *
 * The clock (`time.time()`) is a parameter. `time.localtime` belongs to the
 * MicroPython runtime; it is modelled here as the proleptic Gregorian
 * calendar counted in seconds from 1970-01-01 00:00:00.
 */
module TimeSync {
  import opened Wrappers
  import opened Decimal

  const TimezoneOffsetHours: int := 11
  const NightStartHour: int := 20
  const NightEndHour: int := 7
  const SecondsPerDay: nat := 86400
  const EpochYear: nat := 1970

  /** The first six fields of `time.localtime()`. */
  datatype DateTime = DateTime(year: nat, month: nat, day: nat, hour: nat, minute: nat, second: nat)

  predicate Leap(y: int) {
    y % 4 == 0 && (y % 100 != 0 || y % 400 == 0)
  }

  function DaysInYear(y: int): nat {
    if Leap(y) then 366 else 365
  }

  function MonthLength(y: int, m: int): (n: nat)
    requires 1 <= m <= 12
    ensures 28 <= n <= 31
  {
    if m == 2 then (if Leap(y) then 29 else 28)
    else if m == 4 || m == 6 || m == 9 || m == 11 then 30
    else 31
  }

  /** Days in months `lo` .. `hi - 1` of year y. */
  function MonthsSpan(y: int, lo: int, hi: int): nat
    requires 1 <= lo <= hi <= 13
    decreases hi
  {
    if hi == lo then 0 else MonthsSpan(y, lo, hi - 1) + MonthLength(y, hi - 1)
  }

  /** Days in years `lo` .. `hi - 1`. */
  function YearsSpan(lo: int, hi: int): nat
    requires lo <= hi
    decreases hi - lo
  {
    if hi == lo then 0 else YearsSpan(lo, hi - 1) + DaysInYear(hi - 1)
  }

  lemma WholeYear(y: int)
    ensures MonthsSpan(y, 1, 13) == DaysInYear(y)
  {
    assert MonthsSpan(y, 1, 1) == 0;
    assert MonthsSpan(y, 1, 3) == 31 + MonthLength(y, 2);
    assert MonthsSpan(y, 1, 7) == MonthsSpan(y, 1, 3) + 31 + 30 + 31 + 30;
    assert MonthsSpan(y, 1, 13) == MonthsSpan(y, 1, 7) + 31 + 31 + 30 + 31 + 30 + 31;
  }

  /** The year holding day `d` counted from the start of year y, and the day within it. */
  function YearOf(y: int, d: nat): (r: (int, nat))
    ensures r.0 >= y && r.1 < DaysInYear(r.0)
    decreases d
  {
    if d < DaysInYear(y) then (y, d) else YearOf(y + 1, d - DaysInYear(y))
  }

  /** The month holding day `d` counted from the start of month m, and the day of that month (from 1). */
  function MonthOf(y: int, m: int, d: nat): (r: (int, nat))
    requires 1 <= m <= 12 && d < MonthsSpan(y, m, 13)
    ensures m <= r.0 <= 12 && 1 <= r.1 <= MonthLength(y, r.0)
    decreases 12 - m
  {
    SpanSplit(y, m, m + 1, 13);
    if d < MonthLength(y, m) then (m, d + 1) else MonthOf(y, m + 1, d - MonthLength(y, m))
  }

  lemma {:induction false} SpanSplit(y: int, lo: int, mid: int, hi: int)
    requires 1 <= lo <= mid <= hi <= 13
    ensures MonthsSpan(y, lo, hi) == MonthsSpan(y, lo, mid) + MonthsSpan(y, mid, hi)
    decreases hi
  {
    if hi > mid {
      SpanSplit(y, lo, mid, hi - 1);
    }
  }

  lemma {:induction false} YearsSplit(lo: int, mid: int, hi: int)
    requires lo <= mid <= hi
    ensures YearsSpan(lo, hi) == YearsSpan(lo, mid) + YearsSpan(mid, hi)
    decreases hi - mid
  {
    if hi > mid {
      YearsSplit(lo, mid, hi - 1);
    }
  }

  /** `time.localtime(s)`. */
  function Localtime(s: nat): (t: DateTime)
    ensures t.year >= EpochYear && 1 <= t.month <= 12 && 1 <= t.day <= 31
    ensures t.hour < 24 && t.minute < 60 && t.second < 60
  {
    var (year, dayOfYear) := YearOf(EpochYear, s / SecondsPerDay);
    WholeYear(year);
    var (month, day) := MonthOf(year, 1, dayOfYear);
    var clock := s % SecondsPerDay;
    DateTime(year, month, day, clock / 3600, (clock % 3600) / 60, clock % 60)
  }

  /** The instant a calendar time names, in seconds from the epoch: the inverse of `Localtime`. */
  function Instant(t: DateTime): int
    requires t.year >= EpochYear && 1 <= t.month <= 12
  {
    ((YearsSpan(EpochYear, t.year) + MonthsSpan(t.year, 1, t.month) + t.day - 1) * SecondsPerDay
      + t.hour * 3600 + t.minute * 60 + t.second)
  }

  lemma {:induction false} YearOfCounts(y: int, d: nat)
    ensures YearsSpan(y, YearOf(y, d).0) + YearOf(y, d).1 == d
    decreases d
  {
    if d >= DaysInYear(y) {
      var r := YearOf(y + 1, d - DaysInYear(y));
      YearOfCounts(y + 1, d - DaysInYear(y));
      YearsSplit(y, y + 1, r.0);
    }
  }

  lemma {:induction false} MonthOfCounts(y: int, m: int, d: nat)
    requires 1 <= m <= 12 && d < MonthsSpan(y, m, 13)
    ensures MonthsSpan(y, m, MonthOf(y, m, d).0) + MonthOf(y, m, d).1 - 1 == d
    decreases 12 - m
  {
    SpanSplit(y, m, m + 1, 13);
    if d >= MonthLength(y, m) {
      var r := MonthOf(y, m + 1, d - MonthLength(y, m));
      MonthOfCounts(y, m + 1, d - MonthLength(y, m));
      SpanSplit(y, m, m + 1, r.0);
    }
  }

  /** An instant is its whole days, then hours, minutes and seconds of the day. */
  lemma DaySplit(s: nat)
    ensures var clock := s % SecondsPerDay;
      s == (s / SecondsPerDay) * SecondsPerDay + (clock / 3600) * 3600 + ((clock % 3600) / 60) * 60 + clock % 60
  {
    var clock := s % SecondsPerDay;
    var rest := clock % 3600;
    assert clock == (clock / 3600) * 3600 + rest;
    assert rest == (rest / 60) * 60 + rest % 60;
    assert clock % 60 == rest % 60;
  }

  /** `time.localtime` loses nothing: the calendar time it gives names the instant it was given. */
  lemma LocaltimeRoundTrip(s: nat)
    ensures Instant(Localtime(s)) == s
  {
    var (year, dayOfYear) := YearOf(EpochYear, s / SecondsPerDay);
    YearOfCounts(EpochYear, s / SecondsPerDay);
    WholeYear(year);
    MonthOfCounts(year, 1, dayOfYear);
    DaySplit(s);
  }

  /** `YYYY-MM-DD`. */
  function DatePart(t: DateTime): string {
    Padded(t.year, 4) + "-" + Padded(t.month, 2) + "-" + Padded(t.day, 2)
  }

  /** `HH:MM:SS`. */
  function ClockPart(t: DateTime): string {
    Padded(t.hour, 2) + ":" + Padded(t.minute, 2) + ":" + Padded(t.second, 2)
  }

  /** `"{:04d}-{:02d}-{:02d}T{:02d}:{:02d}:{:02d}Z".format(...)`. */
  function IsoFormat(t: DateTime): string {
    DatePart(t) + "T" + ClockPart(t) + "Z"
  }

  predicate AllDigits(s: string) {
    forall i :: 0 <= i < |s| ==> IsDigit(s[i])
  }

  /** Reads `a?b?c` with two-digit b and c and a `width`-digit a back into three numbers. */
  function ParseTriple(s: string, width: nat, sep: char): Option<(nat, nat, nat)> {
    if |s| == width + 6 && s[width] == sep && s[width + 3] == sep
       && AllDigits(s[..width]) && AllDigits(s[width + 1..width + 3]) && AllDigits(s[width + 4..])
    then Some((DigitsValue(s[..width]), DigitsValue(s[width + 1..width + 3]), DigitsValue(s[width + 4..])))
    else None
  }

  /** Reads a `YYYY-MM-DDTHH:MM:SSZ` stamp back into its fields. */
  function ParseIso(s: string): Option<DateTime> {
    if |s| == 20 && s[10] == 'T' && s[19] == 'Z' then
      match (ParseTriple(s[..10], 4, '-'), ParseTriple(s[11..19], 2, ':'))
      case (Some((y, mo, d)), Some((h, mi, se))) => Some(DateTime(y, mo, d, h, mi, se))
      case _ => None
    else None
  }

  /** `a` padded to `width`, a separator, then two two-digit fields, read back. */
  lemma TripleRoundTrip(a: nat, b: nat, c: nat, width: nat, sep: char)
    requires 1 <= width && a < Pow10(width) && b < 100 && c < 100
    ensures ParseTriple(Padded(a, width) + [sep] + Padded(b, 2) + [sep] + Padded(c, 2), width, sep) == Some((a, b, c))
  {
    assert Pow10(2) == 100;
    var first, second, third := Padded(a, width), Padded(b, 2), Padded(c, 2);
    PaddedField(a, width);
    PaddedField(b, 2);
    PaddedField(c, 2);
    var s := first + [sep] + second + [sep] + third;
    assert |s| == width + 6 && s[width] == sep && s[width + 3] == sep;
    assert s[..width] == first;
    assert s[width + 1..width + 3] == second;
    assert s[width + 4..] == third;
  }

  /** For a year below 10000 the stamp is 20 characters and reads back as the fields it was made from. */
  lemma IsoRoundTrip(t: DateTime)
    requires t.year < 10000 && t.month < 100 && t.day < 100 && t.hour < 100 && t.minute < 100 && t.second < 100
    ensures |IsoFormat(t)| == 20
    ensures ParseIso(IsoFormat(t)) == Some(t)
  {
    assert Pow10(4) == 10000;
    TripleRoundTrip(t.year, t.month, t.day, 4, '-');
    TripleRoundTrip(t.hour, t.minute, t.second, 2, ':');
    var s := IsoFormat(t);
    assert s[..10] == DatePart(t);
    assert s[11..19] == ClockPart(t);
  }

  /** The instant a stamp denotes when its trailing 'Z' is taken at its word (UTC). */
  function StampedInstant(s: string): Option<int> {
    match ParseIso(s)
    case Some(t) => if t.year >= EpochYear && 1 <= t.month <= 12 then Some(Instant(t)) else None
    case None => None
  }

  class TimeSync {
    const timezoneOffset: int := TimezoneOffsetHours * 3600
    const nightStart: int := NightStartHour
    const nightEnd: int := NightEndHour
    var lastSync: Option<int>

    constructor ()
      ensures timezoneOffset == 39600 && nightStart == 20 && nightEnd == 7
      ensures lastSync == None
    {
      lastSync := None;
    }

    /** `sync_time()`: whether NTP succeeded; `now` is the clock right after setting it. */
    method SyncTime(ntpOk: bool, now: int) returns (ok: bool)
      modifies this`lastSync
      ensures ok == ntpOk
      ensures lastSync == if ntpOk then Some(now) else old(lastSync)
    {
      if ntpOk {
        lastSync := Some(now);
        ok := true;
      } else {
        ok := false;
      }
    }

    /** `get_local_time()` at UTC clock reading `utc`. */
    function GetLocalTime(utc: nat): DateTime {
      Localtime(utc + timezoneOffset)
    }

    function IsNighttime(utc: nat): bool {
      var hour := GetLocalTime(utc).hour;
      hour >= nightStart || hour < nightEnd
    }

    function GetIsoTimestamp(utc: nat): string {
      IsoFormat(GetLocalTime(utc))
    }

    /** The corrected stamp: the same format on UTC itself, so that the 'Z' is true. */
    function UtcIsoTimestamp(utc: nat): string {
      IsoFormat(Localtime(utc))
    }
  }

  /** The offset is 11 hours in seconds, and local time is UTC shifted by it. */
  lemma LocalTimeIsShiftedUtc(ts: TimeSync, utc: nat)
    ensures ts.timezoneOffset == 39600
    ensures Instant(ts.GetLocalTime(utc)) == utc + 39600
  {
    LocaltimeRoundTrip(utc + ts.timezoneOffset);
  }

  /** Whole days drop out of the hour of the day. */
  lemma HourOfDay(q: nat, r: nat)
    requires r < SecondsPerDay
    ensures (q * SecondsPerDay + r) % SecondsPerDay == r
  {
  }

  /** Night is local hours 20-23 and 0-6, which at UTC+11 is the UTC hours 9 to 19. */
  lemma NightWindow(ts: TimeSync, utc: nat)
    ensures ts.IsNighttime(utc) <==> !(7 <= ts.GetLocalTime(utc).hour < 20)
    ensures ts.IsNighttime(utc) <==> 9 <= (utc % SecondsPerDay) / 3600 < 20
  {
    var q, r := utc / SecondsPerDay, utc % SecondsPerDay;
    var h := r / 3600;
    assert ts.GetLocalTime(utc).hour == ((utc + 39600) % SecondsPerDay) / 3600;
    if r < 46800 {
      HourOfDay(q, r + 39600);
      assert utc + 39600 == q * SecondsPerDay + (r + 39600);
      assert (r + 39600) / 3600 == h + 11;
    } else {
      HourOfDay(q + 1, r - 46800);
      assert utc + 39600 == (q + 1) * SecondsPerDay + (r - 46800);
      assert (r - 46800) / 3600 == h - 13;
    }
  }

  /**
   * As written, the stamp carries a 'Z' but shows local time: read as UTC, it
   * names an instant 11 hours after the clock reading it was made from.
   */
  lemma LocalStampIsElevenHoursLate(ts: TimeSync, utc: nat)
    requires ts.GetLocalTime(utc).year < 10000
    ensures StampedInstant(ts.GetIsoTimestamp(utc)) == Some(utc + 39600)
  {
    IsoRoundTrip(ts.GetLocalTime(utc));
    LocaltimeRoundTrip(utc + ts.timezoneOffset);
  }

  /** The corrected stamp names the instant it was made from. */
  lemma UtcStampIsExact(ts: TimeSync, utc: nat)
    requires Localtime(utc).year < 10000
    ensures |ts.UtcIsoTimestamp(utc)| == 20
    ensures StampedInstant(ts.UtcIsoTimestamp(utc)) == Some(utc)
  {
    IsoRoundTrip(Localtime(utc));
    LocaltimeRoundTrip(utc);
  }

  /** A stamp made for a year below 10000 is 20 characters with its separators in place. */
  lemma IsoTimestampShape(ts: TimeSync, utc: nat)
    requires ts.GetLocalTime(utc).year < 10000
    ensures var s := ts.GetIsoTimestamp(utc);
      |s| == 20 && s[4] == '-' && s[7] == '-' && s[10] == 'T' && s[13] == ':' && s[16] == ':' && s[19] == 'Z'
  {
    IsoRoundTrip(ts.GetLocalTime(utc));
  }
}
