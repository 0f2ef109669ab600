/** The window clock: every job is tagged with the 2-hour bucket of "now",
    taken in the fixed +09:00 zone, written as "<start>..<end>" in ISO 8601
    with minute precision and an explicit offset. */
module Window {
  import opened Text
  import opened Wrappers

  /** An instant, in microseconds since 1970-01-01T00:00:00Z (Python datetimes
      resolve microseconds). */
  type Instant = int

  const SECOND: int := 1_000_000
  const MINUTE: int := 60 * SECOND
  const HOUR: int := 60 * MINUTE
  const DAY: int := 24 * HOUR
  /** KST = timezone(timedelta(hours=9)) */
  const OFFSET: int := 9 * HOUR
  /** Width of one window. */
  const WIDTH: int := 2 * HOUR

  /** Wall-clock fields of an instant seen in +09:00; `day` counts days since
      1970-01-01 in that zone. */
  datatype Local = Local(day: int, hour: nat, minute: nat, second: nat, micro: nat)

  function ToLocal(t: Instant): (lt: Local)
    ensures lt.hour < 24 && lt.minute < 60 && lt.second < 60 && lt.micro < SECOND
  {
    var l := t + OFFSET;
    Local(l / DAY, (l % DAY) / HOUR, (l % HOUR) / MINUTE, (l % MINUTE) / SECOND, l % SECOND)
  }

  /** The instant whose +09:00 wall clock shows the given fields. */
  function FromLocal(lt: Local): Instant {
    lt.day * DAY + lt.hour * HOUR + lt.minute * MINUTE + lt.second * SECOND + lt.micro - OFFSET
  }

  /** floor_to_2h: convert to +09:00, replace the hour by the even hour below it
      and clear minute, second and microsecond. */
  function FloorTo2h(t: Instant): Instant {
    var lt := ToLocal(t);
    FromLocal(Local(lt.day, EvenHour(lt.hour), 0, 0, 0))
  }

  /** The even hour at or below a wall clock hour: (hour // 2) * 2. */
  function EvenHour(hour: nat): (h: nat)
    requires hour < 24
    ensures h < 24 && h % 2 == 0 && h <= hour < h + 2 && h / 2 == hour / 2
  {
    (hour / 2) * 2
  }

  /** Reference definition: the start of the 2-hour bucket of t on the +09:00 axis. */
  function BucketStart(t: Instant): Instant {
    ((t + OFFSET) / WIDTH) * WIDTH - OFFSET
  }

  lemma {:induction false} MulAtLeast(w: int, n: int)
    requires w > 0 && n >= 1
    ensures w * n >= w
  {
    if n > 1 {
      MulAtLeast(w, n - 1);
      assert w * n == w * (n - 1) + w;
    }
  }

  /** Euclidean division is determined by quotient and remainder. */
  lemma DivUnique(a: int, w: int, q: int, s: int)
    requires w > 0 && a == w * q + s && 0 <= s < w
    ensures a / w == q && a % w == s
  {
    var q', s' := a / w, a % w;
    assert w * q' + s' == w * q + s;
    assert w * (q - q') == s' - s by {
      assert w * (q - q') == w * q - w * q';
    }
    if q > q' {
      MulAtLeast(w, q - q');
    } else if q < q' {
      MulAtLeast(w, q' - q);
    }
  }

  lemma DivOfSum(k: int, r: int, w: int)
    requires w > 0 && 0 <= r
    ensures (w * k + r) / w == k + r / w
  {
    var q := r / w;
    assert w * k + r == w * (k + q) + r % w by {
      assert r == w * q + r % w;
      assert w * (k + q) == w * k + w * q;
    }
    DivUnique(w * k + r, w, k + q, r % w);
  }

  lemma HalfHours(r: int)
    requires 0 <= r < DAY
    ensures (r / HOUR) / 2 == r / WIDTH
  {
    var q := r / WIDTH;
    var s := r % WIDTH;
    assert r == WIDTH * q + s && 0 <= s < WIDTH;
    assert r == HOUR * (2 * q) + s;
    DivOfSum(2 * q, s, HOUR);
    assert r / HOUR == 2 * q + s / HOUR;
    assert 0 <= s / HOUR <= 1;
  }

  /** Flooring the wall-clock hour to an even number is flooring the instant to
      its 2-hour bucket. */
  lemma FloorIsBucketStart(t: Instant)
    ensures FloorTo2h(t) == BucketStart(t)
  {
    var l := t + OFFSET;
    var d, r := l / DAY, l % DAY;
    assert l == DAY * d + r && 0 <= r < DAY;
    assert l == WIDTH * (12 * d) + r;
    DivOfSum(12 * d, r, WIDTH);
    HalfHours(r);
    assert l / WIDTH == 12 * d + (r / HOUR) / 2;
  }

  /** The floored start lies at or before t, and t lies before start + 2 hours. */
  lemma FloorBounds(t: Instant)
    ensures FloorTo2h(t) <= t < FloorTo2h(t) + WIDTH
  {
    FloorIsBucketStart(t);
  }

  /** Reading back the wall clock of FromLocal gives the fields it was built
      from, whenever they are in range. */
  lemma ToLocalFromLocal(lt: Local)
    requires lt.hour < 24 && lt.minute < 60 && lt.second < 60 && lt.micro < SECOND
    ensures ToLocal(FromLocal(lt)) == lt
  {
    var l := FromLocal(lt) + OFFSET;
    var rs := lt.second * SECOND + lt.micro;
    var rm := lt.minute * MINUTE + rs;
    var rh := lt.hour * HOUR + rm;
    assert 0 <= rs < MINUTE && 0 <= rm < HOUR && 0 <= rh < DAY;
    DivUnique(l, DAY, lt.day, rh);
    DivUnique(rh, HOUR, lt.hour, rm);
    DivUnique(l, HOUR, 24 * lt.day + lt.hour, rm);
    DivUnique(rm, MINUTE, lt.minute, rs);
    DivUnique(l, MINUTE, 60 * (24 * lt.day + lt.hour) + lt.minute, rs);
    DivUnique(rs, SECOND, lt.second, lt.micro);
    DivUnique(l, SECOND, 60 * (60 * (24 * lt.day + lt.hour) + lt.minute) + lt.second, lt.micro);
  }

  /** The wall clock of the window start: same local day, hour floored to
      an even number, everything below the hour zero. */
  lemma StartLocal(t: Instant)
    ensures ToLocal(FloorTo2h(t)) == Local(ToLocal(t).day, EvenHour(ToLocal(t).hour), 0, 0, 0)
  {
    var lt := ToLocal(t);
    ToLocalFromLocal(Local(lt.day, EvenHour(lt.hour), 0, 0, 0));
  }

  /** The wall clock of the window end, two hours after the start (rolling over
      to the next day after the 22:00 window). */
  lemma EndLocal(t: Instant)
    ensures var lt := ToLocal(t);
      var h := EvenHour(lt.hour) + 2;
      ToLocal(FloorTo2h(t) + WIDTH) == Local(lt.day + h / 24, h % 24, 0, 0, 0)
  {
    var lt := ToLocal(t);
    var h := EvenHour(lt.hour) + 2;
    assert FloorTo2h(t) + WIDTH == FromLocal(Local(lt.day + h / 24, h % 24, 0, 0, 0));
    ToLocalFromLocal(Local(lt.day + h / 24, h % 24, 0, 0, 0));
  }

  /** In +09:00 the start has an even hour and zero minute, second and
      microsecond. */
  lemma FloorFields(t: Instant)
    ensures var lt := ToLocal(FloorTo2h(t));
      lt.hour % 2 == 0 && lt.minute == 0 && lt.second == 0 && lt.micro == 0
  {
    StartLocal(t);
  }

  /** Flooring a window start returns that same start. */
  lemma FloorIdempotent(t: Instant)
    ensures FloorTo2h(FloorTo2h(t)) == FloorTo2h(t)
  {
    var s := FloorTo2h(t);
    FloorIsBucketStart(t);
    FloorIsBucketStart(s);
    var k := (t + OFFSET) / WIDTH;
    assert s + OFFSET == WIDTH * k + 0;
    DivOfSum(k, 0, WIDTH);
  }

  // ---- ISO 8601 text ----

  predicate IsLeapYear(y: int) {
    y % 4 == 0 && (y % 100 != 0 || y % 400 == 0)
  }

  function YearLength(y: int): nat {
    if IsLeapYear(y) then 366 else 365
  }

  function MonthLength(y: int, m: nat): nat
    requires 1 <= m <= 12
  {
    if m == 2 then (if IsLeapYear(y) then 29 else 28)
    else if m == 4 || m == 6 || m == 9 || m == 11 then 30
    else 31
  }

  /** Year and day-of-year (from 0) of a non-negative day count since Jan 1 of y. */
  function WalkForward(days: nat, y: int): (r: (int, nat))
    ensures r.1 < YearLength(r.0)
    decreases days
  {
    if days < YearLength(y) then (y, days) else WalkForward(days - YearLength(y), y + 1)
  }

  /** Year and day-of-year of Jan 1 of y minus `back` days (back >= 1). */
  function WalkBackward(back: nat, y: int): (r: (int, nat))
    requires back >= 1
    ensures r.1 < YearLength(r.0)
    decreases back
  {
    if back <= YearLength(y - 1) then (y - 1, YearLength(y - 1) - back)
    else WalkBackward(back - YearLength(y - 1), y - 1)
  }

  /** The number of days from the first of month m to the end of the year. */
  function RestOfYear(y: int, m: nat): nat
    requires 1 <= m <= 12
    decreases 12 - m
  {
    if m == 12 then 31 else MonthLength(y, m) + RestOfYear(y, m + 1)
  }

  lemma MonthsMakeYear(y: int)
    ensures RestOfYear(y, 1) == YearLength(y)
  {
  }

  /** Month and day-of-month (from 1) of a day-of-year (from 0), scanning from month m. */
  function MonthOf(y: int, doy: nat, m: nat): (r: (nat, nat))
    requires 1 <= m <= 12
    ensures 1 <= r.0 <= 12 && r.1 >= 1
    decreases 12 - m
  {
    if m == 12 || doy < MonthLength(y, m) then (m, doy + 1)
    else MonthOf(y, doy - MonthLength(y, m), m + 1)
  }

  /** The scan never goes back before month m, and a day inside the rest of the
      year gets a day-of-month inside its month. */
  lemma {:induction false} MonthOfRange(y: int, doy: nat, m: nat)
    requires 1 <= m <= 12
    ensures m <= MonthOf(y, doy, m).0
    ensures doy < RestOfYear(y, m) ==> MonthOf(y, doy, m).1 <= MonthLength(y, MonthOf(y, doy, m).0)
    decreases 12 - m
  {
    if !(m == 12 || doy < MonthLength(y, m)) {
      MonthOfRange(y, doy - MonthLength(y, m), m + 1);
    }
  }

  lemma {:induction false} WalkForwardAfter(days: nat, y: int)
    ensures WalkForward(days, y).0 >= y
    decreases days
  {
    if days >= YearLength(y) {
      WalkForwardAfter(days - YearLength(y), y + 1);
    }
  }

  lemma {:induction false} WalkBackwardBefore(back: nat, y: int)
    requires back >= 1
    ensures WalkBackward(back, y).0 < y
    decreases back
  {
    if back > YearLength(y - 1) {
      WalkBackwardBefore(back - YearLength(y - 1), y - 1);
    }
  }

  /** Proleptic Gregorian (year, month, day) of a day count since 1970-01-01. */
  function CivilFromDays(days: int): (int, nat, nat) {
    var (y, doy) := if days >= 0 then WalkForward(days, 1970) else WalkBackward(-days, 1970);
    var (m, d) := MonthOf(y, doy, 1);
    (y, m, d)
  }

  /** The month of a date lies in 1..12 and its day within the month. */
  lemma CivilFromDaysRange(days: int)
    ensures var c := CivilFromDays(days);
      1 <= c.1 <= 12 && 1 <= c.2 <= MonthLength(c.0, c.1)
  {
    var (y, doy) := if days >= 0 then WalkForward(days, 1970) else WalkBackward(-days, 1970);
    MonthsMakeYear(y);
    MonthOfRange(y, doy, 1);
  }

  lemma {:induction false} WalkForwardInjective(a: nat, b: nat, y: int)
    requires WalkForward(a, y) == WalkForward(b, y)
    ensures a == b
    decreases a
  {
    if a < YearLength(y) && b >= YearLength(y) {
      WalkForwardAfter(b - YearLength(y), y + 1);
    } else if a >= YearLength(y) && b < YearLength(y) {
      WalkForwardAfter(a - YearLength(y), y + 1);
    } else if a >= YearLength(y) && b >= YearLength(y) {
      WalkForwardInjective(a - YearLength(y), b - YearLength(y), y + 1);
    }
  }

  lemma {:induction false} WalkBackwardInjective(a: nat, b: nat, y: int)
    requires a >= 1 && b >= 1 && WalkBackward(a, y) == WalkBackward(b, y)
    ensures a == b
    decreases a
  {
    if a <= YearLength(y - 1) && b > YearLength(y - 1) {
      WalkBackwardBefore(b - YearLength(y - 1), y - 1);
    } else if a > YearLength(y - 1) && b <= YearLength(y - 1) {
      WalkBackwardBefore(a - YearLength(y - 1), y - 1);
    } else if a > YearLength(y - 1) && b > YearLength(y - 1) {
      WalkBackwardInjective(a - YearLength(y - 1), b - YearLength(y - 1), y - 1);
    }
  }

  lemma {:induction false} MonthOfInjective(y: int, a: nat, b: nat, m: nat)
    requires 1 <= m <= 12 && MonthOf(y, a, m) == MonthOf(y, b, m)
    ensures a == b
    decreases 12 - m
  {
    var len := MonthLength(y, m);
    var stopA, stopB := m == 12 || a < len, m == 12 || b < len;
    if stopA && !stopB {
      MonthOfRange(y, b - len, m + 1);
    } else if !stopA && stopB {
      MonthOfRange(y, a - len, m + 1);
    } else if !stopA && !stopB {
      MonthOfInjective(y, a - len, b - len, m + 1);
    }
  }

  /** Different day counts are different calendar dates. */
  lemma CivilFromDaysInjective(d1: int, d2: int)
    requires CivilFromDays(d1) == CivilFromDays(d2)
    ensures d1 == d2
  {
    var w1 := if d1 >= 0 then WalkForward(d1, 1970) else WalkBackward(-d1, 1970);
    var w2 := if d2 >= 0 then WalkForward(d2, 1970) else WalkBackward(-d2, 1970);
    if d1 >= 0 { WalkForwardAfter(d1, 1970); } else { WalkBackwardBefore(-d1, 1970); }
    if d2 >= 0 { WalkForwardAfter(d2, 1970); } else { WalkBackwardBefore(-d2, 1970); }
    assert w1.0 == w2.0;
    MonthOfInjective(w1.0, w1.1, w2.1, 1);
    if d1 >= 0 && d2 >= 0 {
      WalkForwardInjective(d1, d2, 1970);
    } else if d1 < 0 && d2 < 0 {
      WalkBackwardInjective(-d1, -d2, 1970);
    }
  }

  function DateText(day: int): string {
    var (y, m, d) := CivilFromDays(day);
    PadInt(y, 4) + "-" + PadInt(m, 2) + "-" + PadInt(d, 2)
  }

  /** The date text is the padded year followed by "-mm-dd". */
  lemma DateTextParts(day: int)
    ensures var c := CivilFromDays(day);
      var tail := "-" + Pad(c.1, 2) + "-" + Pad(c.2, 2);
      && DateText(day) == PadInt(c.0, 4) + tail && |tail| == 6
      && tail[1..3] == Pad(c.1, 2) && tail[4..6] == Pad(c.2, 2)
  {
    var c := CivilFromDays(day);
    CivilFromDaysRange(day);
    Pad2Digits(c.1);
    Pad2Digits(c.2);
  }

  predicate DateChars(s: string) {
    forall i :: 0 <= i < |s| ==> IsDigit(s[i]) || s[i] == '-'
  }

  lemma DateCharsConcat(p: string, q: string)
    requires DateChars(p) && DateChars(q)
    ensures DateChars(p + q)
  {
  }

  /** A date text holds only digits and '-'. */
  lemma DateTextChars(day: int)
    ensures DateChars(DateText(day))
  {
    var c := CivilFromDays(day);
    DateTextParts(day);
    PadIntChars(c.0, 4);
    Pad2Digits(c.1);
    Pad2Digits(c.2);
    var tail := "-" + Pad(c.1, 2) + "-" + Pad(c.2, 2);
    assert DateChars(tail);
    DateCharsConcat(PadInt(c.0, 4), tail);
  }

  /** Different days have different date texts. */
  lemma DateTextInjective(d1: int, d2: int)
    requires DateText(d1) == DateText(d2)
    ensures d1 == d2
  {
    var c1, c2 := CivilFromDays(d1), CivilFromDays(d2);
    DateTextParts(d1);
    DateTextParts(d2);
    CivilFromDaysRange(d1);
    CivilFromDaysRange(d2);
    var t := DateText(d1);
    var n := |t| - 6;
    var tail1 := "-" + Pad(c1.1, 2) + "-" + Pad(c1.2, 2);
    var tail2 := "-" + Pad(c2.1, 2) + "-" + Pad(c2.2, 2);
    assert PadInt(c1.0, 4) == t[..n] == PadInt(c2.0, 4);
    assert tail1 == t[n..] == tail2;
    PadIntInjective(c1.0, c2.0, 4);
    assert Pad(c1.1, 2) == tail1[1..3] == tail2[1..3] == Pad(c2.1, 2);
    assert Pad(c1.2, 2) == tail1[4..6] == tail2[4..6] == Pad(c2.2, 2);
    Pad2Injective(c1.1, c2.1);
    Pad2Injective(c1.2, c2.2);
    CivilFromDaysInjective(d1, d2);
  }

  /** datetime.isoformat(timespec="minutes") of an instant in +09:00. */
  function IsoMinutes(t: Instant): string {
    var lt := ToLocal(t);
    DateText(lt.day) + ClockText(lt.hour, lt.minute)
  }

  /** The wall clock part of an ISO timestamp: "T<hh>:<mm>+09:00". */
  function ClockText(h: nat, m: nat): string {
    "T" + Pad(h, 2) + ":" + Pad(m, 2) + "+09:00"
  }

  /** current_window_id: the id text, the window start and the window end.
      `now` is the optional argument; `clock` stands for datetime.now(). */
  function CurrentWindowId(now: Option<Instant>, clock: Instant): (w: (string, Instant, Instant))
    ensures w.1 == FloorTo2h(now.GetOr(clock)) && w.2 == w.1 + WIDTH
    ensures w.0 == WindowText(w.1)
  {
    var start := FloorTo2h(now.GetOr(clock));
    var end := start + WIDTH;
    (IsoMinutes(start) + ".." + IsoMinutes(end), start, end)
  }

  function WindowText(start: Instant): string {
    IsoMinutes(start) + ".." + IsoMinutes(start + WIDTH)
  }

  /** The two-digit rendering of a whole-hour wall clock time, with offset. */
  function HourText(h: nat): string
    requires h < 24
  {
    ClockText(h, 0)
  }

  /** "<start date>T<hh>:00+09:00..<end date>T<hh'>:00+09:00" for a window
      that starts at hour h. */
  function IdText(startDate: string, h: nat, endDate: string): string
    requires h < 24
  {
    startDate + HourText(h) + ".." + endDate + HourText((h + 2) % 24)
  }

  /** The id of the window holding the +09:00 wall clock time `day`, `hour`:
      start date and even hour, then end date and the hour two hours on. */
  function LocalWindowId(day: int, hour: nat): string
    requires hour < 24
  {
    var h := EvenHour(hour);
    IdText(DateText(day), h, DateText(day + (h + 2) / 24))
  }

  /** With the same start date, different start hours give different texts. */
  lemma IdTextHourInjective(date: string, h1: nat, h2: nat, end1: string, end2: string)
    requires h1 < 24 && h2 < 24 && IdText(date, h1, end1) == IdText(date, h2, end2)
    ensures h1 == h2
  {
    var a1, a2 := date + HourText(h1), date + HourText(h2);
    assert IdText(date, h1, end1)[..|a1|] == a1;
    assert IdText(date, h2, end2)[..|a2|] == a2;
    HourDigits(date, h1);
    HourDigits(date, h2);
    Pad2Injective(h1, h2);
  }

  lemma WholeHourIso(t: Instant, day: int, h: nat)
    requires h < 24 && ToLocal(t) == Local(day, h, 0, 0, 0)
    ensures IsoMinutes(t) == DateText(day) + HourText(h)
  {
  }

  /** The id of the window holding `now`, spelled out from its +09:00 wall
      clock: start date and even hour, then end date and hour two hours on. */
  lemma WindowIdText(now: Option<Instant>, clock: Instant)
    ensures var lt := ToLocal(now.GetOr(clock));
      CurrentWindowId(now, clock).0 == LocalWindowId(lt.day, lt.hour)
  {
    var t := now.GetOr(clock);
    var lt := ToLocal(t);
    var h := EvenHour(lt.hour);
    var start := FloorTo2h(t);
    StartLocal(t);
    EndLocal(t);
    var d2, h2 := lt.day + (h + 2) / 24, (h + 2) % 24;
    var a, b := DateText(lt.day) + HourText(h), DateText(d2) + HourText(h2);
    WholeHourIso(start, lt.day, h);
    WholeHourIso(start + WIDTH, d2, h2);
    assert CurrentWindowId(now, clock).0 == WindowText(start);
    WindowTextParts(start, a, b);
    IdTextParts(DateText(lt.day), h, DateText(d2));
  }

  lemma WindowTextParts(start: Instant, a: string, b: string)
    requires IsoMinutes(start) == a && IsoMinutes(start + WIDTH) == b
    ensures WindowText(start) == a + ".." + b
  {
  }

  /** The id text is the start timestamp, "..", and the end timestamp. */
  lemma IdTextParts(startDate: string, h: nat, endDate: string)
    requires h < 24
    ensures IdText(startDate, h, endDate) == (startDate + HourText(h)) + ".." + (endDate + HourText((h + 2) % 24))
  {
  }

  /** The returned window contains `now` and is exactly two hours wide. */
  lemma WindowContainsNow(now: Option<Instant>, clock: Instant)
    ensures var (_, start, end) := CurrentWindowId(now, clock);
      start <= now.GetOr(clock) < end && end - start == WIDTH
  {
    FloorBounds(now.GetOr(clock));
  }

  /** Two instants in the same 2-hour bucket get the same id. */
  lemma SameBucketSameId(t1: Instant, t2: Instant)
    requires (t1 + OFFSET) / WIDTH == (t2 + OFFSET) / WIDTH
    ensures CurrentWindowId(Some(t1), t1).0 == CurrentWindowId(Some(t2), t2).0
  {
    FloorIsBucketStart(t1);
    FloorIsBucketStart(t2);
    assert FloorTo2h(t1) == FloorTo2h(t2);
  }

  /** Two instants in different 2-hour buckets get different ids, also when
      the buckets lie on different +09:00 days (23:59 and 00:01). */
  lemma DifferentBucketDifferentId(t1: Instant, t2: Instant)
    requires (t1 + OFFSET) / WIDTH != (t2 + OFFSET) / WIDTH
    ensures CurrentWindowId(Some(t1), t1).0 != CurrentWindowId(Some(t2), t2).0
  {
    var lt1, lt2 := ToLocal(t1), ToLocal(t2);
    WindowIdText(Some(t1), t1);
    WindowIdText(Some(t2), t2);
    if (lt1.day, lt1.hour / 2) == (lt2.day, lt2.hour / 2) {
      SameLocalBucket(t1, t2);
    }
    LocalIdsDifferAnyDay(lt1.day, lt1.hour, lt2.day, lt2.hour);
  }

  /** The same local day and hour pair means the same bucket. */
  lemma SameLocalBucket(t1: Instant, t2: Instant)
    requires ToLocal(t1).day == ToLocal(t2).day && ToLocal(t1).hour / 2 == ToLocal(t2).hour / 2
    ensures (t1 + OFFSET) / WIDTH == (t2 + OFFSET) / WIDTH
  {
    assert EvenHour(ToLocal(t1).hour) == EvenHour(ToLocal(t2).hour);
    assert FloorTo2h(t1) == FloorTo2h(t2);
    FloorIsBucketStart(t1);
    FloorIsBucketStart(t2);
    var q1, q2 := (t1 + OFFSET) / WIDTH, (t2 + OFFSET) / WIDTH;
    var a := q1 * WIDTH;
    assert a == q2 * WIDTH;
    DivUnique(a, WIDTH, q1, 0);
    DivUnique(a, WIDTH, q2, 0);
  }

  /** Two instants get the same id exactly when they share a 2-hour bucket. */
  lemma SameIdIffSameBucket(t1: Instant, t2: Instant)
    ensures CurrentWindowId(Some(t1), t1).0 == CurrentWindowId(Some(t2), t2).0
            <==> (t1 + OFFSET) / WIDTH == (t2 + OFFSET) / WIDTH
  {
    if (t1 + OFFSET) / WIDTH == (t2 + OFFSET) / WIDTH {
      SameBucketSameId(t1, t2);
    } else {
      DifferentBucketDifferentId(t1, t2);
    }
  }

  /** 23:59 on one +09:00 day and 00:01 on the next fall in different windows. */
  lemma MidnightDiffers(day: int)
    ensures var t1 := FromLocal(Local(day, 23, 59, 0, 0));
      var t2 := FromLocal(Local(day + 1, 0, 1, 0, 0));
      CurrentWindowId(Some(t1), t1).0 != CurrentWindowId(Some(t2), t2).0
  {
    var t1 := FromLocal(Local(day, 23, 59, 0, 0));
    var t2 := FromLocal(Local(day + 1, 0, 1, 0, 0));
    ToLocalFromLocal(Local(day, 23, 59, 0, 0));
    ToLocalFromLocal(Local(day + 1, 0, 1, 0, 0));
    WindowIdText(Some(t1), t1);
    WindowIdText(Some(t2), t2);
    LocalIdsDifferAnyDay(day, 23, day + 1, 0);
  }

  /** On one day, hours in different 2-hour buckets have different ids. */
  lemma LocalIdsDiffer(day: int, a: nat, b: nat)
    requires a < 24 && b < 24 && a / 2 != b / 2
    ensures LocalWindowId(day, a) != LocalWindowId(day, b)
  {
    var date := DateText(day);
    LocalIdHour(day, a);
    LocalIdHour(day, b);
    if LocalWindowId(day, a) == LocalWindowId(day, b) {
      Pad2Injective(EvenHour(a), EvenHour(b));
    }
  }

  /** A local id starts with its start date, followed by 'T'. */
  lemma LocalIdDate(day: int, hour: nat)
    requires hour < 24
    ensures var id, date := LocalWindowId(day, hour), DateText(day);
      |id| > |date| && id[..|date|] == date && id[|date|] == 'T'
  {
    var h := EvenHour(hour);
    var date := DateText(day);
    var a := date + HourText(h);
    assert LocalWindowId(day, hour)[..|a|] == a;
    assert a[..|date|] == date && a[|date|] == 'T';
  }

  /** Equal local ids have the same start day: the start date is the text
      before the first 'T'. */
  lemma LocalIdSameDay(d1: int, h1: nat, d2: int, h2: nat)
    requires h1 < 24 && h2 < 24 && LocalWindowId(d1, h1) == LocalWindowId(d2, h2)
    ensures d1 == d2
  {
    LocalIdDate(d1, h1);
    LocalIdDate(d2, h2);
    DateTextChars(d1);
    DateTextChars(d2);
    DateBeforeT(LocalWindowId(d1, h1), DateText(d1), DateText(d2));
    DateTextInjective(d1, d2);
  }

  /** The text before the first 'T' is determined: two date prefixes of one
      text, each followed by 'T', are equal. */
  lemma DateBeforeT(id: string, a: string, b: string)
    requires DateChars(a) && DateChars(b)
    requires |id| > |a| && id[..|a|] == a && id[|a|] == 'T'
    requires |id| > |b| && id[..|b|] == b && id[|b|] == 'T'
    ensures a == b
  {
  }

  /** Wall clock times in different 2-hour buckets, on the same day or not,
      have different ids. */
  lemma LocalIdsDifferAnyDay(d1: int, h1: nat, d2: int, h2: nat)
    requires h1 < 24 && h2 < 24 && (d1, h1 / 2) != (d2, h2 / 2)
    ensures LocalWindowId(d1, h1) != LocalWindowId(d2, h2)
  {
    if d1 == d2 {
      LocalIdsDiffer(d1, h1, h2);
    } else if LocalWindowId(d1, h1) == LocalWindowId(d2, h2) {
      LocalIdSameDay(d1, h1, d2, h2);
    }
  }

  /** The two hour digits of a local id sit right after the start date and 'T'. */
  lemma LocalIdHour(day: int, hour: nat)
    requires hour < 24
    ensures |LocalWindowId(day, hour)| >= |DateText(day)| + 3
    ensures LocalWindowId(day, hour)[|DateText(day)| + 1..|DateText(day)| + 3] == Pad(EvenHour(hour), 2)
  {
    var h := EvenHour(hour);
    IdTextHourField(DateText(day), h, DateText(day + (h + 2) / 24));
  }

  lemma IdTextHourField(date: string, h: nat, endDate: string)
    requires h < 24
    ensures |IdText(date, h, endDate)| >= |date| + 3
    ensures IdText(date, h, endDate)[|date| + 1..|date| + 3] == Pad(h, 2)
  {
    var a := date + HourText(h);
    assert IdText(date, h, endDate)[..|a|] == a;
    HourDigits(date, h);
  }

  /** The hour field sits right after the date and the 'T'. */
  lemma HourDigits(p: string, h: nat)
    requires h < 24
    ensures (p + HourText(h))[|p| + 1..|p| + 3] == Pad(h, 2)
  {
    Pad2Digits(h);
  }

  /** 09:59 and 10:01 on the same +09:00 day fall in different windows
      (08:00-10:00 and 10:00-12:00); 09:15 and 09:59 share one. */
  lemma NineFiftyNineAndTenOne(day: int)
    ensures var t915 := FromLocal(Local(day, 9, 15, 0, 0));
      var t959 := FromLocal(Local(day, 9, 59, 0, 0));
      var t1001 := FromLocal(Local(day, 10, 1, 0, 0));
      CurrentWindowId(Some(t915), t915).0 == CurrentWindowId(Some(t959), t959).0
      && CurrentWindowId(Some(t959), t959).0 != CurrentWindowId(Some(t1001), t1001).0
  {
    var t915 := FromLocal(Local(day, 9, 15, 0, 0));
    var t959 := FromLocal(Local(day, 9, 59, 0, 0));
    var t1001 := FromLocal(Local(day, 10, 1, 0, 0));
    ToLocalFromLocal(Local(day, 9, 15, 0, 0));
    ToLocalFromLocal(Local(day, 9, 59, 0, 0));
    ToLocalFromLocal(Local(day, 10, 1, 0, 0));
    WindowIdText(Some(t915), t915);
    WindowIdText(Some(t959), t959);
    WindowIdText(Some(t1001), t1001);
    LocalIdsDiffer(day, 9, 10);
  }
}
