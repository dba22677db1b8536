/**
 * Trading hours (trading_framework/market.py): the broker publishes a
 * contract's trading and liquid hours as text such as
 * "20090507:0700-1830,1830-2330;20090508:CLOSED"; `parse_hours` turns that
 * text into a list of (start, end) intervals and the set of dates they touch,
 * and the queries select from that list.
 *
 * A time is a calendar date and a minute of the day, in the exchange's own
 * wall-clock time.  The loop's own clock, `market_now`, is a date and a
 * second of the day; it gives both the instant the loop compares and the
 * stamp its order references carry.
 */
module Market {
  import opened Basics
  import opened Text
  import Fixed

  // ---------------------------------------------------------------- time zones

  /** `tz_filter`: "CST" is not a zone name the zone database knows; it stands for Chicago. */
  function TzFilter(zoneId: string): string
  {
    if zoneId == "CST" then "America/Chicago" else zoneId
  }

  /** Only "CST" is renamed, to "America/Chicago"; every other name passes unchanged. */
  lemma TzFilterRenamesOnlyCST(zoneId: string)
    ensures TzFilter(zoneId) == zoneId <==> zoneId != "CST"
    ensures zoneId == "CST" ==> TzFilter(zoneId) == "America/Chicago"
  {
  }

  /** Filtering a filtered name changes nothing more. */
  lemma TzFilterIdempotent(zoneId: string)
    ensures TzFilter(TzFilter(zoneId)) == TzFilter(zoneId)
  {
  }

  // ------------------------------------------------------------------ calendar

  datatype Date = Date(year: int, month: int, day: int)

  /** An instant: a date and the minute of that day (0 .. 1439). */
  datatype Moment = Moment(date: Date, minute: int)

  predicate LeapYear(year: int)
  {
    year % 4 == 0 && (year % 100 != 0 || year % 400 == 0)
  }

  function DaysInMonth(year: int, month: int): (n: int)
    requires 1 <= month <= 12
    ensures 28 <= n <= 31
  {
    if month == 2 then (if LeapYear(year) then 29 else 28)
    else if month == 4 || month == 6 || month == 9 || month == 11 then 30
    else 31
  }

  /** A date of the proleptic Gregorian calendar, from year 1 on (Python's `date`). */
  predicate ValidDate(d: Date)
  {
    d.year >= 1 && 1 <= d.month <= 12 && 1 <= d.day <= DaysInMonth(d.year, d.month)
  }

  predicate ValidMoment(m: Moment)
  {
    ValidDate(m.date) && 0 <= m.minute < 24 * 60
  }

  /** Chronological order of dates. */
  predicate DateBefore(a: Date, b: Date)
  {
    a.year < b.year
    || (a.year == b.year && (a.month < b.month || (a.month == b.month && a.day < b.day)))
  }

  /** Chronological order of moments. */
  predicate MomentBefore(a: Moment, b: Moment)
  {
    DateBefore(a.date, b.date) || (a.date == b.date && a.minute < b.minute)
  }

  /** `a <= b` on moments. */
  predicate NotAfter(a: Moment, b: Moment)
  {
    !MomentBefore(b, a)
  }

  /** The day before `d` (`d - timedelta(days=1)`). */
  function PrevDay(d: Date): (p: Date)
    ensures DateBefore(p, d)
    ensures ValidDate(d) && d != Date(1, 1, 1) ==> ValidDate(p)
  {
    if d.day > 1 then Date(d.year, d.month, d.day - 1)
    else if 1 < d.month <= 12 then Date(d.year, d.month - 1, DaysInMonth(d.year, d.month - 1))
    else Date(d.year - 1, 12, 31)
  }

  /** No valid date lies strictly between the day before `d` and `d`. */
  lemma PrevDayIsAdjacent(d: Date, e: Date)
    requires ValidDate(d) && ValidDate(e)
    requires DateBefore(PrevDay(d), e)
    ensures !DateBefore(e, d)
  {
  }

  // ------------------------------------------------------------------ stamps

  /** `n` written with exactly `width` decimal digits, zero-padded (the low digits when `n` is wider). */
  function Pad(n: nat, width: nat): (s: string)
    ensures |s| == width && AllDigits(s)
    decreases width
  {
    if width == 0 then "" else Pad(n / 10, width - 1) + [DigitChar(n % 10)]
  }

  function Pow10(width: nat): (p: nat)
    ensures p >= 1
  {
    if width == 0 then 1 else 10 * Pow10(width - 1)
  }

  /** Parsing a padded number gives it back when it fits the width. */
  lemma {:induction false} ParsePad(n: nat, width: nat)
    requires n < Pow10(width)
    ensures ParseNat(Pad(n, width)) == n
    decreases width
  {
    if width > 0 {
      var s := Pad(n, width);
      assert s[..width - 1] == Pad(n / 10, width - 1);
      ParsePad(n / 10, width - 1);
    }
  }

  /** Every digit string is the padding of its own value. */
  lemma {:induction false} PadParse(s: string)
    requires AllDigits(s)
    ensures ParseNat(s) < Pow10(|s|)
    ensures Pad(ParseNat(s), |s|) == s
    decreases |s|
  {
    if |s| > 0 {
      var init := s[..|s| - 1];
      PadParse(init);
      var p, d := ParseNat(init), DigitValue(s[|s| - 1]);
      var bound := Pow10(|init|);
      assert p * 10 + d < 10 * bound by {
        assert (bound - 1 - p) * 10 >= 0;
      }
      DivModOf(p, d, 10);
      assert s == init + [s[|s| - 1]];
    }
  }

  /** Four digits of year, two of month, day, hour and minute: the text "%Y%m%d%H%M" reads. */
  function Format(m: Moment): string
    requires 0 <= m.date.year && 0 <= m.date.month && 0 <= m.date.day && 0 <= m.minute
  {
    Pad(m.date.year, 4) + Pad(m.date.month, 2) + Pad(m.date.day, 2)
    + Pad(m.minute / 60, 2) + Pad(m.minute % 60, 2)
  }

  /**
   * `pd.to_datetime(s, format="%Y%m%d%H%M")`: twelve digits naming a real
   * date, an hour below 24 and a minute below 60; anything else is rejected.
   */
  function Stamp(s: string): (r: Option<Moment>)
    ensures r.Some? ==> ValidMoment(r.value)
  {
    if |s| != 12 || !AllDigits(s) then None
    else MomentOf(ParseNat(s[..4]), ParseNat(s[4..6]), ParseNat(s[6..8]), ParseNat(s[8..10]), ParseNat(s[10..]))
  }

  /** The moment named by its fields, when they name one. */
  function MomentOf(year: int, month: int, day: int, hour: int, minute: int): (r: Option<Moment>)
    ensures r.Some? ==> ValidMoment(r.value)
  {
    if ValidDate(Date(year, month, day)) && 0 <= hour < 24 && 0 <= minute < 60
    then Some(Moment(Date(year, month, day), 60 * hour + minute))
    else None
  }

  /** The five fields of a twelve-digit stamp. */
  lemma StampFields(a: string, b: string, c: string, d: string, e: string)
    requires |a| == 4 && |b| == 2 && |c| == 2 && |d| == 2 && |e| == 2
    ensures var s := a + b + c + d + e;
      s[..4] == a && s[4..6] == b && s[6..8] == c && s[8..10] == d && s[10..] == e
  {
  }

  /** `pd.to_datetime(s, format="%Y%m%d:%H%M")`: the same with a colon between date and time. */
  function ColonStamp(s: string): Option<Moment>
  {
    if |s| == 13 && s[8] == ':' then Stamp(s[..8] + s[9..]) else None
  }

  /** Quotient and remainder of `q * base + r` when `r` is a digit of that base. */
  lemma DivModOf(q: int, r: int, base: int)
    requires 0 <= r < base
    ensures (q * base + r) / base == q && (q * base + r) % base == r
  {
    var t := q * base + r;
    var q', r' := t / base, t % base;
    assert q * base - q' * base == (q - q') * base;
    Fixed.SmallMultiple(q - q', base);
  }

  // ------------------------------------------------------------------- clock

  /** A reading of `market_now`: a date and the second of that day, in market time. */
  datatype Clock = Clock(date: Date, second: int)

  /** What a `datetime` can hold: a valid date up to year 9999 and a second of its day. */
  predicate ValidClock(c: Clock)
  {
    ValidDate(c.date) && c.date.year <= 9999 && 0 <= c.second < 24 * 3600
  }

  type WallClock = c: Clock | ValidClock(c) witness Clock(Date(1, 1, 1), 0)

  /** Days in the months of `year` before `month`. */
  function DaysBeforeMonth(year: int, month: int): (n: int)
    requires 1 <= month <= 12
    ensures 28 * (month - 1) <= n <= 31 * (month - 1)
  {
    if month == 1 then 0 else DaysBeforeMonth(year, month - 1) + DaysInMonth(year, month - 1)
  }

  /** Days in the years before `year`. */
  function DaysBeforeYear(year: int): int
  {
    var y := year - 1;
    365 * y + y / 4 - y / 100 + y / 400
  }

  /** `date.toordinal()`: 1 on 1 January of year 1. */
  function Ordinal(d: Date): int
    requires 1 <= d.month <= 12
  {
    DaysBeforeYear(d.year) + DaysBeforeMonth(d.year, d.month) + d.day
  }

  /** `y / k` steps up by one exactly when `k` divides `y`. */
  lemma QuotientStep(y: int, k: int)
    requires k > 0
    ensures y / k - (y - 1) / k == if y % k == 0 then 1 else 0
  {
    DivModOf(y / k, y % k, k);
    if y % k == 0 {
      DivModOf(y / k - 1, k - 1, k);
      assert (y / k - 1) * k + (k - 1) == y - 1;
    } else {
      DivModOf(y / k, y % k - 1, k);
      assert (y / k) * k + (y % k - 1) == y - 1;
    }
  }

  /** A year has 366 days when it is a leap year and 365 otherwise. */
  lemma YearLength(year: int)
    ensures DaysBeforeYear(year + 1) - DaysBeforeYear(year) == if LeapYear(year) then 366 else 365
  {
    QuotientStep(year, 4);
    QuotientStep(year, 100);
    QuotientStep(year, 400);
    DividesChain(year);
    var y := year - 1;
    assert DaysBeforeYear(year + 1) - DaysBeforeYear(year)
        == 365 + (year / 4 - y / 4) - (year / 100 - y / 100) + (year / 400 - y / 400);
  }

  /** Every fourth century year is a century year, and every century year is a fourth year. */
  lemma DividesChain(y: int)
    ensures y % 400 == 0 ==> y % 100 == 0
    ensures y % 100 == 0 ==> y % 4 == 0
  {
    if y % 400 == 0 {
      assert y == (y / 400 * 4) * 100;
      DivModOf(y / 400 * 4, 0, 100);
    }
    if y % 100 == 0 {
      assert y == (y / 100 * 25) * 4;
      DivModOf(y / 100 * 25, 0, 4);
    }
  }

  /** The eleven months before December hold 334 days, 335 in a leap year. */
  lemma MonthsOfYear(year: int)
    ensures DaysBeforeMonth(year, 12) == if LeapYear(year) then 335 else 334
  {
    var feb := if LeapYear(year) then 29 else 28;
    assert DaysBeforeMonth(year, 3) == 31 + feb;
    assert DaysBeforeMonth(year, 4) == 62 + feb;
    assert DaysBeforeMonth(year, 5) == 92 + feb;
    assert DaysBeforeMonth(year, 6) == 123 + feb;
    assert DaysBeforeMonth(year, 7) == 153 + feb;
    assert DaysBeforeMonth(year, 8) == 184 + feb;
    assert DaysBeforeMonth(year, 9) == 215 + feb;
    assert DaysBeforeMonth(year, 10) == 245 + feb;
    assert DaysBeforeMonth(year, 11) == 276 + feb;
  }

  /** The ordinal counts days: the day before `d` has the ordinal one less. */
  lemma OrdinalStep(d: Date)
    requires ValidDate(d) && d != Date(1, 1, 1)
    ensures Ordinal(PrevDay(d)) == Ordinal(d) - 1
  {
    if d.day == 1 && d.month == 1 {
      YearLength(d.year - 1);
      MonthsOfYear(d.year - 1);
      assert PrevDay(d) == Date(d.year - 1, 12, 31);
    } else if d.day == 1 {
      assert PrevDay(d) == Date(d.year, d.month - 1, DaysInMonth(d.year, d.month - 1));
    }
  }

  /** `market_now` as an instant in seconds, counted from the start of the ordinal day 0. */
  function InstantOf(c: Clock): int
    requires 1 <= c.date.month <= 12
  {
    Ordinal(c.date) * (24 * 3600) + c.second
  }

  /** The instant falls on its clock's day, at its clock's second. */
  lemma InstantDay(c: WallClock)
    ensures InstantOf(c) / (24 * 3600) == Ordinal(c.date)
    ensures InstantOf(c) % (24 * 3600) == c.second
  {
    DivModOf(Ordinal(c.date), c.second, 24 * 3600);
  }

  /** `"%Y%m%d"` of a date. */
  function DateDigits(d: Date): (r: string)
    requires 0 <= d.year && 0 <= d.month && 0 <= d.day
    ensures |r| == 8
  {
    Pad(d.year, 4) + Pad(d.month, 2) + Pad(d.day, 2)
  }

  /** `"%H%M%S"` of a second of the day. */
  function TimeDigits(second: nat): (r: string)
    ensures |r| == 6
  {
    Pad(second / 3600, 2) + Pad(second % 3600 / 60, 2) + Pad(second % 3600 % 60, 2)
  }

  /** `now.strftime("%Y%m%d_%H%M%S")`. */
  function ReferenceStamp(c: WallClock): (r: string)
    ensures |r| == 15 && r[8] == '_'
  {
    DateDigits(c.date) + "_" + TimeDigits(c.second)
  }

  lemma DateDigitsRead(d: Date)
    requires ValidDate(d) && d.year <= 9999
    ensures var r := DateDigits(d);
      ParseNat(r[..4]) == d.year && ParseNat(r[4..6]) == d.month && ParseNat(r[6..8]) == d.day
  {
    var r := DateDigits(d);
    assert Pow10(4) == 10000 && Pow10(2) == 100;
    assert r[..4] == Pad(d.year, 4) && r[4..6] == Pad(d.month, 2) && r[6..8] == Pad(d.day, 2);
    ParsePad(d.year, 4);
    ParsePad(d.month, 2);
    ParsePad(d.day, 2);
  }

  lemma TimeDigitsRead(second: nat)
    requires second < 24 * 3600
    ensures var r := TimeDigits(second);
      ParseNat(r[..2]) * 3600 + ParseNat(r[2..4]) * 60 + ParseNat(r[4..6]) == second
  {
    var r := TimeDigits(second);
    var rest := second % 3600;
    var h, m, s := second / 3600, rest / 60, rest % 60;
    assert second == h * 3600 + rest && rest == m * 60 + s;
    assert h < 100 && m < 100 && s < 100 && Pow10(2) == 100;
    assert r[..2] == Pad(h, 2) && r[2..4] == Pad(m, 2) && r[4..6] == Pad(s, 2);
    ParsePad(h, 2);
    ParsePad(m, 2);
    ParsePad(s, 2);
  }

  /** The stamp's fields read back as the clock's date and second. */
  lemma ReferenceStampReads(c: WallClock)
    ensures var r := ReferenceStamp(c);
      && ParseNat(r[..4]) == c.date.year && ParseNat(r[4..6]) == c.date.month && ParseNat(r[6..8]) == c.date.day
      && ParseNat(r[9..11]) * 3600 + ParseNat(r[11..13]) * 60 + ParseNat(r[13..15]) == c.second
  {
    var r, date, time := ReferenceStamp(c), DateDigits(c.date), TimeDigits(c.second);
    assert r[..4] == date[..4] && r[4..6] == date[4..6] && r[6..8] == date[6..8];
    assert r[9..11] == time[..2] && r[11..13] == time[2..4] && r[13..15] == time[4..6];
    DateDigitsRead(c.date);
    TimeDigitsRead(c.second);
  }

  /** Two readings with the same stamp are the same reading: a reference names its second. */
  lemma ReferenceStampInjective(a: WallClock, b: WallClock)
    requires ReferenceStamp(a) == ReferenceStamp(b)
    ensures a == b
  {
    ReferenceStampReads(a);
    ReferenceStampReads(b);
  }

  /** Hours and minutes of a minute of the day. */
  lemma HourMinute(hour: int, minute: int)
    requires 0 <= minute < 60
    ensures (60 * hour + minute) / 60 == hour && (60 * hour + minute) % 60 == minute
  {
    DivModOf(hour, minute, 60);
    assert 60 * hour == hour * 60;
  }

  /** The five fields of a twelve-digit rendering read back as the numbers padded into them. */
  lemma ReadFields(y: nat, mo: nat, d: nat, h: nat, mi: nat)
    requires y < 10000 && mo < 100 && d < 100 && h < 100 && mi < 100
    ensures var s := Pad(y, 4) + Pad(mo, 2) + Pad(d, 2) + Pad(h, 2) + Pad(mi, 2);
      ParseNat(s[..4]) == y && ParseNat(s[4..6]) == mo && ParseNat(s[6..8]) == d
      && ParseNat(s[8..10]) == h && ParseNat(s[10..]) == mi
  {
    StampFields(Pad(y, 4), Pad(mo, 2), Pad(d, 2), Pad(h, 2), Pad(mi, 2));
    ParsePad(y, 4);
    ParsePad(mo, 2);
    ParsePad(d, 2);
    ParsePad(h, 2);
    ParsePad(mi, 2);
  }

  /** A valid moment is the one its fields name. */
  lemma MomentOfParts(m: Moment)
    requires ValidMoment(m)
    ensures MomentOf(m.date.year, m.date.month, m.date.day, m.minute / 60, m.minute % 60) == Some(m)
  {
    HourMinute(m.minute / 60, m.minute % 60);
  }

  /** Every valid moment of the first ten thousand years is read back from its rendering. */
  lemma StampFormat(m: Moment)
    requires ValidMoment(m) && m.date.year < 10000
    ensures Stamp(Format(m)) == Some(m)
  {
    var y, mo, d := m.date.year, m.date.month, m.date.day;
    var h, mi := m.minute / 60, m.minute % 60;
    ReadFields(y, mo, d, h, mi);
    MomentOfParts(m);
  }

  /** Each field of a twelve-digit text is the padding of its value. */
  lemma DigitFields(s: string)
    requires |s| == 12 && AllDigits(s)
    ensures Pad(ParseNat(s[..4]), 4) == s[..4] && Pad(ParseNat(s[4..6]), 2) == s[4..6]
    ensures Pad(ParseNat(s[6..8]), 2) == s[6..8] && Pad(ParseNat(s[8..10]), 2) == s[8..10]
    ensures Pad(ParseNat(s[10..]), 2) == s[10..]
    ensures s == s[..4] + s[4..6] + s[6..8] + s[8..10] + s[10..]
  {
    PadParse(s[..4]);
    PadParse(s[4..6]);
    PadParse(s[6..8]);
    PadParse(s[8..10]);
    PadParse(s[10..]);
  }

  /** A text that is read as a moment is exactly that moment's rendering. */
  lemma FormatStamp(s: string)
    requires Stamp(s).Some?
    ensures Format(Stamp(s).value) == s
  {
    var m := Stamp(s).value;
    var hour, minute := ParseNat(s[8..10]), ParseNat(s[10..]);
    DigitFields(s);
    HourMinute(hour, minute);
    assert m.minute / 60 == hour && m.minute % 60 == minute;
  }

  // ------------------------------------------------------------ hours parsing

  /** A trading session: from `start` to `end`, both included. */
  datatype Interval = Interval(start: Moment, end: Moment)

  /** What `parse_hours` returns: the dates the sessions touch, and the sessions in text order. */
  datatype Schedule = Schedule(days: set<Date>, intervals: seq<Interval>)

  /** The ways `parse_hours` fails (each is a `ValueError` in Python). */
  datatype HoursError =
    | MalformedInterval(text: string)   // not exactly one "-"
    | MalformedTime(text: string)       // an end that is not a valid date and time

  /**
   * How the intervals of a `;`-field are written: each end carries its own
   * date ("20180506:0005-20180506:2358"), or the field's date comes first and
   * the ends are times of day ("20090507:0700-1830").
   */
  datatype Form = Stamped | OnDay(day: string)

  /** Read one "start-end" text; a start later than the end is moved back one day. */
  function ParseInterval(text: string, form: Form): Result<Interval, HoursError>
  {
    var ends := Split(text, '-');
    if |ends| != 2 then Err(MalformedInterval(text))
    else
      var start := if form.Stamped? then ColonStamp(ends[0]) else Stamp(form.day + ends[0]);
      var end := if form.Stamped? then ColonStamp(ends[1]) else Stamp(form.day + ends[1]);
      if start.None? || end.None? then Err(MalformedTime(text))
      else if MomentBefore(end.value, start.value) then
        Ok(Interval(Moment(PrevDay(start.value.date), start.value.minute), end.value))
      else Ok(Interval(start.value, end.value))
  }

  /** The intervals read so far, followed by one more, or the first failure. */
  function Append(sofar: Result<seq<Interval>, HoursError>, next: Result<Interval, HoursError>): Result<seq<Interval>, HoursError>
  {
    match sofar
    case Err(e) => Err(e)
    case Ok(prev) =>
      match next
      case Err(e) => Err(e)
      case Ok(iv) => Ok(prev + [iv])
  }

  /** The intervals of `texts`, in order, or the first failure. */
  function IntervalsOf(texts: seq<string>, form: Form): Result<seq<Interval>, HoursError>
    decreases |texts|
  {
    if |texts| == 0 then Ok([])
    else Append(IntervalsOf(texts[..|texts| - 1], form), ParseInterval(texts[|texts| - 1], form))
  }

  /** Reading one more text extends the prefix read so far. */
  lemma IntervalsOfStep(texts: seq<string>, j: nat, form: Form)
    requires j < |texts|
    ensures IntervalsOf(texts[..j + 1], form) == Append(IntervalsOf(texts[..j], form), ParseInterval(texts[j], form))
  {
    assert texts[..j + 1][..j] == texts[..j];
  }

  /** A `;`-field that mentions CLOSED holds no session. */
  predicate IsClosed(field: string)
  {
    Contains(field, "CLOSED")
  }

  predicate IsTrading(field: string)
  {
    !IsClosed(field)
  }

  /** The intervals of one `;`-field. */
  function FieldIntervals(field: string): Result<seq<Interval>, HoursError>
  {
    if IsClosed(field) then Ok([])
    else
      var parts := Split(field, ':');
      if |parts| - 1 != 1 then IntervalsOf(Split(field, ','), Stamped)
      else IntervalsOf(Split(parts[1], ','), OnDay(parts[0]))
  }

  /** The intervals gathered so far, followed by those of one more field. */
  function Then(sofar: Result<seq<Interval>, HoursError>, field: string): Result<seq<Interval>, HoursError>
  {
    match sofar
    case Err(e) => Err(e)
    case Ok(prev) =>
      match FieldIntervals(field)
      case Err(e) => Err(e)
      case Ok(more) => Ok(prev + more)
  }

  /** The intervals of all the fields, in order, or the first failure. */
  function AllIntervals(fields: seq<string>): Result<seq<Interval>, HoursError>
    decreases |fields|
  {
    if |fields| == 0 then Ok([])
    else Then(AllIntervals(fields[..|fields| - 1]), fields[|fields| - 1])
  }

  /** The start and end dates of the intervals. */
  function DaysOf(intervals: seq<Interval>): set<Date>
    decreases |intervals|
  {
    if |intervals| == 0 then {}
    else
      var last := intervals[|intervals| - 1];
      DaysOf(intervals[..|intervals| - 1]) + {last.start.date, last.end.date}
  }

  /** What `parse_hours(hours, ...)` returns, or the error it raises. */
  function ParsedHours(hours: string): Result<Schedule, HoursError>
  {
    match AllIntervals(Split(hours, ';'))
    case Err(e) => Err(e)
    case Ok(intervals) => Ok(Schedule(DaysOf(intervals), intervals))
  }

  /** Once one interval text fails, the whole list fails with that error. */
  lemma {:induction false} IntervalsOfFailsFrom(texts: seq<string>, n: nat, form: Form)
    requires n <= |texts| && IntervalsOf(texts[..n], form).Err?
    ensures IntervalsOf(texts, form) == IntervalsOf(texts[..n], form)
    decreases |texts| - n
  {
    if n < |texts| {
      assert texts[..n + 1][..n] == texts[..n];
      IntervalsOfFailsFrom(texts, n + 1, form);
    } else {
      assert texts[..n] == texts;
    }
  }

  /** Once one field fails, the whole text fails with that error. */
  lemma {:induction false} AllIntervalsFailsFrom(fields: seq<string>, n: nat)
    requires n <= |fields| && AllIntervals(fields[..n]).Err?
    ensures AllIntervals(fields) == AllIntervals(fields[..n])
    decreases |fields| - n
  {
    if n < |fields| {
      assert fields[..n + 1][..n] == fields[..n];
      AllIntervalsFailsFrom(fields, n + 1);
    } else {
      assert fields[..n] == fields;
    }
  }

  /** The inner loop of `parse_hours`: the intervals of the `,`-separated texts, in order. */
  method ParseIntervals(texts: seq<string>, form: Form) returns (r: Result<seq<Interval>, HoursError>)
    ensures r == IntervalsOf(texts, form)
  {
    var found: seq<Interval> := [];
    var j := 0;
    while j < |texts|
      invariant 0 <= j <= |texts|
      invariant IntervalsOf(texts[..j], form) == Ok(found)
    {
      IntervalsOfStep(texts, j, form);
      var parsed := ParseInterval(texts[j], form);
      if parsed.Err? {
        IntervalsOfFailsFrom(texts, j + 1, form);
        return Err(parsed.error);
      }
      found := found + [parsed.value];
      j := j + 1;
    }
    assert texts[..j] == texts;
    return Ok(found);
  }

  /** One pass of the outer loop of `parse_hours`: the intervals of one `;`-field. */
  method ParseField(field: string) returns (r: Result<seq<Interval>, HoursError>)
    ensures r == FieldIntervals(field)
  {
    if IsClosed(field) {
      return Ok([]);
    }
    var parts := Split(field, ':');
    if |parts| - 1 != 1 {
      r := ParseIntervals(Split(field, ','), Stamped);
    } else {
      r := ParseIntervals(Split(parts[1], ','), OnDay(parts[0]));
    }
  }

  /** The last loop of `parse_hours`: the start and end date of every interval, as a set. */
  method CollectDays(intervals: seq<Interval>) returns (daySet: set<Date>)
    ensures daySet == DaysOf(intervals)
  {
    var days: seq<Date> := [];
    var k := 0;
    while k < |intervals|
      invariant 0 <= k <= |intervals|
      invariant forall d :: d in days <==> d in DaysOf(intervals[..k])
    {
      assert intervals[..k + 1][..k] == intervals[..k];
      days := days + [intervals[k].start.date, intervals[k].end.date];
      k := k + 1;
    }
    assert intervals[..k] == intervals;
    daySet := set d | d in days;
  }

  /** `parse_hours`: every `;`-field that is not CLOSED, every `,`-interval of it, in order. */
  method ParseHours(hours: string) returns (r: Result<Schedule, HoursError>)
    ensures r == ParsedHours(hours)
  {
    var fields := Split(hours, ';');
    var intervals: seq<Interval> := [];
    var i := 0;
    while i < |fields|
      invariant 0 <= i <= |fields|
      invariant AllIntervals(fields[..i]) == Ok(intervals)
    {
      assert fields[..i + 1][..i] == fields[..i];
      var more := ParseField(fields[i]);
      if more.Err? {
        AllIntervalsFailsFrom(fields, i + 1);
        return Err(more.error);
      }
      intervals := intervals + more.value;
      i := i + 1;
    }
    assert fields[..i] == fields;
    var days := CollectDays(intervals);
    return Ok(Schedule(days, intervals));
  }

  // --------------------------------------------------------- parsing properties

  /** A CLOSED field adds nothing, and cannot fail. */
  lemma ThenClosed(sofar: Result<seq<Interval>, HoursError>, field: string)
    requires IsClosed(field)
    ensures Then(sofar, field) == sofar
  {
    if sofar.Ok? {
      assert sofar.value + [] == sofar.value;
    }
  }

  /** CLOSED fields contribute nothing: parsing ignores them entirely, errors included. */
  lemma {:induction false} ClosedFieldsContributeNothing(fields: seq<string>)
    ensures AllIntervals(fields) == AllIntervals(Filter(fields, IsTrading))
    decreases |fields|
  {
    if |fields| > 0 {
      var init, last := fields[..|fields| - 1], fields[|fields| - 1];
      ClosedFieldsContributeNothing(init);
      assert fields == init + [last];
      FilterSnoc(init, last, IsTrading);
      var kept := Filter(init, IsTrading);
      var sofar := AllIntervals(init);
      assert AllIntervals(fields) == Then(sofar, last);
      if IsTrading(last) {
        var longer := kept + [last];
        assert longer[..|longer| - 1] == kept && longer[|longer| - 1] == last;
        assert AllIntervals(longer) == Then(AllIntervals(kept), last);
      } else {
        ThenClosed(sofar, last);
      }
    }
  }

  /** The day set is exactly the dates on which some interval starts or ends. */
  lemma {:induction false} DaysOfMembers(intervals: seq<Interval>, d: Date)
    ensures d in DaysOf(intervals)
      <==> exists k | 0 <= k < |intervals| :: intervals[k].start.date == d || intervals[k].end.date == d
    decreases |intervals|
  {
    if |intervals| > 0 {
      var init := intervals[..|intervals| - 1];
      DaysOfMembers(init, d);
      if d in DaysOf(init) {
        var k :| 0 <= k < |init| && (init[k].start.date == d || init[k].end.date == d);
        assert intervals[k] == init[k];
      }
      if exists k | 0 <= k < |intervals| :: intervals[k].start.date == d || intervals[k].end.date == d {
        var k :| 0 <= k < |intervals| && (intervals[k].start.date == d || intervals[k].end.date == d);
        if k < |init| {
          assert init[k] == intervals[k];
        }
      }
    }
  }

  /**
   * An interval of the day form, with an eight-digit day, starts no later
   * than it ends, ends on that day, and starts on it or on the day before.
   */
  lemma DayIntervalOrdered(day: string, text: string)
    requires |day| == 8 && ParseInterval(text, OnDay(day)).Ok?
    ensures var iv := ParseInterval(text, OnDay(day)).value;
      NotAfter(iv.start, iv.end)
      && (iv.start.date == iv.end.date || iv.start.date == PrevDay(iv.end.date))
  {
    var ends := Split(text, '-');
    var a, b := day + ends[0], day + ends[1];
    assert a[..4] == day[..4] == b[..4];
    assert a[4..6] == day[4..6] == b[4..6];
    assert a[6..8] == day[6..8] == b[6..8];
  }

  /** Every interval of a day-form list starts no later than it ends. */
  lemma {:induction false} DayIntervalsOrdered(texts: seq<string>, day: string)
    requires |day| == 8 && IntervalsOf(texts, OnDay(day)).Ok?
    ensures var ivs := IntervalsOf(texts, OnDay(day)).value;
      forall k | 0 <= k < |ivs| :: NotAfter(ivs[k].start, ivs[k].end)
    decreases |texts|
  {
    if |texts| > 0 {
      DayIntervalsOrdered(texts[..|texts| - 1], day);
      DayIntervalOrdered(day, texts[|texts| - 1]);
    }
  }

  /** A field written in the day form yields only intervals that start no later than they end. */
  lemma DayFieldOrdered(field: string)
    requires |Split(field, ':')| == 2 && |Split(field, ':')[0]| == 8
    requires FieldIntervals(field).Ok?
    ensures var ivs := FieldIntervals(field).value;
      forall k | 0 <= k < |ivs| :: NotAfter(ivs[k].start, ivs[k].end)
  {
    if !IsClosed(field) {
      var parts := Split(field, ':');
      DayIntervalsOrdered(Split(parts[1], ','), parts[0]);
    }
  }

  // -------------------------------------------------------------------- queries

  /** The part of the broker's contract details the queries read. */
  datatype ContractHours = ContractHours(timeZoneId: string, tradingHours: string, liquidHours: string)

  /** The extended (trading) hours or the regular (liquid) hours. */
  function HoursText(details: ContractHours, extended: bool): string
  {
    if extended then details.tradingHours else details.liquidHours
  }

  function ScheduleOf(details: ContractHours, extended: bool): Result<Schedule, HoursError>
  {
    ParsedHours(HoursText(details, extended))
  }

  /** `start <= dt <= end`. */
  predicate Covers(iv: Interval, dt: Moment)
  {
    NotAfter(iv.start, dt) && NotAfter(dt, iv.end)
  }

  /** The loop of `market_open_at_time`: some session covers `dt`. */
  method AnyCovers(intervals: seq<Interval>, dt: Moment) returns (open: bool)
    ensures open <==> exists k | 0 <= k < |intervals| :: Covers(intervals[k], dt)
  {
    for k := 0 to |intervals|
      invariant forall m | 0 <= m < k :: !Covers(intervals[m], dt)
    {
      if Covers(intervals[k], dt) {
        return true;
      }
    }
    return false;
  }

  /** `market_open_at_time`: the contract's hours parse, and some session covers `dt`. */
  method MarketOpenAtTime(dt: Moment, details: ContractHours, extended: bool) returns (r: Result<bool, HoursError>)
    ensures r.Ok? <==> ScheduleOf(details, extended).Ok?
    ensures r.Err? ==> r == Err(ScheduleOf(details, extended).error)
    ensures r.Ok? ==> var ivs := ScheduleOf(details, extended).value.intervals;
      (r.value <==> exists k | 0 <= k < |ivs| :: Covers(ivs[k], dt))
  {
    var parsed := ParseHours(HoursText(details, extended));
    if parsed.Err? {
      return Err(parsed.error);
    }
    var open := AnyCovers(parsed.value.intervals, dt);
    return Ok(open);
  }

  /** The loop of `market_open_at_date`: some session starts or ends on `date`. */
  method AnyOnDate(intervals: seq<Interval>, date: Date) returns (open: bool)
    ensures open <==> exists k | 0 <= k < |intervals| :: intervals[k].start.date == date || intervals[k].end.date == date
  {
    for k := 0 to |intervals|
      invariant forall m | 0 <= m < k :: intervals[m].start.date != date && intervals[m].end.date != date
    {
      if intervals[k].start.date == date || intervals[k].end.date == date {
        return true;
      }
    }
    return false;
  }

  /** `market_open_at_date`: the contract's hours parse, and some session starts or ends on `date`. */
  method MarketOpenAtDate(date: Date, details: ContractHours, extended: bool) returns (r: Result<bool, HoursError>)
    ensures r.Ok? <==> ScheduleOf(details, extended).Ok?
    ensures r.Err? ==> r == Err(ScheduleOf(details, extended).error)
    ensures r.Ok? ==> var ivs := ScheduleOf(details, extended).value.intervals;
      (r.value <==> exists k | 0 <= k < |ivs| :: ivs[k].start.date == date || ivs[k].end.date == date)
  {
    var parsed := ParseHours(HoursText(details, extended));
    if parsed.Err? {
      return Err(parsed.error);
    }
    var open := AnyOnDate(parsed.value.intervals, date);
    return Ok(open);
  }

  /** What `market_open_at_date` answers about a parsed list: some session starts or ends on `date`. */
  predicate TouchesDate(intervals: seq<Interval>, date: Date)
  {
    exists k | 0 <= k < |intervals| :: intervals[k].start.date == date || intervals[k].end.date == date
  }

  /** The market is open on a date exactly when that date is in the parsed day set. */
  lemma OpenAtDateIsScheduleDay(schedule: Schedule, hours: string, date: Date)
    requires ParsedHours(hours) == Ok(schedule)
    ensures date in schedule.days
      <==> exists k | 0 <= k < |schedule.intervals| ::
             schedule.intervals[k].start.date == date || schedule.intervals[k].end.date == date
  {
    DaysOfMembers(schedule.intervals, date);
  }

  /** The end of the last session, in list order, that ends on `date`. */
  function LastEnd(intervals: seq<Interval>, date: Date): (r: Option<Moment>)
    ensures r.None? <==> forall k | 0 <= k < |intervals| :: intervals[k].end.date != date
    ensures r.Some? ==> exists k | 0 <= k < |intervals| ::
      intervals[k].end.date == date && r.value == intervals[k].end
      && forall m | k < m < |intervals| :: intervals[m].end.date != date
    decreases |intervals|
  {
    if |intervals| == 0 then None
    else
      var n := |intervals| - 1;
      if intervals[n].end.date == date then Some(intervals[n].end)
      else
        var r := LastEnd(intervals[..n], date);
        assert forall k | 0 <= k < n :: intervals[..n][k] == intervals[k];
        r
  }

  /** The start of the first session, in list order, that starts on `date`. */
  function FirstStart(intervals: seq<Interval>, date: Date): (r: Option<Moment>)
    ensures r.None? <==> forall k | 0 <= k < |intervals| :: intervals[k].start.date != date
    ensures r.Some? ==> exists k | 0 <= k < |intervals| ::
      intervals[k].start.date == date && r.value == intervals[k].start
      && forall m | 0 <= m < k :: intervals[m].start.date != date
    decreases |intervals|
  {
    if |intervals| == 0 then None
    else if intervals[0].start.date == date then Some(intervals[0].start)
    else
      var r := FirstStart(intervals[1..], date);
      assert forall k | 1 <= k < |intervals| :: intervals[1..][k - 1] == intervals[k];
      r
  }

  /** The loop of `market_close_time`: the end of the last session that ends on `date`. */
  method LastCloseOn(intervals: seq<Interval>, date: Date) returns (closeTime: Option<Moment>)
    ensures closeTime == LastEnd(intervals, date)
    ensures closeTime.None? <==> forall k | 0 <= k < |intervals| :: intervals[k].end.date != date
    ensures closeTime.Some? ==> exists k | 0 <= k < |intervals| ::
      intervals[k].end.date == date && closeTime.value == intervals[k].end
      && forall m | k < m < |intervals| :: intervals[m].end.date != date
  {
    closeTime := None;
    for k := 0 to |intervals|
      invariant closeTime == LastEnd(intervals[..k], date)
    {
      assert intervals[..k + 1][..k] == intervals[..k];
      if intervals[k].end.date == date {
        closeTime := Some(intervals[k].end);
      }
    }
    assert intervals[..|intervals|] == intervals;
  }

  /** `market_close_time`: the end of the last session, in text order, that ends on `date`. */
  method MarketCloseTime(date: Date, details: ContractHours, extended: bool) returns (r: Result<Option<Moment>, HoursError>)
    ensures r.Ok? <==> ScheduleOf(details, extended).Ok?
    ensures r.Err? ==> r == Err(ScheduleOf(details, extended).error)
    ensures r.Ok? ==> r.value == LastEnd(ScheduleOf(details, extended).value.intervals, date)
    ensures r.Ok? ==> var ivs := ScheduleOf(details, extended).value.intervals;
      (r.value.None? <==> forall k | 0 <= k < |ivs| :: ivs[k].end.date != date)
      && (r.value.Some? ==> exists k | 0 <= k < |ivs| ::
            ivs[k].end.date == date && r.value.value == ivs[k].end
            && forall m | k < m < |ivs| :: ivs[m].end.date != date)
  {
    var parsed := ParseHours(HoursText(details, extended));
    if parsed.Err? {
      return Err(parsed.error);
    }
    var closeTime := LastCloseOn(parsed.value.intervals, date);
    return Ok(closeTime);
  }

  /**
   * The loop of `market_open_time`: it runs over the reversed list and keeps
   * the last match, so it finds the start of the FIRST session that starts
   * on `date`.
   */
  method FirstOpenOn(intervals: seq<Interval>, date: Date) returns (openTime: Option<Moment>)
    ensures openTime == FirstStart(intervals, date)
    ensures openTime.None? <==> forall k | 0 <= k < |intervals| :: intervals[k].start.date != date
    ensures openTime.Some? ==> exists k | 0 <= k < |intervals| ::
      intervals[k].start.date == date && openTime.value == intervals[k].start
      && forall m | 0 <= m < k :: intervals[m].start.date != date
  {
    openTime := None;
    var k := |intervals|;
    while k > 0
      invariant 0 <= k <= |intervals|
      invariant openTime == FirstStart(intervals[k..], date)
    {
      k := k - 1;
      assert intervals[k..][1..] == intervals[k + 1..];
      if intervals[k].start.date == date {
        openTime := Some(intervals[k].start);
      }
    }
    assert intervals[0..] == intervals;
  }

  /** `market_open_time`: the start of the first session, in text order, that starts on `date`. */
  method MarketOpenTime(date: Date, details: ContractHours, extended: bool) returns (r: Result<Option<Moment>, HoursError>)
    ensures r.Ok? <==> ScheduleOf(details, extended).Ok?
    ensures r.Err? ==> r == Err(ScheduleOf(details, extended).error)
    ensures r.Ok? ==> r.value == FirstStart(ScheduleOf(details, extended).value.intervals, date)
    ensures r.Ok? ==> var ivs := ScheduleOf(details, extended).value.intervals;
      (r.value.None? <==> forall k | 0 <= k < |ivs| :: ivs[k].start.date != date)
      && (r.value.Some? ==> exists k | 0 <= k < |ivs| ::
            ivs[k].start.date == date && r.value.value == ivs[k].start
            && forall m | 0 <= m < k :: ivs[m].start.date != date)
  {
    var parsed := ParseHours(HoursText(details, extended));
    if parsed.Err? {
      return Err(parsed.error);
    }
    var openTime := FirstOpenOn(parsed.value.intervals, date);
    return Ok(openTime);
  }

  // ------------------------------------------------------------ as instants

  /** A session edge as an instant in seconds, on the scale of the loop's `InstantOf`. */
  function MomentInstant(m: Moment): int
    requires 1 <= m.date.month <= 12
  {
    InstantOf(Clock(m.date, 60 * m.minute))
  }

  /** The instant of a valid edge falls on the edge's own day, at its minute. */
  lemma MomentInstantDay(m: Moment)
    requires ValidMoment(m)
    ensures MomentInstant(m) / (24 * 3600) == Ordinal(m.date)
    ensures MomentInstant(m) % (24 * 3600) == 60 * m.minute
  {
    DivModOf(Ordinal(m.date), 60 * m.minute, 24 * 3600);
  }

  /** Both ends of a session name a month of the year, so both have an instant. */
  predicate Dated(iv: Interval)
  {
    1 <= iv.start.date.month <= 12 && 1 <= iv.end.date.month <= 12
  }

  predicate AllDated(intervals: seq<Interval>)
  {
    forall k | 0 <= k < |intervals| :: Dated(intervals[k])
  }

  lemma {:induction false} IntervalsOfDated(texts: seq<string>, form: Form)
    ensures IntervalsOf(texts, form).Ok? ==> AllDated(IntervalsOf(texts, form).value)
    decreases |texts|
  {
    if |texts| > 0 {
      IntervalsOfDated(texts[..|texts| - 1], form);
    }
  }

  lemma {:induction false} AllIntervalsDated(fields: seq<string>)
    ensures AllIntervals(fields).Ok? ==> AllDated(AllIntervals(fields).value)
    decreases |fields|
  {
    if |fields| > 0 {
      var field := fields[|fields| - 1];
      AllIntervalsDated(fields[..|fields| - 1]);
      if !IsClosed(field) {
        var parts := Split(field, ':');
        if |parts| - 1 != 1 {
          IntervalsOfDated(Split(field, ','), Stamped);
        } else {
          IntervalsOfDated(Split(parts[1], ','), OnDay(parts[0]));
        }
      }
    }
  }

  /** Every session `parse_hours` returns has an instant at both ends. */
  lemma ScheduleDated(hours: string)
    ensures ParsedHours(hours).Ok? ==> AllDated(ParsedHours(hours).value.intervals)
  {
    AllIntervalsDated(Split(hours, ';'));
  }
}
