/** Stored timestamps: a text form whose order is the order of time. */
module Timestamps {
  import opened Wrappers
  import opened Text

  // ----- digits -----

  function Power(width: nat): (p: nat)
    ensures p >= 1
  {
    if width == 0 then 1 else 10 * Power(width - 1)
  }

  function Digit(d: nat): (c: char)
    requires d < 10
    ensures '0' <= c <= '9'
  {
    '0' + d as char
  }

  /** The lowest digits of n, most significant first. */
  function Digits(n: nat, width: nat): (s: string)
    ensures |s| == width
    ensures forall i | 0 <= i < |s| :: '0' <= s[i] <= '9'
  {
    if width == 0 then "" else Digits(n / 10, width - 1) + [Digit(n % 10)]
  }

  function Number(s: string): (r: Option<nat>) {
    if s == "" then Some(0)
    else
      var n := |s| - 1;
      var front := Number(s[..n]);
      if front.Some? && '0' <= s[n] <= '9' then Some(10 * front.value + (s[n] - '0') as nat) else None
  }

  lemma NumberAppends(s: string, d: nat)
    requires d < 10
    ensures Number(s + [Digit(d)]) == (var n := Number(s); if n.Some? then Some(10 * n.value + d) else None)
  {
    assert (s + [Digit(d)])[..|s|] == s;
  }

  lemma {:induction false} NumberDigits(n: nat, width: nat)
    requires n < Power(width)
    ensures Number(Digits(n, width)) == Some(n)
  {
    if width > 0 {
      NumberDigits(n / 10, width - 1);
      NumberAppends(Digits(n / 10, width - 1), n % 10);
    }
  }

  lemma {:induction false} DigitsOrdered(m: nat, n: nat, width: nat)
    requires m < n < Power(width)
    ensures Before(Digits(m, width), Digits(n, width))
  {
    var a, b := Digits(m / 10, width - 1), Digits(n / 10, width - 1);
    BeforeConcat(a, b, [Digit(m % 10)], [Digit(n % 10)]);
    if m / 10 < n / 10 { DigitsOrdered(m / 10, n / 10, width - 1); }
  }

  // ----- a row of fixed-width fields -----

  /** A field's width and the character that ends it. */
  datatype Column = Column(width: nat, end: char)

  predicate Fits(values: seq<nat>, columns: seq<Column>) {
    |values| == |columns| && forall i | 0 <= i < |values| :: values[i] < Power(columns[i].width)
  }

  function Render(values: seq<nat>, columns: seq<Column>): string
    requires |values| == |columns|
  {
    if values == [] then ""
    else Digits(values[0], columns[0].width) + ([columns[0].end] + Render(values[1..], columns[1..]))
  }

  function Scan(text: string, columns: seq<Column>): Option<seq<nat>> {
    if columns == [] then if text == "" then Some([]) else None
    else
      var width := columns[0].width;
      if |text| <= width || text[width] != columns[0].end then None
      else
        var first, rest := Number(text[..width]), Scan(text[width+1..], columns[1..]);
        if first.Some? && rest.Some? then Some([first.value] + rest.value) else None
  }

  predicate LexLess(a: seq<nat>, b: seq<nat>) {
    b != [] && (a == [] || a[0] < b[0] || (a[0] == b[0] && LexLess(a[1..], b[1..])))
  }

  lemma {:induction false} ScanRender(values: seq<nat>, columns: seq<Column>)
    requires Fits(values, columns)
    ensures Scan(Render(values, columns), columns) == Some(values)
    decreases |values|
  {
    if values != [] {
      var head, tail := Digits(values[0], columns[0].width), Render(values[1..], columns[1..]);
      var text := Render(values, columns);
      NumberDigits(values[0], columns[0].width);
      ScanRender(values[1..], columns[1..]);
      assert text[..columns[0].width] == head && text[columns[0].width+1..] == tail;
      assert values == [values[0]] + values[1..];
    }
  }

  lemma {:induction false} RenderOrdered(a: seq<nat>, b: seq<nat>, columns: seq<Column>)
    requires Fits(a, columns) && Fits(b, columns) && LexLess(a, b)
    ensures Before(Render(a, columns), Render(b, columns))
    decreases |a|
  {
    var width, end := columns[0].width, [columns[0].end];
    var s, t := Render(a[1..], columns[1..]), Render(b[1..], columns[1..]);
    BeforeConcat(Digits(a[0], width), Digits(b[0], width), end + s, end + t);
    if a[0] < b[0] {
      DigitsOrdered(a[0], b[0], width);
    } else {
      RenderOrdered(a[1..], b[1..], columns[1..]);
      BeforeConcat(end, end, s, t);
    }
  }

  // ----- the calendar -----

  /** Days from 1 January of year 0 to 1 January of a year, by the Gregorian rule. */
  function DaysBeforeYear(year: int): int {
    365 * year + (year + 3) / 4 - (year + 99) / 100 + (year + 399) / 400
  }

  predicate Leap(year: int) {
    year % 4 == 0 && (year % 100 != 0 || year % 400 == 0)
  }

  lemma YearLength(year: int)
    ensures DaysBeforeYear(year + 1) == DaysBeforeYear(year) + (if Leap(year) then 366 else 365)
  {
    FourthYears(year);
    Centuries(year);
    FourthCenturies(year);
  }

  lemma FourthYears(year: int)
    ensures (year + 4) / 4 == (year + 3) / 4 + (if year % 4 == 0 then 1 else 0)
  {
  }

  lemma Centuries(year: int)
    ensures (year + 100) / 100 == (year + 99) / 100 + (if year % 100 == 0 then 1 else 0)
    ensures year % 100 == 0 ==> year % 4 == 0
  {
  }

  lemma FourthCenturies(year: int)
    ensures (year + 400) / 400 == (year + 399) / 400 + (if year % 400 == 0 then 1 else 0)
    ensures year % 400 == 0 ==> year % 100 == 0
  {
  }

  function DaysBeforeMonth(month: nat, leap: bool): nat
    requires 1 <= month <= 13
  {
    [0, 31, 59, 90, 120, 151, 181, 212, 243, 273, 304, 334, 365][month - 1] + (if leap && month > 2 then 1 else 0)
  }

  /** The Gregorian months: 31 days but for four of 30 and February. */
  lemma MonthLengths(month: nat, leap: bool)
    requires 1 <= month <= 12
    ensures DaysBeforeMonth(month + 1, leap) - DaysBeforeMonth(month, leap) ==
      if month == 2 then (if leap then 29 else 28)
      else if month == 4 || month == 6 || month == 9 || month == 11 then 30
      else 31
    ensures DaysBeforeMonth(1, leap) == 0
  {
  }

  function YearFrom(day: int, year: int): (r: int)
    requires DaysBeforeYear(year) <= day
    ensures DaysBeforeYear(r) <= day < DaysBeforeYear(r + 1)
    decreases day - DaysBeforeYear(year)
  {
    YearLength(year);
    if day < DaysBeforeYear(year + 1) then year else YearFrom(day, year + 1)
  }

  /** The year that holds a day. */
  function YearOf(day: int): (r: int)
    ensures DaysBeforeYear(r) <= day < DaysBeforeYear(r + 1)
  {
    YearFrom(day, if day < 0 then day else 0)
  }

  function MonthFrom(ordinal: nat, leap: bool, month: nat): (r: nat)
    requires 1 <= month <= 12 && DaysBeforeMonth(month, leap) <= ordinal < DaysBeforeMonth(13, leap)
    ensures 1 <= r <= 12 && DaysBeforeMonth(r, leap) <= ordinal < DaysBeforeMonth(r + 1, leap)
    decreases 12 - month
  {
    if ordinal < DaysBeforeMonth(month + 1, leap) then month else MonthFrom(ordinal, leap, month + 1)
  }

  lemma {:induction false} YearsOrdered(a: int, b: int)
    requires a < b
    ensures DaysBeforeYear(a + 1) <= DaysBeforeYear(b)
    decreases b - a
  {
    if a + 1 < b { YearsOrdered(a, b - 1); YearLength(b - 1); }
  }

  // ----- instants -----

  const SECOND: nat := 1_000_000_000
  const MINUTE: nat := 60 * SECOND
  const HOUR: nat := 60 * MINUTE
  const DAY: nat := 24 * HOUR

  /** A UTC instant: whole days since the start of year 0 and nanoseconds into
      the day. Every UTC day has the same length. */
  datatype Moment = Moment(day: int, nano: nat)

  type Instant = t: Moment | t.nano < DAY witness Moment(0, 0)

  predicate Earlier(a: Instant, b: Instant) {
    a.day < b.day || (a.day == b.day && a.nano < b.nano)
  }

  /** The zero value of a time: the start of year 1. */
  const ZERO: Instant := Moment(366, 0)

  datatype Date = Date(year: int, month: nat, day: nat)

  datatype Clock = Clock(hour: nat, minute: nat, second: nat, nano: nat)

  predicate ProperDate(d: Date) {
    && 1 <= d.month <= 12 && 1 <= d.day
    && DaysBeforeMonth(d.month, Leap(d.year)) + d.day <= DaysBeforeMonth(d.month + 1, Leap(d.year))
  }

  predicate ProperClock(c: Clock) {
    c.hour < 24 && c.minute < 60 && c.second < 60 && c.nano < SECOND
  }

  function DayOf(d: Date): int
    requires 1 <= d.month <= 12
  {
    DaysBeforeYear(d.year) + DaysBeforeMonth(d.month, Leap(d.year)) + d.day - 1
  }

  function DateInYear(year: int, ordinal: nat): (d: Date)
    requires ordinal < DaysBeforeMonth(13, Leap(year))
    ensures ProperDate(d) && d.year == year && DayOf(d) == DaysBeforeYear(year) + ordinal
  {
    var month := MonthFrom(ordinal, Leap(year), 1);
    Date(year, month, ordinal - DaysBeforeMonth(month, Leap(year)) + 1)
  }

  /** The calendar date of a day; DayOf is its inverse. */
  function DateOf(day: int): (d: Date)
    ensures ProperDate(d) && DayOf(d) == day
  {
    var year := YearOf(day);
    YearLength(year);
    DateInYear(year, day - DaysBeforeYear(year))
  }

  function NanoOf(c: Clock): nat {
    c.hour * HOUR + c.minute * MINUTE + c.second * SECOND + c.nano
  }

  function ClockOf(rest: nat): Clock {
    Clock(rest / HOUR, rest % HOUR / MINUTE, rest % MINUTE / SECOND, rest % SECOND)
  }

  lemma ClockExact(rest: nat)
    requires rest < DAY
    ensures ProperClock(ClockOf(rest)) && NanoOf(ClockOf(rest)) == rest
  {
    assert rest % HOUR % MINUTE == rest % MINUTE;
    assert rest % MINUTE % SECOND == rest % SECOND;
  }

  function Year(t: Instant): int {
    DateOf(t.day).year
  }

  /** The years a four-digit text can name. */
  predicate InRange(t: Instant) {
    0 <= Year(t) <= 9999
  }

  // ----- formatTime and parseTime -----

  const REST: seq<Column> :=
    [Column(2, '-'), Column(2, 'T'), Column(2, ':'), Column(2, ':'), Column(2, '.'), Column(9, 'Z')]

  const COLUMNS: seq<Column> := [Column(4, '-')] + REST

  function RestValues(d: Date, c: Clock): (r: seq<nat>)
    ensures |r| == 6
  {
    [d.month, d.day, c.hour, c.minute, c.second, c.nano]
  }

  /** At least four digits, and as many more as the year needs. */
  function WideYear(year: nat): (s: string)
    ensures |s| >= 4 && forall i | 0 <= i < |s| :: '0' <= s[i] <= '9'
    ensures year > 9999 ==> |s| > 4
  {
    if year <= 9999 then Digits(year, 4) else WideYear(year / 10) + [Digit(year % 10)]
  }

  function YearText(year: int): string {
    if year < 0 then "-" + WideYear(-year) else WideYear(year)
  }

  function FormatTime(t: Instant): string {
    if t == ZERO then ""
    else
      var date, clock := DateOf(t.day), ClockOf(t.nano);
      YearText(date.year) + ("-" + Render(RestValues(date, clock), REST))
  }

  function FromValues(v: seq<nat>): Option<Instant>
    requires |v| == 7
  {
    var date, clock := Date(v[0], v[1], v[2]), Clock(v[3], v[4], v[5], v[6]);
    if ProperDate(date) && ProperClock(clock) then Some(Moment(DayOf(date), NanoOf(clock))) else None
  }

  function ParseTime(text: string): Option<Instant> {
    if text == "" then Some(ZERO)
    else
      var values := Scan(text, COLUMNS);
      if values.Some? && |values.value| == 7 then FromValues(values.value) else None
  }

  function Values(t: Instant): (v: seq<nat>)
    requires InRange(t)
    ensures |v| == 7
  {
    [Year(t)] + RestValues(DateOf(t.day), ClockOf(t.nano))
  }

  lemma PowersOfTen()
    ensures Power(2) == 100 && Power(4) == 10_000 && Power(9) == SECOND
  {
    assert Power(3) == 1000 && Power(5) == 100_000 && Power(7) == 10_000_000;
  }

  lemma ValuesFit(t: Instant)
    requires InRange(t)
    ensures Fits(Values(t), COLUMNS)
  {
    PowersOfTen();
    ClockExact(t.nano);
    MonthsShort(DateOf(t.day));
  }

  lemma MonthsShort(d: Date)
    requires ProperDate(d)
    ensures d.day <= 31
  {
  }

  lemma FormatIsRender(t: Instant)
    requires InRange(t) && t != ZERO
    ensures FormatTime(t) == Render(Values(t), COLUMNS)
  {
    assert Values(t)[1..] == RestValues(DateOf(t.day), ClockOf(t.nano));
    assert COLUMNS[1..] == REST;
  }

  // ----- round trip -----

  lemma YearIs(day: int, year: int)
    requires DaysBeforeYear(year) <= day < DaysBeforeYear(year + 1)
    ensures YearOf(day) == year && DateOf(day).year == year
  {
    var y := YearOf(day);
    if y < year { YearsOrdered(y, year); }
    if year < y { YearsOrdered(year, y); }
  }

  lemma {:induction false} NumberRejects(s: string, i: nat)
    requires i < |s| && !('0' <= s[i] <= '9')
    ensures Number(s) == None
    decreases |s|
  {
    if i < |s| - 1 { NumberRejects(s[..|s|-1], i); }
  }

  /** A five-digit or negative year does not fill the four-digit column. */
  lemma YearUnreadable(year: int, rest: string)
    requires year < 0 || year > 9999
    ensures Scan(YearText(year) + ("-" + rest), COLUMNS) == None
  {
    var head := YearText(year);
    var text := head + ("-" + rest);
    if year < 0 {
      assert head[0] == '-' && text[..4][0] == '-';
      NumberRejects(text[..4], 0);
    } else {
      assert text[4] == head[4];
    }
  }

  /** Parsing gives the instant back, to the nanosecond, exactly when the year
      has four digits; otherwise the stored text cannot be read at all. */
  lemma ParseInvertsFormat(t: Instant)
    ensures ParseTime(FormatTime(t)) == if InRange(t) then Some(t) else None
  {
    if t == ZERO { ZeroInRange(); ZeroReads(t); }
    else if InRange(t) { InRangeReads(t); }
    else { OutOfRangeUnreadable(t); }
  }

  lemma OutOfRangeUnreadable(t: Instant)
    requires !InRange(t) && t != ZERO
    ensures ParseTime(FormatTime(t)) == None
  {
    var rest := Render(RestValues(DateOf(t.day), ClockOf(t.nano)), REST);
    YearUnreadable(Year(t), rest);
    assert FormatTime(t) == YearText(Year(t)) + ("-" + rest);
  }

  lemma ZeroInRange()
    ensures InRange(ZERO)
  {
    YearIs(366, 1);
  }

  lemma ZeroReads(t: Instant)
    requires t == ZERO
    ensures ParseTime(FormatTime(t)) == Some(t)
  {
  }

  lemma InRangeReads(t: Instant)
    requires InRange(t) && t != ZERO
    ensures ParseTime(FormatTime(t)) == Some(t)
  {
    FormatIsRender(t);
    ValuesFit(t);
    ScanRender(Values(t), COLUMNS);
    ValuesRead(t);
    assert FormatTime(t)[|YearText(Year(t))|] == '-';
  }

  lemma ValuesRead(t: Instant)
    requires InRange(t)
    ensures FromValues(Values(t)) == Some(t)
  {
    var d, c, v := DateOf(t.day), ClockOf(t.nano), Values(t);
    ClockExact(t.nano);
    assert Date(v[0], v[1], v[2]) == d && Clock(v[3], v[4], v[5], v[6]) == c;
  }

  // ----- order -----

  lemma {:induction false} LexAt(a: seq<nat>, b: seq<nat>, k: nat)
    requires |a| == |b| && k < |a| && a[k] < b[k] && forall i | 0 <= i < k :: a[i] == b[i]
    ensures LexLess(a, b)
    decreases k
  {
    if k > 0 { LexAt(a[1..], b[1..], k - 1); }
  }

  predicate DateLess(d: Date, e: Date) {
    d.year < e.year || (d.year == e.year && (d.month < e.month || (d.month == e.month && d.day < e.day)))
  }

  lemma DateLessEarlier(d: Date, e: Date)
    requires ProperDate(d) && ProperDate(e) && DateLess(d, e)
    ensures DayOf(d) < DayOf(e)
  {
    InItsYear(d);
    InItsYear(e);
    if d.year < e.year { YearsOrdered(d.year, e.year); }
    else if d.month < e.month { MonthsOrdered(d.month, e.month, Leap(d.year)); }
  }

  lemma InItsYear(d: Date)
    requires ProperDate(d)
    ensures DaysBeforeYear(d.year) <= DayOf(d) < DaysBeforeYear(d.year + 1)
  {
    YearLength(d.year);
    MonthsOrdered(d.month, 13, Leap(d.year));
  }

  lemma MonthsOrdered(m: nat, n: nat, leap: bool)
    requires 1 <= m < n <= 13
    ensures DaysBeforeMonth(m + 1, leap) <= DaysBeforeMonth(n, leap)
  {
  }

  lemma DatesOrdered(a: int, b: int)
    requires a < b
    ensures DateLess(DateOf(a), DateOf(b))
  {
    if DateLess(DateOf(b), DateOf(a)) { DateLessEarlier(DateOf(b), DateOf(a)); }
  }

  predicate ClockLess(c: Clock, d: Clock) {
    || c.hour < d.hour
    || (c.hour == d.hour && (c.minute < d.minute
         || (c.minute == d.minute && (c.second < d.second || (c.second == d.second && c.nano < d.nano)))))
  }

  lemma ClocksOrdered(a: nat, b: nat)
    requires a < b < DAY
    ensures ClockLess(ClockOf(a), ClockOf(b))
  {
    ClockExact(a);
    ClockExact(b);
  }

  function Row(d: Date, c: Clock): seq<nat>
    requires d.year >= 0
  {
    [d.year] + RestValues(d, c)
  }

  lemma DatesCompareFirst(d: Date, c: Clock, e: Date, f: Clock)
    requires d.year >= 0 && e.year >= 0 && DateLess(d, e)
    ensures LexLess(Row(d, c), Row(e, f))
  {
    LexAt(Row(d, c), Row(e, f), if d.year < e.year then 0 else if d.month < e.month then 1 else 2);
  }

  lemma ClocksCompareNext(d: Date, c: Clock, f: Clock)
    requires d.year >= 0 && ClockLess(c, f)
    ensures LexLess(Row(d, c), Row(d, f))
  {
    LexAt(Row(d, c), Row(d, f),
          if c.hour < f.hour then 3 else if c.minute < f.minute then 4 else if c.second < f.second then 5 else 6);
  }

  lemma ValuesOrdered(a: Instant, b: Instant)
    requires Earlier(a, b) && InRange(a) && InRange(b)
    ensures LexLess(Values(a), Values(b))
  {
    if a.day < b.day {
      DatesOrdered(a.day, b.day);
      DatesCompareFirst(DateOf(a.day), ClockOf(a.nano), DateOf(b.day), ClockOf(b.nano));
    } else {
      ClocksOrdered(a.nano, b.nano);
      ClocksCompareNext(DateOf(a.day), ClockOf(a.nano), ClockOf(b.nano));
    }
  }

  lemma EarlierIsBefore(a: Instant, b: Instant)
    requires Earlier(a, b) && a != ZERO && b != ZERO && InRange(a) && InRange(b)
    ensures Before(FormatTime(a), FormatTime(b))
  {
    FormatIsRender(a);
    FormatIsRender(b);
    ValuesFit(a);
    ValuesFit(b);
    ValuesOrdered(a, b);
    RenderOrdered(Values(a), Values(b), COLUMNS);
  }

  /** Text order is time order. */
  lemma TextOrderIsTimeOrder(a: Instant, b: Instant)
    requires a != ZERO && b != ZERO && InRange(a) && InRange(b)
    ensures Before(FormatTime(a), FormatTime(b)) <==> Earlier(a, b)
    ensures FormatTime(a) == FormatTime(b) <==> a == b
  {
    BeforeTotal(FormatTime(a), FormatTime(b));
    BeforeTotal(FormatTime(a), FormatTime(a));
    if Earlier(a, b) { EarlierIsBefore(a, b); }
    if Earlier(b, a) { EarlierIsBefore(b, a); }
  }

  /** The zero time sorts before every stored instant. */
  lemma ZeroSortsFirst(t: Instant)
    ensures t != ZERO ==> Before(FormatTime(ZERO), FormatTime(t))
  {
  }

  /** Past year 9999 the order breaks: a later five-digit year sorts earlier. */
  lemma FiveDigitYearSortsEarly(t: Instant, u: Instant)
    requires 10_000 <= Year(t) < 90_000 && Year(u) == 9999
    ensures Earlier(u, t) && Before(FormatTime(t), FormatTime(u))
  {
    LaterYear(u, t);
    FirstDigit(t);
    FirstDigit(u);
  }

  /** Text order is time order on all non-zero instants up to a year. */
  ghost predicate OrderedUpTo(top: int) {
    forall a: Instant, b: Instant | a != ZERO && b != ZERO && 0 <= Year(a) <= top && 0 <= Year(b) <= top ::
      Before(FormatTime(a), FormatTime(b)) <==> Earlier(a, b)
  }

  /** So four-digit years are exactly how far the order reaches. */
  lemma OrderReachesExactly(top: int)
    ensures OrderedUpTo(top) <==> top <= 9999
  {
    if top <= 9999 {
      forall a: Instant, b: Instant | a != ZERO && b != ZERO && 0 <= Year(a) <= top && 0 <= Year(b) <= top
        ensures Before(FormatTime(a), FormatTime(b)) <==> Earlier(a, b)
      {
        TextOrderIsTimeOrder(a, b);
      }
    } else {
      var last := NewYear(9999);
      var next := NewYear(10_000);
      FiveDigitYearSortsEarly(next, last);
      NotZero(last);
      NotZero(next);
    }
  }

  lemma NewYear(year: int) returns (t: Instant)
    ensures Year(t) == year
  {
    t := Moment(DaysBeforeYear(year), 0);
    YearLength(year);
    YearIs(t.day, year);
  }

  lemma NotZero(t: Instant)
    requires Year(t) != 1
    ensures t != ZERO
  {
    YearIs(366, 1);
  }

  lemma LaterYear(a: Instant, b: Instant)
    requires Year(a) < Year(b)
    ensures Earlier(a, b)
  {
    InItsYear(DateOf(a.day));
    InItsYear(DateOf(b.day));
    YearsOrdered(Year(a), Year(b));
  }

  lemma FirstDigit(t: Instant)
    requires 1000 <= Year(t) < 90_000
    ensures FormatTime(t) != ""
    ensures FormatTime(t)[0] == Digit(if Year(t) < 10_000 then Year(t) / 1000 else Year(t) / 10_000)
  {
    NotZero(t);
    WideLeadingDigit(Year(t));
    assert FormatTime(t)[0] == WideYear(Year(t))[0];
  }

  lemma WideLeadingDigit(year: nat)
    requires 1000 <= year < 90_000
    ensures WideYear(year)[0] == Digit(if year < 10_000 then year / 1000 else year / 10_000)
  {
    if year >= 10_000 {
      assert WideYear(year)[0] == WideYear(year / 10)[0];
      LeadingDigit(year / 10);
      assert year / 10 / 1000 == year / 10_000;
    } else {
      LeadingDigit(year);
    }
  }

  lemma LeadingDigit(n: nat)
    requires n < 10_000
    ensures Digits(n, 4)[0] == Digit(n / 1000)
  {
    assert Digits(n, 4)[0] == Digits(n / 10, 3)[0] == Digits(n / 10 / 10, 2)[0] == Digits(n / 10 / 10 / 10, 1)[0];
    assert n / 10 / 10 / 10 == n / 1000 < 10;
  }

  // ----- the text of a date and a time of day -----

  lemma DateRead(d: Date)
    requires ProperDate(d)
    ensures DateOf(DayOf(d)) == d
  {
    var e := DateOf(DayOf(d));
    if DateLess(d, e) { DateLessEarlier(d, e); }
    if DateLess(e, d) { DateLessEarlier(e, d); }
  }

  lemma ClockLessEarlier(c: Clock, d: Clock)
    requires ProperClock(c) && ProperClock(d) && ClockLess(c, d)
    ensures NanoOf(c) < NanoOf(d)
  {
  }

  lemma ClockRead(c: Clock)
    requires ProperClock(c)
    ensures NanoOf(c) < DAY && ClockOf(NanoOf(c)) == c
  {
    var d := ClockOf(NanoOf(c));
    ClockExact(NanoOf(c));
    if ClockLess(c, d) { ClockLessEarlier(c, d); }
    if ClockLess(d, c) { ClockLessEarlier(d, c); }
  }

  /** A date as the calendar has it, and a time of day. */
  predicate OnCalendar(year: nat, month: nat, day: nat, c: Clock) {
    && year <= 9999 && 1 <= month <= 12 && 1 <= day
    && day <= (if month == 2 then (if Leap(year) then 29 else 28) else if month in {4, 6, 9, 11} then 30 else 31)
    && c.hour < 24 && c.minute < 60 && c.second < 60 && c.nano < 1_000_000_000
  }

  /** Month, day and time of day, as in 02-29T12:34:56.789000000Z. */
  function RestText(month: nat, day: nat, c: Clock): string {
    Digits(month, 2) + ("-" + (Digits(day, 2) + ("T" + (Digits(c.hour, 2) + (":" + (Digits(c.minute, 2) + (":"
    + (Digits(c.second, 2) + ("." + (Digits(c.nano, 9) + "Z"))))))))))
  }

  /** The stored text of an instant is its date, its time of day and nine digits of
      its second's fraction, in UTC. */
  lemma FormatSpelled(year: nat, month: nat, day: nat, c: Clock)
    requires OnCalendar(year, month, day, c)
    ensures ProperDate(Date(year, month, day)) && NanoOf(c) < DAY
    ensures
      var t: Instant := Moment(DayOf(Date(year, month, day)), NanoOf(c));
      t != ZERO ==> FormatTime(t) == Digits(year, 4) + ("-" + RestText(month, day, c))
  {
    MonthLengths(month, Leap(year));
    DateRead(Date(year, month, day));
    ClockRead(c);
    RestSpelled(Date(year, month, day), c);
  }

  lemma RestSpelled(d: Date, c: Clock)
    ensures Render(RestValues(d, c), REST) == RestText(d.month, d.day, c)
  {
    var v := RestValues(d, c);
    LastSpelled(v[5..], REST[5..]);
    StepSpelled(v[4..], REST[4..]);
    StepSpelled(v[3..], REST[3..]);
    StepSpelled(v[2..], REST[2..]);
    StepSpelled(v[1..], REST[1..]);
    StepSpelled(v, REST);
    assert v[4..][1..] == v[5..] && REST[4..][1..] == REST[5..];
    assert v[3..][1..] == v[4..] && REST[3..][1..] == REST[4..];
    assert v[2..][1..] == v[3..] && REST[2..][1..] == REST[3..];
    assert v[1..][1..] == v[2..] && REST[1..][1..] == REST[2..];
  }

  lemma StepSpelled(values: seq<nat>, columns: seq<Column>)
    requires |values| == |columns| > 0
    ensures Render(values, columns) ==
            Digits(values[0], columns[0].width) + ([columns[0].end] + Render(values[1..], columns[1..]))
  {
  }

  lemma LastSpelled(values: seq<nat>, columns: seq<Column>)
    requires |values| == |columns| == 1
    ensures Render(values, columns) == Digits(values[0], columns[0].width) + [columns[0].end]
  {
    assert values[1..] == [] && columns[1..] == [];
    assert [columns[0].end] + "" == [columns[0].end];
  }

  /** The zero time is the start of 1 January of year 1. */
  lemma ZeroSpelled()
    ensures ZERO == Moment(DayOf(Date(1, 1, 1)), 0)
  {
  }

  /** Digits are decimal, with the units last and zeros in front. */
  lemma DigitsSpelled(n: nat, width: nat)
    requires width > 0
    ensures |Digits(n, width)| == width && Digits(n, width)[width - 1] == "0123456789"[n % 10]
    ensures Digits(n, width)[..width-1] == Digits(n / 10, width - 1)
    ensures n == 0 ==> forall i | 0 <= i < width :: Digits(n, width)[i] == '0'
  {
    assert forall d: nat | d < 10 :: Digit(d) == "0123456789"[d];
    if n == 0 && width > 1 { DigitsSpelled(0, width - 1); }
  }
}
