/** Times as `jobs.py` keeps them: `datetime` fields in UTC, millisecond texts in the database.
    Only the text form that `_timestamp` itself writes is read back here. */
module Timestamps {
  import opened Text

  /** The fields of a Python `datetime` in UTC. */
  datatype Moment = Moment(year: nat, month: nat, day: nat, hour: nat, minute: nat, second: nat, micro: nat)

  // ---------------------------------------------------------------- the calendar

  predicate IsLeap(y: nat) { y % 4 == 0 && (y % 100 != 0 || y % 400 == 0) }

  function DaysInMonth(y: nat, m: nat): (d: nat)
    ensures 28 <= d <= 31
  {
    if m == 2 then (if IsLeap(y) then 29 else 28)
    else if m == 4 || m == 6 || m == 9 || m == 11 then 30 else 31
  }

  /** Days of year `y` before month `m`; month 13 gives the length of the year. */
  function DaysBeforeMonth(y: nat, m: nat): nat
    requires 1 <= m <= 13
  {
    if m == 1 then 0 else DaysBeforeMonth(y, m - 1) + DaysInMonth(y, m - 1)
  }

  /** Days before January 1st of year `y`, counted from year 1. */
  function DaysBeforeYear(y: nat): nat
    requires y >= 1
  {
    var past := y - 1;
    past * 365 + past / 4 - past / 100 + past / 400
  }

  predicate Valid(c: Moment) {
    1 <= c.year <= 9999 && 1 <= c.month <= 12 && 1 <= c.day <= DaysInMonth(c.year, c.month)
    && c.hour < 24 && c.minute < 60 && c.second < 60 && c.micro < 1_000_000
  }

  function DayNumber(y: nat, m: nat, d: nat): nat
    requires y >= 1 && 1 <= m <= 12 && d >= 1
  {
    DaysBeforeYear(y) + DaysBeforeMonth(y, m) + (d - 1)
  }

  const DAY: nat := 86_400_000_000

  function TimeOfDay(c: Moment): nat { ((c.hour * 60 + c.minute) * 60 + c.second) * 1_000_000 + c.micro }

  /** Microseconds since the first moment of year 1. */
  function Micros(c: Moment): nat
    requires Valid(c)
  {
    DayNumber(c.year, c.month, c.day) * DAY + TimeOfDay(c)
  }

  /** Python compares two UTC times field by field. */
  predicate Earlier(a: Moment, b: Moment) {
    a.year < b.year || (a.year == b.year &&
      (a.month < b.month || (a.month == b.month &&
        (a.day < b.day || (a.day == b.day &&
          (a.hour < b.hour || (a.hour == b.hour &&
            (a.minute < b.minute || (a.minute == b.minute &&
              (a.second < b.second || (a.second == b.second && a.micro < b.micro)))))))))))
  }

  lemma {:induction false} MonthsIncrease(y: nat, m: nat, n: nat)
    requires 1 <= m < n <= 13
    ensures DaysBeforeMonth(y, m) + DaysInMonth(y, m) <= DaysBeforeMonth(y, n)
  {
    if m + 1 < n { MonthsIncrease(y, m, n - 1); }
  }

  lemma YearLength(y: nat)
    requires y >= 1
    ensures DaysBeforeMonth(y, 13) == if IsLeap(y) then 366 else 365
    ensures DaysBeforeYear(y + 1) == DaysBeforeYear(y) + DaysBeforeMonth(y, 13)
  {
    MonthSums(y);
    LeapCount(y);
    hide DaysBeforeMonth;
  }

  lemma MonthSums(y: nat)
    ensures DaysBeforeMonth(y, 13) == if IsLeap(y) then 366 else 365
  {
    hide IsLeap;
    assert DaysBeforeMonth(y, 2) == 31;
    assert DaysBeforeMonth(y, 3) == if IsLeap(y) then 60 else 59;
    assert DaysBeforeMonth(y, 5) == DaysBeforeMonth(y, 3) + 61;
    assert DaysBeforeMonth(y, 7) == DaysBeforeMonth(y, 5) + 61;
    assert DaysBeforeMonth(y, 9) == DaysBeforeMonth(y, 7) + 62;
    assert DaysBeforeMonth(y, 11) == DaysBeforeMonth(y, 9) + 61;
  }

  lemma LeapCount(y: nat)
    requires y >= 1
    ensures y / 4 - y / 100 + y / 400 ==
      (y - 1) / 4 - (y - 1) / 100 + (y - 1) / 400 + if IsLeap(y) then 1 else 0
  {
    NextQuarter(y);
    NextCentury(y);
    NextCycle(y);
    if y % 400 == 0 {
      CycleDivides(y);
    } else if y % 100 == 0 {
      CenturyDivides(y);
    }
  }

  lemma NextQuarter(y: nat)
    requires y >= 1
    ensures y / 4 == (y - 1) / 4 + if y % 4 == 0 then 1 else 0
  {
  }

  lemma NextCentury(y: nat)
    requires y >= 1
    ensures y / 100 == (y - 1) / 100 + if y % 100 == 0 then 1 else 0
  {
  }

  lemma NextCycle(y: nat)
    requires y >= 1
    ensures y / 400 == (y - 1) / 400 + if y % 400 == 0 then 1 else 0
  {
  }

  lemma CenturyDivides(y: nat)
    requires y % 100 == 0
    ensures y % 4 == 0
  {
    FourTimes(25 * (y / 100));
  }

  lemma FourTimes(k: nat)
    ensures 4 * k % 4 == 0
  {
  }

  lemma CycleDivides(y: nat)
    requires y % 400 == 0
    ensures y % 100 == 0 && y % 4 == 0
  {
    HundredTimes(4 * (y / 400));
    FourTimes(100 * (y / 400));
  }

  lemma HundredTimes(k: nat)
    ensures 100 * k % 100 == 0
  {
  }

  /** The Gregorian calendar, by what is known of it: the day of the Unix epoch, 97 leap days in 400 years, 24 in the
      century that follows 1900, and the first days of the months. */
  lemma Gregorian(y: nat, m: nat)
    requires y >= 1 && 1 <= m <= 13
    ensures DaysBeforeYear(1970) == 719_162 && DaysBeforeYear(y + 400) == DaysBeforeYear(y) + 400 * 365 + 97
    ensures DaysBeforeYear(2000) == DaysBeforeYear(1900) + 100 * 365 + 24 && DaysBeforeYear(2001) == DaysBeforeYear(2000) + 366
    ensures DaysBeforeMonth(y, m) ==
      [0, 31, 59, 90, 120, 151, 181, 212, 243, 273, 304, 334, 365][m - 1] + if m > 2 then DaysBeforeYear(y + 1) - DaysBeforeYear(y) - 365 else 0
  {
    YearLength(y);
    MonthStarts(y, m);
    hide DaysBeforeMonth;
    CycleLength(y);
  }

  lemma CycleLength(y: nat)
    requires y >= 1
    ensures DaysBeforeYear(y + 400) == DaysBeforeYear(y) + 400 * 365 + 97
  {
    var past := y - 1;
    assert y + 400 - 1 == past + 400;
    QuartersOn(past);
    CenturiesOn(past);
    CyclesOn(past);
  }

  lemma QuartersOn(n: nat)
    ensures (n + 400) / 4 == n / 4 + 100
  {
  }

  lemma CenturiesOn(n: nat)
    ensures (n + 400) / 100 == n / 100 + 4
  {
  }

  lemma CyclesOn(n: nat)
    ensures (n + 400) / 400 == n / 400 + 1
  {
  }

  lemma {:induction false} MonthStarts(y: nat, m: nat)
    requires 1 <= m <= 13
    ensures DaysBeforeMonth(y, m) ==
      [0, 31, 59, 90, 120, 151, 181, 212, 243, 273, 304, 334, 365][m - 1] + if m > 2 && IsLeap(y) then 1 else 0
  {
    hide IsLeap;
    if m > 1 { MonthStarts(y, m - 1); }
  }

  lemma {:induction false} YearsIncrease(y: nat, z: nat)
    requires 1 <= y < z
    ensures DaysBeforeYear(y) + DaysBeforeMonth(y, 13) <= DaysBeforeYear(z)
    decreases z - y
  {
    hide DaysBeforeYear, DaysBeforeMonth;
    YearLength(y);
    if y + 1 < z { YearsIncrease(y + 1, z); }
  }

  lemma DayInYear(y: nat, m: nat, d: nat)
    requires y >= 1 && 1 <= m <= 12 && 1 <= d <= DaysInMonth(y, m)
    ensures DaysBeforeYear(y) <= DayNumber(y, m, d) < DaysBeforeYear(y) + DaysBeforeMonth(y, 13)
  {
    MonthsIncrease(y, m, 13);
  }

  lemma DaysOrdered(a: Moment, b: Moment)
    requires Valid(a) && Valid(b)
    requires a.year < b.year || (a.year == b.year && a.month < b.month)
    ensures DayNumber(a.year, a.month, a.day) < DayNumber(b.year, b.month, b.day)
  {
    DayInYear(a.year, a.month, a.day);
    DayInYear(b.year, b.month, b.day);
    if a.year < b.year {
      YearsIncrease(a.year, b.year);
    } else {
      MonthsIncrease(a.year, a.month, b.month);
    }
  }

  lemma TimeOfDayBounded(c: Moment)
    requires Valid(c)
    ensures TimeOfDay(c) < DAY
  {
  }

  lemma EarlierIsLess(a: Moment, b: Moment)
    requires Valid(a) && Valid(b) && Earlier(a, b)
    ensures Micros(a) < Micros(b)
  {
    TimeOfDayBounded(a);
    TimeOfDayBounded(b);
    hide DaysBeforeMonth, DaysBeforeYear;
    if a.year < b.year || (a.year == b.year && a.month < b.month) {
      hide TimeOfDay;
      DaysOrdered(a, b);
    }
  }

  /** Comparing the fields compares the instants. */
  lemma EarlierExactly(a: Moment, b: Moment)
    requires Valid(a) && Valid(b)
    ensures Earlier(a, b) <==> Micros(a) < Micros(b)
  {
    if Earlier(a, b) { EarlierIsLess(a, b); }
    else if Earlier(b, a) { EarlierIsLess(b, a); }
    else { assert a == b; }
  }

  // ---------------------------------------------------------------- adding a duration

  function YearFrom(day: nat, y: nat): (r: nat)
    requires 1 <= y <= 9999 && DaysBeforeYear(y) <= day < DaysBeforeYear(10000)
    ensures y <= r <= 9999 && DaysBeforeYear(r) <= day < DaysBeforeYear(r + 1)
    decreases 9999 - y
  {
    if day < DaysBeforeYear(y + 1) then y else YearFrom(day, y + 1)
  }

  function MonthFrom(y: nat, day: nat, m: nat): (r: nat)
    requires 1 <= m <= 12 && DaysBeforeMonth(y, m) <= day < DaysBeforeMonth(y, 13)
    ensures m <= r <= 12 && DaysBeforeMonth(y, r) <= day < DaysBeforeMonth(y, r + 1)
    decreases 12 - m
  {
    if day < DaysBeforeMonth(y, m + 1) then m else MonthFrom(y, day, m + 1)
  }

  function DateAt(day: nat): (c: Moment)
    requires day < DaysBeforeYear(10000)
    ensures Valid(c) && DayNumber(c.year, c.month, c.day) == day && TimeOfDay(c) == 0
  {
    var year := YearFrom(day, 1);
    YearLength(year);
    var rest := day - DaysBeforeYear(year);
    hide DaysBeforeYear, DaysBeforeMonth;
    assert DaysBeforeMonth(year, 1) == 0 by { FirstMonth(year); }
    var month := MonthFrom(year, rest, 1);
    MonthLength(year, month);
    Moment(year, month, rest - DaysBeforeMonth(year, month) + 1, 0, 0, 0, 0)
  }

  lemma FirstMonth(y: nat)
    ensures DaysBeforeMonth(y, 1) == 0
  {
  }

  lemma MonthLength(y: nat, m: nat)
    requires 1 <= m <= 12
    ensures DaysBeforeMonth(y, m + 1) == DaysBeforeMonth(y, m) + DaysInMonth(y, m)
  {
  }

  function WithTime(date: Moment, time: nat): (c: Moment)
    requires Valid(date) && time < DAY
    ensures Valid(c) && TimeOfDay(c) == time
    ensures c.year == date.year && c.month == date.month && c.day == date.day
  {
    hide DaysInMonth;
    var seconds := time / 1_000_000;
    date.(hour := seconds / 3600, minute := seconds / 60 % 60, second := seconds % 60, micro := time % 1_000_000)
  }

  /** The moment that lies `t` microseconds after the first moment of year 1. */
  function MomentAt(t: nat): (c: Moment)
    requires t < DaysBeforeYear(10000) * DAY
    ensures Valid(c) && Micros(c) == t
  {
    WithTime(DateAt(t / DAY), t % DAY)
  }

  /** `c + timedelta(seconds=s)`; `None` is Python's `OverflowError`. */
  function PlusSeconds(c: Moment, s: nat): (r: Option<Moment>)
    requires Valid(c)
    ensures r.Some? ==> Valid(r.value) && Micros(r.value) == Micros(c) + s * 1_000_000
  {
    var t := Micros(c) + s * 1_000_000;
    if t < DaysBeforeYear(10000) * DAY then Some(MomentAt(t)) else None
  }

  // ---------------------------------------------------------------- fixed-width text

  function Pow10(w: nat): nat { if w == 0 then 1 else 10 * Pow10(w - 1) }

  function Digit(n: nat): char
    requires n < 10
  {
    '0' + n as char
  }

  /** The last `w` decimal digits of `n`. */
  function Pad(n: nat, w: nat): (t: string)
    ensures |t| == w
  {
    if w == 0 then "" else Pad(n / 10, w - 1) + [Digit(n % 10)]
  }

  function Number(t: string): Option<nat> {
    if t == "" then Some(0) else
      var last := t[|t| - 1];
      match Number(t[..|t| - 1])
      case None => None
      case Some(n) => if '0' <= last <= '9' then Some(10 * n + (last as int - '0' as int)) else None
  }

  lemma {:induction false} NumberOfPad(n: nat, w: nat)
    requires n < Pow10(w)
    ensures Number(Pad(n, w)) == Some(n)
  {
    if w > 0 {
      NumberOfPad(n / 10, w - 1);
      var t := Pad(n, w);
      assert t[..w - 1] == Pad(n / 10, w - 1);
    }
  }

  /** The first difference between two equally long heads decides; equal heads leave it to the tails. */
  lemma {:induction false} LessConcat(p: string, q: string, a: string, b: string)
    requires |p| == |q|
    ensures Less(p + a, q + b) <==> Less(p, q) || (p == q && Less(a, b))
  {
    if p == "" {
      assert p + a == a && q + b == b;
    } else {
      LessConcat(p[1..], q[1..], a, b);
      assert (p + a)[1..] == p[1..] + a && (q + b)[1..] == q[1..] + b;
      assert p == [p[0]] + p[1..] && q == [q[0]] + q[1..];
    }
  }

  lemma {:induction false} PadOrder(m: nat, n: nat, w: nat)
    requires m < Pow10(w) && n < Pow10(w)
    ensures Less(Pad(m, w), Pad(n, w)) <==> m < n
  {
    if w > 0 {
      PadOrder(m / 10, n / 10, w - 1);
      var p, q := Pad(m / 10, w - 1), Pad(n / 10, w - 1);
      if m / 10 == n / 10 {
        LessTrichotomy(p, q);
      } else if p == q {
        NumberOfPad(m / 10, w - 1);
        NumberOfPad(n / 10, w - 1);
      }
      LessConcat(p, q, [Digit(m % 10)], [Digit(n % 10)]);
      assert Less([Digit(m % 10)], [Digit(n % 10)]) <==> m % 10 < n % 10 by {
        assert !Less("", "");
      }
    }
  }

  function Field(n: nat, w: nat, separator: char, rest: string): string { Pad(n, w) + ([separator] + rest) }

  /** Two texts that start with a field of one width are ordered by the field, then by what follows. */
  lemma FieldOrder(m: nat, n: nat, w: nat, separator: char, a: string, b: string)
    requires m < Pow10(w) && n < Pow10(w)
    ensures Less(Field(m, w, separator, a), Field(n, w, separator, b)) <==> m < n || (m == n && Less(a, b))
  {
    PadOrder(m, n, w);
    LessConcat(Pad(m, w), Pad(n, w), [separator] + a, [separator] + b);
    LessAfterCommonPrefix([separator], a, b);
    if Pad(m, w) == Pad(n, w) {
      NumberOfPad(m, w);
      NumberOfPad(n, w);
    }
  }

  /** Read one field and the separator after it. */
  function TakeField(t: string, w: nat, separator: char): Option<(nat, string)> {
    if |t| <= w || t[w] != separator then None else
      match Number(t[..w])
      case None => None
      case Some(n) => Some((n, t[w + 1..]))
  }

  lemma TakeFieldBack(n: nat, w: nat, separator: char, rest: string)
    requires n < Pow10(w)
    ensures TakeField(Field(n, w, separator, rest), w, separator) == Some((n, rest))
  {
    NumberOfPad(n, w);
    var t := Field(n, w, separator, rest);
    assert t[..w] == Pad(n, w) && t[w + 1..] == rest;
  }

  // ---------------------------------------------------------------- `_timestamp` and `_coerce_datetime`

  function DateText(c: Moment, rest: string): string {
    Field(c.year, 4, '-', Field(c.month, 2, '-', Field(c.day, 2, 'T', rest)))
  }

  function TimeText(c: Moment): string {
    Field(c.hour, 2, ':', Field(c.minute, 2, ':', Field(c.second, 2, '.', Field(c.micro / 1000, 3, 'Z', ""))))
  }

  /** `_timestamp`: `YYYY-MM-DDTHH:MM:SS.mmmZ`, the microseconds cut to milliseconds. */
  function Stamp(c: Moment): string { DateText(c, TimeText(c)) }

  /** A time is written as numbers of fixed width with marks between them. */
  lemma StampText(c: Moment)
    requires Valid(c)
    ensures |Stamp(c)| == 24
    ensures var t := Stamp(c);
      t[4] == '-' && t[7] == '-' && t[10] == 'T' && t[13] == ':' && t[16] == ':' && t[19] == '.' && t[23] == 'Z'
    ensures var t := Stamp(c);
      && Number(t[..4]) == Some(c.year) && Number(t[5..7]) == Some(c.month) && Number(t[8..10]) == Some(c.day)
      && Number(t[11..13]) == Some(c.hour) && Number(t[14..16]) == Some(c.minute) && Number(t[17..19]) == Some(c.second)
      && Number(t[20..23]) == Some(c.micro / 1000)
  {
    Powers();
    hide Pow10, Number, Pad, DaysInMonth;
    var t7 := Field(c.micro / 1000, 3, 'Z', "");
    var t6 := Field(c.second, 2, '.', t7);
    var t5 := Field(c.minute, 2, ':', t6);
    var t4 := Field(c.hour, 2, ':', t5);
    var t3 := Field(c.day, 2, 'T', t4);
    var t2 := Field(c.month, 2, '-', t3);
    var t := Stamp(c);
    assert c.day <= 31;
    FieldPlace(t, 0, c.year, 4, '-', t2);
    FieldPlace(t, 5, c.month, 2, '-', t3);
    FieldPlace(t, 8, c.day, 2, 'T', t4);
    FieldPlace(t, 11, c.hour, 2, ':', t5);
    FieldPlace(t, 14, c.minute, 2, ':', t6);
    FieldPlace(t, 17, c.second, 2, '.', t7);
    FieldPlace(t, 20, c.micro / 1000, 3, 'Z', "");
  }

  lemma FieldPlace(t: string, i: nat, n: nat, w: nat, separator: char, rest: string)
    requires i <= |t| && t[i..] == Field(n, w, separator, rest) && n < Pow10(w)
    ensures i + w < |t| && Number(t[i..i + w]) == Some(n) && t[i + w] == separator && t[i + w + 1..] == rest
  {
    hide Number, Pad, Pow10;
    NumberOfPad(n, w);
    assert t[i..][..w] == t[i..i + w] == Pad(n, w);
    assert t[i..][w] == separator && t[i..][w + 1..] == rest;
  }

  function ParseDate(t: string): Option<(nat, nat, nat, string)> {
    match TakeField(t, 4, '-') case None => None case Some((year, t1)) =>
    match TakeField(t1, 2, '-') case None => None case Some((month, t2)) =>
    match TakeField(t2, 2, 'T') case None => None case Some((day, t3)) => Some((year, month, day, t3))
  }

  function ParseTime(t: string): Option<(nat, nat, nat, nat)> {
    match TakeField(t, 2, ':') case None => None case Some((hour, t1)) =>
    match TakeField(t1, 2, ':') case None => None case Some((minute, t2)) =>
    match TakeField(t2, 2, '.') case None => None case Some((second, t3)) =>
    match TakeField(t3, 3, 'Z') case None => None case Some((milli, t4)) =>
      if t4 == "" then Some((hour, minute, second, milli)) else None
  }

  /** `_coerce_datetime` on texts of that form. */
  function ParseStamp(t: string): Option<Moment> {
    match ParseDate(t) case None => None case Some((year, month, day, rest)) =>
    match ParseTime(rest) case None => None case Some((hour, minute, second, milli)) =>
      var c := Moment(year, month, day, hour, minute, second, milli * 1000);
      if Valid(c) then Some(c) else None
  }

  /** The millisecond that holds a moment. */
  function Truncated(c: Moment): Moment { c.(micro := c.micro / 1000 * 1000) }

  lemma Powers()
    ensures Pow10(2) == 100 && Pow10(3) == 1000 && Pow10(4) == 10000
  {
    assert Pow10(1) == 10;
  }

  lemma DateBack(c: Moment, rest: string)
    requires Valid(c)
    ensures ParseDate(DateText(c, rest)) == Some((c.year, c.month, c.day, rest))
  {
    hide TakeField, Field;
    Powers();
    hide Pow10;
    var t2 := Field(c.day, 2, 'T', rest);
    var t1 := Field(c.month, 2, '-', t2);
    TakeFieldBack(c.day, 2, 'T', rest);
    TakeFieldBack(c.month, 2, '-', t2);
    TakeFieldBack(c.year, 4, '-', t1);
  }

  lemma TimeBack(c: Moment)
    requires Valid(c)
    ensures ParseTime(TimeText(c)) == Some((c.hour, c.minute, c.second, c.micro / 1000))
  {
    hide TakeField, Field;
    Powers();
    hide Pow10;
    var t3 := Field(c.micro / 1000, 3, 'Z', "");
    var t2 := Field(c.second, 2, '.', t3);
    var t1 := Field(c.minute, 2, ':', t2);
    TakeFieldBack(c.micro / 1000, 3, 'Z', "");
    TakeFieldBack(c.second, 2, '.', t3);
    TakeFieldBack(c.minute, 2, ':', t2);
    TakeFieldBack(c.hour, 2, ':', t1);
  }

  lemma TruncatedValid(c: Moment)
    requires Valid(c)
    ensures Valid(Truncated(c)) && Micros(Truncated(c)) == Micros(c) / 1000 * 1000
  {
    hide DaysInMonth, DayNumber;
    var days, seconds := DayNumber(c.year, c.month, c.day), (c.hour * 60 + c.minute) * 60 + c.second;
    CutThrough(days * 86_400_000 + seconds * 1000, c.micro);
  }

  lemma CutThrough(k: nat, n: nat)
    ensures n / 1000 * 1000 <= n && (1000 * k + n) / 1000 * 1000 == 1000 * k + n / 1000 * 1000
  {
  }

  /** Writing a time and reading it back cuts it to its millisecond, and nothing else. */
  lemma ParseAfterStamp(c: Moment)
    requires Valid(c)
    ensures ParseStamp(Stamp(c)) == Some(Truncated(c))
    ensures Valid(Truncated(c)) && Micros(Truncated(c)) == Micros(c) / 1000 * 1000
  {
    hide ParseDate, ParseTime, DateText, TimeText, Micros, Valid;
    DateBack(c, TimeText(c));
    TimeBack(c);
    TruncatedValid(c);
  }

  /** The texts sort as the times they stand for: comparing them in SQL compares the milliseconds. */
  lemma StampOrder(a: Moment, b: Moment)
    requires Valid(a) && Valid(b)
    ensures Less(Stamp(a), Stamp(b)) <==> Earlier(Truncated(a), Truncated(b))
  {
    hide Field, Less;
    Powers();
    hide Pow10;
    var a7, b7 := Field(a.micro / 1000, 3, 'Z', ""), Field(b.micro / 1000, 3, 'Z', "");
    var a6, b6 := Field(a.second, 2, '.', a7), Field(b.second, 2, '.', b7);
    var a5, b5 := Field(a.minute, 2, ':', a6), Field(b.minute, 2, ':', b6);
    var a4, b4 := Field(a.hour, 2, ':', a5), Field(b.hour, 2, ':', b5);
    var a3, b3 := Field(a.day, 2, 'T', a4), Field(b.day, 2, 'T', b4);
    var a2, b2 := Field(a.month, 2, '-', a3), Field(b.month, 2, '-', b3);
    LessTrichotomy("", "");
    FieldOrder(a.micro / 1000, b.micro / 1000, 3, 'Z', "", "");
    FieldOrder(a.second, b.second, 2, '.', a7, b7);
    FieldOrder(a.minute, b.minute, 2, ':', a6, b6);
    FieldOrder(a.hour, b.hour, 2, ':', a5, b5);
    FieldOrder(a.day, b.day, 2, 'T', a4, b4);
    FieldOrder(a.month, b.month, 2, '-', a3, b3);
    FieldOrder(a.year, b.year, 4, '-', a2, b2);
  }

  // ---------------------------------------------------------------- leases

  /** `is_lease_stale` for a stored expiry text: the parsed expiry is not after `now`. */
  predicate IsStale(expires: string, now: Moment) {
    ParseStamp(expires).Some? && !Earlier(now, ParseStamp(expires).value)
  }

  /** The SQL test of `list_stale_leases` on the same text. */
  predicate ListedStale(expires: string, now: Moment) { AtMost(expires, Stamp(now)) }

  /** `list_stale_leases` selects exactly the leases that `is_lease_stale` calls stale. */
  lemma StaleTestsAgree(expiry: Moment, now: Moment)
    requires Valid(expiry) && Valid(now)
    ensures ListedStale(Stamp(expiry), now) <==> IsStale(Stamp(expiry), now)
  {
    hide Stamp, ParseStamp, Earlier, Less, Micros;
    ParseAfterStamp(expiry);
    ParseAfterStamp(now);
    StampOrder(expiry, now);
    StampOrder(now, expiry);
    EarlierExactly(now, Truncated(expiry));
    EarlierExactly(Truncated(expiry), Truncated(now));
    EarlierExactly(Truncated(now), Truncated(expiry));
    LessTrichotomy(Stamp(expiry), Stamp(now));
    if Stamp(expiry) == Stamp(now) {
      assert Truncated(expiry) == Truncated(now);
    }
  }

  /** A lease granted for `s` seconds, as it is read back, lasts more than `s` seconds less one
      millisecond and at most `s` seconds. */
  lemma GrantedLease(now: Moment, s: nat)
    requires Valid(now) && PlusSeconds(now, s).Some?
    ensures ParseStamp(Stamp(PlusSeconds(now, s).value)).Some?
    ensures var expiry := ParseStamp(Stamp(PlusSeconds(now, s).value)).value;
      Valid(expiry) && Micros(now) + s * 1_000_000 - 1000 < Micros(expiry) <= Micros(now) + s * 1_000_000
    ensures var expiry := ParseStamp(Stamp(PlusSeconds(now, s).value)).value;
      Micros(expiry) == (Micros(now) + s * 1_000_000) / 1000 * 1000
  {
    hide Stamp, ParseStamp, Micros;
    ParseAfterStamp(PlusSeconds(now, s).value);
  }
}
