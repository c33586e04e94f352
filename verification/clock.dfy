/**
 * Time and date strings as the application handles them: "HH:MM" times turned
 * into minutes past midnight, zero-padded "HH:MM" labels for the day grids,
 * "YYYY-MM-DD" date keys built from local calendar fields, and the weekday of a
 * date key (Sunday = 0) in the proleptic Gregorian calendar.
 *
 * A JavaScript number that may be NaN is a `Num`: `None` stands for NaN. Every
 * comparison with NaN is false and NaN plus anything is NaN.
 */
module Clock {
  import opened Wrappers

  type Num = Option<int>

  /** `a < b` on JavaScript numbers. */
  predicate Lt(a: Num, b: Num) {
    a.Some? && b.Some? && a.value < b.value
  }

  /** `a <= b` on JavaScript numbers. */
  predicate Le(a: Num, b: Num) {
    a.Some? && b.Some? && a.value <= b.value
  }

  /** `a + d` on a JavaScript number. */
  function Plus(a: Num, d: int): (r: Num)
    ensures r.Some? <==> a.Some?
  {
    match a
    case Some(x) => Some(x + d)
    case None => None
  }

  // ---------------------------------------------------------------------------
  // Decimal digits

  predicate IsDigit(c: char) {
    '0' <= c <= '9'
  }

  predicate AllDigits(s: string) {
    forall i :: 0 <= i < |s| ==> IsDigit(s[i])
  }

  /** The value of a string of decimal digits, most significant first; "" is 0. */
  function DigitsValue(s: string): nat
    requires AllDigits(s)
  {
    if s == [] then 0
    else 10 * DigitsValue(s[..|s| - 1]) + (s[|s| - 1] as int - '0' as int)
  }

  /**
   * `Number(s)` for the strings the application produces: a run of decimal
   * digits (the empty string converts to 0). Any other text is NaN here.
   */
  function NumberOf(s: string): Num {
    if AllDigits(s) then Some(DigitsValue(s)) else None
  }

  function DigitChar(d: nat): (c: char)
    requires d < 10
    ensures IsDigit(c) && c as int - '0' as int == d
  {
    ('0' as int + d) as char
  }

  /** `n.toString()`: the shortest decimal numeral of `n`. */
  function ShowNat(n: nat): (s: string)
    ensures 1 <= |s| && AllDigits(s) && DigitsValue(s) == n
  {
    if n < 10 then [DigitChar(n)]
    else
      var s := ShowNat(n / 10) + [DigitChar(n % 10)];
      assert s[..|s| - 1] == ShowNat(n / 10);
      s
  }

  lemma ShowNatLength(n: nat)
    ensures n < 10 ==> |ShowNat(n)| == 1
    ensures 10 <= n < 100 ==> |ShowNat(n)| == 2
    ensures 100 <= n < 1000 ==> |ShowNat(n)| == 3
    ensures 1000 <= n < 10000 ==> |ShowNat(n)| == 4
  {
    if n >= 10 {
      ShowNatLength(n / 10);
    }
  }

  /** `s.padStart(2, '0')`. */
  function PadStart2(s: string): (r: string)
    ensures |r| == if |s| >= 2 then |s| else 2
    ensures AllDigits(s) ==> AllDigits(r)
  {
    if |s| >= 2 then s else seq(2 - |s|, _ => '0') + s
  }

  /** Leading zeros do not change the value of a numeral. */
  lemma {:induction false} LeadingZeros(z: nat, s: string)
    requires AllDigits(s)
    ensures AllDigits(seq(z, _ => '0') + s)
    ensures DigitsValue(seq(z, _ => '0') + s) == DigitsValue(s)
  {
    var t := seq(z, _ => '0') + s;
    if s == [] {
      assert t == seq(z, _ => '0');
      ZerosValue(z);
    } else {
      var init := s[..|s| - 1];
      LeadingZeros(z, init);
      assert t[..|t| - 1] == seq(z, _ => '0') + init;
      assert t[|t| - 1] == s[|s| - 1];
    }
  }

  lemma {:induction false} ZerosValue(z: nat)
    ensures AllDigits(seq(z, _ => '0')) && DigitsValue(seq(z, _ => '0')) == 0
  {
    if z > 0 {
      ZerosValue(z - 1);
      assert seq(z, _ => '0')[..z - 1] == seq(z - 1, _ => '0');
    }
  }

  lemma PadStart2Value(s: string)
    requires AllDigits(s)
    ensures AllDigits(PadStart2(s)) && DigitsValue(PadStart2(s)) == DigitsValue(s)
  {
    if |s| < 2 {
      LeadingZeros(2 - |s|, s);
    }
  }

  // ---------------------------------------------------------------------------
  // "HH:MM"

  /** `s.split(sep)`: the pieces between separators; always at least one. */
  function Split(s: string, sep: char): (parts: seq<string>)
    ensures |parts| >= 1
  {
    if s == [] then [""]
    else
      var rest := Split(s[1..], sep);
      if s[0] == sep then [""] + rest else [[s[0]] + rest[0]] + rest[1..]
  }

  lemma {:induction false} SplitNoSep(s: string, sep: char)
    requires sep !in s
    ensures Split(s, sep) == [s]
  {
    if s != [] {
      SplitNoSep(s[1..], sep);
      assert [s[0]] + s[1..] == s;
    }
  }

  lemma {:induction false} SplitAt(a: string, b: string, sep: char)
    requires sep !in a
    ensures Split(a + [sep] + b, sep) == [a] + Split(b, sep)
  {
    if a == [] {
      assert a + [sep] + b == [sep] + b;
      assert ([sep] + b)[1..] == b;
    } else {
      assert (a + [sep] + b)[1..] == a[1..] + [sep] + b;
      SplitAt(a[1..], b, sep);
      assert [a[0]] + a[1..] == a;
    }
  }

  /**
   * The minutes-past-midnight of a time string, exactly as
   * `const [h, m] = t.split(':').map(Number); return h * 60 + m;` computes it:
   * NaN when there is no ':' (m is undefined) or a piece is not a numeral;
   * anything after a second ':' is ignored.
   */
  function ToMinutes(t: string): Num {
    var parts := Split(t, ':');
    if |parts| < 2 then None
    else
      match (NumberOf(parts[0]), NumberOf(parts[1]))
      case (Some(h), Some(m)) => Some(h * 60 + m)
      case _ => None
  }

  /** Two numerals joined by ':' read back as hours and minutes. */
  lemma ToMinutesOfNumerals(a: string, b: string)
    requires AllDigits(a) && AllDigits(b)
    ensures ToMinutes(a + ":" + b) == Some(DigitsValue(a) * 60 + DigitsValue(b))
  {
    NoSeparator(a);
    NoSeparator(b);
    assert a + ":" + b == a + [':'] + b;
    SplitAt(a, b, ':');
    SplitNoSep(b, ':');
    assert [a] + [b] == [a, b];
    ToMinutesOfParts(a + ":" + b, a, b);
  }

  lemma ToMinutesOfParts(t: string, a: string, b: string)
    requires AllDigits(a) && AllDigits(b)
    requires Split(t, ':') == [a, b]
    ensures ToMinutes(t) == Some(DigitsValue(a) * 60 + DigitsValue(b))
  {
    var parts := Split(t, ':');
    assert |parts| == 2 && parts[0] == a && parts[1] == b;
    assert NumberOf(a) == Some(DigitsValue(a)) && NumberOf(b) == Some(DigitsValue(b));
  }

  lemma NoSeparator(a: string)
    requires AllDigits(a)
    ensures ':' !in a
  {
    forall i | 0 <= i < |a| ensures a[i] != ':' {
      assert IsDigit(a[i]);
    }
  }

  /** `${h.toString().padStart(2, '0')}:${m.toString().padStart(2, '0')}`. */
  function Hhmm(h: nat, m: nat): string {
    PadStart2(ShowNat(h)) + ":" + PadStart2(ShowNat(m))
  }

  /** Formatting a time and reading it back gives its minutes. */
  lemma HhmmRoundTrip(h: nat, m: nat)
    ensures ToMinutes(Hhmm(h, m)) == Some(h * 60 + m)
  {
    PadStart2Value(ShowNat(h));
    PadStart2Value(ShowNat(m));
    ToMinutesOfNumerals(PadStart2(ShowNat(h)), PadStart2(ShowNat(m)));
  }

  /** The shape every stored time has: two digits, ':', two digits (the value is not bounded). */
  predicate IsHhmm(t: string) {
    |t| == 5 && t[2] == ':' && IsDigit(t[0]) && IsDigit(t[1]) && IsDigit(t[3]) && IsDigit(t[4])
  }

  lemma HhmmShape(h: nat, m: nat)
    requires h < 100 && m < 100
    ensures IsHhmm(Hhmm(h, m))
  {
    ShowNatLength(h);
    ShowNatLength(m);
  }

  /** A well-formed time always parses. */
  lemma IsHhmmParses(t: string)
    requires IsHhmm(t)
    ensures ToMinutes(t).Some?
  {
    assert t == t[..2] + ":" + t[3..];
    assert AllDigits(t[..2]) && AllDigits(t[3..]);
    ToMinutesOfNumerals(t[..2], t[3..]);
  }

  // ---------------------------------------------------------------------------
  // "YYYY-MM-DD"

  predicate IsLeapYear(y: int) {
    (y % 4 == 0 && y % 100 != 0) || y % 400 == 0
  }

  function DaysInMonth(y: int, m: int): int
    requires 1 <= m <= 12
  {
    if m == 2 then (if IsLeapYear(y) then 29 else 28)
    else if m == 4 || m == 6 || m == 9 || m == 11 then 30
    else 31
  }

  predicate ValidDate(y: int, m: int, d: int) {
    1 <= m <= 12 && 1 <= d <= DaysInMonth(y, m)
  }

  /** A date key "YYYY-MM-DD" naming a real calendar day, as year, month (1-12) and day. */
  function ParseDateKey(s: string): (r: Option<(int, int, int)>)
    ensures r.Some? ==> ValidDate(r.value.0, r.value.1, r.value.2)
  {
    if |s| == 10 && s[4] == '-' && s[7] == '-'
       && AllDigits(s[..4]) && AllDigits(s[5..7]) && AllDigits(s[8..])
       && ValidDate(DigitsValue(s[..4]), DigitsValue(s[5..7]), DigitsValue(s[8..]))
    then Some((DigitsValue(s[..4]), DigitsValue(s[5..7]), DigitsValue(s[8..])))
    else None
  }

  /** Days a year contributes to the weekday count, leap days included. */
  function YearShift(yy: int): int {
    yy + yy / 4 - yy / 100 + yy / 400
  }

  /** The month offsets of Sakamoto's method. */
  function MonthOffset(m: int): int
    requires 1 <= m <= 12
  {
    [0, 3, 2, 5, 0, 3, 5, 1, 4, 6, 2, 4][m - 1]
  }

  /** Sunday = 0 for a valid proleptic Gregorian date (Sakamoto's method). */
  function DayOfWeek(y: int, m: int, d: int): (w: int)
    requires 1 <= m <= 12
    ensures 0 <= w < 7
  {
    var yy := if m < 3 then y - 1 else y;
    (YearShift(yy) + MonthOffset(m) + d) % 7
  }

  /**
   * `new Date(date + 'T00:00:00').getDay()`: the local weekday of a date key,
   * NaN for a string that does not name a calendar day.
   */
  function WeekDayOf(date: string): (w: Num)
    ensures w.Some? ==> 0 <= w.value < 7
    ensures w.Some? <==> ParseDateKey(date).Some?
  {
    match ParseDateKey(date)
    case Some((y, m, d)) => Some(DayOfWeek(y, m, d))
    case None => None
  }

  /** The day after a valid date. */
  function NextDay(y: int, m: int, d: int): (r: (int, int, int))
    requires ValidDate(y, m, d)
    ensures ValidDate(r.0, r.1, r.2)
  {
    if d < DaysInMonth(y, m) then (y, m, d + 1)
    else if m < 12 then (y, m + 1, 1)
    else (y + 1, 1, 1)
  }

  /** How many multiples of 4, 100 and 400 a year adds to the running count. */
  lemma FloorSteps(y: int)
    ensures y / 4 - (y - 1) / 4 == if y % 4 == 0 then 1 else 0
    ensures y / 100 - (y - 1) / 100 == if y % 100 == 0 then 1 else 0
    ensures y / 400 - (y - 1) / 400 == if y % 400 == 0 then 1 else 0
  {
  }

  /** Consecutive calendar days have consecutive weekdays. */
  lemma DayOfWeekNext(y: int, m: int, d: int)
    requires ValidDate(y, m, d)
    ensures DayOfWeek(NextDay(y, m, d).0, NextDay(y, m, d).1, NextDay(y, m, d).2)
            == (DayOfWeek(y, m, d) + 1) % 7
  {
    if d < DaysInMonth(y, m) {
      WeekdayStep(y, m, d, y, m, d + 1);
    } else if m == 2 {
      FebruaryEnd(y);
    } else if m == 12 {
      WeekdayStep(y, 12, 31, y + 1, 1, 1);
    } else {
      MonthEnd(y, m);
    }
  }

  /** Two dates whose Sakamoto counts differ by one modulo 7 are a weekday apart. */
  lemma WeekdayStep(y: int, m: int, d: int, y2: int, m2: int, d2: int)
    requires 1 <= m <= 12 && 1 <= m2 <= 12
    requires (YearShift(if m2 < 3 then y2 - 1 else y2) + MonthOffset(m2) + d2
              - (YearShift(if m < 3 then y - 1 else y) + MonthOffset(m) + d) - 1) % 7 == 0
    ensures DayOfWeek(y2, m2, d2) == (DayOfWeek(y, m, d) + 1) % 7
  {
  }

  /** March is the first month counted against the new year, leap day included. */
  lemma FebruaryEnd(y: int)
    ensures DayOfWeek(y, 3, 1) == (DayOfWeek(y, 2, DaysInMonth(y, 2)) + 1) % 7
  {
    FloorSteps(y);
    assert YearShift(y) == YearShift(y - 1) + 1 + (if IsLeapYear(y) then 1 else 0);
    WeekdayStep(y, 2, DaysInMonth(y, 2), y, 3, 1);
  }

  /** Outside February and December, the next month's offset absorbs this month's length. */
  lemma MonthEnd(y: int, m: int)
    requires 1 <= m < 12 && m != 2
    ensures DayOfWeek(y, m + 1, 1) == (DayOfWeek(y, m, DaysInMonth(y, m)) + 1) % 7
  {
    WeekdayStep(y, m, DaysInMonth(y, m), y, m + 1, 1);
  }

  /**
   * `formatDateToLocalISO`: `${year}-${pad2(month + 1)}-${pad2(day)}` from the
   * local calendar fields of a date (`month0` is `getMonth()`, 0-11).
   */
  function DateKey(year: nat, month0: nat, day: nat): string {
    ShowNat(year) + "-" + PadStart2(ShowNat(month0 + 1)) + "-" + PadStart2(ShowNat(day))
  }

  /** Where the parts of a "YYYY-MM-DD" key sit. */
  lemma KeyFields(ys: string, ms: string, ds: string)
    requires |ys| == 4 && |ms| == 2 && |ds| == 2
    ensures var s := ys + "-" + ms + "-" + ds;
            |s| == 10 && s[4] == '-' && s[7] == '-' && s[..4] == ys && s[5..7] == ms && s[8..] == ds
  {
    var s := ys + "-" + ms + "-" + ds;
    assert s[..4] == ys;
    assert s[5..7] == ms;
    assert s[8..] == ds;
  }

  /** A key built from the calendar fields of a four-digit-year date reads back as that date. */
  lemma DateKeyRoundTrip(year: nat, month0: nat, day: nat)
    requires 1000 <= year <= 9999 && ValidDate(year, month0 + 1, day)
    ensures |DateKey(year, month0, day)| == 10
    ensures ParseDateKey(DateKey(year, month0, day)) == Some((year, month0 + 1, day))
  {
    var ys, ms, ds := ShowNat(year), PadStart2(ShowNat(month0 + 1)), PadStart2(ShowNat(day));
    ShowNatLength(year);
    ShowNatLength(month0 + 1);
    ShowNatLength(day);
    PadStart2Value(ShowNat(month0 + 1));
    PadStart2Value(ShowNat(day));
    KeyFields(ys, ms, ds);
  }

  /** 7 January 2024 was a Sunday, the weekday `getDay()` numbers 0, and so is its key's. */
  lemma KnownSunday()
    ensures DayOfWeek(2024, 1, 7) == 0
    ensures WeekDayOf(DateKey(2024, 0, 7)) == Some(0)
  {
    DateKeyRoundTrip(2024, 0, 7);
  }

  /**
   * Keys of consecutive days have consecutive weekdays, modulo 7: with
   * `KnownSunday` this fixes the weekday of every key.
   */
  lemma WeekDayOfNextKey(key: string, nextKey: string)
    requires ParseDateKey(key).Some?
    requires ParseDateKey(nextKey) == Some(NextDay(ParseDateKey(key).value.0, ParseDateKey(key).value.1, ParseDateKey(key).value.2))
    ensures WeekDayOf(key).Some? && WeekDayOf(nextKey) == Some((WeekDayOf(key).value + 1) % 7)
  {
    var (y, m, d) := ParseDateKey(key).value;
    DayOfWeekNext(y, m, d);
  }
}
