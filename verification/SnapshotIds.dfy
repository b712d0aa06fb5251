/**
 * Snapshot IDs of banana_backup/store.py: dates in two formats, ordered as text, made strictly increasing.
 */
module SnapshotIds {
  import opened Basics
  import opened Texts

  // ----- dates -----------------------------------------------------------------------------------

  datatype Moment = Moment(year: nat, month: nat, day: nat, hour: nat, minute: nat, second: nat, micro: nat)

  predicate Leap(y: nat) {
    y % 4 == 0 && (y % 100 != 0 || y % 400 == 0)
  }

  function DaysIn(y: nat, m: nat): nat {
    if m == 2 then if Leap(y) then 29 else 28
    else if m == 4 || m == 6 || m == 9 || m == 11 then 30
    else 31
  }

  predicate Valid(t: Moment) {
    && 1 <= t.year <= 9999 && 1 <= t.month <= 12 && 1 <= t.day <= DaysIn(t.year, t.month)
    && t.hour < 24 && t.minute < 60 && t.second < 60 && t.micro < 1_000_000
  }

  /** Days before January 1st of year `y`. */
  function DaysBeforeYear(y: nat): int {
    (y - 1) * 365 + (y - 1) / 4 - (y - 1) / 100 + (y - 1) / 400
  }

  function DaysBeforeMonth(y: nat, m: nat): nat {
    if m <= 1 then 0 else DaysBeforeMonth(y, m - 1) + DaysIn(y, m - 1)
  }

  function DayNumber(t: Moment): int {
    DaysBeforeYear(t.year) + DaysBeforeMonth(t.year, t.month) + t.day - 1
  }

  /** Microseconds since the year 1. */
  function Micros(t: Moment): int {
    (((DayNumber(t) * 24 + t.hour) * 60 + t.minute) * 60 + t.second) * 1_000_000 + t.micro
  }

  /** Dates as tuples. */
  predicate Earlier(a: Moment, b: Moment) {
    || a.year < b.year
    || (a.year == b.year && a.month < b.month)
    || (a.year == b.year && a.month == b.month && a.day < b.day)
    || (a.year == b.year && a.month == b.month && a.day == b.day && SecondsOfDay(a) < SecondsOfDay(b))
    || (a.year == b.year && a.month == b.month && a.day == b.day && SecondsOfDay(a) == SecondsOfDay(b) && a.micro < b.micro)
  }

  function SecondsOfDay(t: Moment): nat {
    (t.hour * 60 + t.minute) * 60 + t.second
  }

  lemma QuotientSteps(y: nat)
    requires y >= 1
    ensures y / 4 - (y - 1) / 4 == if y % 4 == 0 then 1 else 0
    ensures y / 100 - (y - 1) / 100 == if y % 100 == 0 then 1 else 0
    ensures y / 400 - (y - 1) / 400 == if y % 400 == 0 then 1 else 0
  {
  }

  lemma Divides(y: nat)
    ensures y % 400 == 0 ==> y % 100 == 0
    ensures y % 100 == 0 ==> y % 4 == 0
  {
    if y % 400 == 0 {
      assert y == 100 * (4 * (y / 400));
    }
    if y % 100 == 0 {
      assert y == 4 * (25 * (y / 100));
    }
  }

  lemma YearsGrow(y: nat)
    requires y >= 1
    ensures DaysBeforeYear(y + 1) == DaysBeforeYear(y) + if Leap(y) then 366 else 365
  {
    QuotientSteps(y);
    Divides(y);
    var a, b, c := (y - 1) / 4, (y - 1) / 100, (y - 1) / 400;
    var d, e, f := y / 4, y / 100, y / 400;
    assert DaysBeforeYear(y) == (y - 1) * 365 + a - b + c;
    assert DaysBeforeYear(y + 1) == y * 365 + d - e + f;
  }

  lemma {:induction false} YearsOrder(y: nat, z: nat)
    requires 1 <= y < z
    ensures DaysBeforeYear(y) + (if Leap(y) then 366 else 365) <= DaysBeforeYear(z)
    decreases z - y
  {
    YearsGrow(y);
    if y + 1 < z {
      YearsOrder(y + 1, z);
    }
  }

  lemma {:induction false} MonthsOrder(y: nat, m: nat, n: nat)
    requires 1 <= m < n
    ensures DaysBeforeMonth(y, m) + DaysIn(y, m) <= DaysBeforeMonth(y, n)
    decreases n
  {
    if m + 1 < n {
      MonthsOrder(y, m, n - 1);
    }
  }

  lemma MonthTable(y: nat)
    ensures DaysBeforeMonth(y, 1) == 0 && DaysBeforeMonth(y, 2) == 31
    ensures var f := DaysIn(y, 2);
      && DaysBeforeMonth(y, 3) == 31 + f && DaysBeforeMonth(y, 4) == 62 + f && DaysBeforeMonth(y, 5) == 92 + f
      && DaysBeforeMonth(y, 6) == 123 + f && DaysBeforeMonth(y, 7) == 153 + f && DaysBeforeMonth(y, 8) == 184 + f
      && DaysBeforeMonth(y, 9) == 215 + f && DaysBeforeMonth(y, 10) == 245 + f && DaysBeforeMonth(y, 11) == 276 + f
      && DaysBeforeMonth(y, 12) == 306 + f
  {
    assert DaysBeforeMonth(y, 2) == 31;
    var f := DaysIn(y, 2);
    assert DaysBeforeMonth(y, 3) == 31 + f;
    assert DaysBeforeMonth(y, 4) == 62 + f;
    assert DaysBeforeMonth(y, 5) == 92 + f;
    assert DaysBeforeMonth(y, 6) == 123 + f;
    assert DaysBeforeMonth(y, 7) == 153 + f;
    assert DaysBeforeMonth(y, 8) == 184 + f;
    assert DaysBeforeMonth(y, 9) == 215 + f;
    assert DaysBeforeMonth(y, 10) == 245 + f;
    assert DaysBeforeMonth(y, 11) == 276 + f;
  }

  lemma WithinYear(t: Moment)
    requires Valid(t)
    ensures 0 <= DaysBeforeMonth(t.year, t.month) + t.day - 1 < if Leap(t.year) then 366 else 365
  {
    MonthTable(t.year);
  }

  lemma DaysOrder(a: Moment, b: Moment)
    requires Valid(a) && Valid(b)
    requires a.year < b.year || (a.year == b.year && (a.month < b.month || (a.month == b.month && a.day < b.day)))
    ensures DayNumber(a) < DayNumber(b)
  {
    if a.year < b.year {
      YearsOrder(a.year, b.year);
      WithinYear(a);
      WithinYear(b);
    } else if a.month < b.month {
      MonthsOrder(a.year, a.month, b.month);
    }
  }

  lemma MicrosSplit(t: Moment)
    ensures Micros(t) == (DayNumber(t) * 86400 + SecondsOfDay(t)) * 1_000_000 + t.micro
  {
  }

  lemma EarlierIsLess(a: Moment, b: Moment)
    requires Valid(a) && Valid(b) && Earlier(a, b)
    ensures Micros(a) < Micros(b)
  {
    MicrosSplit(a);
    MicrosSplit(b);
    if a.year == b.year && a.month == b.month && a.day == b.day {
    } else {
      DaysOrder(a, b);
    }
  }

  lemma SameSeconds(a: Moment, b: Moment)
    requires Valid(a) && Valid(b) && SecondsOfDay(a) == SecondsOfDay(b)
    ensures a.hour == b.hour && a.minute == b.minute && a.second == b.second
  {
  }

  /** The tuple order of valid dates is the order in time, and equal times are equal dates. */
  lemma EarlierIffLess(a: Moment, b: Moment)
    requires Valid(a) && Valid(b)
    ensures Earlier(a, b) <==> Micros(a) < Micros(b)
    ensures a == b <==> Micros(a) == Micros(b)
  {
    if Earlier(a, b) {
      EarlierIsLess(a, b);
    } else if Earlier(b, a) {
      EarlierIsLess(b, a);
    } else {
      SameSeconds(a, b);
    }
  }

  const LAST := Moment(9999, 12, 31, 23, 59, 59, 999_999)

  /** One microsecond later. */
  function Succ(t: Moment): (r: Moment)
    requires Valid(t) && t != LAST
    ensures Valid(r)
  {
    if t.micro < 999_999 then t.(micro := t.micro + 1)
    else if t.second < 59 then t.(micro := 0, second := t.second + 1)
    else if t.minute < 59 then t.(micro := 0, second := 0, minute := t.minute + 1)
    else if t.hour < 23 then t.(micro := 0, second := 0, minute := 0, hour := t.hour + 1)
    else if t.day < DaysIn(t.year, t.month) then Moment(t.year, t.month, t.day + 1, 0, 0, 0, 0)
    else if t.month < 12 then Moment(t.year, t.month + 1, 1, 0, 0, 0, 0)
    else Moment(t.year + 1, 1, 1, 0, 0, 0, 0)
  }

  lemma SuccIsNext(t: Moment)
    requires Valid(t) && t != LAST
    ensures Micros(Succ(t)) == Micros(t) + 1
  {
    MicrosSplit(t);
    MicrosSplit(Succ(t));
    if t.micro == 999_999 && t.second == 59 && t.minute == 59 && t.hour == 23 {
      NextDay(t);
    }
  }

  lemma NextDay(t: Moment)
    requires Valid(t) && t != LAST && t.micro == 999_999 && t.second == 59 && t.minute == 59 && t.hour == 23
    ensures DayNumber(Succ(t)) == DayNumber(t) + 1
  {
    if t.day == DaysIn(t.year, t.month) && t.month == 12 {
      YearsGrow(t.year);
      MonthTable(t.year);
    }
  }

  // ----- identifiers -----------------------------------------------------------------------------

  /** "20240229T235959" */
  predicate SecondForm(s: string) {
    |s| == 15 && AllDigits(s[..8]) && s[8] == 'T' && AllDigits(s[9..])
  }

  /** "20240229T235959.123456" */
  predicate MicroForm(s: string) {
    |s| == 22 && SecondForm(s[..15]) && s[15] == '.' && AllDigits(s[16..])
  }

  /** What git.SNAPSHOT matches: an old or a new date, "Z-" and eight hexadecimal digits. */
  predicate SnapshotId(id: string) {
    || (|id| == 25 && SecondForm(id[..15]) && id[15..17] == "Z-" && Hex(id[17..]))
    || (|id| == 32 && MicroForm(id[..22]) && id[22..24] == "Z-" && Hex(id[24..]))
  }

  /** What stands before the first "Z-". */
  function Stamp(id: string): string {
    if id == "" || "Z-" <= id then "" else [id[0]] + Stamp(id[1..])
  }

  /** `_snapshot_order`. */
  function Order(id: string): string {
    if '.' in Stamp(id) then Stamp(id) else Stamp(id) + ".000000"
  }

  /** `strptime` with "%Y%m%dT%H%M%S.%f" on text of that form. */
  function ParseTime(s: string): Option<Moment> {
    if !MicroForm(s) then None
    else
      var t := Fields(s);
      if Valid(t) then Some(t) else None
  }

  function Fields(s: string): Moment
    requires MicroForm(s)
  {
    assert forall i | 0 <= i < 8 :: s[i] == s[..15][..8][i];
    assert forall i | 9 <= i < 15 :: s[i] == s[..15][9..][i - 9];
    Moment(Value(s[..4]), Value(s[4..6]), Value(s[6..8]), Value(s[9..11]), Value(s[11..13]), Value(s[13..15]), Value(s[16..22]))
  }

  /** `_snapshot_time`. */
  function TimeOf(id: string): Option<Moment> {
    ParseTime(Order(id))
  }

  lemma {:induction false} StampIs(p: string, rest: string)
    requires 'Z' !in p
    ensures Stamp(p + "Z-" + rest) == p
  {
    var id := p + "Z-" + rest;
    if p == "" {
      assert id[..2] == "Z-";
    } else {
      assert id[0] == p[0] && id[0] != 'Z';
      assert id[1..] == p[1..] + "Z-" + rest;
      StampIs(p[1..], rest);
    }
  }

  /** An ID's order is its date to the microsecond. */
  lemma OrderIs(id: string)
    requires SnapshotId(id)
    ensures MicroForm(Order(id))
    ensures |id| == 32 ==> Order(id) == id[..22]
    ensures |id| == 25 ==> Order(id) == id[..15] + ".000000"
  {
    var n := if |id| == 25 then 15 else 22;
    assert id == id[..n] + "Z-" + id[n + 2..];
    if |id| == 25 {
      NoLetters(id[..15]);
      StampIs(id[..15], id[17..]);
      var o := id[..15] + ".000000";
      assert o[..15] == id[..15] && o[16..] == "000000";
    } else {
      var s := id[..22];
      NoLetters(s[..15]);
      assert forall i | 15 <= i < 22 :: s[i] == '.' || s[i] == s[16..][i - 16];
      assert 'Z' !in s;
      StampIs(s, id[24..]);
      assert s[15] in s;
    }
  }

  lemma NoLetters(s: string)
    requires SecondForm(s)
    ensures 'Z' !in s && '.' !in s
  {
    assert forall i | 0 <= i < 15 :: s[i] == 'T' || (i < 8 && s[i] == s[..8][i]) || (i > 8 && s[i] == s[9..][i - 9]);
  }

  /** The order of the text of two dates is their order in time. */
  lemma TextOrderIsTimeOrder(a: string, b: string)
    requires ParseTime(a).Some? && ParseTime(b).Some?
    ensures TextBefore(a, b) <==> Micros(ParseTime(a).value) < Micros(ParseTime(b).value)
    ensures a == b <==> Micros(ParseTime(a).value) == Micros(ParseTime(b).value)
  {
    var s, t := Fields(a), Fields(b);
    TimeSplits(a, b);
    DateSplits(a, b);
    EarlierIffLess(s, t);
  }

  /** Fixed-width digits compare field by field. */
  lemma ThreeFields(p: string, q: string, k: nat)
    requires |p| == |q| == k + 4 && AllDigits(p) && AllDigits(q)
    ensures TextBefore(p, q) <==>
      || Value(p[..k]) < Value(q[..k])
      || (Value(p[..k]) == Value(q[..k])
          && (Value(p[k..k + 2]) < Value(q[k..k + 2])
              || (Value(p[k..k + 2]) == Value(q[k..k + 2]) && Value(p[k + 2..k + 4]) < Value(q[k + 2..k + 4]))))
    ensures p == q <==>
      Value(p[..k]) == Value(q[..k]) && Value(p[k..k + 2]) == Value(q[k..k + 2]) && Value(p[k + 2..k + 4]) == Value(q[k + 2..k + 4])
  {
    hide TextBefore, Value;
    assert p == p[..k] + p[k..k + 2] + p[k + 2..k + 4] && q == q[..k] + q[k..k + 2] + q[k + 2..k + 4];
    TextSplits(p, q, k);
    TextSplits(p[k..], q[k..], 2);
    assert p[k..][..2] == p[k..k + 2] && p[k..][2..] == p[k + 2..k + 4];
    assert q[k..][..2] == q[k..k + 2] && q[k..][2..] == q[k + 2..k + 4];
    assert p[k..] == p[k..k + 2] + p[k + 2..k + 4] && q[k..] == q[k..k + 2] + q[k + 2..k + 4];
    DigitsOrder(p[..k], q[..k]);
    DigitsOrder(p[k..k + 2], q[k..k + 2]);
    DigitsOrder(p[k + 2..k + 4], q[k + 2..k + 4]);
  }

  lemma Inside(s: string, i: nat, j: nat, k: nat, l: nat)
    requires i <= j <= |s| && k <= l <= j - i
    ensures s[i..j][k..l] == s[i + k..i + l]
  {
    assert |s[i..j][k..l]| == l - k;
    assert forall n | 0 <= n < l - k :: s[i..j][k..l][n] == s[i..j][k + n] == s[i + k + n];
  }

  lemma DateSplits(a: string, b: string)
    requires MicroForm(a) && MicroForm(b)
    ensures var s, t := Fields(a), Fields(b);
      && (TextBefore(a[..8], b[..8]) <==>
            s.year < t.year || (s.year == t.year && (s.month < t.month || (s.month == t.month && s.day < t.day))))
      && (a[..8] == b[..8] <==> s.year == t.year && s.month == t.month && s.day == t.day)
  {
    hide TextBefore, Value;
    var p, q := a[..8], b[..8];
    assert AllDigits(p) && AllDigits(q) by {
      assert p == a[..15][..8] && q == b[..15][..8];
    }
    ThreeFields(p, q, 4);
    assert p[..4] == a[..4] && q[..4] == b[..4];
    Inside(a, 0, 8, 4, 6);
    Inside(a, 0, 8, 6, 8);
    Inside(b, 0, 8, 4, 6);
    Inside(b, 0, 8, 6, 8);
  }

  lemma ClockFields(a: string, b: string)
    requires MicroForm(a) && MicroForm(b)
    ensures var s, t := Fields(a), Fields(b);
      && (TextBefore(a[9..15], b[9..15]) <==>
            s.hour < t.hour || (s.hour == t.hour && (s.minute < t.minute || (s.minute == t.minute && s.second < t.second))))
      && (a[9..15] == b[9..15] <==> s.hour == t.hour && s.minute == t.minute && s.second == t.second)
  {
    hide TextBefore, Value;
    var p, q := a[9..15], b[9..15];
    assert AllDigits(p) && AllDigits(q) by {
      assert p == a[..15][9..] && q == b[..15][9..];
    }
    ThreeFields(p, q, 2);
    Inside(a, 9, 15, 0, 2);
    Inside(a, 9, 15, 2, 4);
    Inside(a, 9, 15, 4, 6);
    Inside(b, 9, 15, 0, 2);
    Inside(b, 9, 15, 2, 4);
    Inside(b, 9, 15, 4, 6);
    assert p[..2] == p[0..2] && q[..2] == q[0..2];
  }

  lemma ClockSplits(a: string, b: string)
    requires MicroForm(a) && MicroForm(b) && Valid(Fields(a)) && Valid(Fields(b))
    ensures TextBefore(a[9..15], b[9..15]) <==> SecondsOfDay(Fields(a)) < SecondsOfDay(Fields(b))
    ensures a[9..15] == b[9..15] <==> SecondsOfDay(Fields(a)) == SecondsOfDay(Fields(b))
  {
    hide TextBefore, MicroForm, Fields;
    ClockFields(a, b);
  }

  lemma TimeSplits(a: string, b: string)
    requires MicroForm(a) && MicroForm(b) && Valid(Fields(a)) && Valid(Fields(b))
    ensures var s, t := Fields(a), Fields(b);
      && (TextBefore(a, b) <==>
            || TextBefore(a[..8], b[..8])
            || (a[..8] == b[..8] && (SecondsOfDay(s) < SecondsOfDay(t) || (SecondsOfDay(s) == SecondsOfDay(t) && s.micro < t.micro))))
      && (a == b <==> a[..8] == b[..8] && SecondsOfDay(s) == SecondsOfDay(t) && s.micro == t.micro)
  {
    ClockSplits(a, b);
    DigitsOrder(a[16..22], b[16..22]);
    TextSplits(a, b, 8);
    TextSplits(a[8..], b[8..], 1);
    assert a[8..][..1] == "T" == b[8..][..1];
    assert a[8..][1..] == a[9..] && b[8..][1..] == b[9..];
    TextSplits(a[9..], b[9..], 6);
    assert a[9..][..6] == a[9..15] && b[9..][..6] == b[9..15];
    assert a[9..][6..] == a[15..] && b[9..][6..] == b[15..];
    TextSplits(a[15..], b[15..], 1);
    assert a[15..][..1] == "." == b[15..][..1];
    assert a[15..][1..] == a[16..22] && b[15..][1..] == b[16..22];
    assert a == a[..8] + "T" + a[9..15] + "." + a[16..22];
    assert b == b[..8] + "T" + b[9..15] + "." + b[16..22];
  }

  // ----- new identifiers -------------------------------------------------------------------------

  /** `strftime` does not pad years before 1000. */
  function YearText(y: nat): string {
    if y < 1000 then Decimal(y) else Digits(y, 4)
  }

  /** `strftime` with "%Y%m%dT%H%M%S.%f". */
  function PrintTime(t: Moment): string {
    YearText(t.year) + Digits(t.month, 2) + Digits(t.day, 2) + "T"
    + Digits(t.hour, 2) + Digits(t.minute, 2) + Digits(t.second, 2) + "." + Digits(t.micro, 6)
  }

  function NewId(t: Moment, token: string): string {
    PrintTime(t) + "Z-" + token
  }

  lemma PrintedForm(t: Moment)
    requires t.year >= 1000
    ensures MicroForm(PrintTime(t))
    ensures var s := PrintTime(t);
      && s[..4] == Digits(t.year, 4) && s[4..6] == Digits(t.month, 2) && s[6..8] == Digits(t.day, 2)
      && s[9..11] == Digits(t.hour, 2) && s[11..13] == Digits(t.minute, 2) && s[13..15] == Digits(t.second, 2)
      && s[16..22] == Digits(t.micro, 6)
  {
    var s := PrintTime(t);
    assert s[..4] == Digits(t.year, 4) && s[4..6] == Digits(t.month, 2) && s[6..8] == Digits(t.day, 2);
    assert s[9..11] == Digits(t.hour, 2) && s[11..13] == Digits(t.minute, 2) && s[13..15] == Digits(t.second, 2);
    assert s[16..22] == Digits(t.micro, 6) && s[16..] == s[16..22];
    assert s[..15][..8] == s[..4] + s[4..6] + s[6..8];
    assert s[..15][9..] == s[9..11] + s[11..13] + s[13..15];
  }

  /** A printed date from the year 1000 on reads back as itself. */
  lemma PrintedTimeParses(t: Moment)
    requires Valid(t) && t.year >= 1000
    ensures ParseTime(PrintTime(t)) == Some(t)
  {
    PrintedForm(t);
    PrintedValues(t);
  }

  lemma PrintedValues(t: Moment)
    requires Valid(t)
    ensures Value(Digits(t.year, 4)) == t.year && Value(Digits(t.month, 2)) == t.month && Value(Digits(t.day, 2)) == t.day
    ensures Value(Digits(t.hour, 2)) == t.hour && Value(Digits(t.minute, 2)) == t.minute && Value(Digits(t.second, 2)) == t.second
    ensures Value(Digits(t.micro, 6)) == t.micro
  {
    hide Value, Digits;
    assert Power10(2) == 100;
    assert Power10(4) == 10_000;
    assert Power10(6) == 1_000_000;
    ValueOfDigits(t.year, 4);
    ValueOfDigits(t.month, 2);
    ValueOfDigits(t.day, 2);
    ValueOfDigits(t.hour, 2);
    ValueOfDigits(t.minute, 2);
    ValueOfDigits(t.second, 2);
    ValueOfDigits(t.micro, 6);
  }

  /** A new ID is a snapshot ID if and only if its year has four digits; then it reads back as its time. */
  lemma NewIdIs(t: Moment, token: string)
    requires Valid(t) && |token| == 8 && Hex(token)
    ensures SnapshotId(NewId(t, token)) <==> t.year >= 1000
    ensures t.year >= 1000 ==> TimeOf(NewId(t, token)) == Some(t)
  {
    if t.year < 1000 {
      EarlyIdIsNone(t, token);
    } else {
      LateIdIs(t, token);
    }
  }

  lemma EarlyIdIsNone(t: Moment, token: string)
    requires t.year < 1000 && |token| == 8
    ensures !SnapshotId(NewId(t, token))
  {
    assert Power10(3) == 1_000;
    DecimalLength(t.year, 3);
    assert |PrintTime(t)| == |YearText(t.year)| + 18;
  }

  lemma LateIdIs(t: Moment, token: string)
    requires Valid(t) && t.year >= 1000 && |token| == 8 && Hex(token)
    ensures SnapshotId(NewId(t, token)) && TimeOf(NewId(t, token)) == Some(t)
  {
    hide PrintTime, ParseTime;
    PrintedForm(t);
    PrintedTimeParses(t);
    var id := NewId(t, token);
    assert id[..22] == PrintTime(t) && id[22..24] == "Z-" && id[24..] == token;
    OrderIs(id);
  }

  const FUTURE_SKEW := 86_400_000_000 // one day

  /** `_plausible`. */
  predicate Plausible(id: string, now: int) {
    TimeOf(id).Some? && Micros(TimeOf(id).value) <= now + FUTURE_SKEW
  }

  function When(id: string): int
    requires TimeOf(id).Some?
  {
    Micros(TimeOf(id).value)
  }

  /** IDs of both formats sort as text in the order of their dates. */
  lemma OrderIsChronological(a: string, b: string)
    requires SnapshotId(a) && SnapshotId(b) && TimeOf(a).Some? && TimeOf(b).Some?
    ensures TextBefore(Order(a), Order(b)) <==> When(a) < When(b)
    ensures Order(a) == Order(b) <==> When(a) == When(b)
  {
    TextOrderIsTimeOrder(Order(a), Order(b));
  }

  /** A date that counts for `_next_snapshot`. */
  predicate Counts(t: Option<Moment>, now: int) {
    t.Some? && Valid(t.value) && Micros(t.value) <= now + FUTURE_SKEW
  }

  predicate NoLater(t: Option<Moment>, u: Moment) {
    t.Some? && Micros(t.value) <= Micros(u)
  }

  lemma CountsIsPlausible(id: string, now: int)
    ensures Plausible(id, now) <==> Counts(TimeOf(id), now)
  {
  }

  /** The latest of the dates that count, and where it stands. */
  method Latest(times: seq<Option<Moment>>, now: int) returns (at: int)
    ensures -1 <= at < |times|
    ensures at == -1 ==> forall i | 0 <= i < |times| :: !Counts(times[i], now)
    ensures at >= 0 ==> Counts(times[at], now)
    ensures at >= 0 ==> forall i | 0 <= i < |times| && Counts(times[i], now) :: NoLater(times[i], times[at].value)
  {
    hide Valid, Micros;
    at := -1;
    for i := 0 to |times|
      invariant -1 <= at < i
      invariant at == -1 ==> forall j | 0 <= j < i :: !Counts(times[j], now)
      invariant at >= 0 ==> Counts(times[at], now)
      invariant at >= 0 ==> forall j | 0 <= j < i && Counts(times[j], now) :: NoLater(times[j], times[at].value)
    {
      if Counts(times[i], now) && (at == -1 || !NoLater(times[i], times[at].value)) {
        at := i;
      }
    }
  }

  /** Adding the skew or a microsecond goes past the last date: Python raises OverflowError. */
  predicate Overflows(times: seq<Option<Moment>>, now: int) {
    exists i :: 0 <= i < |times| &&
      times[i].Some? && (now + FUTURE_SKEW > Micros(LAST) || (now + FUTURE_SKEW == Micros(LAST) && times[i] == Some(LAST)))
  }

  function Times(names: seq<string>): (r: seq<Option<Moment>>)
    ensures |r| == |names| && forall i | 0 <= i < |r| :: r[i] == TimeOf(names[i])
  {
    seq(|names|, i requires 0 <= i < |names| => TimeOf(names[i]))
  }

  /** What a new ID is, whatever else has been pushed: later than every plausible previous ID, never earlier than now,
      never later than one microsecond after what counts as plausible, and no later than it must be. */
  ghost predicate Follows(previous: seq<string>, now: int, id: string) {
    && TimeOf(id).Some?
    && (forall name | name in previous && Plausible(name, now) :: When(name) < When(id))
    && now <= When(id) <= now + FUTURE_SKEW + 1
    && (When(id) == now || exists name :: name in previous && Plausible(name, now) && When(id) == When(name) + 1)
  }

  lemma LastIsLast(t: Moment)
    requires Valid(t)
    ensures Micros(t) <= Micros(LAST) && (Micros(t) == Micros(LAST) ==> t == LAST)
  {
    EarlierIffLess(LAST, t);
    assert !Earlier(LAST, t);
    EarlierIffLess(t, LAST);
  }

  /** The later of now and a microsecond after the latest date. */
  method NextTime(times: seq<Option<Moment>>, now: Moment, at: int) returns (t: Moment)
    requires Valid(now) && -1 <= at < |times|
    requires at >= 0 ==> Counts(times[at], Micros(now)) && times[at] != Some(LAST)
    ensures Valid(t) && t.year >= now.year
    ensures Micros(t) == if at >= 0 && Micros(now) < Micros(times[at].value) + 1 then Micros(times[at].value) + 1 else Micros(now)
  {
    hide Micros;
    t := now;
    if at >= 0 {
      SuccIsNext(times[at].value);
      EarlierIffLess(now, Succ(times[at].value));
      if Earlier(now, Succ(times[at].value)) {
        t := Succ(times[at].value);
      }
    }
  }

  lemma LatestOverflows(times: seq<Option<Moment>>, now: int, at: int)
    requires -1 <= at < |times|
    requires at == -1 ==> forall i | 0 <= i < |times| :: !Counts(times[i], now)
    requires at >= 0 ==> Counts(times[at], now)
    requires at >= 0 ==> forall i | 0 <= i < |times| && Counts(times[i], now) :: NoLater(times[i], times[at].value)
    requires now + FUTURE_SKEW <= Micros(LAST) || forall i | 0 <= i < |times| :: times[i].None?
    ensures Overflows(times, now) <==> at >= 0 && times[at] == Some(LAST)
  {
    hide Micros;
    if i :| 0 <= i < |times| && times[i] == Some(LAST) && now + FUTURE_SKEW == Micros(LAST) {
      assert Counts(times[i], now);
      LastIsLast(times[at].value);
    }
  }

  /** `_next_snapshot`; None when it raises. Before the year 1000 what it prints may be no snapshot ID. */
  method NextSnapshot(previous: seq<string>, now: Moment, token: string) returns (id: Option<string>)
    requires Valid(now) && |token| == 8 && Hex(token)
    ensures id.None? <==> Overflows(Times(previous), Micros(now))
    ensures id.Some? && now.year >= 1000 ==> SnapshotId(id.value)
    ensures id.Some? && SnapshotId(id.value) ==> Follows(previous, Micros(now), id.value)
  {
    hide Micros, Earlier, TimeOf, SnapshotId, Follows, NewId, Valid;
    var times := Times(previous);
    if (exists i :: 0 <= i < |times| && times[i].Some?) && Micros(now) + FUTURE_SKEW > Micros(LAST) {
      return None;
    }
    var at := Latest(times, Micros(now));
    LatestOverflows(times, Micros(now), at);
    if at >= 0 && times[at] == Some(LAST) {
      return None;
    }
    var t := NextTime(times, now, at);
    NewIdIs(t, token);
    if t.year >= 1000 {
      Later(previous, times, Micros(now), at, NewId(t, token));
    }
    return Some(NewId(t, token));
  }

  lemma Later(previous: seq<string>, times: seq<Option<Moment>>, now: int, at: int, id: string)
    requires |times| == |previous| && forall i | 0 <= i < |times| :: times[i] == TimeOf(previous[i])
    requires -1 <= at < |times| && TimeOf(id).Some?
    requires at == -1 ==> forall i | 0 <= i < |times| :: !Counts(times[i], now)
    requires at >= 0 ==> Counts(times[at], now)
    requires at >= 0 ==> forall i | 0 <= i < |times| && Counts(times[i], now) :: NoLater(times[i], times[at].value)
    requires When(id) == if at >= 0 && now < Micros(times[at].value) + 1 then Micros(times[at].value) + 1 else now
    ensures Follows(previous, now, id)
  {
    hide Micros, TimeOf;
    forall name | name in previous && Plausible(name, now)
      ensures When(name) < When(id)
    {
      var i :| 0 <= i < |previous| && previous[i] == name;
      CountsIsPlausible(name, now);
    }
    if at >= 0 {
      CountsIsPlausible(previous[at], now);
    }
  }

  // ----- clocks at the ends of the calendar ------------------------------------------------------

  const EARLY := Moment(999, 12, 31, 23, 59, 59, 0)
  const LEAP_DAY := Moment(2024, 2, 29, 12, 0, 0, 0)
  const LAST_DAY := Moment(9999, 12, 31, 0, 0, 0, 0)

  /** With a clock in the year 999 what is printed is no snapshot ID. */
  lemma AnEarlyIdIsNone()
    ensures Valid(EARLY) && PrintTime(EARLY) == "9991231T235959.000000" && !SnapshotId(NewId(EARLY, "0000cafe"))
  {
    EarlyText();
    NewIdIs(EARLY, "0000cafe");
  }

  lemma EarlyText()
    ensures PrintTime(EARLY) == "9991231T235959.000000"
  {
    hide Digits, Decimal;
    EarlyDigits();
  }

  lemma EarlyDigits()
    ensures Decimal(999) == "999" && Digits(12, 2) == "12" && Digits(31, 2) == "31" && Digits(23, 2) == "23" && Digits(59, 2) == "59"
    ensures Digits(0, 6) == "000000"
  {
    assert Decimal(99) == "99";
  }

  /** On the last day of the year 9999 any dated name makes the comparison overflow. */
  lemma ALateClockOverflows()
    ensures Valid(LAST_DAY) && SnapshotId(NewId(LEAP_DAY, "0000cafe")) && Overflows(Times([NewId(LEAP_DAY, "0000cafe")]), Micros(LAST_DAY))
  {
    hide TimeOf, SnapshotId, NewId, DayNumber;
    NewIdIs(LEAP_DAY, "0000cafe");
    MicrosSplit(LAST_DAY);
    MicrosSplit(LAST);
    assert DayNumber(LAST_DAY) == DayNumber(LAST) by {
      SameDay(LAST_DAY, LAST);
    }
    assert Times([NewId(LEAP_DAY, "0000cafe")])[0] == Some(LEAP_DAY);
  }

  lemma SameDay(a: Moment, b: Moment)
    requires a.year == b.year && a.month == b.month && a.day == b.day
    ensures DayNumber(a) == DayNumber(b)
  {
  }
}
