/** Day numbers to calendar dates (src/keys/time.rs). */
module Calendar {
  import opened Common
  import opened Quotients

  predicate IsLeap(y: int) {
    (y % 4 == 0 && y % 100 != 0) || y % 400 == 0
  }

  const DAYS_IN_MONTH: seq<nat> := [31, 28, 31, 30, 31, 30, 31, 31, 30, 31, 30, 31]

  /** Length of month m of year y; months count from 1. */
  function MonthDays(y: int, m: nat): (n: nat)
    requires 1 <= m <= 12
    ensures 28 <= n <= 31
  {
    if m == 2 && IsLeap(y) then 29 else DAYS_IN_MONTH[m - 1]
  }

  datatype Date = Date(year: int, month: nat, day: nat)

  /** A real date of the proleptic Gregorian calendar, 1970 or later. */
  predicate IsDate(d: Date) {
    1970 <= d.year && 1 <= d.month <= 12 && 1 <= d.day <= MonthDays(d.year, d.month)
  }

  /** Days before 1 January of year y, counted from year 1: 365 a year, and a leap
      day every 4 years, but not every 100, but every 400. */
  function YearStart(y: int): int {
    365 * (y - 1) + (y - 1) / 4 - (y - 1) / 100 + (y - 1) / 400
  }

  /** Days of the year before each month of an ordinary year. */
  const BEFORE_MONTH: seq<nat> := [0, 31, 59, 90, 120, 151, 181, 212, 243, 273, 304, 334]

  /** Days of year y before month m. */
  function BeforeMonth(y: int, m: nat): nat
    requires 1 <= m <= 12
  {
    BEFORE_MONTH[m - 1] + if m > 2 && IsLeap(y) then 1 else 0
  }

  /** Closed-form day number, 1 January 1970 being day 0; no walk over years or months. */
  function DayNumber(d: Date): int
    requires 1 <= d.month <= 12
  {
    YearStart(d.year) - YearStart(1970) + BeforeMonth(d.year, d.month) + d.day - 1
  }

  lemma {:induction false} YearLength(y: int)
    requires y >= 1
    ensures YearStart(y + 1) - YearStart(y) == if IsLeap(y) then 366 else 365
  {
    QuotientStep(y, 4);
    QuotientStep(y, 100);
    QuotientStep(y, 400);
    MultipleOf(y, 100, 4);
    MultipleOf(y, 400, 100);
  }

  lemma {:induction false} QuotientStep(y: int, k: int)
    requires y >= 1 && k >= 1
    ensures y / k - (y - 1) / k == if y % k == 0 then 1 else 0
  {
    var q, r := (y - 1) / k, (y - 1) % k;
    assert y - 1 == k * q + r;
    if r + 1 == k {
      ModUnique(y, k, q + 1, 0);
    } else {
      ModUnique(y, k, q, r + 1);
    }
  }

  lemma {:induction false} MultipleOf(y: int, big: int, small: int)
    requires (big == 100 && small == 4) || (big == 400 && small == 100)
    ensures y % big == 0 ==> y % small == 0
  {
    if y % big == 0 {
      var q := y / big;
      assert y == big * q;
      if big == 100 {
        ModUnique(y, 4, 25 * q, 0);
      } else {
        ModUnique(y, 100, 4 * q, 0);
      }
    }
  }

  /** `ymd_from_days`: the year walk, then the month walk. The month index never
      leaves the table, and the date returned is real and has the day number asked for. */
  method YmdFromDays(dayCount: nat) returns (date: Date)
    ensures IsDate(date) && DayNumber(date) == dayCount
    ensures forall d: Date :: IsDate(d) && DayNumber(d) == dayCount ==> date == d
  {
    var days: nat := dayCount;
    var y := 1970;
    while true
      invariant y >= 1970 && days >= 0
      invariant days + YearStart(y) - YearStart(1970) == dayCount
      decreases days
    {
      YearLength(y);
      var yearDays := if IsLeap(y) then 366 else 365;
      if days < yearDays {
        break;
      }
      days := days - yearDays;
      y := y + 1;
    }
    var m := 0;
    while true
      invariant 0 <= m < 12 && days >= 0
      invariant days + BeforeMonth(y, m + 1) + YearStart(y) - YearStart(1970) == dayCount
      invariant days + BeforeMonth(y, m + 1) < if IsLeap(y) then 366 else 365
      decreases 12 - m
    {
      var md := DAYS_IN_MONTH[m];
      if m == 1 && IsLeap(y) {
        md := 29;
      }
      if days < md {
        break;
      }
      days := days - md;
      m := m + 1;
    }
    date := Date(y, m + 1, days + 1);
    EveryDateIsReached(date);
  }

  // ---------------------------------------------------------------- order

  predicate Earlier(a: Date, b: Date) {
    a.year < b.year || (a.year == b.year && (a.month < b.month || (a.month == b.month && a.day < b.day)))
  }

  lemma {:induction false} MonthEnds(y: int, m: nat, n: nat)
    requires 1 <= m < n <= 12
    ensures BeforeMonth(y, m) + MonthDays(y, m) <= BeforeMonth(y, n)
  {
  }

  lemma {:induction false} YearEnds(y: int, m: nat)
    requires 1 <= m <= 12
    ensures BeforeMonth(y, m) + MonthDays(y, m) <= if IsLeap(y) then 366 else 365
  {
  }

  lemma {:induction false} YearsAscend(a: int, b: int)
    requires 1 <= a <= b
    ensures YearStart(a) <= YearStart(b)
    decreases b - a
  {
    if a < b {
      YearsAscend(a, b - 1);
      YearLength(b - 1);
    }
  }

  /** Day numbers respect the calendar order of dates. */
  lemma {:induction false} EarlierIsLess(a: Date, b: Date)
    requires IsDate(a) && IsDate(b)
    ensures Earlier(a, b) <==> DayNumber(a) < DayNumber(b)
  {
    if Earlier(a, b) {
      EarlierLess(a, b);
    } else if a != b {
      EarlierLess(b, a);
    }
  }

  lemma {:induction false} EarlierLess(a: Date, b: Date)
    requires IsDate(a) && IsDate(b) && Earlier(a, b)
    ensures DayNumber(a) < DayNumber(b)
  {
    YearLength(a.year);
    YearEnds(a.year, a.month);
    if a.year < b.year {
      YearsAscend(a.year + 1, b.year);
    } else if a.month < b.month {
      MonthEnds(a.year, a.month, b.month);
    }
  }

  /** The date of a day number is unique, so `YmdFromDays` has only one right answer. */
  lemma {:induction false} DateIsUnique(a: Date, b: Date)
    requires IsDate(a) && IsDate(b) && DayNumber(a) == DayNumber(b)
    ensures a == b
  {
    EarlierIsLess(a, b);
    EarlierIsLess(b, a);
  }

  /** Every real date is the answer for exactly one day count, its own day number: that
      is a day count, and no other date has it. */
  lemma {:induction false} EveryDateIsReached(d: Date)
    requires IsDate(d)
    ensures DayNumber(d) >= 0
    ensures forall r: Date :: IsDate(r) && DayNumber(r) == DayNumber(d) ==> r == d
  {
    EarlierIsLess(d, Date(1970, 1, 1));
    assert DayNumber(Date(1970, 1, 1)) == 0;
    forall r: Date | IsDate(r) && DayNumber(r) == DayNumber(d)
      ensures r == d
    {
      DateIsUnique(r, d);
    }
  }

  // ---------------------------------------------------------------- the directory name

  /** Decimal digits of n, most significant first. */
  function Digits(n: nat): (s: string)
    ensures |s| >= 1
    decreases n
  {
    if n < 10 then [Digit(n)] else Digits(n / 10) + [Digit(n % 10)]
  }

  function Digit(n: nat): char
    requires n < 10
  {
    '0' + n as char
  }

  /** `{n:0width}`: zeros on the left up to the width. */
  function Padded(n: nat, width: nat): (s: string) {
    Zeroes(SaturatingSub(width, |Digits(n)|)) + Digits(n)
  }

  function Zeroes(n: nat): (s: string)
    ensures |s| == n
  {
    if n == 0 then "" else "0" + Zeroes(n - 1)
  }

  /** `format_ymd`, on the date. */
  function Format(d: Date): string
    requires IsDate(d)
  {
    Padded(d.year, 4) + "-" + (Padded(d.month, 2) + "-" + Padded(d.day, 2))
  }

  function Value(s: string): int {
    if s == "" then 0 else 10 * Value(s[..|s| - 1]) + (s[|s| - 1] as int - '0' as int)
  }

  lemma {:induction false} ValueOfDigits(n: nat)
    ensures Value(Digits(n)) == n
    ensures forall i :: 0 <= i < |Digits(n)| ==> '0' <= Digits(n)[i] <= '9'
    decreases n
  {
    if n >= 10 {
      ValueOfDigits(n / 10);
    }
  }

  lemma {:induction false} ZeroesAddNothing(k: nat, s: string)
    ensures Value(Zeroes(k) + s) == Value(s)
    decreases |s|, k
  {
    if s != "" {
      var n := |s| - 1;
      assert (Zeroes(k) + s)[..k + n] == Zeroes(k) + s[..n];
      ZeroesAddNothing(k, s[..n]);
    } else if k > 0 {
      ZeroesAllZero(k);
      assert Zeroes(k) + s == Zeroes(k);
    } else {
      assert Zeroes(k) + s == s;
    }
  }

  lemma {:induction false} ZeroesAllZero(k: nat)
    ensures Value(Zeroes(k)) == 0
    ensures forall i :: 0 <= i < k ==> Zeroes(k)[i] == '0'
  {
    ZeroesAre(k);
    AllZeroValue(Zeroes(k));
  }

  lemma {:induction false} ZeroesAre(k: nat)
    ensures forall i :: 0 <= i < k ==> Zeroes(k)[i] == '0'
  {
    if k > 0 {
      ZeroesAre(k - 1);
    }
  }

  lemma {:induction false} AllZeroValue(s: string)
    requires forall i :: 0 <= i < |s| ==> s[i] == '0'
    ensures Value(s) == 0
  {
    if s != "" {
      AllZeroValue(s[..|s| - 1]);
    }
  }

  /** A padded number keeps its value and has no dash in it. */
  lemma {:induction false} PaddedReads(n: nat, width: nat)
    ensures Value(Padded(n, width)) == n && '-' !in Padded(n, width)
    ensures |Padded(n, width)| >= width
  {
    var k := SaturatingSub(width, |Digits(n)|);
    ValueOfDigits(n);
    ZeroesAddNothing(k, Digits(n));
    ZeroesAllZero(k);
  }

  /** Two dates share a directory name only if they are the same date. */
  lemma {:induction false} FormatIsInjective(a: Date, b: Date)
    requires IsDate(a) && IsDate(b) && Format(a) == Format(b)
    ensures a == b
  {
    PaddedReads(a.year, 4);
    PaddedReads(b.year, 4);
    PaddedReads(a.month, 2);
    PaddedReads(b.month, 2);
    PaddedReads(a.day, 2);
    PaddedReads(b.day, 2);
    SplitAtDash(Padded(a.year, 4), Padded(a.month, 2) + "-" + Padded(a.day, 2),
                Padded(b.year, 4), Padded(b.month, 2) + "-" + Padded(b.day, 2));
    SplitAtDash(Padded(a.month, 2), Padded(a.day, 2), Padded(b.month, 2), Padded(b.day, 2));
  }

  /** Text up to the first dash is determined. */
  lemma {:induction false} SplitAtDash(p: string, q: string, r: string, s: string)
    requires '-' !in p && '-' !in r && p + "-" + q == r + "-" + s
    ensures p == r && q == s
  {
    var t, u := p + "-" + q, r + "-" + s;
    assert t[|p|] == '-' && u[|r|] == '-';
    assert forall k :: 0 <= k < |p| ==> t[k] != '-';
    assert forall k :: 0 <= k < |r| ==> u[k] != '-';
    assert |p| == |r|;
    assert p == t[..|p|] && r == u[..|r|];
    assert q == t[|p| + 1..] && s == u[|r| + 1..];
  }

  /** The dates the repository's tests name, by day number: the epoch, both sides of a
      leap day in 2024, of the missing one in 2100, and the one in 2000. */
  lemma {:induction false} KnownDates()
    ensures IsDate(Date(1970, 1, 1)) && DayNumber(Date(1970, 1, 1)) == 0
    ensures IsDate(Date(2024, 2, 29)) && DayNumber(Date(2024, 2, 29)) == 19_782
    ensures IsDate(Date(2024, 3, 1)) && DayNumber(Date(2024, 3, 1)) == 19_783
    ensures IsDate(Date(2100, 2, 28)) && DayNumber(Date(2100, 2, 28)) == 47_540
    ensures IsDate(Date(2100, 3, 1)) && DayNumber(Date(2100, 3, 1)) == 47_541
    ensures !IsDate(Date(2100, 2, 29))
    ensures IsDate(Date(2000, 2, 29)) && DayNumber(Date(2000, 2, 29)) == 11_016
  {
  }

  /** Month lengths: thirty-one days in seven of them, thirty in four, and twenty-eight or
      twenty-nine in February. */
  lemma {:induction false} MonthLengths(y: int, m: nat)
    requires 1 <= m <= 12
    ensures MonthDays(y, m) == 31 <==> m in {1, 3, 5, 7, 8, 10, 12}
    ensures MonthDays(y, m) == 30 <==> m in {4, 6, 9, 11}
    ensures MonthDays(y, m) == 29 <==> m == 2 && y % 4 == 0 && (y % 100 == 0 ==> y % 400 == 0)
  {
    MultipleOf(y, 400, 100);
    MultipleOf(y, 100, 4);
  }

  // ---------------------------------------------------------------- what a name says

  ghost predicate AllDigits(s: string) {
    forall i :: 0 <= i < |s| ==> '0' <= s[i] <= '9'
  }

  lemma {:induction false} DigitsWidth(n: nat)
    ensures n < 100 ==> |Digits(n)| <= 2
    ensures n < 10_000 ==> |Digits(n)| <= 4
  {
    if n >= 10 {
      assert n < 100 ==> n / 10 < 10;
      if n >= 100 {
        assert n < 10_000 ==> n / 10 / 10 < 100;
        DigitsWidth(n / 10 / 10);
      }
    }
  }

  lemma {:induction false} PaddedShape(n: nat, width: nat)
    ensures AllDigits(Padded(n, width)) && Value(Padded(n, width)) == n
    ensures |Padded(n, width)| >= width
    ensures width == 2 && n < 100 ==> |Padded(n, width)| == 2
    ensures width == 4 && n < 10_000 ==> |Padded(n, width)| == 4
  {
    PaddedReads(n, width);
    ValueOfDigits(n);
    ZeroesAllZero(SaturatingSub(width, |Digits(n)|));
    DigitsWidth(n);
  }

  /** A name at its places: the last two characters are the day, the two before the last
      dash the month, and everything before the first dash the year, in decimal. */
  ghost predicate ReadsAs(s: string, year: nat, month: nat, day: nat) {
    var n := |s| - 6;
    && n >= 4 && s[n] == '-' && s[n + 3] == '-'
    && AllDigits(s[..n]) && AllDigits(s[n + 1..n + 3]) && AllDigits(s[n + 4..])
    && Value(s[..n]) == year && Value(s[n + 1..n + 3]) == month && Value(s[n + 4..]) == day
  }

  /** The directory name says its date; up to the year 9999 in ten characters. */
  lemma {:induction false} FormatReads(d: Date)
    requires IsDate(d)
    ensures ReadsAs(Format(d), d.year, d.month, d.day)
    ensures d.year <= 9999 ==> |Format(d)| == 10
  {
    PaddedShape(d.year, 4);
    PaddedShape(d.month, 2);
    PaddedShape(d.day, 2);
    FieldsRead(Padded(d.year, 4), Padded(d.month, 2), Padded(d.day, 2));
  }

  lemma {:induction false} FieldsRead(y: string, m: string, d: string)
    requires |y| >= 4 && |m| == 2 && |d| == 2 && AllDigits(y) && AllDigits(m) && AllDigits(d)
    requires Value(y) >= 0 && Value(m) >= 0 && Value(d) >= 0
    ensures ReadsAs(y + "-" + (m + "-" + d), Value(y), Value(m), Value(d))
  {
    var s, n := y + "-" + (m + "-" + d), |y|;
    assert s[..n] == y && s[n + 1..n + 3] == m && s[n + 4..] == d;
  }

  /** Text order: at the first place they differ, s has the smaller character. */
  ghost predicate Before(s: string, t: string) {
    exists k :: 0 <= k < |s| && k < |t| && s[..k] == t[..k] && s[k] < t[k]
  }

  lemma {:induction false} NeverBothBefore(s: string, t: string)
    requires Before(s, t)
    ensures !Before(t, s) && s != t
  {
    var k :| 0 <= k < |s| && k < |t| && s[..k] == t[..k] && s[k] < t[k];
    SamePrefix(s, t, k);
    forall j | 0 <= j < |s| && j < |t| && s[..j] == t[..j]
      ensures s[j] <= t[j]
    {
      SamePrefix(s, t, j);
    }
  }

  lemma {:induction false} SamePrefix(s: string, t: string, k: nat)
    requires k <= |s| && k <= |t| && s[..k] == t[..k]
    ensures forall i :: 0 <= i < k ==> s[i] == t[i]
  {
    assert forall i :: 0 <= i < k ==> s[i] == s[..k][i] && t[i] == t[..k][i];
  }

  lemma {:induction false} BeforeFirst(p: string, q: string, r: string, s: string)
    requires Before(p, r)
    ensures Before(p + q, r + s)
  {
    var k :| 0 <= k < |p| && k < |r| && p[..k] == r[..k] && p[k] < r[k];
    assert (p + q)[..k] == p[..k] && (r + s)[..k] == r[..k];
  }

  lemma {:induction false} BeforeThen(p: string, q: string, s: string)
    requires Before(q, s)
    ensures Before(p + q, p + s)
  {
    var k :| 0 <= k < |q| && k < |s| && q[..k] == s[..k] && q[k] < s[k];
    assert (p + q)[..|p| + k] == p + q[..k] && (p + s)[..|p| + k] == p + s[..k];
    assert (p + q)[|p| + k] == q[k] && (p + s)[|p| + k] == s[k];
  }

  /** Among numbers written equally wide, the smaller comes first. */
  lemma {:induction false} SmallerIsBefore(s: string, t: string)
    requires |s| == |t| && AllDigits(s) && AllDigits(t) && Value(s) < Value(t)
    ensures Before(s, t)
    decreases |s|
  {
    if s != "" {
      var n := |s| - 1;
      if Value(s[..n]) < Value(t[..n]) {
        SmallerIsBefore(s[..n], t[..n]);
        BeforeFirst(s[..n], s[n..], t[..n], t[n..]);
        assert s[..n] + s[n..] == s && t[..n] + t[n..] == t;
      } else {
        SameValueSame(s[..n], t[..n]);
      }
    }
  }

  lemma {:induction false} SameValueSame(s: string, t: string)
    requires |s| == |t| && AllDigits(s) && AllDigits(t) && Value(s) == Value(t)
    ensures s == t
    decreases |s|
  {
    if s != "" {
      var n := |s| - 1;
      SameValueSame(s[..n], t[..n]);
      assert s == s[..n] + [s[n]] && t == t[..n] + [t[n]];
    }
  }

  lemma {:induction false} PaddedOrder(a: nat, b: nat, width: nat)
    requires a < b && ((width == 2 && b < 100) || (width == 4 && b < 10_000))
    ensures Before(Padded(a, width), Padded(b, width))
  {
    PaddedShape(a, width);
    PaddedShape(b, width);
    SmallerIsBefore(Padded(a, width), Padded(b, width));
  }

  lemma {:induction false} EarlierIsBefore(a: Date, b: Date)
    requires IsDate(a) && IsDate(b) && a.year <= 9999 && b.year <= 9999 && Earlier(a, b)
    ensures Before(Format(a), Format(b))
  {
    var tailA, tailB := Padded(a.month, 2) + "-" + Padded(a.day, 2), Padded(b.month, 2) + "-" + Padded(b.day, 2);
    if a.year < b.year {
      PaddedOrder(a.year, b.year, 4);
      BeforeFirst(Padded(a.year, 4), "-", Padded(b.year, 4), "-");
      BeforeFirst(Padded(a.year, 4) + "-", tailA, Padded(b.year, 4) + "-", tailB);
    } else {
      if a.month < b.month {
        PaddedOrder(a.month, b.month, 2);
        BeforeFirst(Padded(a.month, 2), "-", Padded(b.month, 2), "-");
        BeforeFirst(Padded(a.month, 2) + "-", Padded(a.day, 2), Padded(b.month, 2) + "-", Padded(b.day, 2));
      } else {
        PaddedOrder(a.day, b.day, 2);
        BeforeThen(Padded(a.month, 2) + "-", Padded(a.day, 2), Padded(b.day, 2));
      }
      BeforeThen(Padded(a.year, 4) + "-", tailA, tailB);
    }
  }

  /** Up to the year 9999 the names of the batch directories sort as their dates. */
  lemma {:induction false} NamesSortAsDates(a: Date, b: Date)
    requires IsDate(a) && IsDate(b) && a.year <= 9999 && b.year <= 9999
    ensures Before(Format(a), Format(b)) <==> Earlier(a, b)
  {
    if Earlier(a, b) {
      EarlierIsBefore(a, b);
    } else if a == b {
      if Before(Format(a), Format(b)) {
        NeverBothBefore(Format(a), Format(b));
      }
    } else {
      EarlierIsBefore(b, a);
      NeverBothBefore(Format(b), Format(a));
    }
  }
}
