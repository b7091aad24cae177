/** The calendar by its dates: what day and month a moment falls in, told by year, month and day. */
module Dates {
  import opened Calendar

  datatype Date = Date(year: nat, month: nat, day: nat)

  predicate LeapYear(y: nat) {
    if y % 400 == 0 then true else if y % 100 == 0 then false else y % 4 == 0
  }

  /** How long the months of a year are. */
  function Lengths(y: nat): (lengths: seq<nat>)
    ensures |lengths| == 12
  {
    [31, if LeapYear(y) then 29 else 28, 31, 30, 31, 30, 31, 31, 30, 31, 30, 31]
  }

  predicate IsDate(d: Date) {
    d.year >= 1 && 1 <= d.month <= 12 && 1 <= d.day <= Lengths(d.year)[d.month - 1]
  }

  function Sum(s: seq<nat>): nat {
    if s == [] then 0 else Sum(s[..|s| - 1]) + s[|s| - 1]
  }

  /** Days before the first of January: 365 a year, and one for every leap year gone. */
  function DaysBeforeYear(y: nat): int
    requires y >= 1
  {
    365 * (y - 1) + (y - 1) / 4 - (y - 1) / 100 + (y - 1) / 400
  }

  /** The number of a day, the first of January of year 1 being zero. */
  function Ordinal(d: Date): int
    requires IsDate(d)
  {
    DaysBeforeYear(d.year) + Sum(Lengths(d.year)[..d.month - 1]) + d.day - 1
  }

  /** The moment falls on this date. */
  predicate On(t: nat, d: Date) {
    IsDate(d) && t / 86_400_000_000 == Ordinal(d)
  }

  function MonthOf(y: nat, m: nat): nat
    requires y >= 1 && 1 <= m <= 12
  {
    12 * (y - 1) + (m - 1)
  }

  // -------------------------------------------------------------- the months of the calendar are those of the dates

  lemma LengthOfMonth(y: nat, m: nat)
    requires y >= 1 && 1 <= m <= 12
    ensures MonthLength(MonthOf(y, m)) == Lengths(y)[m - 1]
  {
    var k := MonthOf(y, m);
    assert k % 12 == m - 1 && k / 12 == y - 1;
    assert Leap(y) == LeapYear(y);
  }

  lemma DivGrows(n: nat, q: nat)
    requires q >= 1
    ensures (n + 1) / q == n / q + if (n + 1) % q == 0 then 1 else 0
  {
    var r := n % q;
    assert n == q * (n / q) + r;
    if r == q - 1 {
      assert n + 1 == q * (n / q + 1);
      Exactly(n + 1, q, n / q + 1, 0);
    } else {
      Exactly(n + 1, q, n / q, r + 1);
    }
  }

  lemma AtLeastOnce(q: nat, x: nat)
    requires x >= 1
    ensures q * x >= q
  {
  }

  lemma Exactly(n: nat, q: nat, d: nat, r: nat)
    requires q >= 1 && r < q && n == q * d + r
    ensures n / q == d && n % q == r
  {
    var e, s := n / q, n % q;
    assert q * (d - e) == q * d - q * e;
    if d > e {
      AtLeastOnce(q, d - e);
    } else if d < e {
      AtLeastOnce(q, e - d);
    }
  }

  lemma YearLength(y: nat)
    requires y >= 1
    ensures DaysBeforeYear(y + 1) == DaysBeforeYear(y) + (if LeapYear(y) then 366 else 365)
  {
    DivGrows(y - 1, 4);
    DivGrows(y - 1, 100);
    DivGrows(y - 1, 400);
    Multiples(y);
  }

  lemma Multiples(y: nat)
    ensures y % 400 == 0 ==> y % 100 == 0
    ensures y % 100 == 0 ==> y % 4 == 0
  {
    if y % 400 == 0 {
      Exactly(y, 100, 4 * (y / 400), 0);
    }
    if y % 100 == 0 {
      Exactly(y, 4, 25 * (y / 100), 0);
    }
  }

  lemma SumNext(s: seq<nat>, n: nat)
    requires n < |s|
    ensures Sum(s[..n + 1]) == Sum(s[..n]) + s[n]
  {
    assert s[..n + 1][..n] == s[..n];
  }

  lemma SumOfYear(y: nat)
    ensures Sum(Lengths(y)) == if LeapYear(y) then 366 else 365
  {
    var s := Lengths(y);
    assert s[..0] == [] && s[..12] == s;
    SumNext(s, 0);
    SumNext(s, 1);
    SumNext(s, 2);
    SumNext(s, 3);
    SumNext(s, 4);
    SumNext(s, 5);
    SumNext(s, 6);
    SumNext(s, 7);
    SumNext(s, 8);
    SumNext(s, 9);
    SumNext(s, 10);
    SumNext(s, 11);
  }

  lemma NextMonth(k: nat)
    ensures DaysBefore(k + 1) == DaysBefore(k) + MonthLength(k)
  {
  }

  lemma MonthLater(y: nat, m: nat)
    requires y >= 1 && 1 < m <= 12
    requires DaysBefore(MonthOf(y, m - 1)) == DaysBeforeYear(y) + Sum(Lengths(y)[..m - 2])
    ensures DaysBefore(MonthOf(y, m)) == DaysBeforeYear(y) + Sum(Lengths(y)[..m - 1])
  {
    LengthOfMonth(y, m - 1);
    SumNext(Lengths(y), m - 2);
    NextMonth(MonthOf(y, m - 1));
    hide Lengths, MonthLength, DaysBeforeYear, DaysBefore, Sum;
    assert MonthOf(y, m) == MonthOf(y, m - 1) + 1;
  }

  lemma YearLater(y: nat)
    requires y > 1 && DaysBefore(MonthOf(y - 1, 12)) == DaysBeforeYear(y - 1) + Sum(Lengths(y - 1)[..11])
    ensures DaysBefore(MonthOf(y, 1)) == DaysBeforeYear(y)
  {
    LengthOfMonth(y - 1, 12);
    SumNext(Lengths(y - 1), 11);
    SumOfYear(y - 1);
    YearLength(y - 1);
    assert Lengths(y - 1)[..12] == Lengths(y - 1);
    NextMonth(MonthOf(y - 1, 12));
    hide Lengths, MonthLength, DaysBeforeYear, DaysBefore, Sum;
    assert MonthOf(y, 1) == MonthOf(y - 1, 12) + 1;
  }

  /** The days before a month are those before its year and those of the months before it. */
  lemma {:induction false} DaysBeforeMonth(y: nat, m: nat)
    requires y >= 1 && 1 <= m <= 12
    ensures DaysBefore(MonthOf(y, m)) == DaysBeforeYear(y) + Sum(Lengths(y)[..m - 1])
    decreases y, m
  {
    if m > 1 {
      DaysBeforeMonth(y, m - 1);
      MonthLater(y, m);
    } else {
      assert Sum(Lengths(y)[..0]) == 0;
      if y > 1 {
        DaysBeforeMonth(y - 1, 12);
        hide Lengths, DaysBeforeYear, Sum, DaysBefore;
        YearLater(y);
      }
    }
  }

  lemma Centuries(n: nat)
    ensures (n + 400) / 4 == n / 4 + 100 && (n + 400) / 100 == n / 100 + 4 && (n + 400) / 400 == n / 400 + 1
  {
    Exactly(n + 400, 4, n / 4 + 100, n % 4);
    Exactly(n + 400, 100, n / 100 + 4, n % 100);
    Exactly(n + 400, 400, n / 400 + 1, n % 400);
  }

  /** Four hundred years are 146097 days. */
  lemma {:induction false} FourCenturies(y: nat)
    requires y >= 1
    ensures DaysBefore(MonthOf(y + 400, 1)) == DaysBefore(MonthOf(y, 1)) + 146_097
  {
    DaysBeforeMonth(y, 1);
    DaysBeforeMonth(y + 400, 1);
    Centuries(y - 1);
    hide DaysBefore, Lengths;
    assert Lengths(y)[..0] == [] && Lengths(y + 400)[..0] == [];
  }

  // -------------------------------------------------------------- day and month of a moment

  lemma DivTimes(t: nat, q: nat)
    requires q >= 1
    ensures q * (t / q) <= t < q * (t / q + 1)
  {
  }

  /** The day of a moment begins at midnight of its date. */
  lemma DayOfDate(t: nat, d: Date)
    requires On(t, d)
    ensures DayStart(t) == Ordinal(d) * 86_400_000_000
  {
    hide IsDate, Ordinal;
    assert t == 86_400_000_000 * (t / 86_400_000_000) + t % 86_400_000_000;
  }

  lemma MonthFromIsUnique(t: nat, k: nat)
    requires First(k) <= t < First(k + 1)
    ensures MonthFrom(t, 0) == k
  {
    var l := MonthFrom(t, 0);
    if l < k {
      FirstGrows(l + 1, k);
    } else if k < l {
      FirstGrows(k + 1, l);
    }
  }

  lemma MonthBounds(d: Date)
    requires IsDate(d)
    ensures DaysBefore(MonthOf(d.year, d.month)) <= Ordinal(d) < DaysBefore(MonthOf(d.year, d.month) + 1)
    ensures DaysBefore(MonthOf(d.year, d.month)) == Ordinal(Date(d.year, d.month, 1))
  {
    DaysBeforeMonth(d.year, d.month);
    LengthOfMonth(d.year, d.month);
    hide Lengths, DaysBeforeYear, MonthLength;
  }

  /** And its month at midnight of the first. */
  lemma MonthOfDate(t: nat, d: Date)
    requires On(t, d)
    ensures MonthStart(t) == Ordinal(Date(d.year, d.month, 1)) * 86_400_000_000
  {
    var k := MonthOf(d.year, d.month);
    MonthBounds(d);
    DivTimes(t, 86_400_000_000);
    hide IsDate, Ordinal, DaysBefore, MonthOf;
    TimesGrows(DaysBefore(k), t / 86_400_000_000);
    TimesGrows(t / 86_400_000_000 + 1, DaysBefore(k + 1));
    MonthFromIsUnique(t, k);
  }

  lemma TimesGrows(a: int, b: int)
    requires a <= b
    ensures a * DAY <= b * DAY
  {
  }

  /** Every moment has a date. */
  lemma DateOf(t: nat) returns (d: Date)
    ensures On(t, d)
  {
    var k := MonthFrom(t, 0);
    var y, m := k / 12 + 1, k % 12 + 1;
    assert MonthOf(y, m) == k;
    DaysBeforeMonth(y, m);
    LengthOfMonth(y, m);
    var n := t / 86_400_000_000;
    DivTimes(t, 86_400_000_000);
    hide Lengths, DaysBeforeYear, MonthLength, MonthOf;
    assert DaysBefore(k) <= n < DaysBefore(k + 1);
    d := Date(y, m, n - DaysBefore(k) + 1);
  }

  /** And only one. */
  lemma OneDate(t: nat, d: Date, e: Date)
    requires On(t, d) && On(t, e)
    ensures d == e
  {
    hide IsDate, Ordinal;
    OrdinalTells(d, e);
  }

  lemma {:induction false} OrdinalTells(d: Date, e: Date)
    requires IsDate(d) && IsDate(e) && Ordinal(d) == Ordinal(e)
    ensures d == e
  {
    MonthBounds(d);
    MonthBounds(e);
    OneMonth(MonthOf(d.year, d.month), MonthOf(e.year, e.month), Ordinal(d));
    hide DaysBefore, IsDate, Ordinal, MonthOf;
    SameMonth(d, e);
  }

  lemma {:induction false} OneMonth(k: nat, l: nat, n: int)
    requires DaysBefore(k) <= n < DaysBefore(k + 1) && DaysBefore(l) <= n < DaysBefore(l + 1)
    ensures k == l
  {
    hide DaysBefore;
    if k < l {
      DaysGrow(k + 1, l);
    } else if l < k {
      DaysGrow(l + 1, k);
    }
  }

  lemma SameMonth(d: Date, e: Date)
    requires IsDate(d) && IsDate(e) && MonthOf(d.year, d.month) == MonthOf(e.year, e.month) && Ordinal(d) == Ordinal(e)
    ensures d == e
  {
    Exactly(MonthOf(d.year, d.month), 12, d.year - 1, d.month - 1);
    Exactly(MonthOf(e.year, e.month), 12, e.year - 1, e.month - 1);
    hide Lengths, DaysBeforeYear, Sum;
  }

  lemma {:induction false} DaysGrow(k: nat, l: nat)
    requires k <= l
    ensures DaysBefore(k) <= DaysBefore(l)
  {
    if k < l {
      DaysGrow(k, l - 1);
    }
  }
}
