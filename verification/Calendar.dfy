/** Days and months of the proleptic Gregorian calendar, in microseconds since the first of January of year 1. */
module Calendar {
  const DAY: int := 86_400_000_000

  predicate Leap(year: nat) {
    year % 4 == 0 && (year % 100 != 0 || year % 400 == 0)
  }

  /** Days in the month `k` months after January of year 1. */
  function MonthLength(k: nat): (days: nat)
    ensures 28 <= days <= 31
  {
    match k % 12
    case 1 => if Leap(k / 12 + 1) then 29 else 28
    case 3 => 30
    case 5 => 30
    case 8 => 30
    case 10 => 30
    case _ => 31
  }

  /** Days before month `k`. */
  function DaysBefore(k: nat): nat {
    if k == 0 then 0 else DaysBefore(k - 1) + MonthLength(k - 1)
  }

  /** The first instant of month `k`. */
  function First(k: nat): nat { DaysBefore(k) * DAY }

  function MonthFrom(t: nat, k: nat): (month: nat)
    requires First(k) <= t
    ensures First(month) <= t < First(month + 1) && month >= k
    decreases t - First(k)
  {
    if t < First(k + 1) then k else MonthFrom(t, k + 1)
  }

  function DayStart(t: nat): (start: nat)
    ensures start <= t < start + DAY
  {
    t - t % DAY
  }

  function MonthStart(t: nat): (start: nat)
    ensures start <= t < start + 31 * DAY
  {
    First(MonthFrom(t, 0))
  }

  lemma {:induction false} FirstGrows(k: nat, l: nat)
    requires k <= l
    ensures First(k) <= First(l)
  {
    if k < l {
      FirstGrows(k, l - 1);
    }
  }

  lemma StartsGrow(t: nat, u: nat)
    requires t <= u
    ensures DayStart(t) <= DayStart(u) && MonthStart(t) <= MonthStart(u)
  {
    var k, l := MonthFrom(t, 0), MonthFrom(u, 0);
    if l < k {
      FirstGrows(l + 1, k);
      assert false;
    }
    FirstGrows(k, l);
    assert t / DAY <= u / DAY;
  }

  lemma MonthBeforeDay(t: nat)
    ensures MonthStart(t) <= DayStart(t)
  {
    assert DaysBefore(MonthFrom(t, 0)) <= t / DAY;
  }
}
