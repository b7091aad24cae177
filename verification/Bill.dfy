/** What a cap counts, told by the dates of the charges. */
module Bill {
  import opened Common
  import opened Calendar
  import opened Dates
  import opened Cost

  /** What the charges that satisfy `p` add up to. */
  ghost function Total(charges: seq<Charge>, p: Charge -> bool): real {
    if charges == [] then 0.0
    else
      var c := charges[|charges| - 1];
      Total(charges[..|charges| - 1], p) + if p(c) then c.usd else 0.0
  }

  /** Made on the same day. */
  function OnDayOf(now: nat): Charge -> bool {
    (c: Charge) => c.at / 86_400_000_000 == now / 86_400_000_000
  }

  ghost predicate InMonth(t: nat, year: nat, month: nat) {
    exists day: nat :: On(t, Date(year, month, day))
  }

  ghost function InMonthOf(year: nat, month: nat): Charge -> bool {
    (c: Charge) => InMonth(c.at, year, month)
  }

  ghost predicate NoneLater(charges: seq<Charge>, now: nat) {
    forall c | c in charges :: c.at <= now
  }

  lemma {:induction false} SpentIsTotal(charges: seq<Charge>, since: int, p: Charge -> bool)
    requires forall c | c in charges :: p(c) <==> c.at >= since
    ensures Spent(charges, since) == Total(charges, p)
  {
    if charges != [] {
      SpentIsTotal(charges[..|charges| - 1], since, p);
    }
  }

  lemma SameDay(t: nat, now: nat)
    requires t <= now
    ensures t >= DayStart(now) <==> t / 86_400_000_000 == now / 86_400_000_000
  {
    var d := DateOf(now);
    DayOfDate(now, d);
    DivTimes(t, 86_400_000_000);
    DivTimes(now, 86_400_000_000);
    hide Ordinal, IsDate;
    if t / 86_400_000_000 < now / 86_400_000_000 {
      TimesGrows(t / 86_400_000_000 + 1, now / 86_400_000_000);
    }
  }

  lemma MonthIsOf(t: nat, d: Date)
    requires On(t, d)
    ensures MonthFrom(t, 0) == MonthOf(d.year, d.month)
  {
    var k := MonthOf(d.year, d.month);
    MonthBounds(d);
    DivTimes(t, 86_400_000_000);
    hide IsDate, Ordinal, DaysBefore, MonthOf;
    TimesGrows(DaysBefore(k), t / 86_400_000_000);
    TimesGrows(t / 86_400_000_000 + 1, DaysBefore(k + 1));
    MonthFromIsUnique(t, k);
  }

  lemma SameMonthIndex(d: Date, e: Date)
    requires IsDate(d) && IsDate(e) && MonthOf(d.year, d.month) == MonthOf(e.year, e.month)
    ensures d.year == e.year && d.month == e.month
  {
    Exactly(MonthOf(d.year, d.month), 12, d.year - 1, d.month - 1);
    Exactly(MonthOf(e.year, e.month), 12, e.year - 1, e.month - 1);
  }

  lemma SameMonth(t: nat, now: nat, d: Date)
    requires t <= now && On(now, d)
    ensures t >= MonthStart(now) <==> InMonth(t, d.year, d.month)
  {
    var e := DateOf(t);
    MonthIsOf(now, d);
    MonthIsOf(t, e);
    if t >= MonthStart(now) {
      MonthFromIsUnique(t, MonthFrom(now, 0));
      SameMonthIndex(d, e);
      assert On(t, Date(d.year, d.month, e.day));
    }
    if InMonth(t, d.year, d.month) {
      var day: nat :| On(t, Date(d.year, d.month, day));
      OneDate(t, e, Date(d.year, d.month, day));
    }
  }

  /** What has been spent today and this month is what the charges of the same date and of the same month add up to. */
  lemma SpentByDate(charges: seq<Charge>, now: nat, d: Date)
    requires NoneLater(charges, now) && On(now, d)
    ensures Spent(charges, DayStart(now)) == Total(charges, OnDayOf(now))
    ensures Spent(charges, MonthStart(now)) == Total(charges, InMonthOf(d.year, d.month))
  {
    hide On, InMonth, DayStart, MonthStart;
    forall c | c in charges
      ensures OnDayOf(now)(c) <==> c.at >= DayStart(now)
      ensures InMonthOf(d.year, d.month)(c) <==> c.at >= MonthStart(now)
    {
      SameDay(c.at, now);
      SameMonth(c.at, now, d);
    }
    SpentIsTotal(charges, DayStart(now), OnDayOf(now));
    SpentIsTotal(charges, MonthStart(now), InMonthOf(d.year, d.month));
  }

  /** A paid call is refused exactly when the charges of this date reach the daily cap or those of this month the monthly
      one, the daily cap being named first, with what was spent and the cap. */
  lemma VerdictByDate(caps: Caps, charges: seq<Charge>, now: nat, d: Date)
    requires NoneLater(charges, now) && On(now, d)
    ensures var today, month := Total(charges, OnDayOf(now)), Total(charges, InMonthOf(d.year, d.month));
            VerdictOn(caps, charges, now) ==
            if caps.daily.Some? && today >= caps.daily.value then Capped(Daily, today, caps.daily.value)
            else if caps.monthly.Some? && month >= caps.monthly.value then Capped(Monthly, month, caps.monthly.value)
            else Allowed
  {
    SpentByDate(charges, now, d);
    hide Spent, Total, On;
  }

  lemma {:induction false} TotalGrows(charges: seq<Charge>, more: seq<Charge>, p: Charge -> bool)
    requires forall c | c in more :: c.usd >= 0.0
    ensures Total(charges + more, p) >= Total(charges, p)
  {
    if more == [] {
      assert charges + more == charges;
    } else {
      assert (charges + more)[..|charges + more| - 1] == charges + more[..|more| - 1];
      TotalGrows(charges, more[..|more| - 1], p);
    }
  }

  /** Once the charges of a day reach the daily cap, no paid call is allowed for the rest of that day, whatever else is
      charged. */
  lemma DayStaysClosed(caps: Caps, charges: seq<Charge>, more: seq<Charge>, now: nat, later: nat)
    requires caps.daily.Some? && Total(charges, OnDayOf(now)) >= caps.daily.value
    requires later / 86_400_000_000 == now / 86_400_000_000 && NoneLater(charges + more, later)
    requires forall c | c in more :: c.usd >= 0.0
    ensures VerdictOn(caps, charges + more, later).Capped? && VerdictOn(caps, charges + more, later).period == Daily
  {
    var d := DateOf(later);
    VerdictByDate(caps, charges + more, later, d);
    hide Total, VerdictOn, On;
    SameDayAlike(charges, now, later);
    TotalGrows(charges, more, OnDayOf(later));
  }

  lemma {:induction false} SameDayAlike(charges: seq<Charge>, now: nat, later: nat)
    requires later / 86_400_000_000 == now / 86_400_000_000
    ensures Total(charges, OnDayOf(now)) == Total(charges, OnDayOf(later))
  {
    if charges != [] {
      SameDayAlike(charges[..|charges| - 1], now, later);
    }
  }

  /** And likewise for a month. */
  lemma MonthStaysClosed(caps: Caps, charges: seq<Charge>, more: seq<Charge>, now: nat, later: nat, d: Date, e: Date)
    requires caps.monthly.Some? && On(now, d) && On(later, e) && d.year == e.year && d.month == e.month
    requires Total(charges, InMonthOf(d.year, d.month)) >= caps.monthly.value && NoneLater(charges + more, later)
    requires forall c | c in more :: c.usd >= 0.0
    ensures VerdictOn(caps, charges + more, later).Capped?
  {
    VerdictByDate(caps, charges + more, later, e);
    hide Total, VerdictOn, On;
    TotalGrows(charges, more, InMonthOf(e.year, e.month));
  }
}
