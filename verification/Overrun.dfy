/** How far a spending cap can be overrun, across rollovers, pruning, failed writes and restarts. */
module Overrun {
  import opened Common
  import opened Calendar
  import opened Cost

  /** Paid calls as the router makes them: asked first, charged afterwards, at most `limit` of them between the two.
      `memory` is what the meter has in memory, `known` all that this process and those before it charged and did not lose,
      `lost` what went at a restart because its write had failed, `missing` whose writes failed since. */
  datatype Spending = Spending(
    memory: seq<Charge>, known: seq<Charge>, lost: seq<Charge>, missing: set<nat>, open: nat, now: nat)
  {
    /** Everything ever spent. */
    function Bill(): seq<Charge> { known + lost }
  }

  /** A process that dies with a call open is one that finished the call without writing it, just before. */
  datatype Event = Begin | Finish(id: nat, usd: real, stored: bool) | Wait(until: nat) | Restart(rows: seq<Charge>)

  datatype Terms = Terms(caps: Caps, retention: int, limit: nat, most: real)

  predicate Possible(t: Terms, s: Spending, e: Event) {
    match e
    case Begin => s.open < t.limit && VerdictOn(t.caps, s.memory, s.now) == Allowed
    case Finish(_, usd, _) => s.open > 0 && 0.0 <= usd <= t.most
    case Wait(until) => until >= s.now
    case Restart(rows) => s.open == 0 && multiset(rows) == multiset(Filter(s.memory, Written(s.missing)))
  }

  function After(t: Terms, s: Spending, e: Event): Spending
    requires e.Finish? ==> s.open > 0
  {
    match e
    case Begin => s.(open := s.open + 1)
    case Finish(id, usd, stored) =>
      var c := Charge(id, s.now, usd);
      s.(memory := Pruned(s.memory + [c], s.now - t.retention), known := s.known + [c],
         missing := s.missing + (if stored then {} else {id}), open := s.open - 1)
    case Wait(until) => s.(now := until)
    case Restart(rows) =>
      s.(memory := rows, known := Filter(s.known, Written(s.missing)),
         lost := s.lost + Filter(s.known, LostIn(s.missing)), missing := {})
  }

  ghost predicate Reaches(t: Terms, s: Spending, es: seq<Event>, s': Spending)
    decreases |es|
  {
    if es == [] then s' == s
    else Possible(t, s, es[0]) && Reaches(t, After(t, s, es[0]), es[1..], s')
  }

  function Fresh(start: nat): Spending {
    Spending([], [], [], {}, 0, start)
  }

  ghost predicate Sane(t: Terms) {
    t.retention >= 31 * DAY && t.most >= 0.0
  }

  ghost predicate Dated(charges: seq<Charge>, now: nat) {
    forall i | 0 <= i < |charges| :: charges[i].at <= now && charges[i].usd >= 0.0
  }

  /** No charge is in the future, and memory agrees with what is known over the whole retention. */
  ghost predicate InOrder(t: Terms, s: Spending) {
    Dated(s.known, s.now) && Dated(s.lost, s.now) && AgreeFrom(s.memory, s.known, s.now - t.retention)
  }

  /** What `calls` calls cost at most. */
  function Worst(calls: nat, most: real): real { calls as real * most }

  /** Either nothing is known to be spent and nothing is open, or what is known, with every open call at its dearest, is
      below the cap by more than the calls that could still be opened. */
  ghost predicate Below(t: Terms, s: Spending, period: Period) {
    var spent := Spent(s.known, PeriodStart(period, s.now));
    && s.open <= t.limit
    && (CapOf(t.caps, period).Some? ==>
          || (spent == 0.0 && s.open == 0)
          || spent + Worst(s.open, t.most) < CapOf(t.caps, period).value + Worst(t.limit, t.most))
  }

  lemma {:induction false} SpentShrinks(log: seq<Charge>, since: int, later: int)
    requires since <= later && forall i | 0 <= i < |log| :: log[i].usd >= 0.0
    ensures 0.0 <= Spent(log, later) <= Spent(log, since)
  {
    if log != [] {
      SpentShrinks(log[..|log| - 1], since, later);
    }
  }

  // -------------------------------------------------------------- memory speaks for what is known

  lemma FilterCommutes(s: seq<Charge>, p: Charge -> bool, q: Charge -> bool)
    ensures Filter(Filter(s, p), q) == Filter(Filter(s, q), p)
  {
    var both: Charge -> bool := (c: Charge) => p(c) && q(c);
    FilterBoth(s, p, q, both);
    FilterBoth(s, q, p, both);
  }

  lemma RestartAgrees(memory: seq<Charge>, known: seq<Charge>, rows: seq<Charge>, missing: set<nat>, floor: int)
    requires AgreeFrom(memory, known, floor) && multiset(rows) == multiset(Filter(memory, Written(missing)))
    ensures AgreeFrom(rows, Filter(known, Written(missing)), floor)
  {
    hide Filter;
    SameCharges(rows, Filter(memory, Written(missing)), floor);
    FilterCommutes(memory, Written(missing), NotBefore(floor));
    FilterCommutes(known, Written(missing), NotBefore(floor));
    FilterPermuted(Filter(memory, NotBefore(floor)), Filter(known, NotBefore(floor)), Written(missing));
  }

  lemma FilterIsDated(charges: seq<Charge>, p: Charge -> bool, now: nat)
    requires Dated(charges, now)
    ensures Dated(Filter(charges, p), now)
  {
    forall i | 0 <= i < |Filter(charges, p)|
      ensures Filter(charges, p)[i].at <= now && Filter(charges, p)[i].usd >= 0.0
    {
      assert Filter(charges, p)[i] in Filter(charges, p);
    }
  }

  lemma StepKeepsOrder(t: Terms, s: Spending, e: Event)
    requires Sane(t) && InOrder(t, s) && Possible(t, s, e)
    ensures InOrder(t, After(t, s, e))
  {
    hide AgreeFrom, Pruned, Filter, VerdictOn;
    var floor := s.now - t.retention;
    match e {
      case Begin =>
      case Finish(id, usd, _) =>
        var c := Charge(id, s.now, usd);
        AgreementAppends(s.memory, s.known, [c], [c], floor);
        PrunedAgrees(s.memory + [c], s.known + [c], floor, floor);
      case Wait(until) =>
        AgreementGrows(s.memory, s.known, floor, until - t.retention);
      case Restart(rows) =>
        RestartAgrees(s.memory, s.known, rows, s.missing, floor);
        FilterIsDated(s.known, Written(s.missing), s.now);
        FilterIsDated(s.known, LostIn(s.missing), s.now);
    }
  }

  lemma AllowedMeansBelowCap(t: Terms, s: Spending, period: Period)
    requires Sane(t) && InOrder(t, s) && Possible(t, s, Begin)
    ensures CapOf(t.caps, period).Some? ==>
              Spent(s.known, PeriodStart(period, s.now)) < CapOf(t.caps, period).value
  {
    hide Spent, AgreeFrom, MonthStart, DayStart;
    MonthIsRetained(t, s.now);
    VerdictsAgree(t.caps, s.memory, s.known, s.now - t.retention, s.now);
  }

  lemma MonthIsRetained(t: Terms, now: nat)
    requires Sane(t)
    ensures now - t.retention <= MonthStart(now)
  {
  }

  // -------------------------------------------------------------- the bound is kept

  lemma WorstGrows(a: nat, b: nat, most: real)
    requires a <= b && most >= 0.0
    ensures Worst(a, most) <= Worst(b, most)
    ensures Worst(a + 1, most) == Worst(a, most) + most
  {
    assert (b - a) as real * most >= 0.0;
  }

  lemma BeginStaysBelow(t: Terms, s: Spending, period: Period)
    requires Sane(t) && InOrder(t, s) && Below(t, s, period) && Possible(t, s, Begin)
    ensures Below(t, After(t, s, Begin), period)
  {
    hide Spent, Worst, PeriodStart, VerdictOn, AgreeFrom;
    AllowedMeansBelowCap(t, s, period);
    WorstGrows(s.open + 1, t.limit, t.most);
  }

  lemma FinishStaysBelow(t: Terms, s: Spending, e: Event, period: Period)
    requires Sane(t) && InOrder(t, s) && Below(t, s, period) && e.Finish? && Possible(t, s, e)
    ensures Below(t, After(t, s, e), period)
  {
    hide Spent, Worst, VerdictOn, MonthStart, DayStart, AgreeFrom, Pruned;
    SpentAppends(s.known, Charge(e.id, s.now, e.usd), PeriodStart(period, s.now));
    WorstGrows(s.open - 1, s.open, t.most);
  }

  lemma WaitStaysBelow(t: Terms, s: Spending, until: nat, period: Period)
    requires Sane(t) && InOrder(t, s) && Below(t, s, period) && until >= s.now
    ensures Below(t, s.(now := until), period)
  {
    hide Spent, Worst, MonthStart, DayStart, AgreeFrom;
    StartsGrow(s.now, until);
    SpentShrinks(s.known, PeriodStart(period, s.now), PeriodStart(period, until));
  }

  /** A restart splits what was known into what still is and what is lost. */
  lemma {:induction false} SpentSplits(charges: seq<Charge>, missing: set<nat>, since: int)
    ensures Spent(Filter(charges, Written(missing)), since) + Spent(Filter(charges, LostIn(missing)), since) ==
            Spent(charges, since)
  {
    if charges != [] {
      var front, c := charges[..|charges| - 1], charges[|charges| - 1];
      SpentSplits(front, missing, since);
      SpentAppends(Filter(front, Written(missing)), c, since);
      SpentAppends(Filter(front, LostIn(missing)), c, since);
      assert Filter(front, Written(missing)) + [] == Filter(front, Written(missing));
      assert Filter(front, LostIn(missing)) + [] == Filter(front, LostIn(missing));
    }
  }

  lemma RestartStaysBelow(t: Terms, s: Spending, e: Event, period: Period)
    requires Sane(t) && InOrder(t, s) && Below(t, s, period) && e.Restart? && Possible(t, s, e)
    ensures Below(t, After(t, s, e), period)
  {
    var start := PeriodStart(period, s.now);
    SpentSplits(s.known, s.missing, start);
    FilterIsDated(s.known, Written(s.missing), s.now);
    FilterIsDated(s.known, LostIn(s.missing), s.now);
    hide Spent, Worst, MonthStart, DayStart, AgreeFrom, Filter;
    SpentShrinks(Filter(s.known, Written(s.missing)), start, start);
    SpentShrinks(Filter(s.known, LostIn(s.missing)), start, start);
  }

  lemma StepStaysBelow(t: Terms, s: Spending, e: Event, period: Period)
    requires Sane(t) && InOrder(t, s) && Below(t, s, period) && Possible(t, s, e)
    ensures InOrder(t, After(t, s, e)) && Below(t, After(t, s, e), period)
  {
    StepKeepsOrder(t, s, e);
    hide Below, VerdictOn, Sane, InOrder;
    match e
    case Begin => BeginStaysBelow(t, s, period);
    case Finish(_, _, _) => FinishStaysBelow(t, s, e, period);
    case Wait(until) => WaitStaysBelow(t, s, until, period);
    case Restart(_) => RestartStaysBelow(t, s, e, period);
  }

  lemma {:induction false} RunStaysBelow(t: Terms, s: Spending, es: seq<Event>, s': Spending, period: Period)
    requires Sane(t) && InOrder(t, s) && Below(t, s, period) && Reaches(t, s, es, s')
    ensures InOrder(t, s') && Below(t, s', period)
    decreases |es|
  {
    if es != [] {
      hide Possible, Below, InOrder, Sane, After;
      StepStaysBelow(t, s, es[0], period);
      RunStaysBelow(t, After(t, s, es[0]), es[1..], s', period);
    }
  }

  /** Whatever is spent and pruned, however the day or month turns over, and however often the process restarts: a period's
      true total, with every open call counted at its dearest, stays below its cap plus `limit` calls plus what was lost at
      restarts; or nothing was spent but what was lost. */
  lemma OverrunIsBounded(t: Terms, start: nat, es: seq<Event>, s: Spending, period: Period)
    requires Sane(t) && Reaches(t, Fresh(start), es, s) && CapOf(t.caps, period).Some?
    ensures var since := PeriodStart(period, s.now);
            var spent, lost := Spent(s.Bill(), since), Spent(s.lost, since);
            || (spent == lost && s.open == 0)
            || spent + Worst(s.open, t.most) < CapOf(t.caps, period).value + Worst(t.limit, t.most) + lost
  {
    StartsBelow(t, start, period);
    hide Reaches, PeriodStart, Possible, After, InOrder, Spent;
    RunStaysBelow(t, Fresh(start), es, s, period);
    SpentConcat(s.known, s.lost, PeriodStart(period, s.now));
  }

  lemma StartsBelow(t: Terms, start: nat, period: Period)
    ensures InOrder(t, Fresh(start)) && Below(t, Fresh(start), period)
  {
  }

  /** The ids whose writes failed. */
  function Unwritten(es: seq<Event>): set<nat> {
    set i | 0 <= i < |es| && es[i].Finish? && !es[i].stored :: es[i].id
  }

  ghost predicate OnlyOf(charges: seq<Charge>, ids: set<nat>) {
    forall c | c in charges :: c.id in ids
  }

  lemma {:induction false} OnlyFailuresAreLostFrom(t: Terms, s: Spending, es: seq<Event>, s': Spending, ids: set<nat>)
    requires Reaches(t, s, es, s') && OnlyOf(s.lost, ids) && s.missing <= ids && Unwritten(es) <= ids
    ensures OnlyOf(s'.lost, ids)
    decreases |es|
  {
    if es != [] {
      var next := After(t, s, es[0]);
      assert es == [es[0]] + es[1..];
      assert Unwritten(es[1..]) <= Unwritten(es);
      assert es[0].Finish? && !es[0].stored ==> es[0].id in Unwritten(es);
      hide Reaches, Possible, Pruned;
      assert OnlyOf(next.lost, ids) && next.missing <= ids;
      ReachesNext(t, s, es, s');
      OnlyFailuresAreLostFrom(t, next, es[1..], s', ids);
    }
  }

  lemma ReachesNext(t: Terms, s: Spending, es: seq<Event>, s': Spending)
    requires Reaches(t, s, es, s') && es != []
    ensures Possible(t, s, es[0]) && Reaches(t, After(t, s, es[0]), es[1..], s')
  {
  }

  /** What is lost is only what could not be written: with every write done, the bound is the cap plus `limit` calls. */
  lemma OnlyFailuresAreLost(t: Terms, start: nat, es: seq<Event>, s: Spending)
    requires Reaches(t, Fresh(start), es, s)
    ensures forall c | c in s.lost :: c.id in Unwritten(es)
  {
    hide Reaches;
    OnlyFailuresAreLostFrom(t, Fresh(start), es, s, Unwritten(es));
  }

  /** A cap of nothing lets no call through. */
  lemma ClosedCapStaysClosed(t: Terms, start: nat, es: seq<Event>, s: Spending, period: Period)
    requires Sane(t) && Reaches(t, Fresh(start), es, s)
    requires CapOf(t.caps, period).Some? && CapOf(t.caps, period).value <= 0.0
    ensures s == Fresh(s.now)
    decreases |es|
  {
    hide VerdictOn;
    ClosedFrom(t, Fresh(start), es, s, period);
  }

  lemma {:induction false} ClosedFrom(t: Terms, s: Spending, es: seq<Event>, s': Spending, period: Period)
    requires Sane(t) && Reaches(t, s, es, s') && s == Fresh(s.now)
    requires CapOf(t.caps, period).Some? && CapOf(t.caps, period).value <= 0.0
    ensures s' == Fresh(s'.now)
    decreases |es|
  {
    if es != [] {
      if es[0].Begin? {
        AllowedMeansBelowCap(t, s, period);
        assert false;
      } else {
        ClosedStep(t, s, es[0]);
        ClosedFrom(t, After(t, s, es[0]), es[1..], s', period);
      }
    }
  }

  lemma ClosedStep(t: Terms, s: Spending, e: Event)
    requires Possible(t, s, e) && !e.Begin? && s == Fresh(s.now)
    ensures After(t, s, e) == Fresh(After(t, s, e).now)
  {
  }
}
