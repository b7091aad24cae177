/** What Thursday spends, and the ceilings over it. */
module Cost {
  import opened Calendar
  import opened Common

  datatype Charge = Charge(id: nat, at: nat, usd: real)

  datatype Period = Daily | Monthly

  datatype Verdict = Allowed | Capped(period: Period, spent: real, cap: real)

  datatype Caps = Caps(daily: Option<real>, monthly: Option<real>)

  /** What the charges made at `since` or later add up to. */
  function Spent(charges: seq<Charge>, since: int): real {
    if charges == [] then 0.0
    else
      var c := charges[|charges| - 1];
      Spent(charges[..|charges| - 1], since) + if c.at >= since then c.usd else 0.0
  }

  function PeriodStart(period: Period, now: nat): nat {
    if period.Daily? then DayStart(now) else MonthStart(now)
  }

  function CapOf(caps: Caps, period: Period): Option<real> {
    if period.Daily? then caps.daily else caps.monthly
  }

  predicate Reached(caps: Caps, period: Period, charges: seq<Charge>, now: nat) {
    CapOf(caps, period).Some? && Spent(charges, PeriodStart(period, now)) >= CapOf(caps, period).value
  }

  function VerdictOn(caps: Caps, charges: seq<Charge>, now: nat): Verdict {
    if Reached(caps, Daily, charges, now) then Capped(Daily, Spent(charges, DayStart(now)), caps.daily.value)
    else if Reached(caps, Monthly, charges, now) then Capped(Monthly, Spent(charges, MonthStart(now)), caps.monthly.value)
    else Allowed
  }

  function NotBefore(cutoff: int): Charge -> bool {
    (c: Charge) => c.at >= cutoff
  }

  /** Drops what is older than `cutoff`, but only when the first charge is. */
  function Pruned(charges: seq<Charge>, cutoff: int): seq<Charge> {
    if charges == [] || charges[0].at >= cutoff then charges else Filter(charges, NotBefore(cutoff))
  }

  /** Both ledgers hold the same charges from `since` on. */
  ghost predicate AgreeFrom(a: seq<Charge>, b: seq<Charge>, since: int) {
    multiset(Filter(a, NotBefore(since))) == multiset(Filter(b, NotBefore(since)))
  }

  lemma {:induction false} FilterCount<T>(s: seq<T>, p: T -> bool, x: T)
    ensures multiset(Filter(s, p))[x] == if p(x) then multiset(s)[x] else 0
  {
    if s != [] {
      assert s == s[..|s| - 1] + [s[|s| - 1]];
      FilterCount(s[..|s| - 1], p, x);
    }
  }

  lemma FilterPermuted(a: seq<Charge>, b: seq<Charge>, p: Charge -> bool)
    requires multiset(a) == multiset(b)
    ensures multiset(Filter(a, p)) == multiset(Filter(b, p))
  {
    hide Filter;
    forall x ensures multiset(Filter(a, p))[x] == multiset(Filter(b, p))[x] {
      FilterCount(a, p, x);
      FilterCount(b, p, x);
    }
    assert multiset(Filter(a, p)) == multiset(Filter(b, p));
  }

  lemma {:induction false} SpentConcat(a: seq<Charge>, b: seq<Charge>, since: int)
    ensures Spent(a + b, since) == Spent(a, since) + Spent(b, since)
  {
    if b == [] {
      assert a + b == a;
    } else {
      assert (a + b)[..|a + b| - 1] == a + b[..|b| - 1];
      SpentConcat(a, b[..|b| - 1], since);
    }
  }

  lemma SpentAppends(log: seq<Charge>, c: Charge, since: int)
    ensures Spent(log + [c], since) == Spent(log, since) + if c.at >= since then c.usd else 0.0
  {
    assert (log + [c])[..|log|] == log;
  }

  /** The order of the charges does not matter. */
  lemma {:induction false} SpentPermuted(a: seq<Charge>, b: seq<Charge>, since: int)
    requires multiset(a) == multiset(b)
    ensures Spent(a, since) == Spent(b, since)
    decreases |a|
  {
    if a == [] {
      assert |b| == |multiset(b)| == 0;
    } else {
      var c, front := a[|a| - 1], a[..|a| - 1];
      assert a == front + [c];
      assert c in multiset(b);
      var i :| 0 <= i < |b| && b[i] == c;
      TakenOut(b, i, since);
      SpentPermuted(front, b[..i] + b[i + 1..], since);
    }
  }

  lemma TakenOut(b: seq<Charge>, i: nat, since: int)
    requires i < |b|
    ensures multiset(b[..i] + b[i + 1..]) == multiset(b) - multiset{b[i]}
    ensures Spent(b, since) == Spent(b[..i] + b[i + 1..], since) + if b[i].at >= since then b[i].usd else 0.0
  {
    hide Spent;
    assert b == (b[..i] + [b[i]]) + b[i + 1..];
    SpentConcat(b[..i] + [b[i]], b[i + 1..], since);
    SpentConcat(b[..i], b[i + 1..], since);
    SpentAppends(b[..i], b[i], since);
  }

  lemma {:induction false} SpentOfFilter(charges: seq<Charge>, cutoff: int, since: int)
    requires cutoff <= since
    ensures Spent(Filter(charges, NotBefore(cutoff)), since) == Spent(charges, since)
  {
    if charges != [] {
      var front, c := charges[..|charges| - 1], charges[|charges| - 1];
      SpentOfFilter(front, cutoff, since);
      var kept := Filter(front, NotBefore(cutoff));
      assert (kept + [c])[..|kept|] == kept;
      assert kept + [] == kept;
    }
  }

  lemma AgreementGrows(a: seq<Charge>, b: seq<Charge>, since: int, later: int)
    requires AgreeFrom(a, b, since) && since <= later
    ensures AgreeFrom(a, b, later) && Spent(a, later) == Spent(b, later)
  {
    hide Filter, Spent;
    FilterBoth(a, NotBefore(since), NotBefore(later), NotBefore(later));
    FilterBoth(b, NotBefore(since), NotBefore(later), NotBefore(later));
    FilterPermuted(Filter(a, NotBefore(since)), Filter(b, NotBefore(since)), NotBefore(later));
    SpentOfFilter(a, since, later);
    SpentOfFilter(b, since, later);
    SpentPermuted(Filter(a, NotBefore(since)), Filter(b, NotBefore(since)), later);
  }

  lemma PruningAgrees(charges: seq<Charge>, cutoff: int)
    ensures AgreeFrom(Pruned(charges, cutoff), charges, cutoff)
  {
    FilterBoth(charges, NotBefore(cutoff), NotBefore(cutoff), NotBefore(cutoff));
  }

  /** Pruning takes every charge before the cutoff and no other, once the first charge is before it; until then it takes
      none, which with charges in the order of time means there is none to take. */
  lemma PrunedInWords(charges: seq<Charge>, cutoff: int, c: Charge)
    ensures multiset(Pruned(charges, cutoff))[c] ==
            if charges != [] && charges[0].at < cutoff && c.at < cutoff then 0 else multiset(charges)[c]
    ensures (forall i, j | 0 <= i < j < |charges| :: charges[i].at <= charges[j].at) ==>
              (c in Pruned(charges, cutoff) <==> c in charges && c.at >= cutoff)
  {
    FilterCount(charges, NotBefore(cutoff), c);
    hide Filter;
    if c in charges && charges[0].at >= cutoff {
      var i :| 0 <= i < |charges| && charges[i] == c;
    }
  }

  lemma AgreementAppends(a: seq<Charge>, b: seq<Charge>, more: seq<Charge>, more': seq<Charge>, since: int)
    requires AgreeFrom(a, b, since) && multiset(more) == multiset(more')
    ensures AgreeFrom(a + more, b + more', since)
  {
    FilterConcat(a, more, NotBefore(since));
    FilterConcat(b, more', NotBefore(since));
    FilterPermuted(more, more', NotBefore(since));
  }

  lemma PrunedAgrees(a: seq<Charge>, b: seq<Charge>, floor: int, cutoff: int)
    requires AgreeFrom(a, b, floor)
    ensures AgreeFrom(Pruned(a, cutoff), b, if floor >= cutoff then floor else cutoff)
  {
    hide AgreeFrom, Filter, Pruned;
    var later := if floor >= cutoff then floor else cutoff;
    AgreementGrows(a, b, floor, later);
    PruningAgrees(a, cutoff);
    AgreementGrows(Pruned(a, cutoff), a, cutoff, later);
    AgreementJoins(Pruned(a, cutoff), a, b, later);
  }

  lemma SameCharges(a: seq<Charge>, b: seq<Charge>, since: int)
    requires multiset(a) == multiset(b)
    ensures AgreeFrom(a, b, since)
  {
    FilterPermuted(a, b, NotBefore(since));
  }

  lemma AgreementJoins(a: seq<Charge>, b: seq<Charge>, c: seq<Charge>, since: int)
    requires AgreeFrom(a, b, since) && AgreeFrom(b, c, since)
    ensures AgreeFrom(a, c, since)
  {
  }

  ghost predicate ByTime(charges: seq<Charge>) {
    forall i, j | 0 <= i < j < |charges| :: charges[i].at <= charges[j].at
  }

  function InsertByTime(c: Charge, charges: seq<Charge>): (r: seq<Charge>)
    ensures multiset(r) == multiset(charges) + multiset{c}
  {
    if charges == [] || charges[|charges| - 1].at <= c.at then charges + [c]
    else
      var last := charges[|charges| - 1];
      assert charges == charges[..|charges| - 1] + [last];
      InsertByTime(c, charges[..|charges| - 1]) + [last]
  }

  lemma {:induction false} InsertKeepsOrder(c: Charge, charges: seq<Charge>)
    requires ByTime(charges)
    ensures ByTime(InsertByTime(c, charges))
  {
    if charges != [] && charges[|charges| - 1].at > c.at {
      var front, last := charges[..|charges| - 1], charges[|charges| - 1];
      var r := InsertByTime(c, front);
      InsertKeepsOrder(c, front);
      forall i | 0 <= i < |r| ensures r[i].at <= last.at {
        assert r[i] in multiset(r);
        assert r[i] == c || r[i] in front;
      }
    }
  }

  /** `charges.sort(key=at)` */
  function SortByTime(charges: seq<Charge>): (r: seq<Charge>)
    ensures ByTime(r) && multiset(r) == multiset(charges)
  {
    if charges == [] then []
    else
      assert charges == charges[..|charges| - 1] + [charges[|charges| - 1]];
      InsertKeepsOrder(charges[|charges| - 1], SortByTime(charges[..|charges| - 1]));
      InsertByTime(charges[|charges| - 1], SortByTime(charges[..|charges| - 1]))
  }

  function Unlike(id: nat): Charge -> bool {
    (c: Charge) => c.id != id
  }

  function Written(lost: set<nat>): Charge -> bool {
    (c: Charge) => c.id !in lost
  }

  function LostIn(lost: set<nat>): Charge -> bool {
    (c: Charge) => c.id in lost
  }

  function Neither(expired: seq<Charge>): Charge -> bool {
    (c: Charge) => forall i | 0 <= i < |expired| :: expired[i].id != c.id
  }

  /** An id names one charge. */
  ghost predicate IdsTell(charges: seq<Charge>) {
    forall c, d | c in charges && d in charges && c.id == d.id :: c == d
  }

  /** The ledger in memory and its rows in storage, beside everything ever recorded. `floor` is the latest cutoff pruned
      at, `missing` the charges whose write failed. */
  class CostMeter {
    const caps: Caps
    const retention: int
    var charges: seq<Charge>
    var rows: seq<Charge>
    var degraded: bool
    ghost var missing: set<nat>
    ghost var log: seq<Charge>
    ghost var floor: int

    ghost predicate Valid()
      reads this
    {
      && AgreeFrom(charges, log, floor) && IdsTell(charges)
      && (forall c | c in charges :: c in log)
      && multiset(rows) == multiset(Filter(charges, Written(missing))) && (degraded <==> missing != {})
    }

    constructor (caps: Caps, retention: int)
      ensures Valid() && this.caps == caps && this.retention == retention
      ensures log == [] && charges == [] && rows == [] && !degraded && floor == -retention
    {
      this.caps, this.retention := caps, retention;
      charges, rows, log, degraded, missing := [], [], [], false, {};
      floor := -retention;
    }

    /** The charge is kept, in memory always and in storage when the write succeeds; older ones may go from both. */
    method Record(id: nat, at: nat, usd: real, stored: bool)
      requires Valid() && forall c | c in log :: c.id != id
      requires id !in missing
      modifies this
      ensures Valid() && log == old(log) + [Charge(id, at, usd)]
      ensures floor == if old(floor) >= at - retention then old(floor) else at - retention
      ensures charges == Pruned(old(charges) + [Charge(id, at, usd)], at - retention)
      ensures missing == old(missing) + (if stored then {} else {id})
    {
      hide Spent, AgreeFrom, Pruned, Filter;
      var c := Charge(id, at, usd);
      AgreementAppends(charges, log, [c], [c], floor);
      WritingAppends(charges, rows, c, missing, stored);
      assert rows + [] == rows && missing + {} == missing;
      charges := charges + [c];
      log := log + [c];
      if stored {
        rows := rows + [c];
      } else {
        degraded := true;
        missing := missing + {id};
      }
      Prune(at);
    }

    method Prune(now: nat)
      requires AgreeFrom(charges, log, floor) && IdsTell(charges)
      requires multiset(rows) == multiset(Filter(charges, Written(missing)))
      modifies this`charges, this`rows, this`floor
      ensures charges == Pruned(old(charges), now - retention)
      ensures floor == if old(floor) >= now - retention then old(floor) else now - retention
      ensures AgreeFrom(charges, log, floor) && IdsTell(charges)
      ensures forall c | c in charges :: c in old(charges)
      ensures multiset(rows) == multiset(Filter(charges, Written(missing)))
    {
      hide AgreeFrom, Filter, IdsTell;
      var cutoff := now - retention;
      PrunedAgrees(charges, log, floor, cutoff);
      floor := if floor >= cutoff then floor else cutoff;
      if charges == [] || charges[0].at >= cutoff {
        return;
      }
      ghost var before, stored, lost := charges, rows, missing;
      var expired := Filter(charges, Before(cutoff));
      KeptIdsTell(charges, NotBefore(cutoff));
      charges := Filter(charges, NotBefore(cutoff));
      Remove(expired);
      RowsFollow(before, stored, lost, cutoff);
    }

    /** `repository.remove` for each expired charge. */
    method Remove(expired: seq<Charge>)
      modifies this`rows
      ensures rows == Filter(old(rows), Neither(expired))
    {
      hide Filter, Neither, Unlike;
      NothingExpired(rows);
      for i := 0 to |expired|
        invariant rows == Filter(old(rows), Neither(expired[..i]))
      {
        OneMoreExpired(old(rows), expired, i);
        rows := Filter(rows, Unlike(expired[i].id));
      }
      assert expired[..|expired|] == expired;
    }

    /** The verdict is the one the complete history gives, as long as nothing of this month has been pruned. */
    method Check(now: nat) returns (verdict: Verdict)
      requires Valid()
      ensures floor <= MonthStart(now) ==> verdict == VerdictOn(caps, log, now)
      ensures verdict == VerdictOn(caps, charges, now)
    {
      VerdictsAgree(caps, charges, log, floor, now);
      hide AgreeFrom, Spent, MonthStart, DayStart;
      if caps.daily.Some? {
        var today := Spent(charges, DayStart(now));
        if today >= caps.daily.value {
          return Capped(Daily, today, caps.daily.value);
        }
      }
      if caps.monthly.Some? {
        var month := Spent(charges, MonthStart(now));
        if month >= caps.monthly.value {
          return Capped(Monthly, month, caps.monthly.value);
        }
      }
      return Allowed;
    }

    /** A new process takes up the stored rows, in whatever order storage hands them over. What it then counts is short
        by exactly the charges that were never written, over any period. */
    method Restart(loaded: seq<Charge>, ghost since: int)
      requires Valid() && multiset(loaded) == multiset(rows)
      modifies this
      ensures Spent(charges, since) + Spent(Filter(old(charges), LostIn(old(missing))), since) ==
              Spent(old(charges), since)
      ensures !old(degraded) ==> multiset(charges) == multiset(old(charges))
      ensures ByTime(charges) && multiset(charges) == multiset(rows) && rows == old(rows)
      ensures Valid() && !degraded && missing == {} && log == charges
    {
      hide AgreeFrom, Spent, Filter, SortByTime, Written, LostIn, IdsTell, ByTime;
      Reloaded(charges, rows, SortByTime([] + loaded), missing, since);
      assert [] + loaded == loaded;
      charges := SortByTime([] + loaded);
      degraded, missing, log := false, {}, charges;
      AllWritten(charges);
      SameCharges(charges, log, floor);
    }
  }

  lemma NothingExpired(rows: seq<Charge>)
    ensures Filter(rows, Neither([])) == rows
  {
    FilterEverything(rows, Neither([]));
  }

  lemma OneMoreExpired(rows: seq<Charge>, expired: seq<Charge>, i: nat)
    requires i < |expired|
    ensures Filter(Filter(rows, Neither(expired[..i])), Unlike(expired[i].id)) == Filter(rows, Neither(expired[..i + 1]))
  {
    hide Filter;
    FilterBoth(rows, Neither(expired[..i]), Unlike(expired[i].id), Neither(expired[..i + 1]));
  }

  lemma AllWritten(charges: seq<Charge>)
    ensures Filter(charges, Written({})) == charges
  {
    FilterEverything(charges, Written({}));
  }

  lemma Reloaded(before: seq<Charge>, rows: seq<Charge>, after: seq<Charge>, lost: set<nat>, since: int)
    requires multiset(rows) == multiset(Filter(before, Written(lost))) && multiset(after) == multiset(rows)
    requires IdsTell(before)
    ensures Spent(after, since) + Spent(Filter(before, LostIn(lost)), since) == Spent(before, since)
    ensures lost == {} ==> multiset(after) == multiset(before)
    ensures IdsTell(after)
  {
    WrittenAndLost(before, lost, since);
    hide Spent, Filter;
    if lost == {} {
      AllWritten(before);
    }
    SpentPermuted(after, Filter(before, Written(lost)), since);
    PermutedIds(Filter(before, Written(lost)), after);
  }

  function Before(cutoff: int): Charge -> bool {
    (c: Charge) => c.at < cutoff
  }

  lemma WritingAppends(charges: seq<Charge>, rows: seq<Charge>, c: Charge, missing: set<nat>, stored: bool)
    requires multiset(rows) == multiset(Filter(charges, Written(missing))) && c.id !in missing
    requires forall d | d in charges :: d.id != c.id
    ensures var missing' := missing + (if stored then {} else {c.id});
            multiset(rows + (if stored then [c] else [])) == multiset(Filter(charges + [c], Written(missing')))
  {
    var missing' := missing + (if stored then {} else {c.id});
    FilterConcat(charges, [c], Written(missing'));
    FilterOne(c, Written(missing'));
    hide Filter;
    forall i | 0 <= i < |charges| ensures Written(missing)(charges[i]) == Written(missing')(charges[i]) {
      assert charges[i] in charges;
    }
    SameFilter(charges, Written(missing), Written(missing'));
  }

  lemma KeptIdsTell(charges: seq<Charge>, p: Charge -> bool)
    requires IdsTell(charges)
    ensures IdsTell(Filter(charges, p))
  {
  }

  lemma PermutedIds(a: seq<Charge>, b: seq<Charge>)
    requires multiset(a) == multiset(b) && IdsTell(a)
    ensures IdsTell(b)
  {
    forall c | c in b ensures c in a {
      assert c in multiset(b);
    }
  }

  lemma KeepsOrNot(charges: seq<Charge>, p: Charge -> bool, since: int)
    requires charges != []
    ensures var c := charges[|charges| - 1];
            Spent(Filter(charges, p), since) ==
            Spent(Filter(charges[..|charges| - 1], p), since) + if p(c) && c.at >= since then c.usd else 0.0
  {
    var kept := Filter(charges[..|charges| - 1], p);
    SpentAppends(kept, charges[|charges| - 1], since);
    assert kept + [] == kept;
  }

  lemma {:induction false} WrittenAndLost(charges: seq<Charge>, lost: set<nat>, since: int)
    ensures Spent(Filter(charges, Written(lost)), since) + Spent(Filter(charges, LostIn(lost)), since) ==
            Spent(charges, since)
  {
    if charges != [] {
      var front, c := charges[..|charges| - 1], charges[|charges| - 1];
      WrittenAndLost(front, lost, since);
      KeepsOrNot(charges, Written(lost), since);
      KeepsOrNot(charges, LostIn(lost), since);
      hide Filter;
    }
  }

  /** Taking the expired ids out of storage leaves the rows of what stays in memory. */
  lemma RowsFollow(charges: seq<Charge>, rows: seq<Charge>, missing: set<nat>, cutoff: int)
    requires IdsTell(charges) && multiset(rows) == multiset(Filter(charges, Written(missing)))
    ensures multiset(Filter(rows, Neither(Filter(charges, Before(cutoff))))) ==
            multiset(Filter(Filter(charges, NotBefore(cutoff)), Written(missing)))
  {
    var p := Neither(Filter(charges, Before(cutoff)));
    forall i | 0 <= i < |charges| ensures p(charges[i]) == NotBefore(cutoff)(charges[i]) {
      SurvivesIff(charges, i, cutoff);
    }
    var both: Charge -> bool := (c: Charge) => c.at >= cutoff && c.id !in missing;
    hide Filter;
    FilterPermuted(rows, Filter(charges, Written(missing)), p);
    FilterBoth(charges, Written(missing), p, both);
    FilterBoth(charges, NotBefore(cutoff), Written(missing), both);
  }

  lemma SurvivesIff(charges: seq<Charge>, i: nat, cutoff: int)
    requires IdsTell(charges) && i < |charges|
    ensures Neither(Filter(charges, Before(cutoff)))(charges[i]) <==> charges[i].at >= cutoff
  {
    var expired := Filter(charges, Before(cutoff));
    if charges[i].at < cutoff {
      assert charges[i] in expired;
    } else {
      forall k | 0 <= k < |expired| ensures expired[k].id != charges[i].id {
        assert expired[k] in expired;
        var j :| 0 <= j < |charges| && charges[j] == expired[k];
        assert j != i;
      }
    }
  }

  lemma VerdictsAgree(caps: Caps, a: seq<Charge>, b: seq<Charge>, floor: int, now: nat)
    requires AgreeFrom(a, b, floor)
    ensures floor <= MonthStart(now) ==> VerdictOn(caps, a, now) == VerdictOn(caps, b, now)
    ensures floor <= MonthStart(now) ==>
              forall period: Period :: Spent(a, PeriodStart(period, now)) == Spent(b, PeriodStart(period, now))
  {
    hide Spent, AgreeFrom, MonthStart, DayStart;
    if floor <= MonthStart(now) {
      MonthBeforeDay(now);
      AgreementGrows(a, b, floor, MonthStart(now));
      AgreementGrows(a, b, floor, DayStart(now));
    }
  }

  // -------------------------------------------------------------- what pruning costs

  /** What is in memory after recording `log`. */
  function LedgerOf(log: seq<Charge>, retention: int): seq<Charge> {
    if log == [] then []
    else
      var c := log[|log| - 1];
      Pruned(LedgerOf(log[..|log| - 1], retention) + [c], c.at - retention)
  }

  lemma {:induction false} LedgerAgrees(log: seq<Charge>, retention: int, floor: int)
    requires forall i | 0 <= i < |log| :: log[i].at - retention <= floor
    ensures AgreeFrom(LedgerOf(log, retention), log, floor)
  {
    hide Filter, Pruned, Spent, AgreeFrom;
    if log == [] {
      assert LedgerOf(log, retention) == log;
      SameCharges(log, log, floor);
    } else {
      var front, c := log[..|log| - 1], log[|log| - 1];
      var before := LedgerOf(front, retention);
      LedgerAgrees(front, retention, floor);
      AgreementAppends(before, front, [c], [c], floor);
      assert front + [c] == log;
      PruningAgrees(before + [c], c.at - retention);
      AgreementGrows(Pruned(before + [c], c.at - retention), before + [c], c.at - retention, floor);
      AgreementJoins(Pruned(before + [c], c.at - retention), before + [c], log, floor);
    }
  }

  /** With at least a month of retention (the default is 90 days), pruning never changes what was spent today or this
      month, nor any verdict, at any time from the last charge on; the charges may come in any order. */
  lemma PruningNeverShows(caps: Caps, log: seq<Charge>, retention: int, now: nat)
    requires retention >= 31 * DAY
    requires forall i | 0 <= i < |log| :: log[i].at <= now
    ensures VerdictOn(caps, LedgerOf(log, retention), now) == VerdictOn(caps, log, now)
    ensures forall period: Period ::
              Spent(LedgerOf(log, retention), PeriodStart(period, now)) == Spent(log, PeriodStart(period, now))
  {
    hide VerdictOn, LedgerOf, Spent;
    LedgerAgrees(log, retention, now - retention);
    VerdictsAgree(caps, LedgerOf(log, retention), log, now - retention, now);
  }
}
