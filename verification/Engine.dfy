/** The automation engine's registry and its clock: which schedules are due, and that each fires once a minute. */
module Engine {
  import opened Common
  import opened Rules
  import Cron

  /** The owner's calendar: what the fields of a local minute are. */
  type Clock = int -> Cron.Moment

  ghost predicate CronFires(expression: string, m: Cron.Moment) {
    exists s :: Cron.Reads(expression, s) && Cron.Matches(s, m)
  }

  function CronOf(a: Automation): string {
    if a.trigger.cron.Some? then a.trigger.cron.value else ""
  }

  /** The rule is a live schedule whose expression matches the minute. */
  ghost predicate Wants(a: Automation, level: Level, m: Cron.Moment) {
    a.enabled && a.trigger.kind == "schedule" && level >= a.proactivityMin && CronFires(CronOf(a), m)
  }

  predicate Served(fired: map<Id, int>, id: Id, minute: int) {
    id in fired && fired[id] == minute
  }

  /** The rules that one call at `minute` fires. */
  ghost function DueIds(rules: map<Id, Automation>, level: Level, clock: Clock, fired: map<Id, int>, minute: int): set<Id> {
    set id | id in rules && Wants(rules[id], level, clock(minute)) && !Served(fired, id, minute)
  }

  /** The rules of `ids`, in registry order. */
  function Pick(order: seq<Id>, ids: set<Id>, rules: map<Id, Automation>): (r: seq<Automation>)
    requires forall id | id in order :: id in rules
    ensures forall a | a in r :: exists id | id in order :: id in ids && a == rules[id]
    ensures forall id | id in order && id in ids :: rules[id] in r
  {
    if order == [] then []
    else
      var last := order[|order| - 1];
      Pick(order[..|order| - 1], ids, rules) + if last in ids then [rules[last]] else []
  }

  function Mark(fired: map<Id, int>, ids: set<Id>, minute: int): map<Id, int> {
    fired + map id | id in ids :: minute
  }

  lemma MarkNone(fired: map<Id, int>, minute: int)
    ensures Mark(fired, {}, minute) == fired
  {
  }

  lemma MarkOne(fired: map<Id, int>, ids: set<Id>, id: Id, minute: int)
    ensures Mark(fired, ids + {id}, minute) == Mark(fired, ids, minute)[id := minute]
    ensures id !in ids ==> (Served(Mark(fired, ids, minute), id, minute) <==> Served(fired, id, minute))
  {
  }

  lemma InDueIds(rules: map<Id, Automation>, level: Level, clock: Clock, fired: map<Id, int>, minute: int, id: Id)
    requires id in rules
    ensures id in DueIds(rules, level, clock, fired, minute) <==>
              Wants(rules[id], level, clock(minute)) && !Served(fired, id, minute)
  {
  }

  lemma DueAreRegistered(rules: map<Id, Automation>, level: Level, clock: Clock, fired: map<Id, int>, minute: int)
    ensures forall id | id in DueIds(rules, level, clock, fired, minute) :: id in rules
  {
  }

  lemma PickNext(order: seq<Id>, i: nat, ids: set<Id>, rules: map<Id, Automation>)
    requires i <= |order| && forall id | id in order :: id in rules
    ensures i == 0 ==> Pick(order[..i], ids, rules) == []
    ensures i < |order| ==>
              Pick(order[..i + 1], ids, rules) ==
              Pick(order[..i], ids, rules) + if order[i] in ids then [rules[order[i]]] else []
  {
    if i < |order| {
      assert order[..i + 1][..i] == order[..i] && order[..i + 1][i] == order[i];
    }
  }

  lemma NextKey(order: seq<Id>, i: nat)
    requires NoRepeats(order) && i < |order|
    ensures order[i] !in order[..i] && forall id :: id in order[..i + 1] <==> id in order[..i] || id == order[i]
  {
    assert order[..i + 1] == order[..i] + [order[i]];
  }

  // -------------------------------------------------------------- the object

  class AutomationEngine {
    var order: seq<Id>
    var automations: map<Id, Automation>
    var firedMinute: map<Id, int>
    var level: Level

    /** The registry is a dictionary: `order` lists its keys once each, oldest first. */
    ghost predicate Valid()
      reads this
    {
      && NoRepeats(order)
      && (forall id :: id in order <==> id in automations)
      && (forall id | id in automations :: automations[id].id == id)
    }

    constructor (level: Level)
      ensures Valid() && automations == map[] && firedMinute == map[] && this.level == level
    {
      order, automations, firedMinute, this.level := [], map[], map[], level;
    }

    /** Registers a rule; one that Thursday suggested is never registered enabled. */
    method Add(automation: Automation) returns (added: Automation)
      requires Valid()
      modifies this
      ensures Valid() && level == old(level) && firedMinute == old(firedMinute)
      ensures added == automation.(enabled := automation.enabled && !automation.suggested)
      ensures automations == old(automations)[automation.id := added]
      ensures order == if automation.id in old(automations) then old(order) else old(order) + [automation.id]
    {
      added := automation;
      if automation.suggested && automation.enabled {
        added := automation.(enabled := false);
      }
      if automation.id !in automations {
        order := order + [automation.id];
      }
      automations := automations[automation.id := added];
    }

    method Enable(id: Id, enabled: bool) returns (r: Result<Automation, string>)
      requires Valid()
      modifies this
      ensures Valid() && level == old(level) && firedMinute == old(firedMinute) && order == old(order)
      ensures r.Ok? <==> id in old(automations)
      ensures automations == if r.Ok? then old(automations)[id := old(automations)[id].(enabled := enabled)] else old(automations)
    {
      if id !in automations {
        return Err("no such automation");
      }
      automations := automations[id := automations[id].(enabled := enabled)];
      return Ok(automations[id]);
    }

    /** Forgets a rule and the minute it last fired, so that a rule recreated under its id starts afresh. */
    method Remove(id: Id)
      requires Valid()
      modifies this
      ensures Valid() && level == old(level)
      ensures automations == old(automations) - {id} && firedMinute == old(firedMinute) - {id}
    {
      FilterKeepsNoRepeats(order, Except(id));
      order := Filter(order, Except(id));
      automations := automations - {id};
      firedMinute := firedMinute - {id};
    }

    /** The rules to run now, in registry order; each is marked as served for this minute. */
    method Due(minute: int, clock: Clock) returns (ready: seq<Automation>)
      requires Valid()
      modifies this`firedMinute
      ensures Valid()
      ensures var ids := DueIds(automations, level, clock, old(firedMinute), minute);
              && firedMinute == Mark(old(firedMinute), ids, minute)
              && ready == Pick(order, ids, automations)
    {
      hide Wants, CronFires, DueIds, Mark, Pick, NoRepeats;
      ready := [];
      ghost var was, marked: set<Id> := firedMinute, {};
      ghost var ids := DueIds(automations, level, clock, was, minute);
      MarkNone(was, minute);
      PickNext(order, 0, ids, automations);
      for i := 0 to |order|
        invariant firedMinute == Mark(was, marked, minute)
        invariant forall id :: id in marked <==> id in ids && id in order[..i]
        invariant ready == Pick(order[..i], ids, automations)
      {
        var a := automations[order[i]];
        PickNext(order, i, ids, automations);
        NextKey(order, i);
        var due := IsDue(a, minute, clock);
        MarkOne(was, marked, a.id, minute);
        InDueIds(automations, level, clock, was, minute, a.id);
        if due {
          firedMinute := firedMinute[a.id := minute];
          marked := marked + {a.id};
          ready := ready + [a];
        }
      }
      assert order[..|order|] == order;
      DueAreRegistered(automations, level, clock, was, minute);
      assert marked == ids;
    }

    /** Whether one rule is to run now. An expression that cannot be read never runs. */
    method IsDue(a: Automation, minute: int, clock: Clock) returns (due: bool)
      ensures due <==> Wants(a, level, clock(minute)) && !Served(firedMinute, a.id, minute)
    {
      if !a.enabled || a.trigger.kind != "schedule" || level < a.proactivityMin || Served(firedMinute, a.id, minute) {
        return false;
      }
      var parsed := Cron.Parse(CronOf(a));
      if parsed.Err? {
        return false;
      }
      ParsedFires(CronOf(a), parsed.value, clock(minute));
      return Cron.Matches(parsed.value, clock(minute));
    }
  }

  lemma ParsedFires(expression: string, s: Cron.Schedule, m: Cron.Moment)
    requires Cron.Reads(expression, s)
    ensures CronFires(expression, m) <==> Cron.Matches(s, m)
  {
    if t :| Cron.Reads(expression, t) && Cron.Matches(t, m) {
      Cron.ReadingIsUnique(expression, s, t);
    }
  }

  function Except(id: Id): Id -> bool {
    (x: Id) => x != id
  }

  // -------------------------------------------------------------- exact firing

  /** The served marks after a run of calls. */
  ghost function FiredAfter(rules: map<Id, Automation>, level: Level, clock: Clock, minutes: seq<int>): map<Id, int> {
    if minutes == [] then map[]
    else
      var before := FiredAfter(rules, level, clock, minutes[..|minutes| - 1]);
      var minute := minutes[|minutes| - 1];
      Mark(before, DueIds(rules, level, clock, before, minute), minute)
  }

  /** How often rule `id` was fired for `minute` over a run of calls. */
  ghost function Firings(rules: map<Id, Automation>, level: Level, clock: Clock, minutes: seq<int>, id: Id, minute: int): nat {
    if minutes == [] then 0
    else
      var before := minutes[..|minutes| - 1];
      var last := minutes[|minutes| - 1];
      Firings(rules, level, clock, before, id, minute) +
      if last == minute && id in DueIds(rules, level, clock, FiredAfter(rules, level, clock, before), last) then 1 else 0
  }

  ghost predicate NonDecreasing(minutes: seq<int>) {
    forall i, j | 0 <= i < j < |minutes| :: minutes[i] <= minutes[j]
  }

  lemma LastIsLatest(minutes: seq<int>)
    requires NonDecreasing(minutes) && minutes != []
    ensures var before, last := minutes[..|minutes| - 1], minutes[|minutes| - 1];
            && NonDecreasing(before) && (forall m | m in before :: m <= last)
            && (forall m :: m in minutes <==> m in before || m == last)
  {
    var before, last := minutes[..|minutes| - 1], minutes[|minutes| - 1];
    assert minutes == before + [last];
    forall m | m in before ensures m <= last {
      var i :| 0 <= i < |before| && before[i] == m;
      assert minutes[i] == m;
    }
  }

  /** The mark of a rule is the latest minute called at which it wanted to fire. */
  lemma {:induction false} MarkIsLatestWanted(rules: map<Id, Automation>, level: Level, clock: Clock, minutes: seq<int>, id: Id)
    requires NonDecreasing(minutes) && id in rules
    ensures var fired := FiredAfter(rules, level, clock, minutes);
            && (id in fired ==> fired[id] in minutes && Wants(rules[id], level, clock(fired[id])))
            && (forall m | m in minutes && Wants(rules[id], level, clock(m)) :: id in fired && m <= fired[id])
  {
    hide Wants, CronFires;
    if minutes != [] {
      var before, last := minutes[..|minutes| - 1], minutes[|minutes| - 1];
      MarkIsLatestWanted(rules, level, clock, before, id);
      LastIsLatest(minutes);
    }
  }

  /** However many calls fall into a minute, a rule is fired for it exactly once if the minute was called and the rule
      wanted it, and never otherwise. */
  lemma {:induction false} ExactFiring(
      rules: map<Id, Automation>, level: Level, clock: Clock, minutes: seq<int>, id: Id, minute: int)
    requires NonDecreasing(minutes) && id in rules
    ensures Firings(rules, level, clock, minutes, id, minute) ==
            if minute in minutes && Wants(rules[id], level, clock(minute)) then 1 else 0
  {
    hide Wants, CronFires;
    if minutes != [] {
      var before, last := minutes[..|minutes| - 1], minutes[|minutes| - 1];
      ExactFiring(rules, level, clock, before, id, minute);
      MarkIsLatestWanted(rules, level, clock, before, id);
      LastIsLatest(minutes);
    }
  }

  // -------------------------------------------------------------- a clock that goes back

  /** The calls that fell on minutes the rule wants, in the order they were made. */
  ghost function WantedCalls(a: Automation, level: Level, clock: Clock, minutes: seq<int>): (r: seq<int>)
    ensures forall m :: m in r <==> m in minutes && Wants(a, level, clock(m))
  {
    if minutes == [] then []
    else
      var before, last := minutes[..|minutes| - 1], minutes[|minutes| - 1];
      assert forall m :: m in minutes <==> m in before || m == last;
      WantedCalls(a, level, clock, before) + if Wants(a, level, clock(last)) then [last] else []
  }

  /** In whatever order the minutes are called, the mark of a rule is the last wanted minute called. */
  lemma {:induction false} MarkIsLastWantedCall(
      rules: map<Id, Automation>, level: Level, clock: Clock, minutes: seq<int>, id: Id)
    requires id in rules
    ensures var fired := FiredAfter(rules, level, clock, minutes);
            var calls := WantedCalls(rules[id], level, clock, minutes);
            && (id in fired <==> calls != [])
            && (id in fired ==> fired[id] == calls[|calls| - 1])
  {
    hide Wants, CronFires;
    if minutes != [] {
      MarkIsLastWantedCall(rules, level, clock, minutes[..|minutes| - 1], id);
    }
  }

  /** How many unbroken runs of `m` there are in `calls`. */
  function RunsOf(calls: seq<int>, m: int): nat {
    if calls == [] then 0
    else
      var before := calls[..|calls| - 1];
      RunsOf(before, m) + if calls[|calls| - 1] == m && (before == [] || before[|before| - 1] != m) then 1 else 0
  }

  /** Between two of the calls at `m` there is one at another minute. */
  ghost predicate Interrupted(calls: seq<int>, m: int) {
    exists i, j, k | 0 <= i < j < k < |calls| :: calls[i] == m && calls[j] != m && calls[k] == m
  }

  lemma InterruptedBefore(calls: seq<int>, m: int)
    requires calls != [] && (calls[|calls| - 1] != m || (|calls| > 1 && calls[|calls| - 2] == m))
    ensures Interrupted(calls, m) <==> Interrupted(calls[..|calls| - 1], m)
  {
    var before := calls[..|calls| - 1];
    if i, j, k :| 0 <= i < j < k < |calls| && calls[i] == m && calls[j] != m && calls[k] == m {
      var end := if k == |before| then k - 1 else k;
      assert before[i] == m && before[j] != m && before[end] == m;
    }
    if i, j, k :| 0 <= i < j < k < |before| && before[i] == m && before[j] != m && before[k] == m {
      assert calls[i] == m && calls[j] != m && calls[k] == m;
    }
  }

  lemma {:induction false} OneRunIffUninterrupted(calls: seq<int>, m: int)
    ensures RunsOf(calls, m) >= 1 <==> m in calls
    ensures RunsOf(calls, m) <= 1 <==> !Interrupted(calls, m)
  {
    if calls != [] {
      var before, last := calls[..|calls| - 1], calls[|calls| - 1];
      assert calls == before + [last];
      OneRunIffUninterrupted(before, m);
      if last != m || (before != [] && before[|before| - 1] == m) {
        InterruptedBefore(calls, m);
      } else if m in before {
        var i :| 0 <= i < |before| && before[i] == m;
        assert calls[i] == m && calls[|before| - 1] != m && calls[|before|] == m;
      } else {
        assert forall i | 0 <= i < |before| :: calls[i] == before[i] && before[i] in before;
      }
    }
  }

  lemma RunsOfNext(calls: seq<int>, last: int, m: int)
    ensures RunsOf(calls + [last], m) ==
            RunsOf(calls, m) + if last == m && (calls == [] || calls[|calls| - 1] != m) then 1 else 0
  {
    assert (calls + [last])[..|calls|] == calls;
  }

  lemma WantedCallsNext(a: Automation, level: Level, clock: Clock, minutes: seq<int>, m: int)
    ensures WantedCalls(a, level, clock, minutes + [m]) ==
            WantedCalls(a, level, clock, minutes) + if Wants(a, level, clock(m)) then [m] else []
  {
    hide Wants;
    assert (minutes + [m])[..|minutes|] == minutes;
  }

  lemma NothingFired(rules: map<Id, Automation>, level: Level, clock: Clock, id: Id, minute: int)
    ensures Firings(rules, level, clock, [], id, minute) == 0
  {
  }

  lemma FiringsNext(
      rules: map<Id, Automation>, level: Level, clock: Clock, minutes: seq<int>, id: Id, minute: int)
    requires id in rules && Wants(rules[id], level, clock(minute)) && minutes != []
    ensures var before := minutes[..|minutes| - 1];
            var fired := FiredAfter(rules, level, clock, before);
            Firings(rules, level, clock, minutes, id, minute) ==
            Firings(rules, level, clock, before, id, minute) +
            if minutes[|minutes| - 1] != minute || (id in fired && fired[id] == minute) then 0 else 1
  {
    hide Wants, FiredAfter;
  }

  /** A rule is fired for a minute it wants once for each unbroken run of calls at it. */
  lemma {:induction false} FiringsAreRuns(
      rules: map<Id, Automation>, level: Level, clock: Clock, minutes: seq<int>, id: Id, minute: int)
    requires id in rules && Wants(rules[id], level, clock(minute))
    ensures Firings(rules, level, clock, minutes, id, minute) ==
            RunsOf(WantedCalls(rules[id], level, clock, minutes), minute)
  {
    hide *;
    if minutes == [] {
      NothingFired(rules, level, clock, id, minute);
      NothingCalled(rules[id], level, clock, minute);
    } else {
      var before, last := minutes[..|minutes| - 1], minutes[|minutes| - 1];
      var calls := WantedCalls(rules[id], level, clock, before);
      FiringsAreRuns(rules, level, clock, before, id, minute);
      MarkIsLastWantedCall(rules, level, clock, before, id);
      FiringsNext(rules, level, clock, minutes, id, minute);
      RunsOfNext(calls, last, minute);
      assert minutes == before + [last] && calls + [] == calls;
      WantedCallsNext(rules[id], level, clock, before, last);
    }
  }

  /** Whatever the order of the calls, a rule is fired for every minute it wants that was called, and exactly once if and
      only if no other minute it wants was called between two calls at it. */
  lemma FiredOnceIffUninterrupted(
      rules: map<Id, Automation>, level: Level, clock: Clock, minutes: seq<int>, id: Id, minute: int)
    requires id in rules && Wants(rules[id], level, clock(minute)) && minute in minutes
    ensures var fired := Firings(rules, level, clock, minutes, id, minute);
            && fired >= 1
            && (fired == 1 <==> !Interrupted(WantedCalls(rules[id], level, clock, minutes), minute))
  {
    hide Wants, Firings, RunsOf, Interrupted;
    FiringsAreRuns(rules, level, clock, minutes, id, minute);
    OneRunIffUninterrupted(WantedCalls(rules[id], level, clock, minutes), minute);
  }

  lemma NothingCalled(a: Automation, level: Level, clock: Clock, m: int)
    ensures WantedCalls(a, level, clock, []) == [] && RunsOf([], m) == 0
  {
  }

  /** A clock that goes back to a minute after another one that matched fires it a second time. */
  lemma ClockGoingBackFiresTwice(
      rules: map<Id, Automation>, level: Level, clock: Clock, id: Id, a: int, b: int)
    requires a != b && id in rules && Wants(rules[id], level, clock(a)) && Wants(rules[id], level, clock(b))
    ensures Firings(rules, level, clock, [a, b, a], id, a) == 2
  {
    hide *;
    assert [] + [a] == [a] && [a] + [b] == [a, b] && [a, b] + [a] == [a, b, a];
    NothingCalled(rules[id], level, clock, a);
    WantedCallsNext(rules[id], level, clock, [], a);
    WantedCallsNext(rules[id], level, clock, [a], b);
    WantedCallsNext(rules[id], level, clock, [a, b], a);
    FiringsAreRuns(rules, level, clock, [a, b, a], id, a);
    RunsOfNext([], a, a);
    RunsOfNext([a], b, a);
    RunsOfNext([a, b], a, a);
  }

  // -------------------------------------------------------------- which rules fire at all

  /** A rule that is switched off, that is no schedule, that asks for a higher level, or whose text is no cron expression
      never fires, at whatever minutes it is called. */
  lemma {:induction false} NeverFires(
      rules: map<Id, Automation>, level: Level, clock: Clock, minutes: seq<int>, id: Id, minute: int)
    requires id in rules
    requires || !rules[id].enabled || rules[id].trigger.kind != "schedule" || level < rules[id].proactivityMin
             || (forall s :: !Cron.Reads(CronOf(rules[id]), s))
    ensures Firings(rules, level, clock, minutes, id, minute) == 0
  {
    if minutes != [] {
      NeverFires(rules, level, clock, minutes[..|minutes| - 1], id, minute);
      hide FiredAfter;
    }
  }

  /** Any other rule fires for a minute that is called exactly if its expression is met: minute, hour and month, and the day
      as the expression restricts it. */
  lemma FiresWhenMet(
      rules: map<Id, Automation>, level: Level, clock: Clock, minutes: seq<int>, id: Id, minute: int, s: Cron.Schedule)
    requires id in rules && rules[id].enabled && rules[id].trigger.kind == "schedule" && rules[id].proactivityMin <= level
    requires rules[id].trigger.cron.Some? && Cron.Reads(rules[id].trigger.cron.value, s)
    requires minute in minutes && Cron.IsMoment(clock(minute))
    ensures var m := clock(minute);
            Firings(rules, level, clock, minutes, id, minute) >= 1 <==>
              && m.minute in s.minute && m.hour in s.hour && m.month in s.month
              && (if s.dayRestricted && s.weekdayRestricted then m.day in s.day || (m.weekday + 1) % 7 in s.weekday
                  else if s.dayRestricted then m.day in s.day
                  else if s.weekdayRestricted then (m.weekday + 1) % 7 in s.weekday
                  else true)
  {
    Cron.MatchesMeaning(rules[id].trigger.cron.value, s, clock(minute));
    ParsedFires(rules[id].trigger.cron.value, s, clock(minute));
    hide Cron.Matches, Cron.Reads, CronFires;
    if Wants(rules[id], level, clock(minute)) {
      FiredOnceIffUninterrupted(rules, level, clock, minutes, id, minute);
    } else {
      NotWantedNotFired(rules, level, clock, minutes, id, minute);
    }
  }

  lemma {:induction false} NotWantedNotFired(
      rules: map<Id, Automation>, level: Level, clock: Clock, minutes: seq<int>, id: Id, minute: int)
    requires id in rules && !Wants(rules[id], level, clock(minute))
    ensures Firings(rules, level, clock, minutes, id, minute) == 0
  {
    hide Wants, FiredAfter;
    if minutes != [] {
      NotWantedNotFired(rules, level, clock, minutes[..|minutes| - 1], id, minute);
    }
  }
}
