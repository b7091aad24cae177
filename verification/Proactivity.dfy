/** When Thursday may speak up: the hourly limit per priority, and never the same fact twice in a row. */
module Proactivity {
  import opened Common
  import opened Rules

  const HOUR := 3600

  function RateLimit(p: Priority): nat {
    match p case Critical => 20 case Important => 6 case Normal => 3 case Low => 1
  }

  function MinLevel(p: Priority): Level {
    match p case Critical => 1 case Important => 2 case Normal => 2 case Low => 3
  }

  /** A notification that was raised. */
  datatype Notice = Notice(at: int, priority: Priority)

  datatype Setting = Setting(ownerStatus: string, people: int, private: bool)

  function After(cutoff: int): Notice -> bool { (n: Notice) => n.at > cutoff }

  function Of(p: Priority): Notice -> bool { (n: Notice) => n.priority == p }

  function Prune(recent: seq<Notice>, now: int): seq<Notice> { Filter(recent, After(now - HOUR)) }

  /** The rules that come before the hourly limit. */
  predicate MayInterrupt(level: Level, p: Priority, setting: Setting) {
    && level != 0 && level >= MinLevel(p)
    && ((setting.ownerStatus == "dnd" || setting.ownerStatus == "asleep") ==> p.Critical?)
    && !(setting.private && setting.people > 1)
  }

  predicate UnderLimit(recent: seq<Notice>, p: Priority, now: int) {
    Count(Prune(recent, now), Of(p)) < RateLimit(p)
  }

  class Gate {
    var level: Level
    var recent: seq<Notice>

    constructor (level: Level)
      ensures this.level == level && recent == []
    {
      this.level, recent := level, [];
    }

    /** Forgets notices older than an hour and says whether one more of this priority fits. */
    method Allows(p: Priority, setting: Setting, now: int) returns (allowed: bool)
      modifies this`recent
      ensures allowed <==> MayInterrupt(level, p, setting) && UnderLimit(old(recent), p, now)
      ensures recent == if MayInterrupt(level, p, setting) then Prune(old(recent), now) else old(recent)
    {
      if level == 0 || level < MinLevel(p) {
        return false;
      }
      if (setting.ownerStatus == "dnd" || setting.ownerStatus == "asleep") && !p.Critical? {
        return false;
      }
      if setting.private && setting.people > 1 {
        return false;
      }
      recent := Filter(recent, After(now - HOUR));
      return Count(recent, Of(p)) < RateLimit(p);
    }

    method Record(p: Priority, now: int)
      modifies this`recent
      ensures recent == old(recent) + [Notice(now, p)]
    {
      recent := recent + [Notice(now, p)];
    }
  }

  // -------------------------------------------------------------- the sliding window

  /** A use of the gate: a question that leads to nothing, or one that is accepted and then recorded. */
  datatype Use = Asked(at: int, interrupts: bool) | Raised(priority: Priority, checkedAt: int, recordedAt: int)

  function Start(u: Use): int { match u case Asked(at, _) => at case Raised(_, at, _) => at }

  function Finish(u: Use): int { match u case Asked(at, _) => at case Raised(_, _, at) => at }

  /** The times never go back, and what is recorded was accepted just before. */
  ghost predicate GateRun(uses: seq<Use>) {
    uses != [] ==>
      var before, last := uses[..|uses| - 1], uses[|uses| - 1];
      && GateRun(before) && Start(last) <= Finish(last)
      && (before != [] ==> Finish(before[|before| - 1]) <= Start(last))
      && (last.Raised? ==> UnderLimit(RecentAfter(before), last.priority, last.checkedAt))
  }

  function AfterUse(recent: seq<Notice>, u: Use): seq<Notice> {
    match u
    case Asked(at, interrupts) => if interrupts then Prune(recent, at) else recent
    case Raised(p, checkedAt, recordedAt) => Prune(recent, checkedAt) + [Notice(recordedAt, p)]
  }

  /** What the gate remembers after a run. */
  function RecentAfter(uses: seq<Use>): seq<Notice> {
    if uses == [] then []
    else
      AfterUse(RecentAfter(uses[..|uses| - 1]), uses[|uses| - 1])
  }

  /** Everything ever raised. */
  function LogOf(uses: seq<Use>): seq<Notice> {
    if uses == [] then []
    else
      var before, last := LogOf(uses[..|uses| - 1]), uses[|uses| - 1];
      match last
      case Asked(_, _) => before
      case Raised(p, _, at) => before + [Notice(at, p)]
  }

  /** Pruning loses nothing that a later question could count. */
  lemma {:induction false} PruningIsHarmless(uses: seq<Use>, cutoff: int)
    requires GateRun(uses) && (uses != [] ==> cutoff >= Finish(uses[|uses| - 1]) - HOUR)
    ensures Filter(RecentAfter(uses), After(cutoff)) == Filter(LogOf(uses), After(cutoff))
  {
    hide Filter, UnderLimit;
    if uses != [] {
      var before, last := uses[..|uses| - 1], uses[|uses| - 1];
      PruningIsHarmless(before, cutoff);
      FilterBoth(RecentAfter(before), After(Start(last) - HOUR), After(cutoff), After(cutoff));
      if last.Raised? {
        var notice := [Notice(last.recordedAt, last.priority)];
        FilterConcat(Prune(RecentAfter(before), last.checkedAt), notice, After(cutoff));
        FilterConcat(LogOf(before), notice, After(cutoff));
      }
    }
  }

  /** Raised at priority `p` in the hour that ends at `end`. */
  function InHour(end: int, p: Priority): Notice -> bool {
    (n: Notice) => end - HOUR < n.at <= end && n.priority == p
  }

  lemma {:induction false} CountOfFiltered(s: seq<Notice>, cutoff: int, end: int, p: Priority)
    requires cutoff <= end - HOUR
    ensures Count(s, InHour(end, p)) <= Count(Filter(s, After(cutoff)), Of(p))
  {
    if s != [] {
      CountOfFiltered(s[..|s| - 1], cutoff, end, p);
      var last := s[|s| - 1];
      CountConcat(Filter(s[..|s| - 1], After(cutoff)), if After(cutoff)(last) then [last] else [], Of(p));
      assert [last][..0] == [];
    }
  }

  lemma {:induction false} LogIsInThePast(uses: seq<Use>, n: Notice)
    requires GateRun(uses) && n in LogOf(uses)
    ensures uses != [] && n.at <= Finish(uses[|uses| - 1])
  {
    var before, last := uses[..|uses| - 1], uses[|uses| - 1];
    if n in LogOf(before) {
      LogIsInThePast(before, n);
    }
  }

  /** No hour, whenever it ends, ever holds more notices of a priority than its limit. */
  lemma {:induction false} EveryHourWithinLimit(uses: seq<Use>, end: int, p: Priority)
    requires GateRun(uses)
    ensures Count(LogOf(uses), InHour(end, p)) <= RateLimit(p)
  {
    if uses != [] {
      hide Count, Filter, RateLimit, UnderLimit, RecentAfter;
      var before, last := uses[..|uses| - 1], uses[|uses| - 1];
      EveryHourWithinLimit(before, end, p);
      if last.Raised? {
        var notice := Notice(last.recordedAt, last.priority);
        CountConcat(LogOf(before), [notice], InHour(end, p));
        CountOne(notice, InHour(end, p));
        if InHour(end, p)(notice) {
          RoomForOneMore(before, last.priority, last.checkedAt, end);
        }
      }
    }
  }

  /** When the gate accepts, the hour that ends at or after the question still has room. */
  lemma RoomForOneMore(before: seq<Use>, p: Priority, now: int, end: int)
    requires GateRun(before) && UnderLimit(RecentAfter(before), p, now) && now <= end
    requires before != [] ==> Finish(before[|before| - 1]) <= now
    ensures Count(LogOf(before), InHour(end, p)) < RateLimit(p)
  {
    hide Count, Filter, RateLimit, RecentAfter, LogOf, GateRun;
    CountOfFiltered(LogOf(before), now - HOUR, end, p);
    PruningIsHarmless(before, now - HOUR);
  }

  // -------------------------------------------------------------- saying a thing once

  datatype Observation = Observation(fingerprint: string, priority: Priority, private: bool)

  /** An observer's answer to one sweep: what it found, or nothing because it failed. */
  type Answer = Option<seq<Observation>>

  function Context(o: Observation, ownerStatus: string, people: int): Setting {
    Setting(ownerStatus, people, o.private)
  }

  /** What the engine remembers: when each fact was last mentioned, and the gate's recent notices. */
  datatype Memory = Memory(mentioned: map<string, int>, recent: seq<Notice>)

  predicate RecentlyMentioned(m: Memory, window: int, fingerprint: string, now: int) {
    fingerprint in m.mentioned && now - m.mentioned[fingerprint] < window
  }

  predicate Raises(m: Memory, level: Level, window: int, o: Observation, setting: Setting, now: int) {
    && !RecentlyMentioned(m, window, o.fingerprint, now)
    && MayInterrupt(level, o.priority, setting) && UnderLimit(m.recent, o.priority, now)
  }

  /** What considering one observation does to the memory. */
  function Considered(m: Memory, level: Level, window: int, o: Observation, setting: Setting, now: int): Memory {
    if RecentlyMentioned(m, window, o.fingerprint, now) || !MayInterrupt(level, o.priority, setting) then m
    else if UnderLimit(m.recent, o.priority, now) then
      Memory(m.mentioned[o.fingerprint := now], Prune(m.recent, now) + [Notice(now, o.priority)])
    else m.(recent := Prune(m.recent, now))
  }

  /** The memory after a list of observations, and those among them that are raised. */
  function Sweeping(
      m: Memory, level: Level, window: int, found: seq<Observation>, ownerStatus: string, people: int, now: int)
    : (Memory, seq<Observation>)
  {
    if found == [] then (m, [])
    else
      var (before, raised) := Sweeping(m, level, window, found[..|found| - 1], ownerStatus, people, now);
      var o := found[|found| - 1];
      var setting := Context(o, ownerStatus, people);
      (Considered(before, level, window, o, setting, now),
       raised + if Raises(before, level, window, o, setting, now) then [o] else [])
  }

  /** Everything the observers that did not fail found, in order. */
  function Found(answers: seq<Answer>): seq<Observation> {
    if answers == [] then []
    else Found(answers[..|answers| - 1]) + if answers[|answers| - 1].Some? then answers[|answers| - 1].value else []
  }

  lemma SweepingMore(
      m: Memory, level: Level, window: int, found: seq<Observation>, o: Observation, ownerStatus: string, people: int, now: int)
    ensures var (before, raised) := Sweeping(m, level, window, found, ownerStatus, people, now);
            var setting := Context(o, ownerStatus, people);
            Sweeping(m, level, window, found + [o], ownerStatus, people, now) ==
            (Considered(before, level, window, o, setting, now),
             if Raises(before, level, window, o, setting, now) then raised + [o] else raised)
  {
    assert (found + [o])[..|found|] == found;
    var raised := Sweeping(m, level, window, found, ownerStatus, people, now).1;
    assert raised + [] == raised;
  }

  class ProactiveEngine {
    const gate: Gate
    const window: int
    var mentioned: map<string, int>

    ghost function Remembered(): Memory
      reads this, gate
    {
      Memory(mentioned, gate.recent)
    }

    constructor (gate: Gate, window: int)
      ensures this.gate == gate && this.window == window && mentioned == map[]
    {
      this.gate, this.window, mentioned := gate, window, map[];
    }

    /** Considers one observation, saying it at most once and only through the gate. */
    method Consider(o: Observation, setting: Setting, now: int) returns (raised: bool)
      modifies this`mentioned, gate`recent
      ensures gate.level == old(gate.level)
      ensures raised <==> Raises(old(Remembered()), gate.level, window, o, setting, now)
      ensures Remembered() == Considered(old(Remembered()), gate.level, window, o, setting, now)
    {
      if o.fingerprint in mentioned && now - mentioned[o.fingerprint] < window {
        return false;
      }
      var allowed := gate.Allows(o.priority, setting, now);
      if !allowed {
        return false;
      }
      gate.Record(o.priority, now);
      mentioned := mentioned[o.fingerprint := now];
      return true;
    }

    /** Asks every observer; one that fails is passed over and stops none of the others. */
    method Sweep(answers: seq<Answer>, ownerStatus: string, people: int, now: int) returns (raised: seq<Observation>)
      modifies this`mentioned, gate`recent
      ensures (Remembered(), raised) == Sweeping(old(Remembered()), gate.level, window, Found(answers), ownerStatus, people, now)
    {
      hide Considered, Raises;
      raised := [];
      ghost var was := Remembered();
      ghost var done: seq<Observation> := [];
      for i := 0 to |answers|
        invariant gate.level == old(gate.level) && done == Found(answers[..i])
        invariant (Remembered(), raised) == Sweeping(was, gate.level, window, done, ownerStatus, people, now)
      {
        assert answers[..i + 1][..i] == answers[..i];
        if answers[i].None? {
          continue;
        }
        var found := answers[i].value;
        ghost var soFar := done;
        for k := 0 to |found|
          invariant gate.level == old(gate.level) && done == soFar + found[..k]
          invariant (Remembered(), raised) == Sweeping(was, gate.level, window, done, ownerStatus, people, now)
        {
          hide Sweeping, Found;
          SweepingMore(was, gate.level, window, done, found[k], ownerStatus, people, now);
          var said := Consider(found[k], Context(found[k], ownerStatus, people), now);
          if said {
            raised := raised + [found[k]];
          }
          TakeNext(soFar, found, k);
          done := done + [found[k]];
        }
        assert found[..|found|] == found;
      }
      assert answers[..|answers|] == answers;
    }

    /** Lets a fact be raised again. */
    method Forget(fingerprint: string)
      modifies this`mentioned
      ensures mentioned == old(mentioned) - {fingerprint}
    {
      mentioned := mentioned - {fingerprint};
    }
  }

  /** What happened to the facts: each was raised at some time, or deliberately forgotten. */
  datatype Entry = Said(fingerprint: string, at: int) | Forgotten(fingerprint: string)

  function MentionedAfter(entries: seq<Entry>): map<string, int> {
    if entries == [] then map[]
    else
      var before, last := MentionedAfter(entries[..|entries| - 1]), entries[|entries| - 1];
      match last
      case Said(f, at) => before[f := at]
      case Forgotten(f) => before - {f}
  }

  /** Every fact was only said when the engine did not remember mentioning it within the window. */
  ghost predicate Polite(entries: seq<Entry>, window: int) {
    entries != [] ==>
      var before, last := entries[..|entries| - 1], entries[|entries| - 1];
      && Polite(before, window)
      && (last.Said? ==> !RecentlyMentioned(Memory(MentionedAfter(before), []), window, last.fingerprint, last.at))
  }

  ghost predicate ForgottenBetween(entries: seq<Entry>, i: nat, j: nat, f: string) {
    exists k | i < k < j && k < |entries| :: entries[k] == Forgotten(f)
  }

  lemma {:induction false} RemembersLatest(entries: seq<Entry>, window: int, i: nat)
    requires Polite(entries, window) && window >= 0 && i < |entries| && entries[i].Said?
    requires !ForgottenBetween(entries, i, |entries|, entries[i].fingerprint)
    ensures entries[i].fingerprint in MentionedAfter(entries)
    ensures MentionedAfter(entries)[entries[i].fingerprint] >= entries[i].at
  {
    var n := |entries| - 1;
    if i < n {
      var before := entries[..n];
      assert forall k | i < k < n :: before[k] == entries[k];
      RemembersLatest(before, window, i);
      assert entries[n] != Forgotten(entries[i].fingerprint);
    }
  }

  /** Two mentions of one fact are at least the window apart unless it was forgotten in between, whatever the clock does. */
  lemma MentionsAreApart(entries: seq<Entry>, window: int, i: nat, j: nat)
    requires Polite(entries, window) && window >= 0 && i < j < |entries| && entries[i].Said? && entries[j].Said?
    requires entries[i].fingerprint == entries[j].fingerprint && !ForgottenBetween(entries, i, j, entries[i].fingerprint)
    ensures entries[j].at - entries[i].at >= window
  {
    PrefixIsPolite(entries, window, j + 1);
    var before := entries[..j + 1][..j];
    assert before == entries[..j];
    RemembersLatest(before, window, i);
  }

  lemma {:induction false} PrefixIsPolite(entries: seq<Entry>, window: int, n: nat)
    requires Polite(entries, window) && n <= |entries|
    ensures Polite(entries[..n], window)
  {
    if n == |entries| {
      assert entries[..n] == entries;
    } else {
      PrefixIsPolite(entries[..|entries| - 1], window, n);
      assert entries[..|entries| - 1][..n] == entries[..n];
    }
  }

  /** What the engine remembers of the facts is what this history of mentions leaves behind. */
  ghost predicate SaysOnce(m: Memory, entries: seq<Entry>, window: int) {
    m.mentioned == MentionedAfter(entries) && Polite(entries, window)
  }

  /** What the gate remembers is what these uses, none of them after `now`, leave behind. */
  ghost predicate Metered(m: Memory, uses: seq<Use>, now: int) {
    m.recent == RecentAfter(uses) && GateRun(uses) && (uses != [] ==> Finish(uses[|uses| - 1]) <= now)
  }

  function SaidOf(raised: seq<Observation>, now: int): (r: seq<Entry>)
    ensures |r| == |raised| && forall i | 0 <= i < |r| :: r[i] == Said(raised[i].fingerprint, now)
  {
    seq(|raised|, i requires 0 <= i < |raised| => Said(raised[i].fingerprint, now))
  }

  function NoticesOf(raised: seq<Observation>, now: int): (r: seq<Notice>)
    ensures |r| == |raised| && forall i | 0 <= i < |r| :: r[i] == Notice(now, raised[i].priority)
  {
    seq(|raised|, i requires 0 <= i < |raised| => Notice(now, raised[i].priority))
  }

  lemma ConsideringSaysOnce(
      m: Memory, entries: seq<Entry>, level: Level, window: int, o: Observation, setting: Setting, now: int)
    requires SaysOnce(m, entries, window)
    ensures SaysOnce(Considered(m, level, window, o, setting, now),
                     if Raises(m, level, window, o, setting, now) then entries + [Said(o.fingerprint, now)] else entries,
                     window)
  {
    SaidExtends(entries, window, o.fingerprint, now);
    hide UnderLimit, MayInterrupt, Prune, Polite, MentionedAfter;
  }

  /** What considering an observation uses the gate for. */
  function UsesOf(m: Memory, level: Level, window: int, o: Observation, setting: Setting, now: int): seq<Use> {
    if Raises(m, level, window, o, setting, now) then [Raised(o.priority, now, now)]
    else if !RecentlyMentioned(m, window, o.fingerprint, now) && MayInterrupt(level, o.priority, setting) then
      [Asked(now, true)]
    else []
  }

  lemma ConsideringIsMetered(
      m: Memory, uses: seq<Use>, level: Level, window: int, o: Observation, setting: Setting, now: int)
    requires Metered(m, uses, now)
    ensures var more := uses + UsesOf(m, level, window, o, setting, now);
            && Metered(Considered(m, level, window, o, setting, now), more, now)
            && LogOf(more) ==
               LogOf(uses) + if Raises(m, level, window, o, setting, now) then [Notice(now, o.priority)] else []
  {
    UseExtends(uses, Raised(o.priority, now, now));
    UseExtends(uses, Asked(now, true));
    hide UnderLimit, MayInterrupt, Prune, GateRun, RecentAfter, LogOf;
    assert uses + [] == uses && LogOf(uses) + [] == LogOf(uses);
  }

  // -------------------------------------------------------------- any life of the engine

  /** What happens to the engine: a sweep, at whatever level is then set; a fact forgotten; or somebody else, a rule that
      notifies or a tip, at the gate they share. */
  datatype Happening =
    | Swept(level: Level, answers: seq<Answer>, ownerStatus: string, people: int, now: int)
    | Acted(fingerprint: string)
    | Used(use: Use)

  /** The memory, every mention and forgetting, and every notice ever raised through the gate. */
  datatype Life = Life(memory: Memory, entries: seq<Entry>, log: seq<Notice>)

  function Lived(life: Life, window: int, h: Happening): Life {
    match h
    case Swept(level, answers, ownerStatus, people, now) =>
      var (memory, raised) := Sweeping(life.memory, level, window, Found(answers), ownerStatus, people, now);
      Life(memory, life.entries + SaidOf(raised, now), life.log + NoticesOf(raised, now))
    case Acted(f) =>
      Life(life.memory.(mentioned := life.memory.mentioned - {f}), life.entries + [Forgotten(f)], life.log)
    case Used(u) =>
      Life(life.memory.(recent := AfterUse(life.memory.recent, u)), life.entries,
           life.log + if u.Raised? then [Notice(u.recordedAt, u.priority)] else [])
  }

  /** A life from the empty memory. */
  function LifeAfter(window: int, happenings: seq<Happening>): Life {
    if happenings == [] then Life(Memory(map[], []), [], [])
    else Lived(LifeAfter(window, happenings[..|happenings| - 1]), window, happenings[|happenings| - 1])
  }

  predicate Within(h: Happening, from: int, to: int) {
    match h
    case Swept(_, _, _, _, now) => from <= now <= to
    case Acted(_) => from <= to
    case Used(u) => from <= Start(u) <= Finish(u) <= to
  }

  /** The clock never goes back, and whoever else records a notice was allowed to just before. `end` is not before the
      last happening. */
  ghost predicate WellTimed(window: int, happenings: seq<Happening>, end: int) {
    happenings != [] ==>
      var before, last := happenings[..|happenings| - 1], happenings[|happenings| - 1];
      exists middle :: WellTimed(window, before, middle) && Within(last, middle, end) && Admitted(LifeAfter(window, before), last)
  }

  predicate Admitted(life: Life, h: Happening) {
    h.Used? && h.use.Raised? ==> UnderLimit(life.memory.recent, h.use.priority, h.use.checkedAt)
  }

  /** A sweep adds what it raised, and nothing else, to the mentions. */
  lemma {:induction false} SweepSaysOnce(
      m: Memory, entries: seq<Entry>, level: Level, window: int, found: seq<Observation>, ownerStatus: string, people: int, now: int)
    requires SaysOnce(m, entries, window)
    ensures var (after, raised) := Sweeping(m, level, window, found, ownerStatus, people, now);
            SaysOnce(after, entries + SaidOf(raised, now), window)
  {
    var (after, raised) := Sweeping(m, level, window, found, ownerStatus, people, now);
    hide Considered, Raises, SaysOnce;
    if found == [] {
      assert entries + SaidOf(raised, now) == entries;
    } else {
      var before, o := found[..|found| - 1], found[|found| - 1];
      var (was, said) := Sweeping(m, level, window, before, ownerStatus, people, now);
      SweepSaysOnce(m, entries, level, window, before, ownerStatus, people, now);
      ConsideringSaysOnce(was, entries + SaidOf(said, now), level, window, o, Context(o, ownerStatus, people), now);
      assert entries + SaidOf(raised, now) ==
             if raised == said then entries + SaidOf(said, now) else entries + SaidOf(said, now) + [Said(o.fingerprint, now)];
    }
  }

  /** A sweep uses the gate so that what it raised, and nothing else, is added to the log. */
  lemma {:induction false} SweepIsMetered(
      m: Memory, uses: seq<Use>, level: Level, window: int, found: seq<Observation>, ownerStatus: string, people: int, now: int)
    returns (more: seq<Use>)
    requires Metered(m, uses, now)
    ensures var (after, raised) := Sweeping(m, level, window, found, ownerStatus, people, now);
            Metered(after, more, now) && LogOf(more) == LogOf(uses) + NoticesOf(raised, now)
  {
    var (after, raised) := Sweeping(m, level, window, found, ownerStatus, people, now);
    hide Considered, Raises, Metered, LogOf, UsesOf;
    if found == [] {
      more := uses;
    } else {
      var before, o := found[..|found| - 1], found[|found| - 1];
      var (was, said) := Sweeping(m, level, window, before, ownerStatus, people, now);
      var setting := Context(o, ownerStatus, people);
      more := SweepIsMetered(m, uses, level, window, before, ownerStatus, people, now);
      ConsideringIsMetered(was, more, level, window, o, setting, now);
      more := more + UsesOf(was, level, window, o, setting, now);
      assert NoticesOf(raised, now) ==
             NoticesOf(said, now) + if Raises(was, level, window, o, setting, now) then [Notice(now, o.priority)] else [];
    }
  }

  /** Over any life, the mentions are what the memory says and each was made only when its fact was not remembered. */
  lemma {:induction false} LifeSaysOnce(window: int, happenings: seq<Happening>)
    ensures var life := LifeAfter(window, happenings); SaysOnce(life.memory, life.entries, window)
  {
    if happenings != [] {
      var before, h := happenings[..|happenings| - 1], happenings[|happenings| - 1];
      LifeSaysOnce(window, before);
      var life := LifeAfter(window, before);
      hide Sweeping, Found;
      if h.Swept? {
        SweepSaysOnce(life.memory, life.entries, h.level, window, Found(h.answers), h.ownerStatus, h.people, h.now);
      } else if h.Acted? {
        assert (life.entries + [Forgotten(h.fingerprint)])[..|life.entries|] == life.entries;
      }
    }
  }

  /** Over any life whose clock never goes back, the gate's memory is what some run of uses leaves, with that log. */
  lemma {:induction false} LifeIsMetered(window: int, happenings: seq<Happening>, end: int) returns (uses: seq<Use>)
    requires WellTimed(window, happenings, end)
    ensures var life := LifeAfter(window, happenings); Metered(life.memory, uses, end) && LogOf(uses) == life.log
  {
    if happenings == [] {
      uses := [];
    } else {
      var before, h := happenings[..|happenings| - 1], happenings[|happenings| - 1];
      var middle :| WellTimed(window, before, middle) && Within(h, middle, end) && Admitted(LifeAfter(window, before), h);
      uses := LifeIsMetered(window, before, middle);
      var life := LifeAfter(window, before);
      hide Sweeping, Found, LogOf, GateRun, RecentAfter, UnderLimit, AfterUse;
      if h.Swept? {
        uses := SweepIsMetered(life.memory, uses, h.level, window, Found(h.answers), h.ownerStatus, h.people, h.now);
      } else if h.Used? {
        UseExtends(uses, h.use);
        uses := uses + [h.use];
      }
    }
  }

  /** However sweeps, forgettings and the gate's other users follow one another, no hour ever holds more notices of a
      priority than its limit. */
  lemma HourlyLimitOverAnyLife(window: int, happenings: seq<Happening>, now: int, end: int, p: Priority)
    requires WellTimed(window, happenings, now)
    ensures Count(LifeAfter(window, happenings).log, InHour(end, p)) <= RateLimit(p)
  {
    var uses := LifeIsMetered(window, happenings, now);
    EveryHourWithinLimit(uses, end, p);
  }

  /** However they follow one another and whatever the clock does, a sweep raises a fact again only after the repeat
      window, unless the fact was forgotten in between. */
  lemma SpacingOverAnyLife(window: int, happenings: seq<Happening>, i: nat, j: nat)
    requires window >= 0
    requires var e := LifeAfter(window, happenings).entries;
             && i < j < |e| && e[i].Said? && e[j].Said? && e[i].fingerprint == e[j].fingerprint
             && !ForgottenBetween(e, i, j, e[i].fingerprint)
    ensures var e := LifeAfter(window, happenings).entries; e[j].at - e[i].at >= window
  {
    LifeSaysOnce(window, happenings);
    MentionsAreApart(LifeAfter(window, happenings).entries, window, i, j);
  }

  /** A sweep takes its time before it waits for its observers. If the gate is asked meanwhile, the clock has gone back
      when the sweep asks, and an hour can hold more than the limit. */
  lemma SlowSweepExceedsTheLimit()
    ensures var uses := [Raised(Low, 0, 0), Asked(HOUR, true), Raised(Low, HOUR - 1, HOUR - 1)];
            && (forall k | 0 <= k < 3 && uses[k].Raised? :: UnderLimit(RecentAfter(uses[..k]), Low, uses[k].checkedAt))
            && Count(LogOf(uses), InHour(HOUR - 1, Low)) > RateLimit(Low)
  {
    var first, asked, late := Raised(Low, 0, 0), Asked(HOUR, true), Raised(Low, HOUR - 1, HOUR - 1);
    var uses := [first, asked, late];
    assert uses[..2] == [first, asked] && uses[..1] == [first] && uses[..0] == [];
    assert [first, asked][..1] == [first] && [first][..0] == [];
    FilterOne(Notice(0, Low), After(HOUR - HOUR));
    assert RecentAfter([first]) == [Notice(0, Low)];
    assert RecentAfter([first, asked]) == [];
    assert LogOf([first]) == [Notice(0, Low)] && LogOf([first, asked]) == [Notice(0, Low)];
    CountOne(Notice(0, Low), InHour(HOUR - 1, Low));
    CountOne(Notice(HOUR - 1, Low), InHour(HOUR - 1, Low));
    CountConcat([Notice(0, Low)], [Notice(HOUR - 1, Low)], InHour(HOUR - 1, Low));
    assert [Notice(0, Low)] + [Notice(HOUR - 1, Low)] == LogOf(uses);
  }

  lemma {:induction false} SaidExtends(entries: seq<Entry>, window: int, f: string, now: int)
    requires Polite(entries, window)
    ensures MentionedAfter(entries + [Said(f, now)]) == MentionedAfter(entries)[f := now]
    ensures !RecentlyMentioned(Memory(MentionedAfter(entries), []), window, f, now) ==>
              Polite(entries + [Said(f, now)], window)
  {
    assert (entries + [Said(f, now)])[..|entries|] == entries;
  }

  lemma {:induction false} UseExtends(uses: seq<Use>, u: Use)
    requires GateRun(uses) && Start(u) <= Finish(u) && (uses != [] ==> Finish(uses[|uses| - 1]) <= Start(u))
    ensures RecentAfter(uses + [u]) == AfterUse(RecentAfter(uses), u)
    ensures (u.Raised? ==> UnderLimit(RecentAfter(uses), u.priority, u.checkedAt)) ==> GateRun(uses + [u])
    ensures LogOf(uses + [u]) == LogOf(uses) + if u.Raised? then [Notice(u.recordedAt, u.priority)] else []
  {
    MemoryExtends(uses, u);
    hide UnderLimit, AfterUse, LogOf, RecentAfter, Start, Finish;
    var more := uses + [u];
    assert more != [] && more[..|more| - 1] == uses && more[|more| - 1] == u;
  }

  lemma {:induction false} MemoryExtends(uses: seq<Use>, u: Use)
    ensures RecentAfter(uses + [u]) == AfterUse(RecentAfter(uses), u)
    ensures LogOf(uses + [u]) == LogOf(uses) + if u.Raised? then [Notice(u.recordedAt, u.priority)] else []
  {
    hide AfterUse;
    assert (uses + [u])[..|uses|] == uses;
  }
}
