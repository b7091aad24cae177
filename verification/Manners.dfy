/** When Thursday speaks up, rule by rule. */
module Manners {
  import opened Common
  import opened Rules
  import opened Proactivity
  import HourlyLimit

  /** Urgent enough for the level the owner has set: nothing at 0, only the critical at 1, all but the low at 2, all at 3. */
  predicate UrgentEnough(level: nat, p: Priority) {
    match p
    case Critical => level >= 1
    case Important => level >= 2
    case Normal => level >= 2
    case Low => level >= 3
  }

  /** How many of a priority fit into an hour. */
  function PerHour(p: Priority): nat {
    match p case Critical => 20 case Important => 6 case Normal => 3 case Low => 1
  }

  /** The owner may be disturbed, and nobody overhears what is private. */
  predicate Welcome(p: Priority, ownerStatus: string, people: int, private: bool) {
    && (ownerStatus == "dnd" || ownerStatus == "asleep" ==> p == Critical)
    && (private ==> people <= 1)
  }

  predicate SaidWithin(m: Memory, fingerprint: string, window: int, now: int) {
    fingerprint in m.mentioned && m.mentioned[fingerprint] > now - window
  }

  /** An observation is raised exactly when it was not said within the window, is urgent enough and welcome, and its
      priority has room in the last hour. */
  lemma RaisedInWords(m: Memory, level: Level, window: int, o: Observation, ownerStatus: string, people: int, now: int)
    ensures Raises(m, level, window, o, Context(o, ownerStatus, people), now) <==>
              && !SaidWithin(m, o.fingerprint, window, now)
              && UrgentEnough(level, o.priority) && Welcome(o.priority, ownerStatus, people, o.private)
              && Count(m.recent, (n: Notice) => n.at > now - 3600 && n.priority == o.priority) < PerHour(o.priority)
  {
    var last: Notice -> bool := (n: Notice) => n.at > now - 3600 && n.priority == o.priority;
    HourlyLimit.CountedAt(m.recent, o.priority, now);
    HourlyLimit.CountAlike(m.recent, HourlyLimit.Later(now - HOUR, o.priority), last);
    hide Count, Prune;
  }

  /** Whatever a sweep raises is urgent enough and welcome, and was found by an observer that answered. */
  lemma {:induction false} SweepIsPolite(
      m: Memory, level: Level, window: int, found: seq<Observation>, ownerStatus: string, people: int, now: int)
    ensures forall o | o in Sweeping(m, level, window, found, ownerStatus, people, now).1 ::
              o in found && UrgentEnough(level, o.priority) && Welcome(o.priority, ownerStatus, people, o.private)
  {
    if found != [] {
      var before, o := found[..|found| - 1], found[|found| - 1];
      SweepIsPolite(m, level, window, before, ownerStatus, people, now);
      RaisedInWords(Sweeping(m, level, window, before, ownerStatus, people, now).0, level, window, o, ownerStatus, people, now);
      hide Raises, Considered, UrgentEnough, Welcome, Count;
      assert found == before + [o];
    }
  }

  /** Nothing is lost with an observer that fails: what the others found is considered, each in its turn. */
  lemma {:induction false} FailuresArePassedOver(answers: seq<Answer>, i: nat, o: Observation)
    requires i < |answers| && answers[i].Some? && o in answers[i].value
    ensures o in Found(answers)
  {
    if i < |answers| - 1 {
      FailuresArePassedOver(answers[..|answers| - 1], i, o);
    }
  }

  /** And nothing is found that no observer answered. */
  lemma {:induction false} OnlyAnswersAreFound(answers: seq<Answer>, o: Observation)
    requires o in Found(answers)
    ensures exists i | 0 <= i < |answers| :: answers[i].Some? && o in answers[i].value
  {
    var front, last := answers[..|answers| - 1], answers[|answers| - 1];
    if last.Some? && o in last.value {
      assert answers[|answers| - 1] == last;
    } else {
      OnlyAnswersAreFound(front, o);
      var i :| 0 <= i < |front| && front[i].Some? && o in front[i].value;
      assert answers[i] == front[i];
    }
  }
}
