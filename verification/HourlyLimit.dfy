/** The hourly limit on a clock that may have gone back: exactly when the gate can still keep it. */
module HourlyLimit {
  import opened Common
  import opened Rules
  import opened Proactivity

  /** Raised at priority `p` after `cutoff`. */
  function Later(cutoff: int, p: Priority): Notice -> bool {
    (n: Notice) => n.at > cutoff && n.priority == p
  }

  /** Whatever was recorded was accepted just before; the clock may do anything. */
  ghost predicate Accepted(uses: seq<Use>) {
    uses != [] ==>
      var before, last := uses[..|uses| - 1], uses[|uses| - 1];
      Accepted(before) && (last.Raised? ==> UnderLimit(RecentAfter(before), last.priority, last.checkedAt))
  }

  ghost predicate NothingAfter(uses: seq<Use>, now: int) {
    forall n | n in LogOf(uses) :: n.at <= now
  }

  /** Of the notices of the hour before `now` the gate has forgotten none. */
  ghost predicate Remembers(uses: seq<Use>, now: int) {
    NoneForgotten(uses, now - HOUR)
  }

  ghost predicate NoneForgotten(uses: seq<Use>, cutoff: int) {
    forall p :: Forgotten(uses, cutoff, p) == 0
  }

  /** How many notices of priority `p` after `cutoff` the gate has forgotten. */
  function Forgotten(uses: seq<Use>, cutoff: int, p: Priority): int {
    Count(LogOf(uses), Later(cutoff, p)) - Count(RecentAfter(uses), Later(cutoff, p))
  }

  /** `more` goes on from `uses` at `now`, on a clock that does not go back any more. */
  ghost predicate Continues(uses: seq<Use>, more: seq<Use>, now: int) {
    more != [] ==>
      var before, last := more[..|more| - 1], more[|more| - 1];
      && Continues(uses, before, now) && Clock(before, now) <= Start(last) <= Finish(last)
      && (last.Raised? ==> UnderLimit(RecentAfter(uses + before), last.priority, last.checkedAt))
  }

  function Clock(more: seq<Use>, now: int): int {
    if more == [] then now else Finish(more[|more| - 1])
  }

  ghost predicate HourWithin(uses: seq<Use>, end: int, p: Priority) {
    Count(LogOf(uses), InHour(end, p)) <= RateLimit(p)
  }

  /** However it goes on from here, no hour that ends from now on holds more than the limits. */
  ghost predicate KeepsLimits(uses: seq<Use>, now: int) {
    forall more, end, p | Continues(uses, more, now) && end >= now :: HourWithin(uses + more, end, p)
  }

  // -------------------------------------------------------------- counting

  lemma {:induction false} CountMonotone<T>(s: seq<T>, p: T -> bool, q: T -> bool)
    requires forall x | x in s :: p(x) ==> q(x)
    ensures Count(s, p) <= Count(s, q)
  {
    if s != [] {
      CountMonotone(s[..|s| - 1], p, q);
    }
  }

  lemma {:induction false} CountAlike<T>(s: seq<T>, p: T -> bool, q: T -> bool)
    requires forall x | x in s :: p(x) == q(x)
    ensures Count(s, p) == Count(s, q)
  {
    if s != [] {
      CountAlike(s[..|s| - 1], p, q);
    }
  }

  lemma {:induction false} CountInFilter<T>(s: seq<T>, f: T -> bool, p: T -> bool, both: T -> bool)
    requires forall x :: both(x) == (f(x) && p(x))
    ensures Count(Filter(s, f), p) == Count(s, both)
  {
    if s != [] {
      var front, last := s[..|s| - 1], s[|s| - 1];
      CountInFilter(front, f, p, both);
      CountConcat(Filter(front, f), if f(last) then [last] else [], p);
      CountOne(last, p);
    }
  }

  lemma {:induction false} CountSplit<T>(s: seq<T>, p: T -> bool, q: T -> bool, r: T -> bool)
    requires forall x :: p(x) == (q(x) || r(x)) && !(q(x) && r(x))
    ensures Count(s, p) == Count(s, q) + Count(s, r)
  {
    if s != [] {
      CountSplit(s[..|s| - 1], p, q, r);
    }
  }

  /** The gate remembers only what was raised. */
  lemma {:induction false} MemoryIsOfTheLog(uses: seq<Use>, p: Notice -> bool)
    ensures Count(RecentAfter(uses), p) <= Count(LogOf(uses), p)
  {
    if uses != [] {
      var before, u := uses[..|uses| - 1], uses[|uses| - 1];
      MemoryIsOfTheLog(before, p);
      assert uses == before + [u];
      MemoryExtends(before, u);
      PrunedCounts(RecentAfter(before), Start(u) - HOUR, p);
      hide Count, RecentAfter, LogOf;
      if u.Raised? {
        var notice := Notice(u.recordedAt, u.priority);
        CountConcat(Prune(RecentAfter(before), u.checkedAt), [notice], p);
        CountConcat(LogOf(before), [notice], p);
      } else {
        assert LogOf(before) + [] == LogOf(before);
      }
    }
  }

  lemma PrunedCounts(s: seq<Notice>, cutoff: int, p: Notice -> bool)
    ensures Count(Filter(s, After(cutoff)), p) <= Count(s, p)
  {
    var both: Notice -> bool := (n: Notice) => After(cutoff)(n) && p(n);
    CountInFilter(s, After(cutoff), p, both);
    CountMonotone(s, both, p);
  }

  /** A later cutoff never has more forgotten behind it. */
  lemma {:induction false} ForgottenFalls(uses: seq<Use>, cutoff: int, later: int, p: Priority)
    requires cutoff <= later
    ensures 0 <= Forgotten(uses, later, p) <= Forgotten(uses, cutoff, p)
  {
    var between: Notice -> bool := (n: Notice) => cutoff < n.at <= later && n.priority == p;
    MemoryIsOfTheLog(uses, between);
    MemoryIsOfTheLog(uses, Later(later, p));
    CountSplit(LogOf(uses), Later(cutoff, p), Later(later, p), between);
    CountSplit(RecentAfter(uses), Later(cutoff, p), Later(later, p), between);
    hide Count, LogOf, RecentAfter;
  }

  /** What is counted against a question at `now`. */
  lemma CountedAt(recent: seq<Notice>, p: Priority, now: int)
    ensures Count(Prune(recent, now), Of(p)) == Count(recent, Later(now - HOUR, p))
    ensures UnderLimit(recent, p, now) <==> Count(recent, Later(now - HOUR, p)) < RateLimit(p)
  {
    CountInFilter(recent, After(now - HOUR), Of(p), Later(now - HOUR, p));
  }

  // -------------------------------------------------------------- the gate's own memory is always within the limits

  lemma PruneCountsNoMore(recent: seq<Notice>, now: int, p: Priority)
    ensures Count(Prune(recent, now), Of(p)) <= Count(recent, Of(p))
  {
    PrunedCounts(recent, now - HOUR, Of(p));
  }

  lemma {:induction false} MemoryWithinLimit(uses: seq<Use>, p: Priority)
    requires Accepted(uses)
    ensures Count(RecentAfter(uses), Of(p)) <= RateLimit(p)
  {
    if uses != [] {
      var before, u := uses[..|uses| - 1], uses[|uses| - 1];
      MemoryWithinLimit(before, p);
      assert uses == before + [u];
      MemoryExtends(before, u);
      PruneCountsNoMore(RecentAfter(before), Start(u), p);
      hide Count, RecentAfter, LogOf, Prune, RateLimit;
      if u.Raised? {
        var notice := Notice(u.recordedAt, u.priority);
        CountConcat(Prune(RecentAfter(before), u.checkedAt), [notice], Of(p));
        CountOne(notice, Of(p));
      }
    }
  }

  // -------------------------------------------------------------- remembering is enough

  lemma LastUse(uses: seq<Use>, more: seq<Use>)
    requires more != []
    ensures uses + more == (uses + more[..|more| - 1]) + [more[|more| - 1]]
  {
  }

  /** What one more use adds to the log. */
  lemma {:induction false} LogGrows(uses: seq<Use>, u: Use, q: Notice -> bool)
    ensures Count(LogOf(uses + [u]), q) ==
            Count(LogOf(uses), q) + if u.Raised? && q(Notice(u.recordedAt, u.priority)) then 1 else 0
  {
    MemoryExtends(uses, u);
    hide Count, LogOf;
    if u.Raised? {
      CountConcat(LogOf(uses), [Notice(u.recordedAt, u.priority)], q);
      CountOne(Notice(u.recordedAt, u.priority), q);
    } else {
      assert LogOf(uses) + [] == LogOf(uses);
    }
  }

  /** And to what the gate remembers of the hour it looks at. */
  lemma {:induction false} MemoryGrows(uses: seq<Use>, u: Use, p: Priority)
    ensures var q := Later(Start(u) - HOUR, p);
            Count(RecentAfter(uses + [u]), q) ==
            Count(RecentAfter(uses), q) + if u.Raised? && q(Notice(u.recordedAt, u.priority)) then 1 else 0
  {
    var cutoff := Start(u) - HOUR;
    MemoryExtends(uses, u);
    CountInFilter(RecentAfter(uses), After(cutoff), Later(cutoff, p), Later(cutoff, p));
    hide Count, RecentAfter, Filter, Later, After;
    if u.Raised? {
      CountConcat(Prune(RecentAfter(uses), u.checkedAt), [Notice(u.recordedAt, u.priority)], Later(cutoff, p));
      CountOne(Notice(u.recordedAt, u.priority), Later(cutoff, p));
    }
  }

  /** One more use forgets nothing that a question as late could count. */
  lemma NothingMoreForgotten(uses: seq<Use>, u: Use, p: Priority)
    ensures Forgotten(uses + [u], Start(u) - HOUR, p) == Forgotten(uses, Start(u) - HOUR, p)
  {
    LogGrows(uses, u, Later(Start(u) - HOUR, p));
    MemoryGrows(uses, u, p);
    hide Count, RecentAfter, LogOf, Later;
  }

  lemma {:induction false} StillRemembers(uses: seq<Use>, more: seq<Use>, now: int, p: Priority)
    requires Remembers(uses, now) && Continues(uses, more, now)
    ensures Forgotten(uses + more, Clock(more, now) - HOUR, p) == 0 && Clock(more, now) >= now
  {
    hide Forgotten;
    if more == [] {
      assert uses + more == uses;
    } else {
      var before, u := more[..|more| - 1], more[|more| - 1];
      StillRemembers(uses, before, now, p);
      LastUse(uses, more);
      ForgottenFalls(uses + before, Clock(before, now) - HOUR, Start(u) - HOUR, p);
      NothingMoreForgotten(uses + before, u, p);
      ForgottenFalls(uses + more, Start(u) - HOUR, Finish(u) - HOUR, p);
    }
  }

  lemma HourOfRemembered(uses: seq<Use>, now: int, end: int, p: Priority)
    requires Forgotten(uses, now - HOUR, p) == 0 && now <= end
    ensures Count(LogOf(uses), InHour(end, p)) <= Count(RecentAfter(uses), Later(now - HOUR, p))
  {
    hide LogOf, RecentAfter, Count;
    CountMonotone(LogOf(uses), InHour(end, p), Later(now - HOUR, p));
  }

  lemma RememberingKeepsHourNow(uses: seq<Use>, now: int, end: int, p: Priority)
    requires Accepted(uses) && Remembers(uses, now) && end >= now
    ensures HourWithin(uses, end, p)
  {
    MemoryWithinLimit(uses, p);
    CountMonotone(RecentAfter(uses), Later(now - HOUR, p), Of(p));
    hide Accepted, Count, LogOf, RecentAfter, Forgotten, RateLimit;
    assert Forgotten(uses, now - HOUR, p) == 0;
    HourOfRemembered(uses, now, end, p);
  }

  lemma HourAfterUse(uses: seq<Use>, clock: int, u: Use, end: int, p: Priority)
    requires HourWithin(uses, end, p) && Forgotten(uses, clock - HOUR, p) == 0 && clock <= Start(u) <= Finish(u)
    requires u.Raised? ==> UnderLimit(RecentAfter(uses), u.priority, u.checkedAt)
    ensures HourWithin(uses + [u], end, p)
  {
    hide Forgotten, UnderLimit, RecentAfter, LogOf, Count, RateLimit;
    LogGrows(uses, u, InHour(end, p));
    if u.Raised? && InHour(end, p)(Notice(u.recordedAt, u.priority)) {
      HourHasRoom(uses, clock, u, end, p);
    }
  }

  lemma LastContinues(uses: seq<Use>, more: seq<Use>, now: int)
    requires Continues(uses, more, now) && more != []
    ensures var before, u := more[..|more| - 1], more[|more| - 1];
            && Continues(uses, before, now) && Clock(before, now) <= Start(u) <= Finish(u)
            && (u.Raised? ==> UnderLimit(RecentAfter(uses + before), u.priority, u.checkedAt))
  {
  }

  lemma {:induction false} RememberingKeepsHour(uses: seq<Use>, more: seq<Use>, now: int, end: int, p: Priority)
    requires Accepted(uses) && Remembers(uses, now) && Continues(uses, more, now) && end >= now
    ensures HourWithin(uses + more, end, p)
  {
    hide *;
    if more == [] {
      assert uses + more == uses;
      RememberingKeepsHourNow(uses, now, end, p);
    } else {
      var before, u := more[..|more| - 1], more[|more| - 1];
      LastContinues(uses, more, now);
      RememberingKeepsHour(uses, before, now, end, p);
      StillRemembers(uses, before, now, p);
      LastUse(uses, more);
      HourAfterUse(uses + before, Clock(before, now), u, end, p);
    }
  }

  lemma HourByCount(uses: seq<Use>, end: int, p: Priority)
    ensures HourWithin(uses, end, p) <==> Count(LogOf(uses), InHour(end, p)) <= RateLimit(p)
  {
  }

  /** The question that let the notice through saw everything in its hour. */
  lemma HourHasRoom(uses: seq<Use>, clock: int, u: Use, end: int, p: Priority)
    requires u.Raised? && clock <= Start(u) <= Finish(u) && InHour(end, p)(Notice(u.recordedAt, u.priority))
    requires Forgotten(uses, clock - HOUR, p) == 0 && UnderLimit(RecentAfter(uses), u.priority, u.checkedAt)
    ensures Count(LogOf(uses), InHour(end, p)) < RateLimit(p)
  {
    hide Forgotten, Count, RecentAfter, LogOf, RateLimit, Prune, UnderLimit;
    ForgottenFalls(uses, clock - HOUR, Start(u) - HOUR, p);
    HourOfRemembered(uses, Start(u), end, p);
    CountedAt(RecentAfter(uses), p, Start(u));
  }

  // -------------------------------------------------------------- and necessary

  /** As many notices as the gate will still let through at `now`. */
  function Burst(p: Priority, now: int, k: nat): (more: seq<Use>)
    ensures |more| == k
  {
    if k == 0 then [] else Burst(p, now, k - 1) + [Raised(p, now, now)]
  }

  lemma {:induction false} BurstGoesThrough(uses: seq<Use>, p: Priority, now: int, k: nat)
    requires Count(RecentAfter(uses), Later(now - HOUR, p)) + k <= RateLimit(p)
    ensures Continues(uses, Burst(p, now, k), now) && Clock(Burst(p, now, k), now) == now
    ensures Count(RecentAfter(uses + Burst(p, now, k)), Later(now - HOUR, p)) ==
            Count(RecentAfter(uses), Later(now - HOUR, p)) + k
    ensures Count(LogOf(uses + Burst(p, now, k)), InHour(now, p)) == Count(LogOf(uses), InHour(now, p)) + k
  {
    if k == 0 {
      assert uses + Burst(p, now, 0) == uses;
    } else {
      var before, more, u := Burst(p, now, k - 1), Burst(p, now, k), Raised(p, now, now);
      BurstGoesThrough(uses, p, now, k - 1);
      assert more == before + [u] && more[..k - 1] == before;
      LastUse(uses, more);
      OneMoreGoesThrough(uses, before, p, now);
      hide Count, RecentAfter, LogOf, RateLimit, Later, Continues;
    }
  }

  lemma {:induction false} OneMoreGoesThrough(uses: seq<Use>, before: seq<Use>, p: Priority, now: int)
    requires Continues(uses, before, now) && Clock(before, now) == now
    requires Count(RecentAfter(uses + before), Later(now - HOUR, p)) < RateLimit(p)
    ensures var u := Raised(p, now, now);
            && Continues(uses, before + [u], now) && Clock(before + [u], now) == now
            && Count(RecentAfter((uses + before) + [u]), Later(now - HOUR, p)) ==
               Count(RecentAfter(uses + before), Later(now - HOUR, p)) + 1
            && Count(LogOf((uses + before) + [u]), InHour(now, p)) == Count(LogOf(uses + before), InHour(now, p)) + 1
  {
    var u := Raised(p, now, now);
    CountedAt(RecentAfter(uses + before), p, now);
    LogGrows(uses + before, u, InHour(now, p));
    MemoryGrows(uses + before, u, p);
    hide Count, RecentAfter, LogOf, RateLimit, UnderLimit;
    assert (before + [u])[..|before|] == before;
  }

  lemma {:induction false} KeptIsCounted(uses: seq<Use>, now: int, p: Priority)
    requires Accepted(uses) && NothingAfter(uses, now)
    ensures Count(RecentAfter(uses), Later(now - HOUR, p)) <= RateLimit(p)
    ensures Count(LogOf(uses), InHour(now, p)) == Count(RecentAfter(uses), Later(now - HOUR, p)) + Forgotten(uses, now - HOUR, p)
  {
    MemoryWithinLimit(uses, p);
    CountMonotone(RecentAfter(uses), Later(now - HOUR, p), Of(p));
    CountAlike(LogOf(uses), InHour(now, p), Later(now - HOUR, p));
  }

  lemma ForgettingBreaksHour(uses: seq<Use>, now: int, p: Priority) returns (more: seq<Use>)
    requires Accepted(uses) && NothingAfter(uses, now) && Forgotten(uses, now - HOUR, p) != 0
    ensures Continues(uses, more, now) && !HourWithin(uses + more, now, p)
  {
    hide *;
    KeptIsCounted(uses, now, p);
    ForgottenFalls(uses, now - HOUR, now - HOUR, p);
    var room := RateLimit(p) - Count(RecentAfter(uses), Later(now - HOUR, p));
    more := Burst(p, now, room);
    BurstGoesThrough(uses, p, now, room);
    HourByCount(uses + more, now, p);
  }

  /** After any history of accepted uses, on any clock, with nothing raised later than now: however the gate is used from
      now on, on a clock that does not go back again, no hour holds more than the limits, if and only if the gate has
      forgotten no notice of the last hour. */
  lemma LimitsKeptIffRemembered(uses: seq<Use>, now: int)
    requires Accepted(uses) && NothingAfter(uses, now)
    ensures KeepsLimits(uses, now) <==> Remembers(uses, now)
  {
    hide Accepted, Continues, HourWithin, Forgotten, NothingAfter;
    if Remembers(uses, now) {
      forall more, end, p | Continues(uses, more, now) && end >= now ensures HourWithin(uses + more, end, p) {
        RememberingKeepsHour(uses, more, now, end, p);
      }
    } else {
      assert !NoneForgotten(uses, now - HOUR);
      var p :| Forgotten(uses, now - HOUR, p) != 0;
      var more := ForgettingBreaksHour(uses, now, p);
    }
  }

  // -------------------------------------------------------------- the condition in times

  /** The use gets as far as counting, and so prunes. */
  predicate Counts(u: Use) {
    u.Raised? || u.interrupts
  }

  /** The notice raised by use `i`, if it is later than the cutoff, was not an hour or more old when use `j` counted. */
  predicate InTime(uses: seq<Use>, cutoff: int, i: nat, j: nat)
    requires i < |uses| && j < |uses|
  {
    uses[i].Raised? && uses[i].recordedAt > cutoff && Counts(uses[j]) ==> Start(uses[j]) < uses[i].recordedAt + HOUR
  }

  ghost predicate NoneOutrun(uses: seq<Use>, cutoff: int) {
    forall i, j | 0 <= i < j < |uses| :: InTime(uses, cutoff, i, j)
  }

  /** Raised after the cutoff and no later than `until`. */
  function Between(cutoff: int, until: int, p: Priority): Notice -> bool {
    (n: Notice) => cutoff < n.at <= until && n.priority == p
  }

  lemma NoneIffZero<T>(s: seq<T>, q: T -> bool)
    ensures Count(s, q) == 0 <==> forall x | x in s :: !q(x)
  {
    if forall x | x in s :: !q(x) {
      CountZero(s, q);
    } else {
      var x :| x in s && q(x);
      var i :| 0 <= i < |s| && s[i] == x;
      CountPositive(s, i, q);
    }
  }

  /** What a use forgets: what it still had of the notices between the cutoff and an hour before its question. */
  lemma UseForgets(uses: seq<Use>, u: Use, cutoff: int, p: Priority)
    ensures Forgotten(uses + [u], cutoff, p) ==
            Forgotten(uses, cutoff, p) +
            if Counts(u) then Count(RecentAfter(uses), Between(cutoff, Start(u) - HOUR, p)) else 0
  {
    LogGrows(uses, u, Later(cutoff, p));
    MemoryAfterUse(uses, u, cutoff, p);
    hide Count, LogOf, RecentAfter, Later, Between;
  }

  lemma {:induction false} MemoryAfterUse(uses: seq<Use>, u: Use, cutoff: int, p: Priority)
    ensures Count(RecentAfter(uses + [u]), Later(cutoff, p)) ==
            Count(RecentAfter(uses), Later(cutoff, p))
            - (if Counts(u) then Count(RecentAfter(uses), Between(cutoff, Start(u) - HOUR, p)) else 0)
            + if u.Raised? && Later(cutoff, p)(Notice(u.recordedAt, u.priority)) then 1 else 0
  {
    MemoryExtends(uses, u);
    PrunedBetween(RecentAfter(uses), cutoff, Start(u), p);
    hide Count, RecentAfter, Filter, Prune, Between;
    if u.Raised? {
      CountConcat(Prune(RecentAfter(uses), u.checkedAt), [Notice(u.recordedAt, u.priority)], Later(cutoff, p));
      CountOne(Notice(u.recordedAt, u.priority), Later(cutoff, p));
    }
  }

  lemma PrunedBetween(recent: seq<Notice>, cutoff: int, now: int, p: Priority)
    ensures Count(Prune(recent, now), Later(cutoff, p)) ==
            Count(recent, Later(cutoff, p)) - Count(recent, Between(cutoff, now - HOUR, p))
  {
    var both: Notice -> bool := (n: Notice) => After(now - HOUR)(n) && Later(cutoff, p)(n);
    CountInFilter(recent, After(now - HOUR), Later(cutoff, p), both);
    CountSplit(recent, Later(cutoff, p), both, Between(cutoff, now - HOUR, p));
  }

  /** As long as nothing after the cutoff is forgotten, the gate has a notice of some time after it exactly when there was
      one. */
  lemma {:induction false} RememberedBetween(uses: seq<Use>, cutoff: int, until: int, p: Priority)
    requires Forgotten(uses, cutoff, p) == 0
    ensures Count(RecentAfter(uses), Between(cutoff, until, p)) == Count(LogOf(uses), Between(cutoff, until, p))
  {
    if cutoff <= until {
      MemoryIsOfTheLog(uses, Between(cutoff, until, p));
      MemoryIsOfTheLog(uses, Later(until, p));
      CountSplit(LogOf(uses), Later(cutoff, p), Later(until, p), Between(cutoff, until, p));
      CountSplit(RecentAfter(uses), Later(cutoff, p), Later(until, p), Between(cutoff, until, p));
      hide Count, LogOf, RecentAfter;
    } else {
      CountZero(LogOf(uses), Between(cutoff, until, p));
      CountZero(RecentAfter(uses), Between(cutoff, until, p));
    }
  }

  lemma {:induction false} LogHas(uses: seq<Use>, n: Notice)
    ensures n in LogOf(uses) <==> exists i | 0 <= i < |uses| :: uses[i].Raised? && Notice(uses[i].recordedAt, uses[i].priority) == n
  {
    if uses != [] {
      var before, u := uses[..|uses| - 1], uses[|uses| - 1];
      LogHas(before, n);
      if i :| 0 <= i < |before| && before[i].Raised? && Notice(before[i].recordedAt, before[i].priority) == n {
        assert uses[i] == before[i];
      }
    }
  }

  /** Use `u` counts in time for every notice raised before it. */
  ghost predicate AllInTime(uses: seq<Use>, u: Use, cutoff: int) {
    Counts(u) ==> forall n | n in LogOf(uses) :: n.at > cutoff ==> Start(u) < n.at + HOUR
  }

  lemma {:induction false} UseForgetsNothing(uses: seq<Use>, u: Use, cutoff: int)
    ensures NoneForgotten(uses + [u], cutoff) <==> NoneForgotten(uses, cutoff) && AllInTime(uses, u, cutoff)
  {
    hide LogOf, RecentAfter, Count, Forgotten;
    forall p ensures Forgotten(uses + [u], cutoff, p) == 0 <==>
                     Forgotten(uses, cutoff, p) == 0
                     && (Counts(u) ==> forall n | n in LogOf(uses) :: !Between(cutoff, Start(u) - HOUR, p)(n))
    {
      UseForgets(uses, u, cutoff, p);
      ForgottenFalls(uses, cutoff, cutoff, p);
      if Forgotten(uses, cutoff, p) == 0 {
        RememberedBetween(uses, cutoff, Start(u) - HOUR, p);
        NoneIffZero(LogOf(uses), Between(cutoff, Start(u) - HOUR, p));
      }
    }
    if NoneForgotten(uses + [u], cutoff) && Counts(u) {
      forall n | n in LogOf(uses) ensures n.at > cutoff ==> Start(u) < n.at + HOUR {
        assert Forgotten(uses + [u], cutoff, n.priority) == 0;
        assert !Between(cutoff, Start(u) - HOUR, n.priority)(n);
      }
    }
  }

  lemma {:induction false} OutrunByLast(uses: seq<Use>, cutoff: int)
    requires uses != []
    ensures var before, u := uses[..|uses| - 1], uses[|uses| - 1];
            NoneOutrun(uses, cutoff) <==> NoneOutrun(before, cutoff) && AllInTime(before, u, cutoff)
  {
    var before, u, last := uses[..|uses| - 1], uses[|uses| - 1], |uses| - 1;
    hide LogOf;
    if NoneOutrun(uses, cutoff) {
      forall i, j | 0 <= i < j < |before| ensures InTime(before, cutoff, i, j) {
        assert InTime(uses, cutoff, i, j);
      }
      forall n | n in LogOf(before) && Counts(u) ensures n.at > cutoff ==> Start(u) < n.at + HOUR {
        LogHas(before, n);
        var i :| 0 <= i < |before| && before[i].Raised? && Notice(before[i].recordedAt, before[i].priority) == n;
        assert InTime(uses, cutoff, i, last);
      }
    }
    if NoneOutrun(before, cutoff) && AllInTime(before, u, cutoff) {
      forall i, j | 0 <= i < j < |uses| ensures InTime(uses, cutoff, i, j) {
        if j < last {
          assert InTime(before, cutoff, i, j);
        } else if uses[i].Raised? {
          LogHas(before, Notice(before[i].recordedAt, before[i].priority));
        }
      }
    }
  }

  /** The gate has forgotten no notice later than the cutoff if and only if no question that got as far as counting came an
      hour or more after one of them. */
  lemma {:induction false} RememberedIffNotOutrun(uses: seq<Use>, cutoff: int)
    ensures NoneForgotten(uses, cutoff) <==> NoneOutrun(uses, cutoff)
  {
    if uses == [] {
      assert forall p :: Forgotten(uses, cutoff, p) == 0;
    } else {
      var before, u := uses[..|uses| - 1], uses[|uses| - 1];
      RememberedIffNotOutrun(before, cutoff);
      hide *;
      assert uses == before + [u];
      UseForgetsNothing(before, u, cutoff);
      OutrunByLast(uses, cutoff);
    }
  }

  /** So the limits are kept from now on if and only if, on the clock as it went so far, no question that got as far as
      counting came an hour or more after a notice that is still inside the last hour. */
  lemma LimitsKeptIffNotOutrun(uses: seq<Use>, now: int)
    requires Accepted(uses) && NothingAfter(uses, now)
    ensures KeepsLimits(uses, now) <==> NoneOutrun(uses, now - HOUR)
  {
    hide KeepsLimits, NoneOutrun, NoneForgotten;
    LimitsKeptIffRemembered(uses, now);
    RememberedIffNotOutrun(uses, now - HOUR);
  }

  /** A LOW notice, a question an hour later, and a sweep that took its time just before that: at the sweep's time the
      notice is still inside the hour, and outrun. */
  lemma SlowSweepIsOutrun()
    ensures var uses := [Raised(Low, 0, 0), Asked(HOUR, true)];
            Accepted(uses) && NothingAfter(uses, HOUR - 1) && !KeepsLimits(uses, HOUR - 1)
  {
    var first, asked := Raised(Low, 0, 0), Asked(HOUR, true);
    var uses := [first, asked];
    assert uses[..1] == [first] && [first][..0] == [];
    assert Accepted([]) && Accepted([first]) && Accepted(uses);
    assert LogOf([first]) == [Notice(0, Low)] && LogOf(uses) == [Notice(0, Low)];
    assert !InTime(uses, -1, 0, 1);
    LimitsKeptIffNotOutrun(uses, HOUR - 1);
  }
}
