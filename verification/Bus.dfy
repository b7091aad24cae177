/** The in-process event bus: a replay guard and a history, both bounded. */
module Bus {
  import opened Common

  datatype Event = Event(id: string, kind: string, payload: int)

  function IdsOf(events: seq<Event>): (ids: seq<string>)
    ensures |ids| == |events| && forall i | 0 <= i < |events| :: ids[i] == events[i].id
  {
    seq(|events|, i requires 0 <= i < |events| => events[i].id)
  }

  /** What the guard still remembers of the events let through so far. */
  function Remembered(log: seq<Event>, dedupeLimit: nat): seq<string> {
    IdsOf(Suffix(log, dedupeLimit))
  }

  /** What reading back gives: the last `historyLimit` events, except that a limit of zero keeps them all. */
  function KeptHistory(log: seq<Event>, historyLimit: nat): seq<Event> {
    if historyLimit == 0 then log else Suffix(log, historyLimit)
  }

  /** `items[-limit:]` */
  function LastItems<T>(items: seq<T>, limit: nat): seq<T> {
    if limit == 0 || limit >= |items| then items else items[|items| - limit..]
  }

  /** `log` is every event ever let through, oldest first. */
  class InProcessEventBus {
    const historyLimit: nat
    const dedupeLimit: nat
    var seen: seq<string>
    var kept: seq<Event>
    ghost var log: seq<Event>

    ghost predicate Valid()
      reads this
    {
      seen == Remembered(log, dedupeLimit) && kept == KeptHistory(log, historyLimit)
    }

    constructor (historyLimit: nat, dedupeLimit: nat)
      ensures Valid() && log == [] && this.historyLimit == historyLimit && this.dedupeLimit == dedupeLimit
    {
      this.historyLimit, this.dedupeLimit := historyLimit, dedupeLimit;
      seen, kept, log := [], [], [];
    }

    /** An event is dropped exactly when its id is among those of the last `dedupeLimit` events let through. */
    method Publish(e: Event) returns (delivered: bool)
      requires Valid()
      modifies this
      ensures Valid()
      ensures delivered <==> e.id !in Remembered(old(log), dedupeLimit)
      ensures log == if delivered then old(log) + [e] else old(log)
    {
      hide Suffix;
      if e.id in seen {
        return false;
      }
      GuardMoves(log, e, dedupeLimit);
      HistoryMoves(log, e, historyLimit);
      hide Remembered, KeptHistory, IdsOf;
      seen := seen + [e.id];
      Evict();
      kept := kept + [e];
      if |kept| > historyLimit {
        kept := LastItems(kept, historyLimit);
      }
      log := log + [e];
      return true;
    }

    /** Drops the oldest ids until no more than the limit are left. */
    method Evict()
      modifies this`seen
      ensures seen == if |old(seen)| > dedupeLimit then old(seen)[|old(seen)| - dedupeLimit..] else old(seen)
    {
      ghost var all := seen;
      while |seen| > dedupeLimit
        modifies this`seen
        invariant |all| - |seen| >= 0 && seen == all[|all| - |seen|..]
        invariant |seen| >= (if |all| < dedupeLimit then |all| else dedupeLimit)
      {
        seen := seen[1..];
      }
    }

    /** `history(pattern, limit)` for the events of one pattern; with `limit` zero it gives them all. */
    method History(wanted: Event -> bool, limit: nat) returns (events: seq<Event>)
      requires Valid()
      ensures events == LastItems(Filter(KeptHistory(log, historyLimit), wanted), limit)
    {
      events := LastItems(Filter(kept, wanted), limit);
    }
  }

  lemma GuardMoves(log: seq<Event>, e: Event, limit: nat)
    ensures var all := Remembered(log, limit) + [e.id];
            |all| <= limit + 1 && Remembered(log + [e], limit) == if |all| > limit then all[|all| - limit..] else all
  {
    var kept := Suffix(log, limit) + [e];
    assert Suffix(log + [e], limit) == if |kept| > limit then kept[|kept| - limit..] else kept;
    hide Suffix;
  }

  lemma HistoryMoves(log: seq<Event>, e: Event, limit: nat)
    ensures var all := KeptHistory(log, limit) + [e];
            KeptHistory(log + [e], limit) == if |all| > limit then LastItems(all, limit) else all
  {
  }

  /** The history is promised to be bounded. It holds no more than its limit after every publish exactly when the limit
      is not zero. */
  lemma HistoryIsBoundedIffLimited(historyLimit: nat)
    ensures (forall log: seq<Event> :: |KeptHistory(log, historyLimit)| <= historyLimit) <==> historyLimit > 0
  {
    if historyLimit == 0 {
      var one := [Event("a", "b", 0)];
      assert |KeptHistory(one, 0)| > 0;
    }
  }

  // -------------------------------------------------------------- over a whole stream

  /** The events let through out of a stream of arrivals. */
  function Through(arrivals: seq<Event>, dedupeLimit: nat): (log: seq<Event>)
    ensures |log| <= |arrivals|
  {
    if arrivals == [] then []
    else
      var log := Through(arrivals[..|arrivals| - 1], dedupeLimit);
      var e := arrivals[|arrivals| - 1];
      if e.id in Remembered(log, dedupeLimit) then log else log + [e]
  }

  /** The first arrival under each id. */
  function FirstArrivals(arrivals: seq<Event>): (firsts: seq<Event>)
    ensures forall e | e in arrivals :: e.id in IdsOf(firsts)
    ensures forall e | e in firsts :: e in arrivals
  {
    if arrivals == [] then []
    else
      var firsts := FirstArrivals(arrivals[..|arrivals| - 1]);
      var e := arrivals[|arrivals| - 1];
      if e.id in IdsOf(firsts) then firsts
      else
        assert IdsOf(firsts + [e]) == IdsOf(firsts) + [e.id];
        firsts + [e]
  }

  lemma StillRemembered(log: seq<Event>, limit: nat, i: nat)
    requires |log| - limit <= i < |log|
    ensures log[i].id in Remembered(log, limit)
  {
    var recent := Suffix(log, limit);
    var at := i - (|log| - |recent|);
    assert IdsOf(recent)[at] == recent[at].id;
  }

  /** Between two deliveries of one event there are at least `dedupeLimit` other deliveries. */
  lemma {:induction false} RepeatsAreFarApart(arrivals: seq<Event>, dedupeLimit: nat, i: nat, j: nat)
    requires i < j < |Through(arrivals, dedupeLimit)|
    requires Through(arrivals, dedupeLimit)[i].id == Through(arrivals, dedupeLimit)[j].id
    ensures j - i > dedupeLimit
  {
    var front, e := arrivals[..|arrivals| - 1], arrivals[|arrivals| - 1];
    var log := Through(front, dedupeLimit);
    if j < |log| {
      RepeatsAreFarApart(front, dedupeLimit, i, j);
    } else if j - i <= dedupeLimit {
      StillRemembered(log, dedupeLimit, i);
    }
  }

  /** As long as no more ids arrive than the guard remembers, every event is delivered exactly once, at its first
      arrival, however often it is replayed. */
  lemma {:induction false} OnceWithinTheWindow(arrivals: seq<Event>, dedupeLimit: nat)
    requires |FirstArrivals(arrivals)| <= dedupeLimit
    ensures Through(arrivals, dedupeLimit) == FirstArrivals(arrivals)
  {
    if arrivals != [] {
      OnceWithinTheWindow(arrivals[..|arrivals| - 1], dedupeLimit);
    }
  }

  lemma {:induction false} AllNewGoThrough(arrivals: seq<Event>, dedupeLimit: nat)
    requires NoRepeats(IdsOf(arrivals))
    ensures Through(arrivals, dedupeLimit) == arrivals
  {
    if arrivals != [] {
      var front, e := arrivals[..|arrivals| - 1], arrivals[|arrivals| - 1];
      assert arrivals == front + [e] && IdsOf(arrivals) == IdsOf(front) + [e.id];
      AllNewGoThrough(front, dedupeLimit);
      NotYetSeen(front, e, dedupeLimit);
    }
  }

  lemma NotYetSeen(front: seq<Event>, e: Event, dedupeLimit: nat)
    requires forall i | 0 <= i < |front| :: front[i].id != e.id
    ensures e.id !in Remembered(front, dedupeLimit)
  {
  }

  lemma ThroughNext(arrivals: seq<Event>, e: Event, dedupeLimit: nat)
    ensures var log := Through(arrivals, dedupeLimit);
            Through(arrivals + [e], dedupeLimit) == if e.id in Remembered(log, dedupeLimit) then log else log + [e]
  {
    assert (arrivals + [e])[..|arrivals|] == arrivals;
  }

  lemma OthersRemembered(first: Event, others: seq<Event>)
    ensures Remembered([first] + others, |others|) == Remembered(others, |others|)
  {
    assert Suffix([first] + others, |others|) == others == Suffix(others, |others|);
  }

  lemma FirstIsForgotten(first: Event, others: seq<Event>)
    requires NoRepeats(IdsOf([first] + others))
    ensures first.id !in Remembered([first] + others, |others|)
  {
    hide *;
    OthersRemembered(first, others);
    OthersDiffer(first, others);
    NotYetSeen(others, first, |others|);
  }

  /** That many are enough: after `dedupeLimit` others an event is delivered again. */
  lemma {:induction false} BoundIsTight(first: Event, others: seq<Event>)
    requires NoRepeats(IdsOf([first] + others))
    ensures var arrivals := [first] + others; Through(arrivals + [first], |others|) == arrivals + [first]
  {
    hide *;
    AllNewGoThrough([first] + others, |others|);
    FirstIsForgotten(first, others);
    ThroughNext([first] + others, first, |others|);
  }

  lemma OthersDiffer(first: Event, others: seq<Event>)
    requires NoRepeats(IdsOf([first] + others))
    ensures forall i | 0 <= i < |others| :: others[i].id != first.id
  {
    var ids := IdsOf([first] + others);
    forall i | 0 <= i < |others| ensures others[i].id != first.id {
      assert ids[i + 1] == others[i].id && ids[0] == first.id;
    }
  }
}
