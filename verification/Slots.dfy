/** What the ledger lets onto a machine, told by the jobs that come and go. */
module Slots {
  import opened Common
  import opened Router
  import opened Capacity

  /** How many more jobs are on a machine, or in the cloud, at the end of a run than at its start: those admitted less
      those that left. */
  ghost function Joined(l: Ledger, es: seq<Event>, device: Option<Device>): int
    requires Conserved(l) && Run(l, es)
    decreases |es|
  {
    if es == [] then 0
    else JoinedBy(l, es[0], device) + Joined(Step(l, es[0]), es[1..], device)
  }

  function JoinedBy(l: Ledger, e: Event, device: Option<Device>): int
    requires Enabled(l, e)
  {
    match e
    case Admit(g) => if device == Some(l.sems[g].device) then 1 else 0
    case Release(g) => if device == Some(l.sems[g].device) then -1 else 0
    case CloudIn => if device == None then 1 else 0
    case CloudOut => if device == None then -1 else 0
    case _ => 0
  }

  lemma StepCounts(l: Ledger, e: Event, device: Option<Device>)
    requires Conserved(l) && Enabled(l, e)
    ensures InFlight(Step(l, e), device) == InFlight(l, device) + JoinedBy(l, e, device)
  {
  }

  /** What the ledger counts for a machine is the jobs that are on it. */
  lemma {:induction false} CountsAreJobs(l: Ledger, es: seq<Event>, device: Option<Device>)
    requires Conserved(l) && Run(l, es)
    ensures InFlight(After(l, es), device) == InFlight(l, device) + Joined(l, es, device)
    decreases |es|
  {
    hide Conserved, Next, Enabled, Step, InFlight, JoinedBy;
    if es != [] {
      StepCounts(l, es[0], device);
      CountsAreJobs(Step(l, es[0]), es[1..], device);
    }
  }

  /** The machine is not resized; others may be. */
  ghost predicate NotResized(es: seq<Event>, device: Device) {
    forall e | e in es :: !(e.Resize? && e.device == device)
  }

  lemma StepKeepsOwnLimit(l: Ledger, e: Event, device: Device)
    requires Conserved(l) && Enabled(l, e) && !(e.Resize? && e.device == device)
    ensures Limit(Step(l, e), Some(device)) == Limit(l, Some(device))
  {
  }

  lemma {:induction false} KeepsOwnLimit(l: Ledger, es: seq<Event>, device: Device)
    requires Conserved(l) && Run(l, es) && NotResized(es, device)
    ensures Limit(After(l, es), Some(device)) == Limit(l, Some(device)) && ResizesIdleOnly(l, es, device)
    decreases |es|
  {
    hide Conserved, Next, Enabled, Step, Limit, Idle;
    if es != [] {
      StepKeepsOwnLimit(l, es[0], device);
      KeepsOwnLimit(Step(l, es[0]), es[1..], device);
    }
  }

  lemma FreshLedger(n: nat, device: Device)
    requires n >= 1
    ensures var l := Fresh(n);
            && Conserved(l) && !Stale(l, device) && InFlight(l, Some(device)) == 0
            && Limit(l, Some(device)) == n && Room(l, device) == n
  {
  }

  /** With a default of `n`, a machine that is never resized has at no time more than `n` jobs on it, whatever happens on
      the others. */
  lemma AtMostTheDefault(n: nat, es: seq<Event>, device: Device)
    requires n >= 1 && Conserved(Fresh(n)) && Run(Fresh(n), es) && NotResized(es, device)
    ensures 0 <= Joined(Fresh(n), es, Some(device)) <= n
  {
    FreshLedger(n, device);
    KeepsOwnLimit(Fresh(n), es, device);
    WithinLimitAlways(Fresh(n), es, device);
    CountsAreJobs(Fresh(n), es, Some(device));
  }

  /** And `n` it can have, at once. */
  lemma TheDefaultFits(n: nat, device: Device) returns (es: seq<Event>)
    requires n >= 1
    ensures Conserved(Fresh(n)) && Run(Fresh(n), es) && NoResize(es) && Joined(Fresh(n), es, Some(device)) == n
  {
    FreshLedger(n, device);
    es := Fill(device, Current(Fresh(n), device), n);
    FillRaises(Fresh(n), device, n);
    CountsAreJobs(Fresh(n), es, Some(device));
  }

  lemma ResizedLedger(l: Ledger, device: Device, n: nat)
    requires Conserved(l) && Idle(l, device) && n >= 1
    ensures var m := Step(l, Resize(device, n));
            && Conserved(m) && !Stale(m, device) && InFlight(m, Some(device)) == 0
            && Limit(m, Some(device)) == n && Room(m, device) == n
  {
    IdleIsNotStale(l, device);
    StaleOnlyByBusyResize(l, Resize(device, n), device);
    HeldOnlyAt(l.sems, device, |l.sems|);
    var m := Step(l, Resize(device, n));
    assert InFlight(m, Some(device)) == InFlight(l, Some(device)) == HeldBy(l.sems, device);
  }

  lemma IdleIsNotStale(l: Ledger, device: Device)
    requires Idle(l, device)
    ensures !Stale(l, device)
  {
  }

  /** Resized to `n` while no job holds or awaits it, the machine has at most `n` jobs on it until it is resized again. */
  lemma AtMostTheNewLimit(l: Ledger, device: Device, n: nat, es: seq<Event>)
    requires Conserved(l) && Idle(l, device) && n >= 1
    requires Run(Step(l, Resize(device, n)), es) && NotResized(es, device)
    ensures 0 <= Joined(Step(l, Resize(device, n)), es, Some(device)) <= n
  {
    var m := Step(l, Resize(device, n));
    ResizedLedger(l, device, n);
    KeepsOwnLimit(m, es, device);
    WithinLimitAlways(m, es, device);
    CountsAreJobs(m, es, Some(device));
  }

  /** And `n` it can have, at once. */
  lemma TheNewLimitFits(l: Ledger, device: Device, n: nat) returns (es: seq<Event>)
    requires Conserved(l) && Idle(l, device) && n >= 1
    ensures var m := Step(l, Resize(device, n)); Run(m, es) && NoResize(es) && Joined(m, es, Some(device)) == n
  {
    var m := Step(l, Resize(device, n));
    ResizedLedger(l, device, n);
    es := Fill(device, Current(m, device), n);
    FillRaises(m, device, n);
    CountsAreJobs(m, es, Some(device));
  }
}
