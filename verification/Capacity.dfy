/** The ledger of what this process has sent to each machine, and the semaphores that bound it. */
module Capacity {
  import opened Common
  import opened Router

  /** One generation of a machine's semaphore, with the permits it was created with. */
  datatype Semaphore = Semaphore(device: Device, limit: nat, free: nat, waiting: nat)

  /** `sems` keeps every generation ever created; `slots` names the current one of each machine. */
  datatype Ledger = Ledger(
    fallback: nat, limits: map<Device, nat>, counts: map<Option<Device>, nat>,
    slots: map<Device, nat>, sems: seq<Semaphore>)

  function Limit(l: Ledger, device: Option<Device>): nat {
    if device.None? then 0
    else if device.value in l.limits then l.limits[device.value] else l.fallback
  }

  function InFlight(l: Ledger, device: Option<Device>): nat {
    if device in l.counts then l.counts[device] else 0
  }

  /** The steps of the ledger: a job asks, is admitted by a semaphore, releases it; the cloud is only counted. */
  datatype Event =
    | Ask(device: Device) | Admit(sem: nat) | Release(sem: nat)
    | CloudIn | CloudOut
    | Resize(device: Device, limit: nat)

  predicate Enabled(l: Ledger, e: Event) {
    match e
    case Ask(_) => true
    case Admit(g) => g < |l.sems| && l.sems[g].waiting > 0 && l.sems[g].free > 0
    case Release(g) => g < |l.sems| && l.sems[g].free < l.sems[g].limit && InFlight(l, Some(l.sems[g].device)) > 0
    case CloudIn => true
    case CloudOut => InFlight(l, None) > 0
    case Resize(_, n) => n >= 1
  }

  /** The semaphore a job asking for `device` now will wait on. */
  function Current(l: Ledger, device: Device): nat {
    if device in l.slots then l.slots[device] else |l.sems|
  }

  /** The ledger with a semaphore for `device`, made on demand with the limit in force. */
  function WithSlot(l: Ledger, device: Device): Ledger {
    if device in l.slots then l
    else
      var n := Limit(l, Some(device));
      l.(slots := l.slots[device := |l.sems|], sems := l.sems + [Semaphore(device, n, n, 0)])
  }

  function Bump(l: Ledger, device: Option<Device>): Ledger {
    l.(counts := l.counts[device := InFlight(l, device) + 1])
  }

  function Drop(l: Ledger, device: Option<Device>): Ledger
    requires InFlight(l, device) > 0
  {
    l.(counts := l.counts[device := InFlight(l, device) - 1])
  }

  /** Every slot names a semaphore that exists. */
  predicate Sane(l: Ledger) {
    forall d | d in l.slots :: l.slots[d] < |l.sems|
  }

  function Next(l: Ledger, e: Event): Ledger
    requires Enabled(l, e) && Sane(l)
  {
    match e
    case Ask(d) =>
      var m := WithSlot(l, d);
      var s := m.sems[m.slots[d]];
      m.(sems := m.sems[m.slots[d] := s.(waiting := s.waiting + 1)])
    case Admit(g) =>
      var s := l.sems[g];
      Bump(l, Some(s.device)).(sems := l.sems[g := s.(waiting := s.waiting - 1, free := s.free - 1)])
    case Release(g) =>
      var s := l.sems[g];
      Drop(l, Some(s.device)).(sems := l.sems[g := s.(free := s.free + 1)])
    case CloudIn => Bump(l, None)
    case CloudOut => Drop(l, None)
    case Resize(d, n) =>
      // The old semaphore is dropped whether or not it is in use; it is replaced at once only when nothing is in flight.
      var m := l.(limits := l.limits[d := n], slots := l.slots - {d});
      if d in l.slots && InFlight(l, Some(d)) == 0 then WithSlot(m, d) else m
  }

  // -------------------------------------------------------------- conservation

  function Held(s: Semaphore): nat {
    if s.free <= s.limit then s.limit - s.free else 0
  }

  /** Permits of `device` held, over all the generations it has had. */
  function HeldBy(sems: seq<Semaphore>, device: Device): nat {
    if sems == [] then 0
    else HeldBy(sems[..|sems| - 1], device) + if sems[|sems| - 1].device == device then Held(sems[|sems| - 1]) else 0
  }

  lemma {:induction false} HeldByConcat(a: seq<Semaphore>, b: seq<Semaphore>, device: Device)
    ensures HeldBy(a + b, device) == HeldBy(a, device) + HeldBy(b, device)
  {
    if b == [] {
      assert a + b == a;
    } else {
      assert (a + b)[..|a + b| - 1] == a + b[..|b| - 1];
      HeldByConcat(a, b[..|b| - 1], device);
    }
  }

  lemma HeldByUpdate(sems: seq<Semaphore>, g: nat, s: Semaphore, device: Device)
    requires g < |sems| && s.device == sems[g].device
    ensures HeldBy(sems[g := s], device) ==
            if s.device == device then HeldBy(sems, device) - Held(sems[g]) + Held(s) else HeldBy(sems, device)
    ensures sems[g].device == device ==> HeldBy(sems, device) >= Held(sems[g])
  {
    var a, b := sems[..g], sems[g + 1..];
    assert sems == a + [sems[g]] + b && sems[g := s] == a + [s] + b;
    HeldByConcat(a + [sems[g]], b, device);
    HeldByConcat(a + [s], b, device);
    HeldByConcat(a, [sems[g]], device);
    HeldByConcat(a, [s], device);
    assert [s][..0] == [] && [sems[g]][..0] == [];
  }

  ghost predicate SlotsOk(l: Ledger) {
    forall d | d in l.slots ::
      l.slots[d] < |l.sems| && l.sems[l.slots[d]].device == d && l.sems[l.slots[d]].limit == Limit(l, Some(d))
  }

  /** Per generation, free and held permits make up the limit it was created with; per machine, the count is what
      its generations hold. */
  ghost predicate Conserved(l: Ledger) {
    && l.fallback >= 1 && (forall d | d in l.limits :: l.limits[d] >= 1)
    && (forall g | 0 <= g < |l.sems| :: l.sems[g].limit >= 1 && l.sems[g].free + Held(l.sems[g]) == l.sems[g].limit)
    && (forall d: Device :: InFlight(l, Some(d)) == HeldBy(l.sems, d))
    && SlotsOk(l)
  }

  function Fresh(fallback: nat): Ledger { Ledger(fallback, map[], map[], map[], []) }

  lemma WithSlotConserves(l: Ledger, device: Device)
    requires Conserved(l)
    ensures Conserved(WithSlot(l, device)) && device in WithSlot(l, device).slots
  {
    var m := WithSlot(l, device);
    if device !in l.slots {
      forall d: Device ensures HeldBy(m.sems, d) == HeldBy(l.sems, d) {
        assert m.sems[..|m.sems| - 1] == l.sems;
      }
      assert forall d: Device :: InFlight(m, Some(d)) == InFlight(l, Some(d));
    }
  }

  lemma UpdateConserves(l: Ledger, m: Ledger, g: nat, s: Semaphore)
    requires Conserved(l) && g < |l.sems|
    requires m == l.(counts := m.counts, sems := l.sems[g := s])
    requires s.device == l.sems[g].device && s.limit == l.sems[g].limit && s.free <= s.limit
    requires InFlight(m, Some(s.device)) + Held(l.sems[g]) == InFlight(l, Some(s.device)) + Held(s)
    requires forall d: Device | d != s.device :: InFlight(m, Some(d)) == InFlight(l, Some(d))
    ensures Conserved(m)
  {
    forall d: Device ensures InFlight(m, Some(d)) == HeldBy(m.sems, d) {
      HeldByUpdate(l.sems, g, s, d);
      assert InFlight(l, Some(d)) == HeldBy(l.sems, d);
    }
  }

  lemma AskConserves(l: Ledger, device: Device)
    requires Conserved(l)
    ensures Conserved(Next(l, Ask(device)))
  {
    WithSlotConserves(l, device);
    var m := WithSlot(l, device);
    var s := m.sems[m.slots[device]];
    UpdateConserves(m, Next(l, Ask(device)), m.slots[device], s.(waiting := s.waiting + 1));
  }

  lemma AdmitConserves(l: Ledger, g: nat)
    requires Conserved(l) && Enabled(l, Admit(g))
    ensures Conserved(Next(l, Admit(g)))
  {
    var s := l.sems[g];
    UpdateConserves(l, Next(l, Admit(g)), g, s.(waiting := s.waiting - 1, free := s.free - 1));
  }

  lemma ReleaseConserves(l: Ledger, g: nat)
    requires Conserved(l) && Enabled(l, Release(g))
    ensures Conserved(Next(l, Release(g)))
  {
    var s := l.sems[g];
    UpdateConserves(l, Next(l, Release(g)), g, s.(free := s.free + 1));
  }

  lemma ResizeConserves(l: Ledger, device: Device, limit: nat)
    requires Conserved(l) && limit >= 1
    ensures Conserved(Next(l, Resize(device, limit)))
  {
    var m := l.(limits := l.limits[device := limit], slots := l.slots - {device});
    CountsAlone(l, m);
    WithSlotConserves(m, device);
  }

  lemma CountsAlone(l: Ledger, m: Ledger)
    requires Conserved(l) && m.sems == l.sems && m.fallback == l.fallback && SlotsOk(m)
    requires forall d | d in m.limits :: m.limits[d] >= 1
    requires forall d: Device :: InFlight(m, Some(d)) == InFlight(l, Some(d))
    ensures Conserved(m)
  {
    forall d: Device ensures InFlight(m, Some(d)) == HeldBy(m.sems, d) {
      assert InFlight(l, Some(d)) == HeldBy(l.sems, d);
    }
  }

  lemma NextConserves(l: Ledger, e: Event)
    requires Conserved(l) && Enabled(l, e)
    ensures Conserved(Next(l, e))
  {
    match e
    case Ask(d) => AskConserves(l, d);
    case Admit(g) => AdmitConserves(l, g);
    case Release(g) => ReleaseConserves(l, g);
    case CloudIn => CountsAlone(l, Next(l, e));
    case CloudOut => CountsAlone(l, Next(l, e));
    case Resize(d, n) => ResizeConserves(l, d, n);
  }

  /** One step of a conserved ledger, which is conserved again. */
  ghost function Step(l: Ledger, e: Event): (m: Ledger)
    requires Conserved(l) && Enabled(l, e)
    ensures Conserved(m)
  {
    NextConserves(l, e);
    Next(l, e)
  }

  /** Every holder of a permit can give it back: nothing it could wait for stands between it and release. */
  lemma HolderMayRelease(l: Ledger, g: nat)
    requires Conserved(l) && g < |l.sems| && Held(l.sems[g]) > 0
    ensures Enabled(l, Release(g))
  {
    HeldByUpdate(l.sems, g, l.sems[g], l.sems[g].device);
    assert InFlight(l, Some(l.sems[g].device)) == HeldBy(l.sems, l.sems[g].device);
  }

  /** `m` is `l` with one more job waiting on semaphore `g` of `device`, every other generation untouched. */
  ghost predicate Asked(l: Ledger, m: Ledger, device: Device, g: nat) {
    && g < |m.sems| && m.counts == l.counts
    && (if g < |l.sems| then |m.sems| == |l.sems| && l.sems[g].device == device else |m.sems| == |l.sems| + 1)
    && m.sems[g].device == device
    && m.sems[g].waiting == 1 + (if g < |l.sems| then l.sems[g].waiting else 0)
    && Held(m.sems[g]) == (if g < |l.sems| then Held(l.sems[g]) else 0)
    && (forall i | 0 <= i < |l.sems| && i != g :: m.sems[i] == l.sems[i])
  }

  lemma AskEffect(l: Ledger, device: Device)
    requires Conserved(l)
    ensures Asked(l, Step(l, Ask(device)), device, Current(l, device))
  {
  }

  /** Admission turns a waiter into a holder of the same generation. */
  lemma AdmitEffect(l: Ledger, g: nat)
    requires Conserved(l) && Enabled(l, Admit(g))
    ensures var m := Step(l, Admit(g));
            && |m.sems| == |l.sems| && m.sems[g].device == l.sems[g].device
            && m.sems[g].waiting + 1 == l.sems[g].waiting && Held(m.sems[g]) == Held(l.sems[g]) + 1
            && (forall i | 0 <= i < |l.sems| && i != g :: m.sems[i] == l.sems[i])
            && InFlight(m, None) == InFlight(l, None)
  {
  }

  /** Release gives one permit back to the generation it came from. */
  lemma ReleaseEffect(l: Ledger, g: nat)
    requires Conserved(l) && Enabled(l, Release(g))
    ensures var m := Step(l, Release(g));
            && |m.sems| == |l.sems| && m.sems[g].device == l.sems[g].device
            && m.sems[g].waiting == l.sems[g].waiting && Held(m.sems[g]) + 1 == Held(l.sems[g])
            && (forall i | 0 <= i < |l.sems| && i != g :: m.sems[i] == l.sems[i])
            && InFlight(m, None) == InFlight(l, None)
  {
  }

  // -------------------------------------------------------------- runs

  ghost predicate Run(l: Ledger, es: seq<Event>)
    requires Conserved(l)
    decreases |es|
  {
    es != [] ==> Enabled(l, es[0]) && Run(Step(l, es[0]), es[1..])
  }

  ghost function After(l: Ledger, es: seq<Event>): (m: Ledger)
    requires Conserved(l) && Run(l, es)
    ensures Conserved(m)
    decreases |es|
  {
    if es == [] then l else After(Step(l, es[0]), es[1..])
  }

  // -------------------------------------------------------------- the limit

  /** Some job still holds or awaits a permit of a generation that is no longer `device`'s current one. */
  ghost predicate Stale(l: Ledger, device: Device) {
    exists g | 0 <= g < |l.sems| ::
      l.sems[g].device == device && g != Current(l, device) && (Held(l.sems[g]) > 0 || l.sems[g].waiting > 0)
  }

  /** No job holds or awaits any permit of `device`. */
  ghost predicate Idle(l: Ledger, device: Device) {
    forall g | 0 <= g < |l.sems| && l.sems[g].device == device :: Held(l.sems[g]) == 0 && l.sems[g].waiting == 0
  }

  lemma {:induction false} HeldOnlyAt(sems: seq<Semaphore>, device: Device, current: nat)
    requires forall g | 0 <= g < |sems| && sems[g].device == device && g != current :: Held(sems[g]) == 0
    ensures HeldBy(sems, device) ==
            if current < |sems| && sems[current].device == device then Held(sems[current]) else 0
  {
    if sems != [] {
      HeldOnlyAt(sems[..|sems| - 1], device, current);
    }
  }

  lemma NotStaleMeansWithinLimit(l: Ledger, device: Device)
    requires Conserved(l) && !Stale(l, device)
    ensures InFlight(l, Some(device)) <= Limit(l, Some(device))
  {
    assert InFlight(l, Some(device)) == HeldBy(l.sems, device);
    HeldOnlyAt(l.sems, device, Current(l, device));
  }

  lemma StaleOnlyByBusyResize(l: Ledger, e: Event, device: Device)
    requires Conserved(l) && Enabled(l, e) && !Stale(l, device)
    requires e.Resize? && e.device == device ==> Idle(l, device)
    ensures !Stale(Next(l, e), device)
  {
    var m := Next(l, e);
    forall g | 0 <= g < |m.sems| && m.sems[g].device == device && g != Current(m, device)
      ensures Held(m.sems[g]) == 0 && m.sems[g].waiting == 0
    {
      OtherGenerationsUntouched(l, e, device, g);
    }
  }

  lemma OtherGenerationsUntouched(l: Ledger, e: Event, device: Device, g: nat)
    requires Conserved(l) && Enabled(l, e) && !Stale(l, device)
    requires e.Resize? && e.device == device ==> Idle(l, device)
    requires g < |Next(l, e).sems| && Next(l, e).sems[g].device == device && g != Current(Next(l, e), device)
    ensures Held(Next(l, e).sems[g]) == 0 && Next(l, e).sems[g].waiting == 0
  {
    if e.Resize? {
      ResizeTouchesNone(l, e, g);
    } else {
      OnlyCurrentTouched(l, e, g);
    }
  }

  lemma ResizeTouchesNone(l: Ledger, e: Event, g: nat)
    requires Conserved(l) && Enabled(l, e) && e.Resize? && g < |Next(l, e).sems|
    ensures if g < |l.sems| then Next(l, e).sems[g] == l.sems[g]
            else Held(Next(l, e).sems[g]) == 0 && Next(l, e).sems[g].waiting == 0
    ensures g < |l.sems| && e.device != l.sems[g].device ==>
              (g == Current(Next(l, e), l.sems[g].device) <==> g == Current(l, l.sems[g].device))
  {
  }

  /** Between resizes a machine's current semaphore stays current, and no other generation gains a holder or a waiter. */
  lemma OnlyCurrentTouched(l: Ledger, e: Event, g: nat)
    requires Conserved(l) && Enabled(l, e) && !e.Resize? && g < |Next(l, e).sems|
    ensures g < |l.sems| ==>
              && Next(l, e).sems[g].device == l.sems[g].device
              && (g == Current(Next(l, e), l.sems[g].device) <==> g == Current(l, l.sems[g].device))
              && (Held(l.sems[g]) == 0 && l.sems[g].waiting == 0 && g != Current(l, l.sems[g].device) ==>
                    Held(Next(l, e).sems[g]) == 0 && Next(l, e).sems[g].waiting == 0)
    ensures g >= |l.sems| ==> g == Current(Next(l, e), Next(l, e).sems[g].device)
  {
  }

  ghost predicate ResizesIdleOnly(l: Ledger, es: seq<Event>, device: Device)
    requires Conserved(l) && Run(l, es)
    decreases |es|
  {
    es != [] ==>
      && (es[0].Resize? && es[0].device == device ==> Idle(l, device))
      && ResizesIdleOnly(Step(l, es[0]), es[1..], device)
  }

  /** Over every run in which a machine is only resized while no job holds or awaits it, it never carries more than its limit. */
  lemma {:induction false} WithinLimitAlways(l: Ledger, es: seq<Event>, device: Device)
    requires Conserved(l) && Run(l, es) && !Stale(l, device) && ResizesIdleOnly(l, es, device)
    ensures !Stale(After(l, es), device)
    ensures InFlight(After(l, es), Some(device)) <= Limit(After(l, es), Some(device))
    decreases |es|
  {
    if es == [] {
      NotStaleMeansWithinLimit(l, device);
    } else {
      StaleOnlyByBusyResize(l, es[0], device);
      WithinLimitAlways(Step(l, es[0]), es[1..], device);
    }
  }

  // -------------------------------------------------------------- exactly when a resize keeps the limit

  /** How many more jobs of `device` could be admitted at once. */
  ghost function Room(l: Ledger, device: Device): nat
    requires SlotsOk(l)
  {
    if device in l.slots then l.sems[l.slots[device]].free else Limit(l, Some(device))
  }

  /** `k` more jobs ask for `device` and are admitted. */
  ghost function Fill(device: Device, sem: nat, k: nat): seq<Event> {
    if k == 0 then [] else [Ask(device), Admit(sem)] + Fill(device, sem, k - 1)
  }

  ghost predicate NoResize(es: seq<Event>) { forall e | e in es :: !e.Resize? }

  /** One more job asks and is admitted, when there is room. */
  lemma AskAndAdmit(l: Ledger, device: Device)
    requires Conserved(l) && Room(l, device) > 0
    ensures Enabled(Step(l, Ask(device)), Admit(Current(l, device)))
    ensures var m := Step(Step(l, Ask(device)), Admit(Current(l, device)));
            && InFlight(m, Some(device)) == InFlight(l, Some(device)) + 1
            && Current(m, device) == Current(l, device) && Room(m, device) == Room(l, device) - 1
  {
  }

  lemma {:induction false} FillRaises(l: Ledger, device: Device, k: nat)
    requires Conserved(l) && Room(l, device) >= k
    ensures NoResize(Fill(device, Current(l, device), k))
    ensures Run(l, Fill(device, Current(l, device), k))
    ensures InFlight(After(l, Fill(device, Current(l, device), k)), Some(device)) == InFlight(l, Some(device)) + k
    decreases k
  {
    if k > 0 {
      AskAndAdmit(l, device);
      hide Conserved, Next, Enabled, Step, Room, Current, InFlight;
      var g := Current(l, device);
      var asked := Step(l, Ask(device));
      var admitted := Step(asked, Admit(g));
      FillRaises(admitted, device, k - 1);
      var rest := Fill(device, g, k - 1);
      RunPair(l, Ask(device), Admit(g), rest);
    }
  }

  lemma RunPair(l: Ledger, a: Event, b: Event, rest: seq<Event>)
    requires Conserved(l) && Enabled(l, a) && Enabled(Step(l, a), b) && Run(Step(Step(l, a), b), rest)
    ensures Run(l, [a, b] + rest) && After(l, [a, b] + rest) == After(Step(Step(l, a), b), rest)
  {
    hide Conserved, Next, Enabled, Step;
    var es := [a, b] + rest;
    assert es[1..] == [b] + rest && es[1..][1..] == rest && es[0] == a && es[1..][0] == b;
  }

  /** Every later state, without further resizing, keeps `device` within its limit. */
  ghost predicate StaysWithin(l: Ledger, device: Device)
    requires Conserved(l)
  {
    forall es | Run(l, es) && NoResize(es) :: InFlight(After(l, es), Some(device)) <= Limit(After(l, es), Some(device))
  }

  /** Resizing keeps the promise of the limit if and only if no job holds or awaits the machine at that moment. */
  lemma ResizeKeepsLimitIffIdle(l: Ledger, device: Device, limit: nat)
    requires Conserved(l) && !Stale(l, device) && limit >= 1
    ensures StaysWithin(Step(l, Resize(device, limit)), device) <==> Idle(l, device)
  {
    var m := Step(l, Resize(device, limit));
    if Idle(l, device) {
      StaleOnlyByBusyResize(l, Resize(device, limit), device);
      hide Conserved, Next, Enabled, Step, Stale, Idle;
      forall es | Run(m, es) && NoResize(es)
        ensures InFlight(After(m, es), Some(device)) <= Limit(After(m, es), Some(device))
      {
        NoResizeResizesIdle(m, es, device);
        WithinLimitAlways(m, es, device);
      }
    } else {
      var g :| 0 <= g < |l.sems| && l.sems[g].device == device && (Held(l.sems[g]) > 0 || l.sems[g].waiting > 0);
      assert m.sems[g] == l.sems[g] && g != Current(m, device) && Limit(m, Some(device)) == limit && Room(m, device) == limit;
      hide Conserved, Next, Enabled, Step, Stale, Idle, Room, Current;
      var es := Overshoot(m, g);
    }
  }

  /** From a dropped generation still held or awaited, the machine can be driven past its limit. */
  lemma Overshoot(m: Ledger, g: nat) returns (es: seq<Event>)
    requires Conserved(m) && g < |m.sems| && g != Current(m, m.sems[g].device)
    requires Held(m.sems[g]) > 0 || m.sems[g].waiting > 0
    requires Room(m, m.sems[g].device) == Limit(m, Some(m.sems[g].device))
    ensures Run(m, es) && NoResize(es)
    ensures InFlight(After(m, es), Some(m.sems[g].device)) > Limit(After(m, es), Some(m.sems[g].device))
  {
    var device := m.sems[g].device;
    var first: seq<Event> := if Held(m.sems[g]) > 0 then [] else [Admit(g)];
    OneInFlight(m, g, first);
    hide Conserved, Next, Enabled, Step, Room, Current;
    var busy := After(m, first);
    var fill := Fill(device, Current(busy, device), Limit(m, Some(device)));
    FillRaises(busy, device, Limit(m, Some(device)));
    es := first + fill;
    RunConcat(m, first, fill);
    NoResizeKeepsLimit(m, es, device);
  }

  lemma OneInFlight(m: Ledger, g: nat, first: seq<Event>)
    requires Conserved(m) && g < |m.sems| && g != Current(m, m.sems[g].device)
    requires first == if Held(m.sems[g]) > 0 then [] else [Admit(g)]
    requires Held(m.sems[g]) > 0 || m.sems[g].waiting > 0
    ensures Run(m, first) && NoResize(first)
    ensures var d := m.sems[g].device; var b := After(m, first);
            InFlight(b, Some(d)) >= 1 && Room(b, d) == Room(m, d) && Limit(b, Some(d)) == Limit(m, Some(d))
  {
    var d := m.sems[g].device;
    HeldByUpdate(m.sems, g, m.sems[g], d);
    assert InFlight(m, Some(d)) == HeldBy(m.sems, d);
    if first != [] {
      assert first[1..] == [] && After(m, first) == Step(m, Admit(g));
    }
  }

  lemma {:induction false} RunConcat(l: Ledger, a: seq<Event>, b: seq<Event>)
    requires Conserved(l) && Run(l, a) && Run(After(l, a), b)
    ensures Run(l, a + b) && After(l, a + b) == After(After(l, a), b)
    decreases |a|
  {
    hide Conserved, Next, Enabled, Step;
    if a == [] {
      assert a + b == b;
    } else {
      RunConcat(Step(l, a[0]), a[1..], b);
      assert (a + b)[1..] == a[1..] + b;
    }
  }

  lemma StepKeepsLimit(l: Ledger, e: Event, device: Device)
    requires Conserved(l) && Enabled(l, e) && !e.Resize?
    ensures Limit(Step(l, e), Some(device)) == Limit(l, Some(device))
  {
  }

  lemma {:induction false} NoResizeKeepsLimit(l: Ledger, es: seq<Event>, device: Device)
    requires Conserved(l) && Run(l, es) && NoResize(es)
    ensures Limit(After(l, es), Some(device)) == Limit(l, Some(device))
    decreases |es|
  {
    hide Conserved, Next, Enabled, Step, Limit;
    if es != [] {
      StepKeepsLimit(l, es[0], device);
      NoResizeKeepsLimit(Step(l, es[0]), es[1..], device);
    }
  }

  lemma {:induction false} NoResizeResizesIdle(l: Ledger, es: seq<Event>, device: Device)
    requires Conserved(l) && Run(l, es) && NoResize(es)
    ensures ResizesIdleOnly(l, es, device)
    decreases |es|
  {
    hide Conserved, Next, Enabled, Step, Idle;
    if es != [] {
      NoResizeResizesIdle(Step(l, es[0]), es[1..], device);
    }
  }

  lemma SlotWaits(l: Ledger, device: Option<Device>)
    requires Conserved(l)
    ensures Sane(l)
    ensures device.Some? ==>
              var m, w, g := Next(l, Ask(device.value)), WithSlot(l, device.value), Current(l, device.value);
              && device.value in w.slots && w.slots[device.value] == g < |w.sems|
              && g < |m.sems| && m.sems[g].device == device.value && m.sems[g].waiting > 0
  {
  }

  // -------------------------------------------------------------- the object

  /** The ledger as an object whose fields change in place. `hold` is entered in two moves, asking and being admitted,
      because a job may be suspended between them. */
  class DeviceCapacity {
    const fallback: nat
    var limits: map<Device, nat>
    var counts: map<Option<Device>, nat>
    var slots: map<Device, nat>
    var sems: seq<Semaphore>

    ghost function Model(): Ledger
      reads this
    {
      Ledger(fallback, limits, counts, slots, sems)
    }

    ghost predicate Valid()
      reads this
    {
      Conserved(Model())
    }

    constructor (fallback: nat)
      requires fallback >= 1
      ensures Valid() && Model() == Fresh(fallback)
    {
      this.fallback := fallback;
      limits, counts, slots, sems := map[], map[], map[], [];
    }

    /** A default below one is refused: it would be a machine on which no work ever runs. */
    static method Create(defaultLimit: int) returns (r: Result<DeviceCapacity, string>)
      ensures r.Ok? <==> defaultLimit >= 1
      ensures r.Ok? ==> fresh(r.value) && r.value.Valid() && r.value.Model() == Fresh(defaultLimit)
    {
      if defaultLimit < 1 {
        return Err("default_limit must be at least 1");
      }
      var ledger := new DeviceCapacity(defaultLimit);
      return Ok(ledger);
    }

    method SetLimit(device: Device, limit: int) returns (ok: bool)
      requires Valid()
      modifies this
      ensures Valid()
      ensures ok <==> limit >= 1
      ensures Model() == if ok then Next(old(Model()), Resize(device, limit)) else old(Model())
    {
      if limit < 1 {
        return false;
      }
      ghost var before := Model();
      ResizeConserves(before, device, limit);
      hide Conserved;
      var existing := device in slots;
      limits := limits[device := limit];
      slots := slots - {device};
      if existing && (Some(device) !in counts || counts[Some(device)] == 0) {
        slots := slots[device := |sems|];
        sems := sems + [Semaphore(device, limit, limit, 0)];
      }
      assert Model() == Next(before, Resize(device, limit));
      return true;
    }

    /** A machine's semaphore is made when the first job asks for it. */
    method MakeSlot(d: Device)
      modifies this`slots, this`sems
      ensures Model() == WithSlot(old(Model()), d)
    {
      if d !in slots {
        var n := if d in limits then limits[d] else fallback;
        slots := slots[d := |sems|];
        sems := sems + [Semaphore(d, n, n, 0)];
      }
    }

    /** The first move of `hold`: the cloud is counted and let through, a machine's job joins its current semaphore. */
    method AskFor(device: Option<Device>) returns (ticket: Option<nat>)
      requires Valid()
      modifies this
      ensures Valid()
      ensures Model() == Next(old(Model()), if device.Some? then Ask(device.value) else CloudIn)
      ensures ticket == if device.Some? then Some(Current(old(Model()), device.value)) else None
      ensures ticket.Some? ==> ticket.value < |sems| && sems[ticket.value].device == device.value && sems[ticket.value].waiting > 0
    {
      ghost var before := Model();
      ghost var event := if device.Some? then Ask(device.value) else CloudIn;
      NextConserves(before, event);
      SlotWaits(before, device);
      hide Conserved, WithSlot, Current, Sane;
      if device.None? {
        counts := counts[None := (if None in counts then counts[None] else 0) + 1];
        return None;
      }
      var d := device.value;
      MakeSlot(d);
      var g := slots[d];
      sems := sems[g := sems[g].(waiting := sems[g].waiting + 1)];
      assert Model() == Next(before, event);
      return Some(g);
    }

    /** The second move: a permit is free, so the job is admitted and counted. */
    method Enter(ticket: nat)
      requires Valid() && Enabled(Model(), Admit(ticket))
      modifies this
      ensures Valid() && Model() == Next(old(Model()), Admit(ticket))
    {
      AdmitConserves(Model(), ticket);
      hide Conserved;
      var s := sems[ticket];
      sems := sems[ticket := s.(waiting := s.waiting - 1, free := s.free - 1)];
      counts := counts[Some(s.device) := (if Some(s.device) in counts then counts[Some(s.device)] else 0) + 1];
    }

    /** Leaving the block, whichever way the work ended. */
    method Leave(ticket: Option<nat>)
      requires Valid() && Enabled(Model(), if ticket.Some? then Release(ticket.value) else CloudOut)
      modifies this
      ensures Valid() && Model() == Next(old(Model()), if ticket.Some? then Release(ticket.value) else CloudOut)
    {
      NextConserves(Model(), if ticket.Some? then Release(ticket.value) else CloudOut);
      if ticket.None? {
        counts := counts[None := counts[None] - 1];
        return;
      }
      var s := sems[ticket.value];
      counts := counts[Some(s.device) := counts[Some(s.device)] - 1];
      sems := sems[ticket.value := s.(free := s.free + 1)];
    }
  }

  lemma AskLeavesRest(l: Ledger, device: Device)
    requires Conserved(l)
    ensures var m, g := Next(l, Ask(device)), Current(l, device);
            && g < |m.sems| && m.sems[g].device == device && m.counts == l.counts
            && m.sems == WithSlot(l, device).sems[g := WithSlot(l, device).sems[g].(waiting := m.sems[g].waiting)]
            && m.sems[g].waiting == WithSlot(l, device).sems[g].waiting + 1
  {
  }

  lemma EnterAndLeave(l: Ledger, g: nat)
    requires Conserved(l) && Enabled(l, Admit(g))
    ensures Enabled(Step(l, Admit(g)), Release(g))
    ensures var out := Step(Step(l, Admit(g)), Release(g));
            && out.sems == l.sems[g := l.sems[g].(waiting := l.sems[g].waiting - 1)]
            && forall d :: InFlight(out, d) == InFlight(l, d)
  {
    HolderMayRelease(Step(l, Admit(g)), g);
    hide Conserved;
  }

  /** A job that asks, is admitted and leaves puts every count and every permit back where they were. */
  lemma HoldRestores(l: Ledger, device: Device)
    requires Conserved(l) && Room(l, device) > 0
    ensures Enabled(Step(l, Ask(device)), Admit(Current(l, device)))
    ensures var inside := Step(Step(l, Ask(device)), Admit(Current(l, device)));
            && Enabled(inside, Release(Current(l, device)))
            && var out := Step(inside, Release(Current(l, device)));
               out.sems == WithSlot(l, device).sems && forall d :: InFlight(out, d) == InFlight(l, d)
  {
    AskAndAdmit(l, device);
    AskLeavesRest(l, device);
    EnterAndLeave(Step(l, Ask(device)), Current(l, device));
    hide Conserved, Enabled, Next, WithSlot, Current, Room;
    var asked, slotted, g := Step(l, Ask(device)), WithSlot(l, device).sems, Current(l, device);
    assert asked.sems[g := asked.sems[g].(waiting := asked.sems[g].waiting - 1)] == slotted;
  }
}
