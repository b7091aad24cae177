/** A whole task as it runs: stages overlapping in waves, behind the task's gate and the machines' slots. */
module Scheduler {
  import opened Common
  import opened Router
  import opened Distributed
  import C = Capacity
  import E = Executor

  /** Where a stage of the current wave is. `i` is the chain step it is on; no semaphore means a cloud step. */
  datatype Phase =
    | AtGate
    | AtStep(i: nat)
    | Waiting(i: nat, sem: nat)
    | Working(i: nat, held: Option<nat>)
    | Done

  /** `verdicts` says how the steps of `chain` walked so far ended. */
  datatype Task<V> = Task(job: Job, phase: Phase, chain: seq<Target>, verdicts: seq<E.Verdict<V>>)

  /** The plan as handed to the runner; `maxParallel` of zero means no gate. */
  datatype Plan = Plan(jobs: seq<Job>, sensitivity: Sensitivity, profile: Profile, maxParallel: nat)

  datatype Call = Call(job: Job, target: Target)

  /** `outs` holds the finished waves, `calls` every target ever handed to the work. */
  datatype State<V> = State(outs: Outcomes<V>, tasks: seq<Task<V>>, gate: nat, ledger: C.Ledger, calls: seq<Call>)

  /** What a step depends on beyond the state comes with it: the candidates considered, why a step is unusable, and how
      the work ended. The work may answer anything, or fail, at any target. */
  datatype Event<V> =
    | Start(k: nat, considered: seq<Candidate>, chain: seq<Target>)
    | Skip(k: nat, why: string)
    | AskSlot(k: nat)
    | Admit(k: nat)
    | Finish(k: nat, verdict: E.Verdict<V>)
    | NextWave
    | Resize(device: Device, limit: nat)

  function NewTasks<V>(wave: seq<Job>): seq<Task<V>> {
    seq(|wave|, i requires 0 <= i < |wave| => Task(wave[i], AtGate, [], []))
  }

  function Init<V>(plan: Plan, defaultLimit: nat): State<V> {
    var none: map<string, V> := map[];
    State(map[], NewTasks(Wave(plan.jobs, {}, none)), plan.maxParallel, C.Fresh(defaultLimit), [])
  }

  // -------------------------------------------------------------- the result of a walk

  /** The step whose answer counts: the accepted one, which is always the last, else the last insufficient one. */
  function AnswerAt<V>(verdicts: seq<E.Verdict<V>>): (at: Option<nat>)
    ensures at.Some? ==> at.value < |verdicts| && !verdicts[at.value].Passed?
    ensures at.Some? ==> forall k | at.value < k < |verdicts| :: verdicts[k].Passed?
    ensures at.None? ==> forall k | 0 <= k < |verdicts| :: verdicts[k].Passed?
  {
    if verdicts == [] then None
    else if !verdicts[|verdicts| - 1].Passed? then Some(|verdicts| - 1)
    else AnswerAt(verdicts[..|verdicts| - 1])
  }

  const NOWHERE := "no machine could run this"

  /** What a stage is recorded with: the answer and where it came from, or a failure when no step answered. */
  function StageOf<V>(chain: seq<Target>, verdicts: seq<E.Verdict<V>>): Stage<V> {
    var at := AnswerAt(verdicts);
    if at.None? || at.value >= |chain| then Failed(NOWHERE)
    else Ran(verdicts[at.value].value, chain[at.value].device, chain[at.value].model, |verdicts| > 1)
  }

  /** The walk is over: a step was accepted, or there are no more. */
  predicate WalkEnds<V>(chain: seq<Target>, verdicts: seq<E.Verdict<V>>) {
    && |verdicts| <= |chain| && (forall i | 0 <= i < |verdicts| - 1 :: !verdicts[i].Accepted?)
    && (|verdicts| == |chain| || (verdicts != [] && verdicts[|verdicts| - 1].Accepted?))
  }

  /** The recorded stage is the executor's outcome, whenever the steps ended as the executor's surroundings say. */
  lemma StageIsTheExecutors<V>(
      chain: seq<Target>, verdicts: seq<E.Verdict<V>>, env: E.Environment<V>, r: Result<E.Outcome<V>, seq<E.Attempt>>)
    requires WalkEnds(chain, verdicts) && chain != [] && E.WalkResult(chain, env, r)
    requires forall k: nat | k < |verdicts| :: E.Judge(chain[k], k, env) == verdicts[k]
    ensures r.Ok? ==>
              StageOf(chain, verdicts) ==
              Ran(r.value.value, r.value.target.device, r.value.target.model, r.value.Degraded())
    ensures r.Err? ==> StageOf(chain, verdicts) == Failed(NOWHERE)
  {
    var n := |verdicts|;
    var at := AnswerAt(verdicts);
    if verdicts[n - 1].Accepted? {
      assert E.FirstAccepted(chain, n - 1, env);
      E.FirstAcceptedDecides(chain, env, r, n - 1);
    } else if at.Some? {
      assert E.LastInsufficient(chain, at.value, env);
      E.LastInsufficientDecides(chain, env, r, at.value);
    } else {
      assert forall k: nat | k < |chain| :: E.Judge(chain[k], k, env).Passed?;
    }
  }

  /** The wave is recorded in order. */
  function Record<V>(outs: Outcomes<V>, tasks: seq<Task<V>>): Outcomes<V> {
    if tasks == [] then outs
    else
      var last := tasks[|tasks| - 1];
      Record(outs, tasks[..|tasks| - 1])[last.job.name := StageOf(last.chain, last.verdicts)]
  }

  // -------------------------------------------------------------- the steps

  ghost predicate AllDone<V>(tasks: seq<Task<V>>) {
    forall t | t in tasks :: t.phase.Done?
  }

  function Position(p: Phase): nat
    requires p.AtStep? || p.Waiting? || p.Working?
  {
    p.i
  }

  /** The step a task is on, when it is on one. */
  predicate OnStep<V>(t: Task<V>) {
    (t.phase.AtStep? || t.phase.Waiting? || t.phase.Working?) && Position(t.phase) < |t.chain|
  }

  function StepOf<V>(t: Task<V>): Target
    requires OnStep(t)
  {
    t.chain[Position(t.phase)]
  }

  function LedgerEvent<V>(s: State<V>, e: Event<V>): Option<C.Event>
    requires (e.AskSlot? || e.Admit? || e.Finish?) ==> e.k < |s.tasks| && OnStep(s.tasks[e.k])
    requires e.Admit? ==> s.tasks[e.k].phase.Waiting?
    requires e.Finish? ==> s.tasks[e.k].phase.Working?
  {
    match e
    case AskSlot(k) =>
      var device := StepOf(s.tasks[k]).device;
      Some(if device.Some? then C.Ask(device.value) else C.CloudIn)
    case Admit(k) => Some(C.Admit(s.tasks[k].phase.sem))
    case Finish(k, _) =>
      var held := s.tasks[k].phase.held;
      Some(if held.Some? then C.Release(held.value) else C.CloudOut)
    case Resize(d, n) => Some(C.Resize(d, n))
    case _ => None
  }

  /** What the router is told of Thursday's own work on a machine. */
  function Carrying(l: C.Ledger): Option<Device> -> nat {
    device => C.InFlight(l, device)
  }

  /** The chain is the router's: all the admissible candidates in the order of the score, or none when there are none. */
  ghost predicate Routed(chain: seq<Target>, considered: seq<Candidate>, r: Request, l: C.Ledger) {
    var allowed := Filter(considered, Admits(r));
    if allowed == [] then chain == [] else RanksExactly(chain, allowed, Scored(r, Carrying(l)))
  }

  ghost predicate Enabled<V>(plan: Plan, s: State<V>, e: Event<V>) {
    && C.Sane(s.ledger)
    && match e
       case Start(k, considered, chain) =>
         && k < |s.tasks| && s.tasks[k].phase.AtGate? && (plan.maxParallel > 0 ==> s.gate > 0)
         && Routed(chain, considered, RequestFor(s.tasks[k].job, plan.sensitivity, plan.profile), s.ledger)
       case Skip(k, _) => k < |s.tasks| && s.tasks[k].phase.AtStep? && OnStep(s.tasks[k])
       case AskSlot(k) => k < |s.tasks| && s.tasks[k].phase.AtStep? && OnStep(s.tasks[k])
       case Admit(k) =>
         && k < |s.tasks| && s.tasks[k].phase.Waiting? && OnStep(s.tasks[k])
         && C.Enabled(s.ledger, C.Admit(s.tasks[k].phase.sem))
       case Finish(k, _) =>
         && k < |s.tasks| && s.tasks[k].phase.Working? && OnStep(s.tasks[k])
         && C.Enabled(s.ledger, LedgerEvent(s, e).value)
       case NextWave => s.tasks != [] && AllDone(s.tasks)
       case Resize(d, n) => n >= 1
  }

  /** The step a task was on has ended with `v`: the walk is over, or the next step is due. */
  function Walked<V>(t: Task<V>, v: E.Verdict<V>): Task<V> {
    var verdicts := t.verdicts + [v];
    t.(verdicts := verdicts, phase := if v.Accepted? || |verdicts| >= |t.chain| then Done else AtStep(|verdicts|))
  }

  /** A task whose walk is over leaves the gate. */
  function Judged<V>(plan: Plan, s: State<V>, k: nat, v: E.Verdict<V>): State<V>
    requires k < |s.tasks|
  {
    var t := Walked(s.tasks[k], v);
    s.(tasks := s.tasks[k := t], gate := if plan.maxParallel > 0 && t.phase.Done? then s.gate + 1 else s.gate)
  }

  function OnLedger<V>(s: State<V>, e: C.Event): State<V>
    requires C.Sane(s.ledger) && C.Enabled(s.ledger, e)
  {
    s.(ledger := C.Next(s.ledger, e))
  }

  function Begin<V>(s: State<V>, k: nat, phase: Phase): State<V>
    requires k < |s.tasks|
  {
    s.(tasks := s.tasks[k := s.tasks[k].(phase := phase)])
  }

  function WithCall<V>(s: State<V>, k: nat): State<V>
    requires k < |s.tasks| && OnStep(s.tasks[k])
  {
    s.(calls := s.calls + [Call(s.tasks[k].job, StepOf(s.tasks[k]))])
  }

  /** A task is routed. Without a chain it is done at once. */
  function Started<V>(t: Task<V>, chain: seq<Target>): Task<V> {
    t.(chain := chain, verdicts := [], phase := if chain == [] then Done else AtStep(0))
  }

  ghost function Apply<V>(plan: Plan, s: State<V>, e: Event<V>): State<V>
    requires Enabled(plan, s, e)
  {
    match e
    case Start(k, _, chain) =>
      s.(tasks := s.tasks[k := Started(s.tasks[k], chain)],
         gate := if plan.maxParallel > 0 && chain != [] then s.gate - 1 else s.gate)
    case Skip(k, why) => Judged(plan, s, k, E.Passed(why))
    case AskSlot(k) =>
      var i := s.tasks[k].phase.i;
      var device := StepOf(s.tasks[k]).device;
      if device.Some? then
        Begin(OnLedger(s, C.Ask(device.value)), k, Waiting(i, C.Current(s.ledger, device.value)))
      else
        WithCall(Begin(OnLedger(s, C.CloudIn), k, Working(i, None)), k)
    case Admit(k) =>
      var t := s.tasks[k];
      WithCall(Begin(OnLedger(s, C.Admit(t.phase.sem)), k, Working(t.phase.i, Some(t.phase.sem))), k)
    case Finish(k, v) =>
      Judged(plan, Begin(OnLedger(s, LedgerEvent(s, e).value), k, AtStep(s.tasks[k].phase.i)), k, v)
    case NextWave =>
      var outs := Record(s.outs, s.tasks);
      s.(outs := outs, tasks := NewTasks(Wave(plan.jobs, outs.Keys, Produced(outs))))
    case Resize(d, n) => OnLedger(s, C.Resize(d, n))
  }

  // -------------------------------------------------------------- what every step keeps: slots and counts

  function WorksOn<V>(g: nat): Task<V> -> bool { (t: Task<V>) => t.phase.Working? && t.phase.held == Some(g) }

  function WaitsOn<V>(g: nat): Task<V> -> bool { (t: Task<V>) => t.phase.Waiting? && t.phase.sem == g }

  function WorksInCloud<V>(): Task<V> -> bool { (t: Task<V>) => t.phase.Working? && t.phase.held.None? }

  function Inside<V>(): Task<V> -> bool { (t: Task<V>) => !t.phase.AtGate? && !t.phase.Done? }

  function Bit<T>(p: T -> bool, x: T): nat { if p(x) then 1 else 0 }

  /** The semaphore a task waits on or holds, which belongs to the machine of the step it is on. */
  predicate Placed<V>(t: Task<V>, sems: seq<C.Semaphore>) {
    && (t.phase.AtStep? || t.phase.Waiting? || t.phase.Working? ==> OnStep(t))
    && (t.phase.Waiting? ==> t.phase.sem < |sems| && StepOf(t).device == Some(sems[t.phase.sem].device))
    && (t.phase.Working? && t.phase.held.Some? ==>
          t.phase.held.value < |sems| && StepOf(t).device == Some(sems[t.phase.held.value].device))
    && (t.phase.Working? && t.phase.held.None? ==> StepOf(t).device.None?)
  }

  ghost predicate Occupied<V>(tasks: seq<Task<V>>, sems: seq<C.Semaphore>) {
    && (forall g | 0 <= g < |sems| ::
          C.Held(sems[g]) == Count(tasks, WorksOn(g)) && sems[g].waiting == Count(tasks, WaitsOn(g)))
    && (forall t | t in tasks :: Placed(t, sems))
  }

  /** The held permits of each semaphore generation are the tasks working on it, its waiters the tasks waiting, the
      cloud's count the tasks in the cloud, and the gate's missing permits the tasks inside it. */
  ghost predicate SlotsKept<V>(plan: Plan, s: State<V>) {
    && C.Conserved(s.ledger)
    && Occupied(s.tasks, s.ledger.sems)
    && C.InFlight(s.ledger, None) == Count(s.tasks, WorksInCloud())
    && (plan.maxParallel > 0 ==> s.gate + Count(s.tasks, Inside()) == plan.maxParallel)
  }

  lemma OccupiedAfterMove<V>(tasks: seq<Task<V>>, k: nat, t: Task<V>, sems: seq<C.Semaphore>, sems': seq<C.Semaphore>)
    requires k < |tasks| && Occupied(tasks, sems) && |sems| <= |sems'|
    requires forall g | 0 <= g < |sems| :: sems'[g].device == sems[g].device
    requires forall g | 0 <= g < |sems'| ::
               && C.Held(sems'[g]) + Bit(WorksOn(g), tasks[k]) == (if g < |sems| then C.Held(sems[g]) else 0) + Bit(WorksOn(g), t)
               && sems'[g].waiting + Bit(WaitsOn(g), tasks[k]) == (if g < |sems| then sems[g].waiting else 0) + Bit(WaitsOn(g), t)
    requires Placed(t, sems')
    ensures Occupied(tasks[k := t], sems')
  {
    forall g | 0 <= g < |sems'|
      ensures C.Held(sems'[g]) == Count(tasks[k := t], WorksOn(g)) && sems'[g].waiting == Count(tasks[k := t], WaitsOn(g))
    {
      CountUpdate(tasks, k, t, WorksOn(g));
      CountUpdate(tasks, k, t, WaitsOn(g));
      if g >= |sems| {
        forall i | 0 <= i < |tasks| ensures !WorksOn(g)(tasks[i]) && !WaitsOn(g)(tasks[i]) {
          assert tasks[i] in tasks;
        }
        CountZero(tasks, WorksOn(g));
        CountZero(tasks, WaitsOn(g));
      }
    }
    forall other | other in tasks[k := t] ensures Placed(other, sems') {
      assert other == t || other in tasks;
    }
  }

  /** How replacing task `k` by `t` must show in the ledger and at the gate. */
  ghost predicate Balanced<V>(plan: Plan, s: State<V>, s': State<V>, k: nat, t: Task<V>)
    requires k < |s.tasks|
  {
    var was, sems, sems' := s.tasks[k], s.ledger.sems, s'.ledger.sems;
    && |sems| <= |sems'| && (forall g | 0 <= g < |sems| :: sems'[g].device == sems[g].device)
    && (forall g | 0 <= g < |sems'| ::
          && C.Held(sems'[g]) + Bit(WorksOn(g), was) == (if g < |sems| then C.Held(sems[g]) else 0) + Bit(WorksOn(g), t)
          && sems'[g].waiting + Bit(WaitsOn(g), was) == (if g < |sems| then sems[g].waiting else 0) + Bit(WaitsOn(g), t))
    && C.InFlight(s'.ledger, None) + Bit(WorksInCloud(), was) == C.InFlight(s.ledger, None) + Bit(WorksInCloud(), t)
    && (plan.maxParallel > 0 ==> s'.gate + Bit(Inside(), t) == s.gate + Bit(Inside(), was))
    && Placed(t, sems') && s'.tasks == s.tasks[k := t]
  }

  lemma BalancedKeepsSlots<V>(plan: Plan, s: State<V>, s': State<V>, k: nat, t: Task<V>)
    requires SlotsKept(plan, s) && C.Conserved(s'.ledger) && k < |s.tasks| && Balanced(plan, s, s', k, t)
    ensures SlotsKept(plan, s')
  {
    OccupiedAfterMove(s.tasks, k, t, s.ledger.sems, s'.ledger.sems);
    CountUpdate(s.tasks, k, t, WorksInCloud());
    CountUpdate(s.tasks, k, t, Inside());
  }

  lemma StartKeepsSlots<V>(plan: Plan, s: State<V>, e: Event<V>)
    requires SlotsKept(plan, s) && e.Start? && Enabled(plan, s, e)
    ensures SlotsKept(plan, Apply(plan, s, e))
  {
    var s' := Apply(plan, s, e);
    StartBalances(plan, s, s', e.k);
    hide Balanced, Routed, C.Conserved;
    BalancedKeepsSlots(plan, s, s', e.k, s'.tasks[e.k]);
  }

  /** A task that leaves the gate, or ends at it, touches no slot. */
  lemma StartBalances<V>(plan: Plan, s: State<V>, s': State<V>, k: nat)
    requires k < |s.tasks| == |s'.tasks| && s.tasks[k].phase.AtGate?
    requires s'.ledger == s.ledger && s'.tasks == s.tasks[k := s'.tasks[k]]
    requires s'.tasks[k].phase == (if s'.tasks[k].chain != [] && s'.tasks[k].phase.AtStep? then AtStep(0) else Done)
    requires plan.maxParallel > 0 ==> s'.gate + (if s'.tasks[k].phase.Done? then 0 else 1) == s.gate
    ensures Balanced(plan, s, s', k, s'.tasks[k])
  {
    hide C.Held;
  }

  lemma JudgedKeepsSlots<V>(plan: Plan, s: State<V>, k: nat, v: E.Verdict<V>)
    requires SlotsKept(plan, s) && k < |s.tasks| && s.tasks[k].phase.AtStep?
    ensures SlotsKept(plan, Judged(plan, s, k, v))
  {
    var moved := Judged(plan, s, k, v);
    MoveBalances(plan, s, moved, k);
    hide Balanced, C.Conserved;
    BalancedKeepsSlots(plan, s, moved, k, moved.tasks[k]);
  }

  /** A task between two steps, or at its end, holds no slot. */
  lemma MoveBalances<V>(plan: Plan, s: State<V>, s': State<V>, k: nat)
    requires k < |s.tasks| == |s'.tasks| && s.tasks[k].phase.AtStep?
    requires s'.ledger == s.ledger && s'.tasks == s.tasks[k := s'.tasks[k]]
    requires s'.tasks[k].phase.Done? || (s'.tasks[k].phase.AtStep? && OnStep(s'.tasks[k]))
    requires plan.maxParallel > 0 ==> s'.gate == s.gate + if s'.tasks[k].phase.Done? then 1 else 0
    ensures Balanced(plan, s, s', k, s'.tasks[k])
  {
    hide C.Held;
  }

  lemma AskBalances<V>(plan: Plan, s: State<V>, s': State<V>, k: nat, device: Device, g: nat)
    requires k < |s.tasks| && OnStep(s.tasks[k]) && s.tasks[k].phase.AtStep? && StepOf(s.tasks[k]).device == Some(device)
    requires C.Asked(s.ledger, s'.ledger, device, g)
    requires s' == Begin(s, k, Waiting(s.tasks[k].phase.i, g)).(ledger := s'.ledger)
    ensures Balanced(plan, s, s', k, s'.tasks[k])
  {
    hide C.Held;
  }

  lemma AskKeepsSlots<V>(plan: Plan, s: State<V>, e: Event<V>)
    requires SlotsKept(plan, s) && e.AskSlot? && Enabled(plan, s, e)
    ensures SlotsKept(plan, Apply(plan, s, e))
  {
    var s' := Apply(plan, s, e);
    C.NextConserves(s.ledger, LedgerEvent(s, e).value);
    var device := StepOf(s.tasks[e.k]).device;
    if device.Some? {
      C.AskEffect(s.ledger, device.value);
      AskBalances(plan, s, s', e.k, device.value, C.Current(s.ledger, device.value));
    } else {
      CloudBalances(plan, s, s', e.k);
    }
    BalancedKeepsSlots(plan, s, s', e.k, s'.tasks[e.k]);
  }

  lemma CloudBalances<V>(plan: Plan, s: State<V>, s': State<V>, k: nat)
    requires k < |s.tasks| && OnStep(s.tasks[k]) && s.tasks[k].phase.AtStep? && StepOf(s.tasks[k]).device.None?
    requires s'.ledger == C.Bump(s.ledger, None)
    requires s'.tasks == Begin(s, k, Working(s.tasks[k].phase.i, None)).tasks && s'.gate == s.gate
    ensures Balanced(plan, s, s', k, s'.tasks[k])
  {
  }

  lemma AdmitKeepsSlots<V>(plan: Plan, s: State<V>, e: Event<V>)
    requires SlotsKept(plan, s) && e.Admit? && Enabled(plan, s, e)
    ensures SlotsKept(plan, Apply(plan, s, e))
  {
    var s' := Apply(plan, s, e);
    var g := s.tasks[e.k].phase.sem;
    assert Placed(s.tasks[e.k], s.ledger.sems) by { assert s.tasks[e.k] in s.tasks; }
    C.AdmitEffect(s.ledger, g);
    assert s'.ledger == C.Step(s.ledger, C.Admit(g));
    hide C.Next, C.Step, C.Conserved, C.Held, Count, Occupied;
    AdmitBalances(plan, s, s', e.k, g);
    hide Balanced;
    BalancedKeepsSlots(plan, s, s', e.k, s'.tasks[e.k]);
  }

  lemma AdmitBalances<V>(plan: Plan, s: State<V>, s': State<V>, k: nat, g: nat)
    requires k < |s.tasks| == |s'.tasks| && OnStep(s.tasks[k]) && s.tasks[k].phase == Waiting(s.tasks[k].phase.i, g)
    requires Placed(s.tasks[k], s.ledger.sems)
    requires var was, now := s.ledger.sems, s'.ledger.sems;
             && g < |was| == |now| && now[g].device == was[g].device
             && now[g].waiting + 1 == was[g].waiting && C.Held(now[g]) == C.Held(was[g]) + 1
             && (forall i | 0 <= i < |was| && i != g :: now[i] == was[i])
    requires C.InFlight(s'.ledger, None) == C.InFlight(s.ledger, None)
    requires s'.tasks == Begin(s, k, Working(s.tasks[k].phase.i, Some(g))).tasks && s'.gate == s.gate
    ensures Balanced(plan, s, s', k, s'.tasks[k])
  {
    hide C.Held, C.InFlight;
  }

  lemma ReleaseKeepsSlots<V>(plan: Plan, s: State<V>, e: Event<V>, m: State<V>)
    requires SlotsKept(plan, s) && e.Finish? && Enabled(plan, s, e)
    requires m == Begin(OnLedger(s, LedgerEvent(s, e).value), e.k, AtStep(s.tasks[e.k].phase.i))
    ensures SlotsKept(plan, m) && e.k < |m.tasks| && m.tasks[e.k].phase.AtStep?
  {
    var k := e.k;
    C.NextConserves(s.ledger, LedgerEvent(s, e).value);
    assert Placed(s.tasks[k], s.ledger.sems) by { assert s.tasks[k] in s.tasks; }
    if s.tasks[k].phase.held.Some? {
      var g := s.tasks[k].phase.held.value;
      C.ReleaseEffect(s.ledger, g);
      assert m.ledger == C.Step(s.ledger, C.Release(g));
      hide C.Next, C.Step, C.Conserved, C.Held, Count, Occupied;
      ReleaseBalances(plan, s, m, k, g);
      hide Balanced;
      BalancedKeepsSlots(plan, s, m, k, m.tasks[k]);
    } else {
      CloudReleaseBalances(plan, s, m, k);
      hide Balanced, C.Next, C.Conserved, C.Held, Count, Occupied;
      BalancedKeepsSlots(plan, s, m, k, m.tasks[k]);
    }
  }

  lemma ReleaseBalances<V>(plan: Plan, s: State<V>, m: State<V>, k: nat, g: nat)
    requires k < |s.tasks| == |m.tasks| && OnStep(s.tasks[k]) && s.tasks[k].phase == Working(s.tasks[k].phase.i, Some(g))
    requires var was, now := s.ledger.sems, m.ledger.sems;
             && g < |was| == |now| && now[g].device == was[g].device
             && now[g].waiting == was[g].waiting && C.Held(now[g]) + 1 == C.Held(was[g])
             && (forall i | 0 <= i < |was| && i != g :: now[i] == was[i])
    requires C.InFlight(m.ledger, None) == C.InFlight(s.ledger, None)
    requires m.tasks == Begin(s, k, AtStep(s.tasks[k].phase.i)).tasks && m.gate == s.gate
    ensures Balanced(plan, s, m, k, m.tasks[k])
  {
    hide C.Held, C.InFlight;
  }

  lemma CloudReleaseBalances<V>(plan: Plan, s: State<V>, m: State<V>, k: nat)
    requires k < |s.tasks| == |m.tasks| && OnStep(s.tasks[k]) && s.tasks[k].phase == Working(s.tasks[k].phase.i, None)
    requires C.InFlight(s.ledger, None) > 0 && m.ledger == C.Drop(s.ledger, None)
    requires m.tasks == Begin(s, k, AtStep(s.tasks[k].phase.i)).tasks && m.gate == s.gate
    ensures Balanced(plan, s, m, k, m.tasks[k])
  {
    hide C.Held;
  }

  lemma QuietCounts<V>(tasks: seq<Task<V>>, g: nat)
    requires forall t | t in tasks :: t.phase.AtGate? || t.phase.Done?
    ensures Count(tasks, WorksOn(g)) == 0 && Count(tasks, WaitsOn(g)) == 0
    ensures Count(tasks, WorksInCloud()) == 0 && Count(tasks, Inside()) == 0
  {
    forall i | 0 <= i < |tasks|
      ensures !WorksOn(g)(tasks[i]) && !WaitsOn(g)(tasks[i]) && !WorksInCloud()(tasks[i]) && !Inside()(tasks[i])
    {
      assert tasks[i] in tasks;
    }
    CountZero(tasks, WorksOn(g));
    CountZero(tasks, WaitsOn(g));
    CountZero(tasks, WorksInCloud<V>());
    CountZero(tasks, Inside<V>());
  }

  /** Between waves nothing is held, awaited or counted anywhere, and the gate is full. */
  lemma QuietMeansReleased<V>(plan: Plan, s: State<V>)
    requires SlotsKept(plan, s) && forall t | t in s.tasks :: t.phase.AtGate? || t.phase.Done?
    ensures forall device: Device :: C.Idle(s.ledger, device) && C.InFlight(s.ledger, Some(device)) == 0
    ensures C.InFlight(s.ledger, None) == 0 && (plan.maxParallel > 0 ==> s.gate == plan.maxParallel)
  {
    QuietCounts(s.tasks, 0);
    forall g | 0 <= g < |s.ledger.sems| ensures C.Held(s.ledger.sems[g]) == 0 && s.ledger.sems[g].waiting == 0 {
      QuietCounts(s.tasks, g);
    }
    forall device: Device ensures C.InFlight(s.ledger, Some(device)) == 0 {
      C.HeldOnlyAt(s.ledger.sems, device, |s.ledger.sems|);
    }
  }

  lemma QuietTasksKeepSlots<V>(plan: Plan, s: State<V>, s': State<V>)
    requires SlotsKept(plan, s) && AllDone(s.tasks)
    requires s'.ledger == s.ledger && s'.gate == s.gate && forall t | t in s'.tasks :: t.phase.AtGate?
    ensures SlotsKept(plan, s')
  {
    QuietMeansReleased(plan, s);
    QuietCounts(s.tasks, 0);
    QuietCounts(s'.tasks, 0);
    forall g | 0 <= g < |s.ledger.sems|
      ensures C.Held(s.ledger.sems[g]) == Count(s'.tasks, WorksOn(g)) && s.ledger.sems[g].waiting == Count(s'.tasks, WaitsOn(g))
    {
      QuietCounts(s.tasks, g);
      QuietCounts(s'.tasks, g);
    }
  }

  lemma ResizeKeepsSlots<V>(plan: Plan, s: State<V>, e: Event<V>)
    requires SlotsKept(plan, s) && e.Resize? && Enabled(plan, s, e)
    ensures SlotsKept(plan, Apply(plan, s, e))
  {
    var sems, sems' := s.ledger.sems, Apply(plan, s, e).ledger.sems;
    C.NextConserves(s.ledger, C.Resize(e.device, e.limit));
    assert sems <= sems';
    forall g | 0 <= g < |sems'|
      ensures C.Held(sems'[g]) == Count(s.tasks, WorksOn(g)) && sems'[g].waiting == Count(s.tasks, WaitsOn(g))
    {
      if g >= |sems| {
        forall i | 0 <= i < |s.tasks| ensures !WorksOn(g)(s.tasks[i]) && !WaitsOn(g)(s.tasks[i]) {
          assert s.tasks[i] in s.tasks;
        }
        CountZero(s.tasks, WorksOn(g));
        CountZero(s.tasks, WaitsOn(g));
      }
    }
    hide C.Conserved, Count;
  }

  lemma FinishKeepsSlots<V>(plan: Plan, s: State<V>, e: Event<V>)
    requires SlotsKept(plan, s) && e.Finish? && Enabled(plan, s, e)
    ensures SlotsKept(plan, Apply(plan, s, e))
  {
    hide SlotsKept, C.Next, C.Enabled;
    var m := Begin(OnLedger(s, LedgerEvent(s, e).value), e.k, AtStep(s.tasks[e.k].phase.i));
    ReleaseKeepsSlots(plan, s, e, m);
    JudgedKeepsSlots(plan, m, e.k, e.verdict);
  }

  lemma NextWaveKeepsSlots<V>(plan: Plan, s: State<V>)
    requires SlotsKept(plan, s) && Enabled(plan, s, NextWave)
    ensures SlotsKept(plan, Apply(plan, s, NextWave))
  {
    QuietTasksKeepSlots(plan, s, Apply(plan, s, NextWave));
  }

  /** Every step of the machine, in any interleaving, keeps slots, counts and gate in balance. */
  lemma StepKeepsSlots<V>(plan: Plan, s: State<V>, e: Event<V>)
    requires SlotsKept(plan, s) && Enabled(plan, s, e)
    ensures SlotsKept(plan, Apply(plan, s, e))
  {
    hide SlotsKept, C.Next, C.Enabled;
    match e
    case Start(_, _, _) => StartKeepsSlots(plan, s, e);
    case Skip(k, why) => JudgedKeepsSlots(plan, s, k, E.Passed(why));
    case AskSlot(_) => AskKeepsSlots(plan, s, e);
    case Admit(_) => AdmitKeepsSlots(plan, s, e);
    case Finish(_, _) => FinishKeepsSlots(plan, s, e);
    case NextWave => NextWaveKeepsSlots(plan, s);
    case Resize(_, _) => ResizeKeepsSlots(plan, s, e);
  }

  // -------------------------------------------------------------- deadlock freedom

  /** What the machine meets at each task: the candidates the router finds, which steps have become unusable, and how the
      work ends. */
  datatype Surroundings<!V> = Surroundings(
    candidates: nat -> seq<Candidate>, unusable: nat -> Option<string>, verdict: nat -> E.Verdict<V>)

  /** The step happens in these surroundings, and is no resize. */
  ghost predicate Obeys<V>(e: Event<V>, w: Surroundings<V>) {
    match e
    case Start(k, considered, _) => considered == w.candidates(k)
    case Skip(k, why) => w.unusable(k) == Some(why)
    case AskSlot(k) => w.unusable(k).None?
    case Finish(k, v) => v == w.verdict(k)
    case Resize(_, _) => false
    case _ => true
  }

  /** A task that is working waits for nothing: it can always finish, whatever the verdict on its result. */
  lemma WorkingCanFinish<V>(plan: Plan, s: State<V>, k: nat, v: E.Verdict<V>)
    requires SlotsKept(plan, s) && k < |s.tasks| && s.tasks[k].phase.Working?
    ensures Enabled(plan, s, Finish(k, v))
  {
    var t := s.tasks[k];
    assert Placed(t, s.ledger.sems) by { assert t in s.tasks; }
    if t.phase.held.Some? {
      CountPositive(s.tasks, k, WorksOn(t.phase.held.value));
      C.HolderMayRelease(s.ledger, t.phase.held.value);
    } else {
      CountPositive(s.tasks, k, WorksInCloud<V>());
    }
  }

  /** A task waiting on a semaphore nobody holds can be admitted. */
  lemma WaitingCanBeAdmitted<V>(plan: Plan, s: State<V>, k: nat)
    requires SlotsKept(plan, s) && k < |s.tasks| && s.tasks[k].phase.Waiting?
    requires forall t | t in s.tasks :: !t.phase.Working?
    ensures Enabled(plan, s, Admit(k))
  {
    var t := s.tasks[k];
    assert Placed(t, s.ledger.sems) by { assert t in s.tasks; }
    CountPositive(s.tasks, k, WaitsOn(t.phase.sem));
    CountZero(s.tasks, WorksOn(t.phase.sem));
  }

  /** Whatever the router finds, it gives a chain. */
  lemma SomeChain(considered: seq<Candidate>, r: Request, l: C.Ledger) returns (chain: seq<Target>)
    ensures Routed(chain, considered, r, l)
  {
    var allowed := Filter(considered, Admits(r));
    chain := if allowed == [] then [] else RankedSteps(allowed, Scored(r, Carrying(l)));
    if allowed != [] {
      RankedStepsRank(allowed, Scored(r, Carrying(l)));
    }
  }

  /** In every state that keeps its slots and still has stages, some step is possible, whatever the surroundings. */
  lemma NeverStuck<V>(plan: Plan, s: State<V>, w: Surroundings<V>) returns (e: Event<V>)
    requires SlotsKept(plan, s) && s.tasks != []
    ensures Enabled(plan, s, e) && Obeys(e, w)
  {
    if k :| 0 <= k < |s.tasks| && s.tasks[k].phase.Working? {
      WorkingCanFinish(plan, s, k, w.verdict(k));
      e := Finish(k, w.verdict(k));
    } else if k :| 0 <= k < |s.tasks| && s.tasks[k].phase.Waiting? {
      WaitingCanBeAdmitted(plan, s, k);
      e := Admit(k);
    } else if k :| 0 <= k < |s.tasks| && s.tasks[k].phase.AtStep? {
      assert Placed(s.tasks[k], s.ledger.sems) by { assert s.tasks[k] in s.tasks; }
      e := if w.unusable(k).Some? then Skip(k, w.unusable(k).value) else AskSlot(k);
    } else if k :| 0 <= k < |s.tasks| && s.tasks[k].phase.AtGate? {
      QuietMeansReleased(plan, s);
      var chain := SomeChain(
        w.candidates(k), RequestFor(s.tasks[k].job, plan.sensitivity, plan.profile), s.ledger);
      e := Start(k, w.candidates(k), chain);
    } else {
      e := NextWave;
    }
  }

  // -------------------------------------------------------------- what every step keeps: walks and calls

  /** How far a task has walked its chain. */
  predicate WalkSoFar<V>(t: Task<V>) {
    if t.phase.AtGate? then t.chain == [] && t.verdicts == []
    else if t.phase.Done? then WalkEnds(t.chain, t.verdicts)
    else
      && OnStep(t) && |t.verdicts| == Position(t.phase)
      && forall i | 0 <= i < |t.verdicts| :: !t.verdicts[i].Accepted?
  }

  /** Every answer a task has came from a target its stage was handed to, and so will the one being worked on. */
  ghost predicate AnswersCalled<V>(t: Task<V>, calls: seq<Call>) {
    && (forall i | 0 <= i < |t.verdicts| && i < |t.chain| && !t.verdicts[i].Passed? :: Call(t.job, t.chain[i]) in calls)
    && (t.phase.Working? && OnStep(t) ==> Call(t.job, StepOf(t)) in calls)
  }

  /** The recorded answer of stage `n` came from this call. */
  predicate ServedBy<V>(n: string, stage: Stage<V>, c: Call) {
    stage.Ran? ==> c.job.name == n && c.target.device == stage.device && c.target.model == stage.model
  }

  /** Every recorded answer came from a call made for its stage. */
  ghost predicate OutcomesCalled<V>(outs: Outcomes<V>, calls: seq<Call>) {
    forall n | n in outs && outs[n].Ran? :: exists c | c in calls :: ServedBy(n, outs[n], c)
  }

  ghost predicate WalksKept<V>(s: State<V>) {
    && (forall i | 0 <= i < |s.tasks| :: WalkSoFar(s.tasks[i]) && AnswersCalled(s.tasks[i], s.calls))
    && OutcomesCalled(s.outs, s.calls)
  }

  lemma WalkedSoFar<V>(t: Task<V>, v: E.Verdict<V>, calls: seq<Call>)
    requires t.phase.AtStep? && WalkSoFar(t) && AnswersCalled(t, calls)
    requires !v.Passed? ==> Call(t.job, StepOf(t)) in calls
    ensures WalkSoFar(Walked(t, v)) && AnswersCalled(Walked(t, v), calls)
  {
  }

  lemma CallsGrow<V>(t: Task<V>, calls: seq<Call>, more: seq<Call>)
    requires AnswersCalled(t, calls) && calls <= more
    ensures AnswersCalled(t, more)
  {
  }

  /** The step hands the target of task `t` to the work. */
  predicate CallsNow<V>(t: Task<V>, e: Event<V>) {
    OnStep(t) && (e.Admit? || (e.AskSlot? && StepOf(t).device.None?))
  }

  /** What a step makes of the task it is about. */
  ghost predicate TaskMoves<V>(t: Task<V>, e: Event<V>, t': Task<V>) {
    if e.Start? then t.phase.AtGate? && t' == Started(t, e.chain)
    else if e.Skip? then t.phase.AtStep? && OnStep(t) && t' == Walked(t, E.Passed(e.why))
    else if e.Finish? then t.phase.Working? && OnStep(t) && t' == Walked(t.(phase := AtStep(t.phase.i)), e.verdict)
    else
      && OnStep(t) && !t.phase.Working? && (t.phase.Waiting? <==> e.Admit?)
      && t' == t.(phase := t'.phase) && OnStep(t') && Position(t'.phase) == Position(t.phase)
      && !t'.phase.AtStep? && (t'.phase.Working? <==> CallsNow(t, e))
  }

  lemma TaskStep<V>(plan: Plan, s: State<V>, e: Event<V>)
    requires Enabled(plan, s, e) && !e.NextWave? && !e.Resize?
    ensures var s', t, j := Apply(plan, s, e), s.tasks[e.k], e.k;
            && s'.outs == s.outs && s'.tasks == s.tasks[j := s'.tasks[j]] && TaskMoves(t, e, s'.tasks[j])
            && s'.calls == if CallsNow(t, e) then s.calls + [Call(t.job, StepOf(t))] else s.calls
  {
    hide C.Next, C.Enabled, C.Current, Routed, Walked;
  }

  lemma MovesKeepWalk<V>(t: Task<V>, e: Event<V>, t': Task<V>, calls: seq<Call>, more: seq<Call>)
    requires TaskMoves(t, e, t') && WalkSoFar(t) && AnswersCalled(t, calls)
    requires more == if CallsNow(t, e) then calls + [Call(t.job, StepOf(t))] else calls
    ensures WalkSoFar(t') && AnswersCalled(t', more)
  {
    if e.Skip? {
      WalkedSoFar(t, E.Passed(e.why), calls);
    } else if e.Finish? {
      WalkedSoFar(t.(phase := AtStep(t.phase.i)), e.verdict, calls);
    }
  }

  lemma TaskStepKeepsWalks<V>(plan: Plan, s: State<V>, e: Event<V>)
    requires WalksKept(s) && Enabled(plan, s, e) && !e.NextWave? && !e.Resize?
    ensures WalksKept(Apply(plan, s, e))
  {
    TaskStep(plan, s, e);
    hide Apply, Enabled, WalkSoFar, AnswersCalled, TaskMoves, CallsNow;
    var s' := Apply(plan, s, e);
    MovesKeepWalk(s.tasks[e.k], e, s'.tasks[e.k], s.calls, s'.calls);
    forall i | 0 <= i < |s'.tasks| ensures WalkSoFar(s'.tasks[i]) && AnswersCalled(s'.tasks[i], s'.calls) {
      if i != e.k {
        CallsGrow(s.tasks[i], s.calls, s'.calls);
      }
    }
    forall n | n in s'.outs && s'.outs[n].Ran? ensures exists c | c in s'.calls :: ServedBy(n, s'.outs[n], c) {
      var c :| c in s.calls && ServedBy(n, s.outs[n], c);
      assert c in s'.calls;
    }
  }

  lemma {:induction false} RecordKeepsCalls<V>(outs: Outcomes<V>, tasks: seq<Task<V>>, calls: seq<Call>)
    requires OutcomesCalled(outs, calls)
    requires forall i | 0 <= i < |tasks| :: AnswersCalled(tasks[i], calls)
    ensures OutcomesCalled(Record(outs, tasks), calls)
  {
    if tasks != [] {
      var last := tasks[|tasks| - 1];
      RecordKeepsCalls(outs, tasks[..|tasks| - 1], calls);
      AnswerIsCalled(last, calls);
    }
  }

  lemma AnswerIsCalled<V>(t: Task<V>, calls: seq<Call>)
    requires AnswersCalled(t, calls)
    ensures StageOf(t.chain, t.verdicts).Ran? ==>
              exists c | c in calls :: ServedBy(t.job.name, StageOf(t.chain, t.verdicts), c)
  {
    var stage := StageOf(t.chain, t.verdicts);
    if stage.Ran? {
      var at := AnswerAt(t.verdicts).value;
      assert ServedBy(t.job.name, stage, Call(t.job, t.chain[at]));
    }
  }

  lemma StepKeepsWalks<V>(plan: Plan, s: State<V>, e: Event<V>)
    requires WalksKept(s) && Enabled(plan, s, e)
    ensures WalksKept(Apply(plan, s, e))
  {
    if e.NextWave? {
      RecordKeepsCalls(s.outs, s.tasks, s.calls);
      hide OutcomesCalled, Record, Wave;
    } else if !e.Resize? {
      TaskStepKeepsWalks(plan, s, e);
    }
  }

  // -------------------------------------------------------------- what every step keeps: waves and outcomes

  /** The tasks are the stages of one wave. */
  ghost predicate InWave<V>(plan: Plan, outs: Outcomes<V>, tasks: seq<Task<V>>) {
    var wave := Wave(plan.jobs, outs.Keys, Produced(outs));
    |tasks| == |wave| && forall k | 0 <= k < |tasks| :: tasks[k].job == wave[k]
  }

  /** The outcomes were recorded one after the other, each stage after all it needs. */
  ghost predicate OutcomesKept<V>(plan: Plan, s: State<V>) {
    DistinctNames(plan.jobs) && (exists order :: Grown(plan.jobs, order, s.outs)) && InWave(plan, s.outs, s.tasks)
  }

  lemma TaskStepKeepsOutcomes<V>(plan: Plan, s: State<V>, e: Event<V>)
    requires OutcomesKept(plan, s) && Enabled(plan, s, e) && !e.NextWave?
    ensures OutcomesKept(plan, Apply(plan, s, e)) && Apply(plan, s, e).outs == s.outs
  {
    if !e.Resize? {
      TaskStep(plan, s, e);
    }
    hide Grown, Wave;
  }

  lemma {:induction false} RecordAddsWave<V>(outs: Outcomes<V>, tasks: seq<Task<V>>, wave: seq<Job>, n: nat)
    requires n <= |tasks| == |wave| && DistinctNames(wave) && forall k | 0 <= k < |tasks| :: tasks[k].job == wave[k]
    requires forall job | job in wave :: job.name !in outs
    ensures var now := Record(outs, tasks[..n]);
            && now.Keys == outs.Keys + Names(wave[..n]) && Extends(outs, now)
            && forall k | 0 <= k < n :: now[wave[k].name] == StageOf(tasks[k].chain, tasks[k].verdicts)
    decreases n
  {
    if n > 0 {
      RecordAddsWave(outs, tasks, wave, n - 1);
      NextNameIsNew(wave, n - 1);
      assert tasks[..n][..n - 1] == tasks[..n - 1];
      assert wave[n - 1] in wave;
      KeysRecord(
        outs, Record(outs, tasks[..n - 1]), Names(wave[..n - 1]), wave[n - 1].name,
        StageOf(tasks[n - 1].chain, tasks[n - 1].verdicts));
    }
  }

  lemma RecordIsWave<V>(outs: Outcomes<V>, tasks: seq<Task<V>>, wave: seq<Job>)
    requires |tasks| == |wave| && DistinctNames(wave) && forall k | 0 <= k < |tasks| :: tasks[k].job == wave[k]
    requires forall job | job in wave :: job.name !in outs
    ensures var now := Record(outs, tasks);
            && now.Keys == outs.Keys + Names(wave) && Extends(outs, now)
            && forall k | 0 <= k < |wave| :: now[wave[k].name] == StageOf(tasks[k].chain, tasks[k].verdicts)
  {
    RecordAddsWave(outs, tasks, wave, |wave|);
    hide *;
    assert tasks[..|wave|] == tasks && wave[..|wave|] == wave;
  }

  lemma WaveIsRecorded<V>(plan: Plan, s: State<V>)
    requires OutcomesKept(plan, s)
    ensures var wave, outs := Wave(plan.jobs, s.outs.Keys, Produced(s.outs)), Record(s.outs, s.tasks);
            && outs.Keys == s.outs.Keys + Names(wave) && Extends(s.outs, outs)
            && (exists order :: Grown(plan.jobs, order, outs))
            && forall k | 0 <= k < |wave| :: outs[wave[k].name] == StageOf(s.tasks[k].chain, s.tasks[k].verdicts)
  {
    var wave := Wave(plan.jobs, s.outs.Keys, Produced(s.outs));
    TasksAreWave(plan, s);
    hide *;
    var order := SomeOrder(plan, s);
    RecordIsWave(s.outs, s.tasks, wave);
    GrownByWave(plan.jobs, order, s.outs, wave, Record(s.outs, s.tasks));
  }

  lemma TasksAreWave<V>(plan: Plan, s: State<V>)
    requires OutcomesKept(plan, s)
    ensures var wave := Wave(plan.jobs, s.outs.Keys, Produced(s.outs));
            && DistinctNames(wave) && |s.tasks| == |wave| && (forall k | 0 <= k < |wave| :: s.tasks[k].job == wave[k])
            && forall job | job in wave :: Runnable(plan.jobs, s.outs, job) && job.name !in s.outs
  {
    hide Grown, Produced;
  }

  lemma SomeOrder<V>(plan: Plan, s: State<V>) returns (order: seq<Job>)
    requires OutcomesKept(plan, s)
    ensures Grown(plan.jobs, order, s.outs)
  {
    order :| Grown(plan.jobs, order, s.outs);
  }

  lemma NextWaveKeepsOutcomes<V>(plan: Plan, s: State<V>)
    requires OutcomesKept(plan, s) && Enabled(plan, s, NextWave)
    ensures OutcomesKept(plan, Apply(plan, s, NextWave))
    ensures Apply(plan, s, NextWave).outs.Keys == s.outs.Keys + Names(Wave(plan.jobs, s.outs.Keys, Produced(s.outs)))
  {
    hide *;
    AfterWave(plan, s);
    WaveIsRecorded(plan, s);
    var order :| Grown(plan.jobs, order, Record(s.outs, s.tasks));
    NewWaveKept(plan, Apply(plan, s, NextWave), order);
  }

  lemma AfterWave<V>(plan: Plan, s: State<V>)
    requires OutcomesKept(plan, s) && Enabled(plan, s, NextWave)
    ensures var s' := Apply(plan, s, NextWave);
            && s'.outs == Record(s.outs, s.tasks)
            && s'.tasks == NewTasks(Wave(plan.jobs, s'.outs.Keys, Produced(s'.outs)))
    ensures DistinctNames(plan.jobs)
  {
    hide Record, Wave, Produced, Grown;
  }

  lemma NewWaveKept<V>(plan: Plan, s: State<V>, order: seq<Job>)
    requires DistinctNames(plan.jobs) && Grown(plan.jobs, order, s.outs)
    requires s.tasks == NewTasks(Wave(plan.jobs, s.outs.Keys, Produced(s.outs)))
    ensures OutcomesKept(plan, s)
  {
    hide Wave, Produced, Grown, DistinctNames;
  }

  // -------------------------------------------------------------- what every step keeps: locality

  predicate KeptPrivate(plan: Plan, job: Job) {
    RequestFor(job, plan.sensitivity, plan.profile).sensitivity >= HIGHLY_PRIVATE
  }

  /** A private stage has only local steps ahead of it, and was only ever handed local targets. */
  ghost predicate PrivacyKept<V>(plan: Plan, s: State<V>) {
    && (forall t | t in s.tasks && KeptPrivate(plan, t.job) :: forall step | step in t.chain :: step.local)
    && (forall c | c in s.calls && KeptPrivate(plan, c.job) :: c.target.local)
  }

  lemma RoutedIsAdmissible(chain: seq<Target>, considered: seq<Candidate>, r: Request, l: C.Ledger)
    requires Routed(chain, considered, r, l)
    ensures Admissible(chain, considered, r)
  {
    if chain != [] {
      RankedChainIsAdmissible(chain, considered, r, Scored(r, Carrying(l)));
    }
  }

  lemma StartedChainIsLocal<V>(plan: Plan, s: State<V>, e: Event<V>)
    requires e.Start? && Enabled(plan, s, e) && KeptPrivate(plan, s.tasks[e.k].job)
    ensures forall step | step in e.chain :: step.local
  {
    var r := RequestFor(s.tasks[e.k].job, plan.sensitivity, plan.profile);
    RoutedIsAdmissible(e.chain, e.considered, r, s.ledger);
    PrivateChainsAreLocal(e.chain, e.considered, r);
  }

  lemma StepKeepsPrivacy<V>(plan: Plan, s: State<V>, e: Event<V>)
    requires PrivacyKept(plan, s) && Enabled(plan, s, e)
    ensures PrivacyKept(plan, Apply(plan, s, e))
  {
    var s' := Apply(plan, s, e);
    if !e.NextWave? && !e.Resize? {
      TaskStep(plan, s, e);
      if e.Start? && KeptPrivate(plan, s.tasks[e.k].job) {
        StartedChainIsLocal(plan, s, e);
      }
    }
    hide C.Next, C.Enabled, Wave, KeptPrivate, Routed, Enabled;
    forall t | t in s'.tasks && KeptPrivate(plan, t.job) ensures forall step | step in t.chain :: step.local {
      var k :| 0 <= k < |s'.tasks| && s'.tasks[k] == t;
      if !e.NextWave? { assert s.tasks[k] in s.tasks; }
    }
    forall c | c in s'.calls && KeptPrivate(plan, c.job) ensures c.target.local {
      if c !in s.calls {
        assert s.tasks[e.k] in s.tasks && c.target in s.tasks[e.k].chain;
      }
    }
  }

  // -------------------------------------------------------------- termination

  /** How much of its chain a routed task still has to go through. */
  function Ahead<V>(t: Task<V>): nat {
    if !OnStep(t) then 0
    else 3 * (|t.chain| - Position(t.phase)) - (if t.phase.Waiting? then 1 else if t.phase.Working? then 2 else 0)
  }

  function AheadOfAll<V>(tasks: seq<Task<V>>): nat {
    if tasks == [] then 0 else AheadOfAll(tasks[..|tasks| - 1]) + Ahead(tasks[|tasks| - 1])
  }

  lemma {:induction false} AheadConcat<V>(a: seq<Task<V>>, b: seq<Task<V>>)
    ensures AheadOfAll(a + b) == AheadOfAll(a) + AheadOfAll(b)
  {
    if b == [] {
      assert a + b == a;
    } else {
      assert (a + b)[..|a + b| - 1] == a + b[..|b| - 1];
      AheadConcat(a, b[..|b| - 1]);
    }
  }

  lemma AheadUpdate<V>(tasks: seq<Task<V>>, k: nat, t: Task<V>)
    requires k < |tasks|
    ensures AheadOfAll(tasks[k := t]) + Ahead(tasks[k]) == AheadOfAll(tasks) + Ahead(t)
  {
    var a, b := tasks[..k], tasks[k + 1..];
    assert tasks == a + [tasks[k]] + b && tasks[k := t] == a + [t] + b;
    AheadConcat(a + [tasks[k]], b);
    AheadConcat(a + [t], b);
    AheadConcat(a, [tasks[k]]);
    AheadConcat(a, [t]);
    assert [t][..0] == [] && [tasks[k]][..0] == [];
  }

  function AtTheGate<V>(): Task<V> -> bool { (t: Task<V>) => t.phase.AtGate? }

  ghost function Unrecorded<V>(plan: Plan, s: State<V>): set<string> {
    Names(plan.jobs) - s.outs.Keys
  }

  /** Fewer stages unrecorded; or as few, and fewer at the gate; or as few of both, and less of the chains ahead. */
  ghost predicate Nearer<V>(plan: Plan, s': State<V>, s: State<V>) {
    || Unrecorded(plan, s') < Unrecorded(plan, s)
    || (Unrecorded(plan, s') == Unrecorded(plan, s) &&
        (|| Count(s'.tasks, AtTheGate()) < Count(s.tasks, AtTheGate())
         || (Count(s'.tasks, AtTheGate()) == Count(s.tasks, AtTheGate()) && AheadOfAll(s'.tasks) < AheadOfAll(s.tasks))))
  }

  lemma MoveIsNearer<V>(t: Task<V>, e: Event<V>, t': Task<V>)
    requires TaskMoves(t, e, t') && WalkSoFar(t)
    ensures if t.phase.AtGate? then !t'.phase.AtGate? else !t'.phase.AtGate? && Ahead(t') < Ahead(t)
  {
  }

  lemma TaskStepIsNearer<V>(plan: Plan, s: State<V>, e: Event<V>)
    requires WalksKept(s) && Enabled(plan, s, e) && !e.Resize? && !e.NextWave?
    ensures Nearer(plan, Apply(plan, s, e), s)
  {
    TaskStep(plan, s, e);
    var t' := Apply(plan, s, e).tasks[e.k];
    MoveIsNearer(s.tasks[e.k], e, t');
    hide Apply, Enabled, TaskMoves, Ahead, Count, AheadOfAll;
    AheadUpdate(s.tasks, e.k, t');
    CountUpdate(s.tasks, e.k, t', AtTheGate());
  }

  /** Every step that is not a resize brings the task strictly nearer its end. */
  lemma EveryStepIsNearer<V>(plan: Plan, s: State<V>, e: Event<V>)
    requires OutcomesKept(plan, s) && WalksKept(s) && Enabled(plan, s, e) && !e.Resize?
    ensures Nearer(plan, Apply(plan, s, e), s)
  {
    if e.NextWave? {
      var wave := Wave(plan.jobs, s.outs.Keys, Produced(s.outs));
      NextWaveKeepsOutcomes(plan, s);
      assert wave[0] in wave;
      assert wave[0].name in Names(plan.jobs) - s.outs.Keys && wave[0].name in Names(wave);
    } else {
      TaskStepIsNearer(plan, s, e);
    }
  }

  // -------------------------------------------------------------- whole runs

  ghost predicate Sound<V>(plan: Plan, s: State<V>) {
    SlotsKept(plan, s) && OutcomesKept(plan, s) && WalksKept(s) && PrivacyKept(plan, s)
  }

  lemma StepIsSound<V>(plan: Plan, s: State<V>, e: Event<V>)
    requires Sound(plan, s) && Enabled(plan, s, e)
    ensures Sound(plan, Apply(plan, s, e))
  {
    hide SlotsKept, OutcomesKept, WalksKept, PrivacyKept, Enabled, Apply;
    StepKeepsSlots(plan, s, e);
    StepKeepsWalks(plan, s, e);
    StepKeepsPrivacy(plan, s, e);
    if e.NextWave? {
      NextWaveKeepsOutcomes(plan, s);
    } else {
      TaskStepKeepsOutcomes(plan, s, e);
    }
  }

  lemma InitIsSound<V>(plan: Plan, defaultLimit: nat)
    requires DistinctNames(plan.jobs) && defaultLimit >= 1
    ensures Sound<V>(plan, Init(plan, defaultLimit))
  {
    hide *;
    var s: State<V> := Init(plan, defaultLimit);
    InitKeepsSlots<V>(plan, defaultLimit);
    InitKeepsOutcomes<V>(plan, defaultLimit);
    InitKeepsRest<V>(plan, defaultLimit);
    SoundByParts(plan, s);
  }

  lemma SoundByParts<V>(plan: Plan, s: State<V>)
    requires SlotsKept(plan, s) && OutcomesKept(plan, s) && WalksKept(s) && PrivacyKept(plan, s)
    ensures Sound(plan, s)
  {
  }

  lemma InitKeepsSlots<V>(plan: Plan, defaultLimit: nat)
    requires defaultLimit >= 1
    ensures SlotsKept<V>(plan, Init(plan, defaultLimit))
  {
    hide Wave, Count;
    var s: State<V> := Init(plan, defaultLimit);
    QuietCounts(s.tasks, 0);
  }

  lemma InitKeepsOutcomes<V>(plan: Plan, defaultLimit: nat)
    requires DistinctNames(plan.jobs)
    ensures OutcomesKept<V>(plan, Init(plan, defaultLimit))
  {
    var s: State<V> := Init(plan, defaultLimit);
    var none: map<string, V> := map[];
    assert Grown(plan.jobs, [], s.outs);
    assert Produced(s.outs) == none && s.outs.Keys == {};
    hide Wave, OutcomesKept, Grown;
    NewWaveKept(plan, s, []);
  }

  lemma InitKeepsRest<V>(plan: Plan, defaultLimit: nat)
    ensures WalksKept<V>(Init(plan, defaultLimit)) && PrivacyKept<V>(plan, Init(plan, defaultLimit))
  {
    hide Wave, KeptPrivate;
  }

  /** `states` is a run: every step was possible, in whatever order the stages interleaved, resizes at any point. */
  ghost predicate IsRun<V>(plan: Plan, defaultLimit: nat, states: seq<State<V>>, es: seq<Event<V>>) {
    && |states| == |es| + 1 && states[0] == Init(plan, defaultLimit)
    && forall i | 0 <= i < |es| :: Enabled(plan, states[i], es[i]) && states[i + 1] == Apply(plan, states[i], es[i])
  }

  lemma {:induction false} RunIsSound<V>(plan: Plan, defaultLimit: nat, states: seq<State<V>>, es: seq<Event<V>>, n: nat)
    requires DistinctNames(plan.jobs) && defaultLimit >= 1 && IsRun(plan, defaultLimit, states, es) && n < |states|
    ensures Sound(plan, states[n])
  {
    hide Sound, Enabled, Apply;
    if n == 0 {
      InitIsSound<V>(plan, defaultLimit);
    } else {
      RunIsSound(plan, defaultLimit, states, es, n - 1);
      StepIsSound(plan, states[n - 1], es[n - 1]);
    }
  }

  /** In every reachable state with stages left, some step other than a resize is possible, whatever candidates the
      router finds, whichever steps have become unusable and however the work ends. */
  lemma DeadlockFree<V>(
      plan: Plan, defaultLimit: nat, states: seq<State<V>>, es: seq<Event<V>>, n: nat, w: Surroundings<V>)
    requires DistinctNames(plan.jobs) && defaultLimit >= 1 && IsRun(plan, defaultLimit, states, es) && n < |states|
    ensures states[n].tasks != [] ==> exists e :: Enabled(plan, states[n], e) && Obeys(e, w)
  {
    RunIsSound(plan, defaultLimit, states, es, n);
    if states[n].tasks != [] {
      var e := NeverStuck(plan, states[n], w);
    }
  }

  lemma StepKeepsLimit<V>(plan: Plan, s: State<V>, e: Event<V>, device: Device)
    requires SlotsKept(plan, s) && Enabled(plan, s, e) && !C.Stale(s.ledger, device)
    requires e.Resize? && e.device == device ==> C.Idle(s.ledger, device)
    ensures !C.Stale(Apply(plan, s, e).ledger, device)
  {
    hide C.Next, C.Stale, C.Idle, Routed, Occupied;
    if e.AskSlot? || e.Admit? || e.Finish? || e.Resize? {
      var le := LedgerEvent(s, e).value;
      C.StaleOnlyByBusyResize(s.ledger, le, device);
      assert Apply(plan, s, e).ledger == C.Next(s.ledger, le);
    }
  }

  /** A machine resized only while no job holds or awaits it carries at most its limit in every reachable state. */
  lemma {:induction false} CarriesAtMostLimit<V>(
      plan: Plan, defaultLimit: nat, states: seq<State<V>>, es: seq<Event<V>>, n: nat, device: Device)
    requires DistinctNames(plan.jobs) && defaultLimit >= 1 && IsRun(plan, defaultLimit, states, es) && n < |states|
    requires forall i | 0 <= i < |es| && es[i].Resize? && es[i].device == device :: C.Idle(states[i].ledger, device)
    ensures !C.Stale(states[n].ledger, device)
    ensures C.InFlight(states[n].ledger, Some(device)) <= C.Limit(states[n].ledger, Some(device))
  {
    hide *;
    RunIsSound(plan, defaultLimit, states, es, n);
    StartsFresh(plan, defaultLimit, states, es, device);
    if n > 0 {
      CarriesAtMostLimit(plan, defaultLimit, states, es, n - 1, device);
      RunIsSound(plan, defaultLimit, states, es, n - 1);
      LedgerOfSound(plan, states[n - 1]);
      StepOfRun(plan, defaultLimit, states, es, n - 1);
      StepKeepsLimit(plan, states[n - 1], es[n - 1], device);
    }
    LedgerOfSound(plan, states[n]);
    C.NotStaleMeansWithinLimit(states[n].ledger, device);
  }

  lemma LedgerOfSound<V>(plan: Plan, s: State<V>)
    requires Sound(plan, s)
    ensures SlotsKept(plan, s) && C.Conserved(s.ledger)
  {
  }

  lemma StepOfRun<V>(plan: Plan, defaultLimit: nat, states: seq<State<V>>, es: seq<Event<V>>, i: nat)
    requires IsRun(plan, defaultLimit, states, es) && i < |es|
    ensures |states| == |es| + 1 && Enabled(plan, states[i], es[i]) && states[i + 1] == Apply(plan, states[i], es[i])
  {
  }

  lemma StartsFresh<V>(plan: Plan, defaultLimit: nat, states: seq<State<V>>, es: seq<Event<V>>, device: Device)
    requires IsRun(plan, defaultLimit, states, es)
    ensures |states| == |es| + 1 && !C.Stale(states[0].ledger, device)
  {
  }

  /** Whatever a stage claims and however it was routed, a task at HIGHLY_PRIVATE or above only ever calls local targets. */
  lemma PrivateTaskStaysLocal<V>(plan: Plan, defaultLimit: nat, states: seq<State<V>>, es: seq<Event<V>>, n: nat)
    requires DistinctNames(plan.jobs) && defaultLimit >= 1 && IsRun(plan, defaultLimit, states, es) && n < |states|
    requires plan.sensitivity >= HIGHLY_PRIVATE
    ensures forall c | c in states[n].calls :: c.target.local
  {
    RunIsSound(plan, defaultLimit, states, es, n);
    assert forall c | c in states[n].calls :: KeptPrivate(plan, c.job);
  }

  /** Every recorded answer came from a call made for its stage, to the machine and model it names; for a private task
      that target was local. A stage for which nothing was ever called is recorded as failed. */
  lemma AnswersAreServed<V>(plan: Plan, defaultLimit: nat, states: seq<State<V>>, es: seq<Event<V>>, n: nat, stage: string)
    requires DistinctNames(plan.jobs) && defaultLimit >= 1 && IsRun(plan, defaultLimit, states, es) && n < |states|
    requires stage in states[n].outs
    ensures states[n].outs[stage].Ran? ==>
              exists c | c in states[n].calls ::
                ServedBy(stage, states[n].outs[stage], c) && (plan.sensitivity >= HIGHLY_PRIVATE ==> c.target.local)
    ensures (forall c | c in states[n].calls :: c.job.name != stage) ==> states[n].outs[stage].Failed?
  {
    RunIsSound(plan, defaultLimit, states, es, n);
    if states[n].outs[stage].Ran? {
      var c :| c in states[n].calls && ServedBy(stage, states[n].outs[stage], c);
      if plan.sensitivity >= HIGHLY_PRIVATE {
        PrivateTaskStaysLocal(plan, defaultLimit, states, es, n);
      }
    }
  }

  /** When no stage is left, every slot, count and gate permit has been given back, and no stage is runnable any more. */
  lemma FinishedRunReleases<V>(plan: Plan, defaultLimit: nat, states: seq<State<V>>, es: seq<Event<V>>)
    requires DistinctNames(plan.jobs) && defaultLimit >= 1 && IsRun(plan, defaultLimit, states, es)
    requires states[|es|].tasks == []
    ensures forall device: Device ::
              C.Idle(states[|es|].ledger, device) && C.InFlight(states[|es|].ledger, Some(device)) == 0
    ensures C.InFlight(states[|es|].ledger, None) == 0
    ensures plan.maxParallel > 0 ==> states[|es|].gate == plan.maxParallel
    ensures Finished(plan.jobs, states[|es|].outs) && exists order :: Grown(plan.jobs, order, states[|es|].outs)
  {
    RunIsSound(plan, defaultLimit, states, es, |es|);
    var s := states[|es|];
    QuietMeansReleased(plan, s);
    hide SlotsKept, WalksKept, PrivacyKept, IsRun;
    forall job | job in plan.jobs ensures !Runnable(plan.jobs, s.outs, job) {
      assert job !in Wave(plan.jobs, s.outs.Keys, Produced(s.outs));
    }
  }

  // -------------------------------------------------------------- every run ends

  /** An endless sequence of steps. */
  ghost predicate Endless<V(!new)>(plan: Plan, states: nat -> State<V>, es: nat -> Event<V>) {
    forall i: nat :: Enabled(plan, states(i), es(i)) && states(i + 1) == Apply(plan, states(i), es(i))
  }

  lemma {:induction false} SoundForEver<V(!new)>(plan: Plan, states: nat -> State<V>, es: nat -> Event<V>, n: nat)
    requires Sound(plan, states(0)) && Endless(plan, states, es)
    ensures Sound(plan, states(n))
  {
    if n > 0 {
      SoundForEver(plan, states, es, n - 1);
      assert states((n - 1) + 1) == Apply(plan, states(n - 1), es(n - 1));
      hide Sound, Enabled, Apply;
      StepIsSound(plan, states(n - 1), es(n - 1));
    }
  }

  /** A run that never ends is resized again and again: after every point there is another resize. */
  lemma {:induction false} EndlessRunsAreResized<V(!new)>(
      plan: Plan, states: nat -> State<V>, es: nat -> Event<V>, n: nat)
    returns (resize: nat)
    requires Sound(plan, states(0)) && Endless(plan, states, es)
    ensures resize >= n && es(resize).Resize?
    decreases Unrecorded(plan, states(n)), Count(states(n).tasks, AtTheGate()), AheadOfAll(states(n).tasks)
  {
    if es(n).Resize? {
      return n;
    }
    SoundForEver(plan, states, es, n);
    assert Enabled(plan, states(n), es(n)) && states(n + 1) == Apply(plan, states(n), es(n));
    EveryStepIsNearer(plan, states(n), es(n));
    resize := EndlessRunsAreResized(plan, states, es, n + 1);
  }

  /** The steps follow each other, each in the surroundings its state meets. */
  ghost predicate Leads<V(!new)>(
      plan: Plan, s: State<V>, es: seq<Event<V>>, end: State<V>, world: State<V> -> Surroundings<V>)
    decreases |es|
  {
    if es == [] then s == end
    else
      && Enabled(plan, s, es[0]) && Obeys(es[0], world(s))
      && Leads(plan, Apply(plan, s, es[0]), es[1..], end, world)
  }

  /** From every sound state, and in any surroundings, however they react to what has happened, the task comes to its end
      without any resize. */
  lemma {:induction false} CanAlwaysComplete<V(!new)>(plan: Plan, s: State<V>, world: State<V> -> Surroundings<V>)
    returns (es: seq<Event<V>>, end: State<V>)
    requires Sound(plan, s)
    ensures Leads(plan, s, es, end, world) && Sound(plan, end) && end.tasks == []
    decreases Unrecorded(plan, s), Count(s.tasks, AtTheGate()), AheadOfAll(s.tasks)
  {
    if s.tasks == [] {
      es, end := [], s;
    } else {
      var e := NeverStuck(plan, s, world(s));
      EveryStepIsNearer(plan, s, e);
      StepIsSound(plan, s, e);
      hide SlotsKept, OutcomesKept, WalksKept, PrivacyKept, Enabled, Apply;
      var rest;
      rest, end := CanAlwaysComplete(plan, Apply(plan, s, e), world);
      es := [e] + rest;
      assert es[1..] == rest;
    }
  }
}
