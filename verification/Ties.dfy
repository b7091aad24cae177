/** A tie is enough: of any two candidates that only the load can put in order, a gate decides which serves. */
module Ties {
  import opened Common
  import opened Ranking
  import opened Router
  import opened Spread
  import opened Distributed
  import opened Scheduler
  import opened Agreement
  import opened House
  import C = Capacity
  import E = Executor

  // -------------------------------------------------------------- which of two comes first in a chain

  /** On the chain the place of `c` comes before that of `d`. */
  ghost predicate ComesFirst(chain: seq<Target>, c: Candidate, d: Candidate) {
    exists j: nat :: FirstAt(chain, c, d, j)
  }

  /** Step `j` is at the place of `c`, and none before it at that of `c` or `d`. */
  ghost predicate FirstAt(chain: seq<Target>, c: Candidate, d: Candidate, j: nat) {
    && j < |chain| && PlaceOf(chain[j]) == SpotOf(c)
    && forall i | 0 <= i < j :: PlaceOf(chain[i]) != SpotOf(c) && PlaceOf(chain[i]) != SpotOf(d)
  }

  /** No two candidates are at one place. */
  ghost predicate OwnPlaces(allowed: seq<Candidate>) {
    forall c, d | c in allowed && d in allowed && SpotOf(c) == SpotOf(d) :: c == d
  }

  lemma {:induction false} SomeFirst(chain: seq<Target>, c: Candidate, d: Candidate, k: nat)
    requires k < |chain| && (PlaceOf(chain[k]) == SpotOf(c) || PlaceOf(chain[k]) == SpotOf(d))
    ensures ComesFirst(chain, c, d) || ComesFirst(chain, d, c)
    decreases k
  {
    if i: nat :| i < k && (PlaceOf(chain[i]) == SpotOf(c) || PlaceOf(chain[i]) == SpotOf(d)) {
      SomeFirst(chain, c, d, i);
    } else {
      assert PlaceOf(chain[k]) == SpotOf(c) ==> FirstAt(chain, c, d, k);
      assert PlaceOf(chain[k]) == SpotOf(d) ==> FirstAt(chain, d, c, k);
    }
  }

  lemma OneOfTwoFirst(chain: seq<Target>, allowed: seq<Candidate>, key: Candidate -> Key, c: Candidate, d: Candidate)
    requires RanksExactly(chain, allowed, key) && c in allowed
    ensures ComesFirst(chain, c, d) || ComesFirst(chain, d, c)
  {
    hide RanksExactly, ComesFirst, PlaceOf, SpotOf;
    RankedServes(chain, allowed, key);
    var t :| t in chain && PlaceOf(t) == SpotOf(c);
    var k :| 0 <= k < |chain| && chain[k] == t;
    SomeFirst(chain, c, d, k);
  }

  lemma RankedAt(chain: seq<Target>, allowed: seq<Candidate>, ranked: seq<Candidate>, d: Candidate, j: nat)
    requires multiset(ranked) == multiset(allowed) && ServesInOrder(chain, ranked) && OwnPlaces(allowed) && d in allowed
    requires j < |chain| && PlaceOf(chain[j]) == SpotOf(d)
    ensures ranked[j] == d
  {
    assert ranked[j] in multiset(ranked);
    assert ranked[j] in allowed && Serves(chain[j], ranked[j]);
  }

  lemma WorseIsNotFirst(
      chain: seq<Target>, allowed: seq<Candidate>, ranked: seq<Candidate>, key: Candidate -> Key,
      c: Candidate, d: Candidate, j: nat)
    requires Descending(ranked, key) && multiset(ranked) == multiset(allowed) && ServesInOrder(chain, ranked)
    requires OwnPlaces(allowed) && c in allowed && d in allowed && Less(key(d), key(c))
    ensures !FirstAt(chain, d, c, j)
  {
    if FirstAt(chain, d, c, j) {
      RankedAt(chain, allowed, ranked, d, j);
      hide Less, Descending, OwnPlaces;
      assert c in multiset(allowed);
      assert c in multiset(ranked);
      var i :| 0 <= i < |ranked| && ranked[i] == c;
      assert Serves(chain[i], ranked[i]);
      BetterComesFirst(ranked, key, i, j);
      assert false;
    }
  }

  /** The better of two comes first. */
  lemma BetterLeads(chain: seq<Target>, allowed: seq<Candidate>, key: Candidate -> Key, c: Candidate, d: Candidate)
    requires RanksExactly(chain, allowed, key) && OwnPlaces(allowed) && c in allowed && d in allowed
    requires Less(key(d), key(c))
    ensures ComesFirst(chain, c, d)
  {
    OneOfTwoFirst(chain, allowed, key, c, d);
    var ranked :|
      StableDescending(allowed, ranked, key) && multiset(ranked) == multiset(allowed) && ServesInOrder(chain, ranked);
    hide Less, SameTies, OwnPlaces, FirstAt, Descending, ServesInOrder;
    forall j: nat ensures !FirstAt(chain, d, c, j) {
      WorseIsNotFirst(chain, allowed, ranked, key, c, d, j);
    }
  }

  // -------------------------------------------------------------- a home in which only the two answer

  const ANSWER: E.Verdict<int> := E.Accepted(7)

  function OnlyTwo(candidates: seq<Candidate>, c: Candidate, d: Candidate): Home<int> {
    Home(_ => candidates, (_, place, _) => if place == SpotOf(c) || place == SpotOf(d) then ANSWER else E.Passed(""))
  }

  function Seven(job: Job, inputs: map<string, int>): int { 7 }

  lemma OnlyTwoValues(candidates: seq<Candidate>, c: Candidate, d: Candidate)
    ensures Valuing(OnlyTwo(candidates, c, d), Seven)
  {
  }

  /** Whichever comes first serves. */
  lemma FirstServes(
      job: Job, chain: seq<Target>, verdicts: seq<E.Verdict<int>>, inputs: map<string, int>, candidates: seq<Candidate>,
      c: Candidate, d: Candidate, first: Candidate, other: Candidate)
    requires WalkEnds(chain, verdicts) && Replies(job, chain, verdicts, inputs, OnlyTwo(candidates, c, d))
    requires ComesFirst(chain, first, other) && ((first == c && other == d) || (first == d && other == c))
    ensures StageOf(chain, verdicts).Ran? && StageOf(chain, verdicts).device == first.device
  {
    var home := OnlyTwo(candidates, c, d);
    var j: nat :| FirstAt(chain, first, other, j);
    forall i | 0 <= i < |verdicts| && i < j ensures verdicts[i].Passed? {
      assert Like(verdicts[i], home.reply(job, PlaceOf(chain[i]), inputs));
    }
    assert j < |verdicts|;
    assert Like(verdicts[j], home.reply(job, PlaceOf(chain[j]), inputs));
    assert |verdicts| == j + 1;
    assert AnswerAt(verdicts) == Some(j);
  }

  /** So a stage recorded over such routes was served by it. */
  lemma FirstIsRecorded(
      job: Job, stage: Stage<int>, inputs: map<string, int>, candidates: seq<Candidate>, routes: Routes,
      c: Candidate, d: Candidate, first: Candidate, other: Candidate)
    requires Explained(job, stage, inputs, OnlyTwo(candidates, c, d), routes)
    requires forall chain | routes(job, chain) :: ComesFirst(chain, first, other)
    requires (first == c && other == d) || (first == d && other == c)
    ensures stage.Ran? && stage.device == first.device
  {
    var home := OnlyTwo(candidates, c, d);
    var chain, verdicts :|
      && WalkEnds(chain, verdicts) && routes(job, chain)
      && Replies(job, chain, verdicts, inputs, home) && stage == StageOf(chain, verdicts);
    hide WalkEnds, Replies, StageOf, ComesFirst;
    FirstServes(job, chain, verdicts, inputs, candidates, c, d, first, other);
  }

  // -------------------------------------------------------------- runs put together step by step

  /** The steps lead from `s` to `t`, at home and on these routes. */
  ghost predicate Path<V>(plan: Plan, home: Home<V>, routes: Routes, s: State<V>, es: seq<Event<V>>, t: State<V>)
    decreases |es|
  {
    if es == [] then s == t
    else
      && Enabled(plan, s, es[0]) && AtHome(s, es[0], home) && Starts(s, es[0], routes)
      && Path(plan, home, routes, Apply(plan, s, es[0]), es[1..], t)
  }

  lemma PathStep<V>(plan: Plan, home: Home<V>, routes: Routes, s: State<V>, e: Event<V>, es: seq<Event<V>>, t: State<V>)
    requires Enabled(plan, s, e) && AtHome(s, e, home) && Starts(s, e, routes)
    requires Path(plan, home, routes, Apply(plan, s, e), es, t)
    ensures Path(plan, home, routes, s, [e] + es, t)
  {
    hide Enabled, Apply, AtHome, Starts;
    assert ([e] + es)[1..] == es;
  }

  lemma {:induction false} StatesOfPath<V>(
      plan: Plan, home: Home<V>, routes: Routes, s: State<V>, es: seq<Event<V>>, t: State<V>)
    returns (states: seq<State<V>>)
    requires Path(plan, home, routes, s, es, t)
    ensures |states| == |es| + 1 && states[0] == s && states[|es|] == t
    ensures forall i | 0 <= i < |es| :: Enabled(plan, states[i], es[i]) && states[i + 1] == Apply(plan, states[i], es[i])
    ensures forall i | 0 <= i < |es| :: AtHome(states[i], es[i], home) && Starts(states[i], es[i], routes)
    decreases |es|
  {
    hide Enabled, Apply, AtHome, Starts;
    if es == [] {
      states := [s];
    } else {
      var rest := StatesOfPath(plan, home, routes, Apply(plan, s, es[0]), es[1..], t);
      states := [s] + rest;
      forall i | 0 <= i < |es|
        ensures Enabled(plan, states[i], es[i]) && states[i + 1] == Apply(plan, states[i], es[i])
        ensures AtHome(states[i], es[i], home) && Starts(states[i], es[i], routes)
      {
        if i > 0 {
          assert states[i] == rest[i - 1] && es[i] == es[1..][i - 1] && states[i + 1] == rest[i];
        }
      }
    }
  }

  /** A path from the start to the end is a finished run. */
  lemma RunOfPath<V>(plan: Plan, home: Home<V>, routes: Routes, es: seq<Event<V>>, t: State<V>) returns (r: Run<V>)
    requires DistinctNames(plan.jobs) && Path(plan, home, routes, Init(plan, 1), es, t) && t.tasks == []
    ensures r.plan == plan && Finishes(r) && RunsAtHome(r, home) && Routing(r, routes)
  {
    hide Enabled, Apply, AtHome, Starts, Path, Init;
    var states := StatesOfPath(plan, home, routes, Init(plan, 1), es, t);
    r := Run(plan, 1, states, es);
  }

  /** What the home makes of a state. */
  ghost function WorldAt<V>(s: State<V>, home: Home<V>): Surroundings<V> {
    Surroundings(
      (k: nat) => if k < |s.tasks| then home.candidates(s.tasks[k].job) else [],
      (k: nat) => if k < |s.tasks| && OnStep(s.tasks[k]) && ReplyTo(s, k, home).Passed? then Some("") else None,
      (k: nat) => if k < |s.tasks| && OnStep(s.tasks[k]) then ReplyTo(s, k, home) else E.Passed(""))
  }

  lemma WorldIsHome<V>(s: State<V>, e: Event<V>, home: Home<V>)
    requires Obeys(e, WorldAt(s, home))
    ensures AtHome(s, e, home) && !e.Resize?
  {
  }

  /** Every stage of the plan is recorded or on its way. */
  ghost predicate AllStarted<V>(plan: Plan, s: State<V>) {
    && (forall t | t in s.tasks :: !t.phase.AtGate?)
    && forall job | job in plan.jobs :: job.name in s.outs || exists k | 0 <= k < |s.tasks| :: s.tasks[k].job == job
  }

  lemma StepKeepsStarted<V>(plan: Plan, s: State<V>, e: Event<V>)
    requires AllStarted(plan, s) && OutcomesKept(plan, s) && Enabled(plan, s, e) && !e.Resize?
    ensures !e.Start? && AllStarted(plan, Apply(plan, s, e))
  {
    if e.NextWave? {
      LastWave(plan, s);
    } else {
      TaskStep(plan, s, e);
      hide Enabled, Apply, Routed, TaskMoves, OutcomesKept, CallsNow;
      MoveKeepsStarted(plan, s, e, Apply(plan, s, e));
    }
  }

  lemma MoveKeepsStarted<V>(plan: Plan, s: State<V>, e: Event<V>, s': State<V>)
    requires AllStarted(plan, s) && (e.Start? || e.Skip? || e.AskSlot? || e.Admit? || e.Finish?) && e.k < |s.tasks|
    requires s'.outs == s.outs && |s'.tasks| == |s.tasks| && s'.tasks == s.tasks[e.k := s'.tasks[e.k]]
    requires TaskMoves(s.tasks[e.k], e, s'.tasks[e.k])
    ensures !e.Start? && AllStarted(plan, s')
  {
    assert s.tasks[e.k] in s.tasks;
    MovedOn(s.tasks[e.k], e, s'.tasks[e.k]);
    hide TaskMoves, CallsNow;
    forall job | job in plan.jobs && job.name !in s'.outs ensures exists k | 0 <= k < |s'.tasks| :: s'.tasks[k].job == job {
      var k :| 0 <= k < |s.tasks| && s.tasks[k].job == job;
      assert s'.tasks[k].job == job;
    }
  }

  lemma MovedOn<V>(t: Task<V>, e: Event<V>, t': Task<V>)
    requires TaskMoves(t, e, t') && !t.phase.AtGate?
    ensures !e.Start? && !t'.phase.AtGate? && t'.job == t.job
  {
  }

  lemma LastWave<V>(plan: Plan, s: State<V>)
    requires AllStarted(plan, s) && OutcomesKept(plan, s) && Enabled(plan, s, NextWave)
    ensures AllStarted(plan, Apply(plan, s, NextWave))
  {
    NextWaveKeepsOutcomes(plan, s);
    TasksAreWave(plan, s);
    AfterWave(plan, s);
    var wave, s' := Wave(plan.jobs, s.outs.Keys, Produced(s.outs)), Apply(plan, s, NextWave);
    hide Wave, OutcomesKept, Record, Enabled, Apply, Produced;
    forall job | job in plan.jobs ensures job.name in s'.outs.Keys {
      if job.name !in s.outs {
        var k :| 0 <= k < |s.tasks| && s.tasks[k].job == job;
        assert wave[k] == job;
      }
    }
    NoWaveLeft(plan, s');
  }

  lemma NoWaveLeft<V>(plan: Plan, s: State<V>)
    requires OutcomesKept(plan, s) && forall job | job in plan.jobs :: job.name in s.outs.Keys
    ensures s.tasks == []
  {
    TasksAreWave(plan, s);
    var wave := Wave(plan.jobs, s.outs.Keys, Produced(s.outs));
    hide OutcomesKept;
    FirstIn(wave);
  }

  lemma FirstIn(jobs: seq<Job>)
    ensures jobs == [] || jobs[0] in jobs
  {
  }

  /** From any sound state the task can be completed at home, on any routes or after the last start. */
  lemma {:induction false} Complete<V>(plan: Plan, s: State<V>, home: Home<V>, routes: Routes)
    returns (es: seq<Event<V>>, t: State<V>)
    requires Sound(plan, s) && ((forall job, chain :: routes(job, chain)) || AllStarted(plan, s))
    ensures Path(plan, home, routes, s, es, t) && t.tasks == []
    decreases Unrecorded(plan, s), Count(s.tasks, AtTheGate()), AheadOfAll(s.tasks)
  {
    if s.tasks == [] {
      es, t := [], s;
    } else {
      var e := NeverStuck(plan, s, WorldAt(s, home));
      WorldIsHome(s, e, home);
      EveryStepIsNearer(plan, s, e);
      StepIsSound(plan, s, e);
      if AllStarted(plan, s) {
        StepKeepsStarted(plan, s, e);
      }
      hide SlotsKept, OutcomesKept, WalksKept, PrivacyKept, Enabled, Apply, AtHome, AllStarted;
      var rest;
      rest, t := Complete(plan, Apply(plan, s, e), home, routes);
      PathStep(plan, home, routes, s, e, rest, t);
      es := [e] + rest;
    }
  }

  // -------------------------------------------------------------- two stages alike

  function Named(template: Job, name: string): Job { template.(name := name) }

  /** Two independent stages that ask for the same. */
  function TwoStages(template: Job, sensitivity: Sensitivity, profile: Profile, maxParallel: nat): Plan {
    Plan([Named(template, "a"), Named(template, "b")], sensitivity, profile, maxParallel)
  }

  function RequestOf(template: Job, sensitivity: Sensitivity, profile: Profile): Request {
    RequestFor(template, sensitivity, profile)
  }

  lemma NoWave()
    ensures Wave<int>([], {}, map[]) == []
  {
  }

  lemma WaveNext(front: seq<Job>, job: Job)
    requires job.needs == []
    ensures Wave<int>(front + [job], {}, map[]) == Wave<int>(front, {}, map[]) + [job]
  {
    assert (front + [job])[..|front|] == front;
  }

  lemma WaveOfTwo(a: Job, b: Job)
    requires a.needs == [] && b.needs == []
    ensures Wave<int>([a, b], {}, map[]) == [a, b]
  {
    hide *;
    NoWave();
    WaveNext([], a);
    WaveNext([a], b);
    assert [] + [a] == [a] && [a] + [b] == [a, b];
  }

  /** Stage `a` has walked its chain up to step `i` without an answer, stage `b` has not begun, and nothing is carried. */
  ghost predicate Walking(plan: Plan, s: State<int>, chain: seq<Target>, i: nat) {
    && Sound(plan, s) && s.outs == map[] && |s.tasks| == 2 && s.ledger == C.Fresh(1) && |plan.jobs| == 2 && i < |chain|
    && s.tasks[0].job == plan.jobs[0] && s.tasks[0].chain == chain && s.tasks[0].phase == AtStep(i)
    && s.tasks[1].job == plan.jobs[1] && s.tasks[1].phase.AtGate?
  }

  /** Stage `a` is at work on `device`, stage `b` has not begun, and nothing else is carried. */
  ghost predicate UnderWay(plan: Plan, s: State<int>, device: Option<Device>) {
    && Sound(plan, s) && s.outs == map[] && |s.tasks| == 2 && |plan.jobs| == 2
    && s.tasks[0].job == plan.jobs[0] && s.tasks[0].phase.Working?
    && s.tasks[1].job == plan.jobs[1] && s.tasks[1].phase.AtGate?
    && forall d :: C.InFlight(s.ledger, d) == if d == device then 1 else 0
  }

  lemma StartsAsTwo(template: Job, sensitivity: Sensitivity, profile: Profile, maxParallel: nat)
    requires template.needs == []
    ensures var plan := TwoStages(template, sensitivity, profile, maxParallel);
            var s := Init<int>(plan, 1);
            && DistinctNames(plan.jobs) && Sound(plan, s) && s.outs == map[] && s.ledger == C.Fresh(1)
            && s.tasks == [Task(plan.jobs[0], AtGate, [], []), Task(plan.jobs[1], AtGate, [], [])]
  {
    var plan := TwoStages(template, sensitivity, profile, maxParallel);
    InitIsSound<int>(plan, 1);
    WaveOfTwo(plan.jobs[0], plan.jobs[1]);
    hide Wave, Sound;
  }

  lemma FreshIsUnloaded()
    ensures C.Sane(C.Fresh(1)) && Unloaded(C.Fresh(1))
  {
  }

  lemma UnusableIsSkipped(plan: Plan, s: State<int>, chain: seq<Target>, i: nat, home: Home<int>, routes: Routes)
    returns (s': State<int>)
    requires Walking(plan, s, chain, i) && i + 1 < |chain|
    requires home.reply(plan.jobs[0], PlaceOf(chain[i]), Inputs(plan.jobs[0], Produced(s.outs))).Passed?
    ensures Enabled(plan, s, Skip(0, "")) && AtHome(s, Skip(0, ""), home) && Starts(s, Skip(0, ""), routes)
    ensures s' == Apply(plan, s, Skip(0, "")) && Walking(plan, s', chain, i + 1)
  {
    var e: Event<int> := Skip(0, "");
    FreshIsUnloaded();
    assert WalkSoFar(s.tasks[0]);
    assert Enabled(plan, s, e);
    StepIsSound(plan, s, e);
    hide Sound;
    s' := Apply(plan, s, e);
  }

  lemma {:induction false} WalkTo(plan: Plan, s: State<int>, chain: seq<Target>, i: nat, j: nat, home: Home<int>, routes: Routes)
    returns (es: seq<Event<int>>, t: State<int>)
    requires Walking(plan, s, chain, i) && i <= j < |chain|
    requires forall k | i <= k < j :: home.reply(plan.jobs[0], PlaceOf(chain[k]), Inputs(plan.jobs[0], Produced(s.outs))).Passed?
    ensures Path(plan, home, routes, s, es, t) && Walking(plan, t, chain, j)
    decreases j - i
  {
    if i == j {
      es, t := [], s;
    } else {
      var next := UnusableIsSkipped(plan, s, chain, i, home, routes);
      assert next.outs == s.outs;
      hide Walking, Enabled, Apply, AtHome, Starts;
      var rest;
      rest, t := WalkTo(plan, next, chain, i + 1, j, home, routes);
      PathStep(plan, home, routes, s, Skip(0, ""), rest, t);
      es := [Skip(0, "")] + rest;
    }
  }

  lemma OneUnderWay(d: Device)
    ensures var l := C.Next(C.Fresh(1), C.Ask(d));
            && C.Sane(C.Fresh(1)) && C.Current(C.Fresh(1), d) == 0
            && C.Sane(l) && C.Enabled(l, C.Admit(0))
            && forall x :: C.InFlight(C.Next(l, C.Admit(0)), x) == if x == Some(d) then 1 else 0
  {
  }

  lemma CloudUnderWay()
    ensures C.Sane(C.Fresh(1)) && forall x :: C.InFlight(C.Next(C.Fresh(1), C.CloudIn), x) == if x == None then 1 else 0
  {
  }

  /** Stage `a` waits for `device`, and nothing is carried. */
  ghost predicate Awaiting(plan: Plan, s: State<int>, chain: seq<Target>, i: nat, device: Device) {
    && Sound(plan, s) && s.outs == map[] && |s.tasks| == 2 && |plan.jobs| == 2 && i < |chain|
    && s.ledger == C.Next(C.Fresh(1), C.Ask(device))
    && s.tasks[0].job == plan.jobs[0] && s.tasks[0].chain == chain && s.tasks[0].phase == Waiting(i, 0)
    && s.tasks[1].job == plan.jobs[1] && s.tasks[1].phase.AtGate?
  }

  lemma CanAsk(plan: Plan, s: State<int>, chain: seq<Target>, i: nat)
    requires Walking(plan, s, chain, i)
    ensures Enabled(plan, s, AskSlot(0)) && Sound(plan, Apply(plan, s, AskSlot(0))) && StepOf(s.tasks[0]) == chain[i]
  {
    FreshIsUnloaded();
    assert WalkSoFar(s.tasks[0]);
    hide Sound;
    assert Enabled(plan, s, AskSlot(0));
    StepIsSound(plan, s, AskSlot(0));
  }

  lemma AskCloud(plan: Plan, s: State<int>, chain: seq<Target>, i: nat)
    requires Walking(plan, s, chain, i) && chain[i].device == None
    ensures Enabled(plan, s, AskSlot(0)) && UnderWay(plan, Apply(plan, s, AskSlot(0)), None)
  {
    CanAsk(plan, s, chain, i);
    CloudUnderWay();
    hide Sound, C.Next, C.InFlight, C.Sane;
  }

  lemma AskMachine(plan: Plan, s: State<int>, chain: seq<Target>, i: nat, device: Device)
    requires Walking(plan, s, chain, i) && chain[i].device == Some(device)
    ensures Enabled(plan, s, AskSlot(0)) && Awaiting(plan, Apply(plan, s, AskSlot(0)), chain, i, device)
  {
    CanAsk(plan, s, chain, i);
    OneUnderWay(device);
    hide Sound, C.Next, C.InFlight, C.Sane, C.Current;
  }

  lemma AdmitFirst(plan: Plan, s: State<int>, chain: seq<Target>, i: nat, device: Device)
    requires Awaiting(plan, s, chain, i, device)
    ensures Enabled(plan, s, Admit(0)) && UnderWay(plan, Apply(plan, s, Admit(0)), Some(device))
  {
    OneUnderWay(device);
    assert WalkSoFar(s.tasks[0]);
    hide Sound, C.Next, C.InFlight, C.Sane, C.Enabled;
    assert Enabled(plan, s, Admit(0));
    StepIsSound(plan, s, Admit(0));
  }

  /** The step is taken: stage `a` gets to work on the machine of step `i`. */
  lemma GetToWork(plan: Plan, s: State<int>, chain: seq<Target>, i: nat, home: Home<int>, routes: Routes)
    returns (es: seq<Event<int>>, t: State<int>)
    requires Walking(plan, s, chain, i) && i < |chain|
    ensures Path(plan, home, routes, s, es, t) && UnderWay(plan, t, chain[i].device)
  {
    var ask: Event<int>, admit: Event<int> := AskSlot(0), Admit(0);
    assert forall x :: AtHome(x, ask, home) && Starts(x, ask, routes) && AtHome(x, admit, home) && Starts(x, admit, routes);
    hide Walking, UnderWay, Awaiting, Enabled, Apply, AtHome, Starts;
    if chain[i].device.None? {
      AskCloud(plan, s, chain, i);
      t := Apply(plan, s, ask);
      PathStep(plan, home, routes, s, ask, [], t);
      es := [ask] + [];
    } else {
      AskMachine(plan, s, chain, i, chain[i].device.value);
      var m := Apply(plan, s, ask);
      AdmitFirst(plan, m, chain, i, chain[i].device.value);
      t := Apply(plan, m, admit);
      PathStep(plan, home, routes, m, admit, [], t);
      PathStep(plan, home, routes, s, ask, [admit] + [], t);
      es := [ask] + ([admit] + []);
    }
  }

  // -------------------------------------------------------------- the two runs

  lemma {:induction false} PathsJoin<V>(
      plan: Plan, home: Home<V>, routes: Routes, s: State<V>, es: seq<Event<V>>, t: State<V>, fs: seq<Event<V>>, u: State<V>)
    requires Path(plan, home, routes, s, es, t) && Path(plan, home, routes, t, fs, u)
    ensures Path(plan, home, routes, s, es + fs, u)
    decreases |es|
  {
    hide Enabled, Apply, AtHome, Starts;
    if es == [] {
      assert es + fs == fs;
    } else {
      PathsJoin(plan, home, routes, Apply(plan, s, es[0]), es[1..], t, fs, u);
      PathStep(plan, home, routes, s, es[0], es[1..] + fs, u);
      assert es == [es[0]] + es[1..];
      assert es + fs == [es[0]] + (es[1..] + fs);
    }
  }

  /** Only stage `b` is bound: `first` comes first on its chain. */
  ghost function BAfter(first: Candidate, other: Candidate): Routes {
    (job: Job, chain: seq<Target>) => job.name == "b" ==> ComesFirst(chain, first, other)
  }

  /** Two candidates of stage `b`'s request that tie. */
  ghost predicate Tied(candidates: seq<Candidate>, r: Request, c: Candidate, d: Candidate) {
    var allowed := Filter(candidates, Admits(r));
    c in allowed && d in allowed && Tie(c, d, r) && OwnPlaces(allowed)
  }

  lemma UnderWayIsBusy(plan: Plan, s: State<int>, device: Option<Device>)
    requires UnderWay(plan, s, device)
    ensures C.Sane(s.ledger) && Carrying(s.ledger)(device) == 1 && forall d | d != device :: Carrying(s.ledger)(d) == 0
  {
  }

  /** While `c`'s machine is at work, `d` comes first. */
  lemma BusyMeansSecond(
      plan: Plan, s: State<int>, candidates: seq<Candidate>, r: Request, c: Candidate, d: Candidate, chain: seq<Target>)
    requires UnderWay(plan, s, c.device) && Tied(candidates, r, c, d) && Routed(chain, candidates, r, s.ledger)
    ensures ComesFirst(chain, d, c)
  {
    UnderWayIsBusy(plan, s, c.device);
    BusierIsWorse(c, d, r, Carrying(s.ledger));
    BetterLeads(chain, Filter(candidates, Admits(r)), Scored(r, Carrying(s.ledger)), d, c);
  }

  /** Then stage `b` starts, and the task can be completed. */
  lemma StartSecond(
      plan: Plan, s: State<int>, candidates: seq<Candidate>, r: Request, c: Candidate, d: Candidate, home: Home<int>)
    returns (es: seq<Event<int>>, t: State<int>)
    requires UnderWay(plan, s, c.device) && Tied(candidates, r, c, d) && plan.maxParallel == 0
    requires home.candidates(plan.jobs[1]) == candidates && Asked(plan, plan.jobs[1]) == r
    ensures Path(plan, home, BAfter(d, c), s, es, t) && t.tasks == []
  {
    UnderWayIsBusy(plan, s, c.device);
    var chain := SomeChain(candidates, r, s.ledger);
    BusyMeansSecond(plan, s, candidates, r, c, d, chain);
    var e: Event<int> := Start(1, candidates, chain);
    var u := StartsSecond(plan, s, e, c.device);
    hide UnderWay, Tied, Enabled, Apply, AllStarted, Routed, ComesFirst, Sound;
    var rest;
    rest, t := Complete(plan, u, home, BAfter(d, c));
    PathStep(plan, home, BAfter(d, c), s, e, rest, t);
    es := [e] + rest;
  }

  lemma StartsSecond(plan: Plan, s: State<int>, e: Event<int>, device: Option<Device>) returns (u: State<int>)
    requires UnderWay(plan, s, device) && plan.maxParallel == 0 && e.Start? && e.k == 1
    requires Routed(e.chain, e.considered, Asked(plan, plan.jobs[1]), s.ledger)
    ensures Enabled(plan, s, e) && u == Apply(plan, s, e) && Sound(plan, u) && AllStarted(plan, u)
  {
    UnderWayIsBusy(plan, s, device);
    hide Routed, Sound;
    assert Enabled(plan, s, e);
    StepIsSound(plan, s, e);
    u := Apply(plan, s, e);
    assert u.tasks[0].job == plan.jobs[0] && u.tasks[1].job == plan.jobs[1];
    assert plan.jobs == [plan.jobs[0], plan.jobs[1]];
  }

  /** Stage `a` starts while nothing is carried. */
  lemma StartFirst(plan: Plan, candidates: seq<Candidate>, chain: seq<Target>) returns (e: Event<int>, t: State<int>)
    requires plan.maxParallel == 0 && |plan.jobs| == 2 && plan.jobs[0].name == "a" && chain != []
    requires var s := Init<int>(plan, 1);
             && Sound(plan, s) && s.outs == map[] && s.ledger == C.Fresh(1)
             && s.tasks == [Task(plan.jobs[0], AtGate, [], []), Task(plan.jobs[1], AtGate, [], [])]
    requires Routed(chain, candidates, Asked(plan, plan.jobs[0]), C.Fresh(1))
    ensures var s := Init<int>(plan, 1);
            e == Start(0, candidates, chain) && Enabled(plan, s, e) && t == Apply(plan, s, e) && Walking(plan, t, chain, 0)
  {
    FreshIsUnloaded();
    hide Routed, Sound, Init;
    e := Start(0, candidates, chain);
    assert Enabled(plan, Init<int>(plan, 1), e);
    StepIsSound(plan, Init<int>(plan, 1), e);
    t := Apply(plan, Init<int>(plan, 1), e);
  }

  /** What a run's stage `b` was recorded with, when all its routes put `first` before `other`. */
  lemma BIsServedBy(
      r: Run<int>, candidates: seq<Candidate>, routes: Routes, c: Candidate, d: Candidate, first: Candidate, other: Candidate)
    requires Finishes(r) && RunsAtHome(r, OnlyTwo(candidates, c, d)) && Routing(r, routes)
    requires |r.plan.jobs| == 2 && r.plan.jobs[1].needs == []
    requires forall chain | routes(r.plan.jobs[1], chain) :: ComesFirst(chain, first, other)
    requires (first == c && other == d) || (first == d && other == c)
    ensures var n := r.plan.jobs[1].name; n in Outs(r) && Outs(r)[n].Ran? && Outs(r)[n].device == first.device
  {
    var home, job := OnlyTwo(candidates, c, d), r.plan.jobs[1];
    FinishedAtHome(r, home, routes);
    FinishedRunReleases(r.plan, r.defaultLimit, r.states, r.es);
    assert job in r.plan.jobs && !Runnable(r.plan.jobs, Outs(r), job);
    hide Finishes, RunsAtHome, Routing, Explained, ComesFirst;
    FirstIsRecorded(job, Outs(r)[job.name], Inputs(job, Produced(Outs(r))), candidates, routes, c, d, first, other);
  }

  /** From the start to stage `a` at work on the machine of step `j`, all steps before it passing. */
  lemma FirstGetsToWork(
      template: Job, sensitivity: Sensitivity, profile: Profile, candidates: seq<Candidate>, chain: seq<Target>, j: nat,
      home: Home<int>, routes: Routes)
    returns (es: seq<Event<int>>, t: State<int>)
    requires template.needs == [] && j < |chain| && home.candidates(Named(template, "a")) == candidates
    requires Routed(chain, candidates, RequestOf(template, sensitivity, profile), C.Fresh(1))
    requires forall k | 0 <= k < j :: home.reply(Named(template, "a"), PlaceOf(chain[k]), map[]).Passed?
    requires routes(Named(template, "a"), chain)
    ensures var plan := TwoStages(template, sensitivity, profile, 0);
            Path(plan, home, routes, Init(plan, 1), es, t) && UnderWay(plan, t, chain[j].device)
  {
    var plan := TwoStages(template, sensitivity, profile, 0);
    var s := Init<int>(plan, 1);
    StartsAsTwo(template, sensitivity, profile, 0);
    hide Routed, Init, Sound, Enabled, Apply, PlaceOf;
    var e, u := StartFirst(plan, candidates, chain);
    assert AtHome(s, e, home) && Starts(s, e, routes);
    NoInputs(template, u);
    hide AtHome, Starts, Path, UnderWay, TwoStages, Named;
    var fs, v := WalkTo(plan, u, chain, 0, j, home, routes);
    var gs;
    gs, t := GetToWork(plan, v, chain, j, home, routes);
    PathsJoin(plan, home, routes, u, fs, v, gs, t);
    PathStep(plan, home, routes, s, e, fs + gs, t);
    es := [e] + (fs + gs);
  }

  lemma NoInputs(template: Job, s: State<int>)
    requires template.needs == []
    ensures Inputs(Named(template, "a"), Produced(s.outs)) == map[]
  {
  }

  lemma PassesBefore(
      template: Job, candidates: seq<Candidate>, c: Candidate, d: Candidate, home: Home<int>, chain: seq<Target>)
    returns (j: nat)
    requires ComesFirst(chain, c, d)
    requires home == OnlyTwo(candidates, c, d) || home == OnlyTwo(candidates, d, c)
    ensures j < |chain| && chain[j].device == c.device && BAfter(d, c)(Named(template, "a"), chain)
    ensures forall k | 0 <= k < j :: home.reply(Named(template, "a"), PlaceOf(chain[k]), map[]).Passed?
  {
    j :| FirstAt(chain, c, d, j);
  }

  lemma AsksAlike(
      template: Job, sensitivity: Sensitivity, profile: Profile, candidates: seq<Candidate>, c: Candidate, d: Candidate,
      home: Home<int>)
    requires home == OnlyTwo(candidates, c, d) || home == OnlyTwo(candidates, d, c)
    ensures var plan := TwoStages(template, sensitivity, profile, 0);
            && plan.maxParallel == 0 && |plan.jobs| == 2
            && home.candidates(Named(template, "a")) == candidates && home.candidates(plan.jobs[1]) == candidates
            && Asked(plan, plan.jobs[1]) == RequestOf(template, sensitivity, profile)
  {
  }

  /** Without a gate the second stage starts while the first is at work, and the other candidate serves it. */
  lemma OvertakingRun(
      template: Job, sensitivity: Sensitivity, profile: Profile, candidates: seq<Candidate>, c: Candidate, d: Candidate,
      home: Home<int>, chain: seq<Target>)
    returns (run: Run<int>)
    requires var r := RequestOf(template, sensitivity, profile);
             Tied(candidates, r, c, d) && Routed(chain, candidates, r, C.Fresh(1))
    requires template.needs == [] && ComesFirst(chain, c, d)
    requires home == OnlyTwo(candidates, c, d) || home == OnlyTwo(candidates, d, c)
    ensures run.plan == TwoStages(template, sensitivity, profile, 0) && Finishes(run) && RunsAtHome(run, home)
    ensures Routing(run, BAfter(d, c))
  {
    var plan, r := TwoStages(template, sensitivity, profile, 0), RequestOf(template, sensitivity, profile);
    hide *;
    var j := PassesBefore(template, candidates, c, d, home, chain);
    StartsAsTwo(template, sensitivity, profile, 0);
    AsksAlike(template, sensitivity, profile, candidates, c, d, home);
    var es, t := FirstGetsToWork(template, sensitivity, profile, candidates, chain, j, home, BAfter(d, c));
    var fs, u := StartSecond(plan, t, candidates, r, c, d, home);
    PathsJoin(plan, home, BAfter(d, c), Init(plan, 1), es, t, fs, u);
    run := RunOfPath(plan, home, BAfter(d, c), es + fs, u);
  }

  /** Behind a gate of one each stage starts while nothing is carried, and the first candidate serves both. */
  lemma GatedRun(
      template: Job, sensitivity: Sensitivity, profile: Profile, home: Home<int>)
    returns (run: Run<int>)
    requires template.needs == []
    ensures run.plan == TwoStages(template, sensitivity, profile, 1) && Finishes(run) && RunsAtHome(run, home)
    ensures Routing(run, NoLoad(run.plan, home))
  {
    var plan := TwoStages(template, sensitivity, profile, 1);
    StartsAsTwo(template, sensitivity, profile, 1);
    var routes: Routes := (_, _) => true;
    hide *;
    var es, t := Complete(plan, Init<int>(plan, 1), home, routes);
    run := RunOfPath(plan, home, routes, es, t);
    RoutedBehindGate(run, home);
  }

  lemma UnloadedChainsAlike(
      chain: seq<Target>, other: seq<Target>, candidates: seq<Candidate>, r: Request, c: Candidate, d: Candidate)
    requires ChainUnloaded(chain, candidates, r) && ChainUnloaded(other, candidates, r) && ComesFirst(chain, c, d)
    ensures ComesFirst(other, c, d)
  {
    OneUnloadedChain(chain, other, candidates, r);
    var j: nat :| FirstAt(chain, c, d, j);
    hide ChainUnloaded;
    assert FirstAt(other, c, d, j) by {
      forall i | 0 <= i <= j ensures PlaceOf(other[i]) == PlaceOf(chain[i]) {
      }
    }
  }

  /** With `first` before `other` while nothing is carried, a gate of one decides who serves stage `b`. */
  lemma GateDecides(
      template: Job, sensitivity: Sensitivity, profile: Profile, candidates: seq<Candidate>, home: Home<int>,
      c: Candidate, d: Candidate, first: Candidate, other: Candidate, chain: seq<Target>)
    returns (a: Run<int>, b: Run<int>)
    requires template.needs == [] && home == OnlyTwo(candidates, c, d)
    requires (first == c && other == d) || (first == d && other == c)
    requires var r := RequestOf(template, sensitivity, profile);
             && Tied(candidates, r, first, other) && Routed(chain, candidates, r, C.Fresh(1)) && ComesFirst(chain, first, other)
    ensures a.plan == TwoStages(template, sensitivity, profile, 0) && Finishes(a) && RunsAtHome(a, home)
    ensures b.plan == TwoStages(template, sensitivity, profile, 1) && Finishes(b) && RunsAtHome(b, home)
    ensures Outs(a) != Outs(b)
  {
    var r := RequestOf(template, sensitivity, profile);
    a := OvertakingRun(template, sensitivity, profile, candidates, first, other, home, chain);
    b := GatedRun(template, sensitivity, profile, home);
    BIsServedBy(a, candidates, BAfter(other, first), c, d, other, first);
    assert ChainUnloaded(chain, candidates, r) by { FreshIsUnloaded(); }
    assert Asked(b.plan, b.plan.jobs[1]) == r;
    forall more | NoLoad(b.plan, home)(b.plan.jobs[1], more) ensures ComesFirst(more, first, other) {
      UnloadedChainsAlike(chain, more, candidates, r, first, other);
    }
    BIsServedBy(b, candidates, NoLoad(b.plan, home), c, d, first, other);
    assert Tie(first, other, r);
  }

  /** Of any two admissible candidates that tie, each at a place of its own: two runs of one task, one without a gate and
      one with a gate of one, in one house, end with the same values from different machines. */
  lemma TieShows(
      template: Job, sensitivity: Sensitivity, profile: Profile, candidates: seq<Candidate>, c: Candidate, d: Candidate)
    returns (a: Run<int>, b: Run<int>)
    requires template.needs == [] && Tied(candidates, RequestOf(template, sensitivity, profile), c, d)
    ensures Finishes(a) && RunsAtHome(a, OnlyTwo(candidates, c, d))
    ensures Finishes(b) && RunsAtHome(b, OnlyTwo(candidates, c, d))
    ensures a.plan == TwoStages(template, sensitivity, profile, 0) && b.plan == a.plan.(maxParallel := 1)
    ensures Produced(Outs(a)) == Produced(Outs(b)) && Outs(a) != Outs(b)
  {
    var home, r := OnlyTwo(candidates, c, d), RequestOf(template, sensitivity, profile);
    var chain := SomeChain(candidates, r, C.Fresh(1));
    OneOfTwoFirst(chain, Filter(candidates, Admits(r)), Scored(r, Carrying(C.Fresh(1))), c, d);
    TiedBothWays(candidates, r, c, d);
    OnlyTwoValues(candidates, c, d);
    hide Tied, Finishes, RunsAtHome, Outs, ComesFirst, Routed, Produced, Valuing, OnlyTwo;
    if ComesFirst(chain, c, d) {
      a, b := GateDecides(template, sensitivity, profile, candidates, home, c, d, c, d, chain);
    } else {
      a, b := GateDecides(template, sensitivity, profile, candidates, home, c, d, d, c, chain);
    }
    OneHouseOneResult(a, b, home, Seven);
  }

  lemma TiedBothWays(candidates: seq<Candidate>, r: Request, c: Candidate, d: Candidate)
    requires Tied(candidates, r, c, d)
    ensures Tied(candidates, r, d, c)
  {
  }

  /** Every stage of the plan asks for `r` and has these candidates. */
  ghost predicate AllAsk(plan: Plan, home: Home<int>, candidates: seq<Candidate>, r: Request) {
    forall job | job in plan.jobs :: home.candidates(job) == candidates && Asked(plan, job) == r
  }

  /** Two finished runs of one task in one house, whose stages all choose among these candidates. */
  ghost predicate TwoRuns(a: Run<int>, b: Run<int>, home: Home<int>, candidates: seq<Candidate>, r: Request) {
    && Finishes(a) && Finishes(b) && SameTask(a.plan, b.plan) && RunsAtHome(a, home) && RunsAtHome(b, home)
    && AllAsk(a.plan, home, candidates, r)
  }

  lemma NoTieOneRecord(a: Run<int>, b: Run<int>, home: Home<int>, candidates: seq<Candidate>, r: Request)
    requires NoTie(Filter(candidates, Admits(r)), r) && TwoRuns(a, b, home, candidates, r)
    ensures Outs(a) == Outs(b)
  {
    hide Finishes, RunsAtHome, NoTie, Filter, Admits, Asked, Outs;
    assert Untied(a.plan, home);
    OneRecord(a, b, home);
  }

  lemma TieTwoRecords(
      template: Job, sensitivity: Sensitivity, profile: Profile, candidates: seq<Candidate>, c: Candidate, d: Candidate)
    returns (a: Run<int>, b: Run<int>, home: Home<int>)
    requires template.needs == [] && Tied(candidates, RequestOf(template, sensitivity, profile), c, d)
    ensures TwoRuns(a, b, home, candidates, RequestOf(template, sensitivity, profile)) && Outs(a) != Outs(b)
  {
    a, b := TieShows(template, sensitivity, profile, candidates, c, d);
    home := OnlyTwo(candidates, c, d);
    hide Finishes, RunsAtHome, Outs, Produced, Tied;
  }

  /** Among candidates each at a place of its own, every two runs of one task record the same, whatever the task, the
      replies, `max_parallel`, the limits and the interleaving are, if and only if no two admissible candidates tie. */
  lemma OneRecordIffNoTie(template: Job, sensitivity: Sensitivity, profile: Profile, candidates: seq<Candidate>)
    requires template.needs == []
    requires OwnPlaces(Filter(candidates, Admits(RequestOf(template, sensitivity, profile))))
    ensures var r := RequestOf(template, sensitivity, profile);
            NoTie(Filter(candidates, Admits(r)), r) <==>
            forall a, b, home | TwoRuns(a, b, home, candidates, r) :: Outs(a) == Outs(b)
  {
    var r := RequestOf(template, sensitivity, profile);
    var allowed := Filter(candidates, Admits(r));
    hide Finishes, RunsAtHome, SameTask, AllAsk, Outs, Filter, Admits, RequestOf, OwnPlaces, Tie;
    if NoTie(allowed, r) {
      forall a, b, home | TwoRuns(a, b, home, candidates, r) ensures Outs(a) == Outs(b) {
        NoTieOneRecord(a, b, home, candidates, r);
      }
    } else {
      var c, d :| c in allowed && d in allowed && Tie(c, d, r);
      var a, b, home := TieTwoRecords(template, sensitivity, profile, candidates, c, d);
    }
  }

  // -------------------------------------------------------------- two equal machines

  function Machine(d: Device): Candidate {
    Candidate("ai.vision", Some(d), "m", "r", true, None, None, true, 1.0, 1.0, 0, 0)
  }

  const HOUSE: seq<Candidate> := [Machine(1), Machine(2)]

  const VISION: Job := Job("", "ai.vision", PUBLIC, None, false, false, [])

  lemma EqualMachinesTie()
    ensures Tied(HOUSE, RequestOf(VISION, PUBLIC, Balanced), Machine(1), Machine(2))
  {
    var r := RequestOf(VISION, PUBLIC, Balanced);
    assert Admits(r)(Machine(1)) && Admits(r)(Machine(2));
    FilterEverything(HOUSE, Admits(r));
    assert Score(Machine(1), r, IDLE) == Score(Machine(2), r, IDLE);
  }

  /** Two stages, two equal machines, work that ignores the machine: without a gate and with a gate of one the values are
      the same, where they came from is not. */
  lemma MachinesMayDiffer() returns (a: Run<int>, b: Run<int>)
    ensures Finishes(a) && Finishes(b) && b.plan == a.plan.(maxParallel := 1)
    ensures a.plan == TwoStages(VISION, PUBLIC, Balanced, 0)
    ensures WorksOut(a.plan, a.states, a.es, Seven) && WorksOut(b.plan, b.states, b.es, Seven)
    ensures Produced(Outs(a)) == Produced(Outs(b)) && Outs(a) != Outs(b)
  {
    EqualMachinesTie();
    OnlyTwoValues(HOUSE, Machine(1), Machine(2));
    hide *;
    a, b := TieShows(VISION, PUBLIC, Balanced, HOUSE, Machine(1), Machine(2));
    HomeWorksOut(a, OnlyTwo(HOUSE, Machine(1), Machine(2)), Seven);
    HomeWorksOut(b, OnlyTwo(HOUSE, Machine(1), Machine(2)), Seven);
  }
}
