/** What a finished task produced, whatever the interleaving, the routing and the limits were. */
module Agreement {
  import opened Common
  import opened Router
  import opened Distributed
  import opened Scheduler
  import E = Executor

  /** The work gives the value of a stage and its declared inputs, at whatever target it answers at all. */
  ghost predicate WorksOut<V>(
      plan: Plan, states: seq<State<V>>, es: seq<Event<V>>, value: (Job, map<string, V>) -> V)
  {
    forall i | 0 <= i < |es| && i < |states| :: Honest(states[i], es[i], value)
  }

  ghost predicate Honest<V>(s: State<V>, e: Event<V>, value: (Job, map<string, V>) -> V) {
    e.Finish? && e.k < |s.tasks| && !e.verdict.Passed? ==>
      e.verdict.value == value(s.tasks[e.k].job, Inputs(s.tasks[e.k].job, Produced(s.outs)))
  }

  ghost predicate HasValues<V>(t: Task<V>, produced: map<string, V>, value: (Job, map<string, V>) -> V) {
    forall i | 0 <= i < |t.verdicts| && !t.verdicts[i].Passed? ::
      t.verdicts[i].value == value(t.job, Inputs(t.job, produced))
  }

  ghost predicate ValuesKept<V>(plan: Plan, s: State<V>, value: (Job, map<string, V>) -> V) {
    && Valued(plan.jobs, s.outs, value)
    && forall i | 0 <= i < |s.tasks| :: HasValues(s.tasks[i], Produced(s.outs), value)
  }

  lemma MoveKeepsValues<V>(s: State<V>, e: Event<V>, t': Task<V>, value: (Job, map<string, V>) -> V)
    requires (e.Start? || e.Skip? || e.AskSlot? || e.Admit? || e.Finish?) && e.k < |s.tasks|
    requires TaskMoves(s.tasks[e.k], e, t') && Honest(s, e, value) && HasValues(s.tasks[e.k], Produced(s.outs), value)
    ensures HasValues(t', Produced(s.outs), value)
  {
    hide Produced, Inputs;
  }

  lemma TaskStepKeepsValues<V>(plan: Plan, s: State<V>, e: Event<V>, value: (Job, map<string, V>) -> V)
    requires ValuesKept(plan, s, value) && Enabled(plan, s, e) && Honest(s, e, value) && !e.NextWave?
    ensures ValuesKept(plan, Apply(plan, s, e), value)
  {
    if !e.Resize? {
      TaskStep(plan, s, e);
      var s' := Apply(plan, s, e);
      MoveKeepsValues(s, e, s'.tasks[e.k], value);
      hide Apply, Enabled, TaskMoves, HasValues, Valued;
    }
  }

  /** The stage of a job is the one the wave recorded under its name. */
  lemma WaveStage<V>(plan: Plan, s: State<V>, job: Job) returns (k: nat)
    requires OutcomesKept(plan, s) && job in plan.jobs && job.name !in s.outs
    requires job.name in Record(s.outs, s.tasks)
    ensures k < |s.tasks| && s.tasks[k].job == job && Runnable(plan.jobs, s.outs, job)
    ensures Record(s.outs, s.tasks)[job.name] == StageOf(s.tasks[k].chain, s.tasks[k].verdicts)
  {
    WaveIsRecorded(plan, s);
    TasksAreWave(plan, s);
    var wave := Wave(plan.jobs, s.outs.Keys, Produced(s.outs));
    hide Wave, Record, StageOf, Grown, Produced, Runnable;
    assert job.name in Names(wave);
    var same :| same in wave && same.name == job.name;
    k :| 0 <= k < |wave| && wave[k] == same;
    assert Runnable(plan.jobs, s.outs, same);
    SameJob(plan, s.outs, same, job);
  }

  lemma SameJob<V>(plan: Plan, outs: Outcomes<V>, a: Job, b: Job)
    requires DistinctNames(plan.jobs) && Runnable(plan.jobs, outs, a) && b in plan.jobs && a.name == b.name
    ensures a == b
  {
  }

  lemma RecordedReady<V>(plan: Plan, s: State<V>, job: Job)
    requires OutcomesKept(plan, s) && job in plan.jobs && job.name in s.outs
    ensures Ready(job, Produced(s.outs))
  {
    var order := SomeOrder(plan, s);
    assert job.name in Names(order);
    var same :| same in order && same.name == job.name;
    var k :| 0 <= k < |order| && order[k] == same;
    assert NeedsMet(order, s.outs, k) && same == job;
  }

  lemma RecordedStaysValued<V>(plan: Plan, s: State<V>, job: Job, value: (Job, map<string, V>) -> V)
    requires ValuesKept(plan, s, value) && OutcomesKept(plan, s)
    requires job in plan.jobs && job.name in Record(s.outs, s.tasks) && Record(s.outs, s.tasks)[job.name].Ran?
    ensures var outs := Record(s.outs, s.tasks); outs[job.name].value == value(job, Inputs(job, Produced(outs)))
  {
    var outs := Record(s.outs, s.tasks);
    WaveIsRecorded(plan, s);
    hide Record, Wave, Grown;
    if job.name in s.outs {
      RecordedReady(plan, s, job);
      assert outs[job.name] == s.outs[job.name];
    } else {
      var k := WaveStage(plan, s, job);
      var t := s.tasks[k];
      assert HasValues(t, Produced(s.outs), value);
      var at := AnswerAt(t.verdicts);
      assert outs[job.name].value == t.verdicts[at.value].value;
    }
    InputsAreStable(job, s.outs, outs);
  }

  lemma NextWaveKeepsValues<V>(plan: Plan, s: State<V>, value: (Job, map<string, V>) -> V)
    requires ValuesKept(plan, s, value) && OutcomesKept(plan, s) && Enabled(plan, s, NextWave)
    ensures ValuesKept(plan, Apply(plan, s, NextWave), value)
  {
    var outs := Record(s.outs, s.tasks);
    hide Record, Wave, OutcomesKept;
    forall job | job in plan.jobs && job.name in outs && outs[job.name].Ran?
      ensures outs[job.name].value == value(job, Inputs(job, Produced(outs)))
    {
      RecordedStaysValued(plan, s, job, value);
    }
  }

  lemma {:induction false} RunKeepsValues<V>(
      plan: Plan, defaultLimit: nat, states: seq<State<V>>, es: seq<Event<V>>, n: nat,
      value: (Job, map<string, V>) -> V)
    requires DistinctNames(plan.jobs) && defaultLimit >= 1 && IsRun(plan, defaultLimit, states, es) && n < |states|
    requires WorksOut(plan, states, es, value)
    ensures ValuesKept(plan, states[n], value)
  {
    if n > 0 {
      RunKeepsValues(plan, defaultLimit, states, es, n - 1, value);
      RunIsSound(plan, defaultLimit, states, es, n - 1);
      StepOfRun(plan, defaultLimit, states, es, n - 1);
      assert Honest(states[n - 1], es[n - 1], value);
      hide ValuesKept, Enabled, Apply, IsRun, Honest, SlotsKept, WalksKept, PrivacyKept, OutcomesKept;
      if es[n - 1].NextWave? {
        NextWaveKeepsValues(plan, states[n - 1], value);
      } else {
        TaskStepKeepsValues(plan, states[n - 1], es[n - 1], value);
      }
    }
  }

  // -------------------------------------------------------------- finished runs

  /** A plan and one of its runs to the end. */
  datatype Run<V> = Run(plan: Plan, defaultLimit: nat, states: seq<State<V>>, es: seq<Event<V>>)

  ghost predicate Finishes<V>(r: Run<V>) {
    && DistinctNames(r.plan.jobs) && r.defaultLimit >= 1 && IsRun(r.plan, r.defaultLimit, r.states, r.es)
    && r.states[|r.es|].tasks == []
  }

  ghost function Outs<V>(r: Run<V>): Outcomes<V>
    requires Finishes(r)
  {
    r.states[|r.es|].outs
  }

  /** What a finished run recorded does not depend on how its stages overlapped: given what each stage got, every
      complete one-at-a-time run, of any listing of the plan and in any order, records exactly the same. */
  lemma OverlapDoesNotMatter<V>(r: Run<V>, listing: seq<Job>, order: seq<Job>)
    requires Finishes(r) && multiset(listing) == multiset(r.plan.jobs)
    requires Schedule(listing, order, Recorded(Outs(r))) && Finished(listing, OneByOne(order, Recorded(Outs(r))))
    ensures OneByOne(order, Recorded(Outs(r))) == Outs(r)
  {
    FinishedRunReleases(r.plan, r.defaultLimit, r.states, r.es);
    hide IsRun, Schedule, Finished, Recorded, Grown, OneByOne;
    var ours :| Grown(r.plan.jobs, ours, Outs(r));
    GrownIsOneByOne(r.plan.jobs, ours, Outs(r));
    Confluence(r.plan.jobs, listing, ours, order, Recorded(Outs(r)));
  }

  lemma GrownForListing<V>(jobs: seq<Job>, listing: seq<Job>, outs: Outcomes<V>)
    requires multiset(jobs) == multiset(listing) && (exists order :: Grown(listing, order, outs)) && Finished(listing, outs)
    ensures (exists order :: Grown(jobs, order, outs)) && Finished(jobs, outs)
  {
    SameStages(jobs, listing);
    var order :| Grown(listing, order, outs);
    assert Grown(jobs, order, outs);
  }

  lemma ValuedForListing<V>(jobs: seq<Job>, listing: seq<Job>, outs: Outcomes<V>, value: (Job, map<string, V>) -> V)
    requires multiset(jobs) == multiset(listing) && Valued(listing, outs, value)
    ensures Valued(jobs, outs, value)
  {
    SameStages(jobs, listing);
  }

  lemma FinishedFacts<V>(r: Run<V>, jobs: seq<Job>, value: (Job, map<string, V>) -> V)
    requires Finishes(r) && WorksOut(r.plan, r.states, r.es, value) && multiset(jobs) == multiset(r.plan.jobs)
    ensures (exists order :: Grown(jobs, order, Outs(r))) && Finished(jobs, Outs(r)) && Valued(jobs, Outs(r), value)
  {
    FinishedRunReleases(r.plan, r.defaultLimit, r.states, r.es);
    RunKeepsValues(r.plan, r.defaultLimit, r.states, r.es, |r.es|, value);
    hide IsRun, Grown, Finished, Valued, WorksOut;
    GrownForListing(jobs, r.plan.jobs, Outs(r));
    ValuedForListing(jobs, r.plan.jobs, Outs(r), value);
  }

  /** Two finished runs of the same stages, listed, gated, limited, routed and interleaved in whatever ways, the same
      targets failing or others: they produce the same values under the same names if and only if the same stages got an
      answer. The machines that answered may differ. */
  lemma FinishedRunsAgreeIffSameAnswered<V>(a: Run<V>, b: Run<V>, value: (Job, map<string, V>) -> V)
    requires Finishes(a) && Finishes(b) && multiset(a.plan.jobs) == multiset(b.plan.jobs)
    requires WorksOut(a.plan, a.states, a.es, value) && WorksOut(b.plan, b.states, b.es, value)
    ensures Produced(Outs(a)) == Produced(Outs(b)) <==> Answered(Outs(a)) == Answered(Outs(b))
    ensures Produced(Outs(a)) == Produced(Outs(b)) ==> Outs(a).Keys == Outs(b).Keys
  {
    var jobs := a.plan.jobs;
    FinishedFacts(a, jobs, value);
    FinishedFacts(b, jobs, value);
    hide Finishes, Finished, Valued, WorksOut, Outs, Grown, Produced, Answered;
    var orderA :| Grown(jobs, orderA, Outs(a));
    var orderB :| Grown(jobs, orderB, Outs(b));
    ProducedAgreeIffSameAnswered(jobs, orderA, Outs(a), Outs(b), value);
    if Produced(Outs(a)) == Produced(Outs(b)) {
      RecordedWithin(jobs, orderA, Outs(a), Outs(b));
      RecordedWithin(jobs, orderB, Outs(b), Outs(a));
    }
  }

  lemma RecordedWithin<V>(jobs: seq<Job>, order: seq<Job>, a: Outcomes<V>, b: Outcomes<V>)
    requires Grown(jobs, order, a) && Finished(jobs, b) && Produced(a) == Produced(b)
    ensures a.Keys <= b.Keys
  {
    forall n | n in a.Keys ensures n in b.Keys {
      assert n in Names(order);
      var job :| job in order && job.name == n;
      var k :| 0 <= k < |order| && order[k] == job;
      assert NeedsMet(order, a, k);
      assert Ready(job, Produced(b)) && !Runnable(jobs, b, job);
    }
  }

  /** When whether a stage gets an answer is decided by its declared inputs too, all finished runs record the same stages
      and produce the same, whatever `max_parallel`, the limits and the routing were. */
  lemma FinishedRunsAgree<V>(
      a: Run<V>, b: Run<V>, value: (Job, map<string, V>) -> V, answers: (Job, map<string, V>) -> bool)
    requires Finishes(a) && Finishes(b) && multiset(a.plan.jobs) == multiset(b.plan.jobs)
    requires WorksOut(a.plan, a.states, a.es, value) && WorksOut(b.plan, b.states, b.es, value)
    requires AnsweredBy(a.plan.jobs, Outs(a), answers) && AnsweredBy(a.plan.jobs, Outs(b), answers)
    ensures Outs(a).Keys == Outs(b).Keys && Produced(Outs(a)) == Produced(Outs(b))
  {
    var jobs := a.plan.jobs;
    FinishedFacts(a, jobs, value);
    FinishedFacts(b, jobs, value);
    hide Finishes, Finished, Valued, WorksOut, Outs, Grown, Produced, AnsweredBy;
    var orderA :| Grown(jobs, orderA, Outs(a));
    var orderB :| Grown(jobs, orderB, Outs(b));
    RoutingDoesNotMatter(jobs, orderA, Outs(a), orderB, Outs(b), value, answers);
  }
}
