/** The waves a whole task went through, however its stages overlapped. */
module Waves {
  import opened Common
  import opened Distributed
  import opened Scheduler

  ghost function JobsOf<V>(tasks: seq<Task<V>>): (jobs: seq<Job>)
    ensures |jobs| == |tasks| && forall k | 0 <= k < |jobs| :: jobs[k] == tasks[k].job
  {
    seq(|tasks|, k requires 0 <= k < |tasks| => tasks[k].job)
  }

  /** The waves recorded by the first `n` steps of a run, in order. */
  ghost function WavesOf<V>(states: seq<State<V>>, es: seq<Event<V>>, n: nat): seq<seq<Job>>
    requires n <= |es| && |states| == |es| + 1
  {
    if n == 0 then []
    else WavesOf(states, es, n - 1) + if es[n - 1].NextWave? then [JobsOf(states[n - 1].tasks)] else []
  }

  /** The stages of a wave are some of the plan's, and recorded. */
  ghost predicate WavePlanned(jobs: seq<Job>, names: set<string>, wave: seq<Job>) {
    forall job | job in wave :: job in jobs && job.name in names
  }

  ghost predicate Planned(jobs: seq<Job>, names: set<string>, waves: seq<seq<Job>>) {
    forall v | 0 <= v < |waves| :: WavePlanned(jobs, names, waves[v])
  }

  lemma PlannedAppend(jobs: seq<Job>, names: set<string>, more: set<string>, waves: seq<seq<Job>>, wave: seq<Job>)
    requires Planned(jobs, names, waves) && names <= more && WavePlanned(jobs, more, wave)
    ensures Planned(jobs, more, waves + [wave])
  {
    forall v | 0 <= v < |waves + [wave]| ensures WavePlanned(jobs, more, (waves + [wave])[v]) {
      if v < |waves| {
        assert WavePlanned(jobs, names, waves[v]);
      }
    }
  }

  lemma WaveKeepsLayers<V>(
      jobs: seq<Job>, outs: Outcomes<V>, outs': Outcomes<V>, waves: seq<seq<Job>>, wave: seq<Job>, before: map<string, V>)
    requires Layered(jobs, outs, waves, before) && Planned(jobs, outs.Keys, waves)
    requires wave == Wave(jobs, outs.Keys, Produced(outs)) && wave != []
    requires outs'.Keys == outs.Keys + Names(wave) && Extends(outs, outs')
    ensures Layered(jobs, outs', waves + [wave], Produced(outs)) && Planned(jobs, outs'.Keys, waves + [wave])
  {
    assert WavePlanned(jobs, outs'.Keys, wave);
    hide *;
    StillLayered(jobs, outs, outs', waves, wave, before);
    PlannedAppend(jobs, outs.Keys, outs'.Keys, waves, wave);
  }

  lemma NextWaveOf<V>(plan: Plan, s: State<V>)
    requires OutcomesKept(plan, s) && Enabled(plan, s, NextWave)
    ensures var wave, outs' := JobsOf(s.tasks), Apply(plan, s, NextWave).outs;
            && wave == Wave(plan.jobs, s.outs.Keys, Produced(s.outs)) && wave != []
            && outs'.Keys == s.outs.Keys + Names(wave) && Extends(s.outs, outs')
  {
    TasksAreWave(plan, s);
    WaveIsRecorded(plan, s);
    AfterWave(plan, s);
    JobsOfWave(s.tasks, Wave(plan.jobs, s.outs.Keys, Produced(s.outs)));
    SomeTasks(plan, s);
    hide *;
    assert |JobsOf(s.tasks)| == |s.tasks|;
  }

  lemma SomeTasks<V>(plan: Plan, s: State<V>)
    requires Enabled(plan, s, NextWave)
    ensures s.tasks != []
  {
    hide Routed, Wave;
  }

  lemma JobsOfWave<V>(tasks: seq<Task<V>>, wave: seq<Job>)
    requires |tasks| == |wave| && forall k | 0 <= k < |wave| :: tasks[k].job == wave[k]
    ensures JobsOf(tasks) == wave
  {
  }

  lemma NothingLayered<V>(jobs: seq<Job>)
    ensures var none: Outcomes<V> := map[]; Layered(jobs, none, [], map[]) && Planned(jobs, none.Keys, [])
  {
  }

  lemma OutcomesOfSound<V>(plan: Plan, s: State<V>)
    requires Sound(plan, s)
    ensures OutcomesKept(plan, s)
  {
  }

  /** In every reachable state, each wave recorded so far was as early as the inputs of its stages allowed, none was empty,
      and together they are exactly the stages recorded. */
  lemma {:induction false} WavesAreEarliest<V>(
      plan: Plan, defaultLimit: nat, states: seq<State<V>>, es: seq<Event<V>>, n: nat)
    returns (before: map<string, V>)
    requires DistinctNames(plan.jobs) && defaultLimit >= 1 && IsRun(plan, defaultLimit, states, es) && n <= |es|
    ensures Layered(plan.jobs, states[n].outs, WavesOf(states, es, n), before)
    ensures Planned(plan.jobs, states[n].outs.Keys, WavesOf(states, es, n))
  {
    hide Layered, Planned, Enabled, Apply, Sound, OutcomesKept;
    if n == 0 {
      NothingLayered<V>(plan.jobs);
      before := map[];
    } else {
      before := WavesAreEarliest(plan, defaultLimit, states, es, n - 1);
      RunIsSound(plan, defaultLimit, states, es, n - 1);
      StepOfRun(plan, defaultLimit, states, es, n - 1);
      hide IsRun;
      var s, waves := states[n - 1], WavesOf(states, es, n - 1);
      OutcomesOfSound(plan, s);
      if es[n - 1].NextWave? {
        NextWaveOf(plan, s);
        WaveKeepsLayers(plan.jobs, s.outs, states[n].outs, waves, JobsOf(s.tasks), before);
        before := Produced(s.outs);
      } else {
        TaskStepKeepsOutcomes(plan, s, es[n - 1]);
        assert waves + [] == waves;
      }
    }
  }

  /** No run goes through more waves than the fewest rounds into which the stages it recorded can be put so that each
      comes after all it needs. */
  lemma RunTakesFewestWaves<V>(
      plan: Plan, defaultLimit: nat, states: seq<State<V>>, es: seq<Event<V>>, round: string -> nat, count: nat)
    requires DistinctNames(plan.jobs) && defaultLimit >= 1 && IsRun(plan, defaultLimit, states, es)
    requires forall job | job in plan.jobs && job.name in states[|es|].outs ::
               round(job.name) < count && forall n | n in job.needs :: round(n) < round(job.name)
    ensures |WavesOf(states, es, |es|)| <= count
  {
    var waves := WavesOf(states, es, |es|);
    var before := WavesAreEarliest(plan, defaultLimit, states, es, |es|);
    hide IsRun, WavesOf;
    forall v, job | 0 <= v < |waves| && job in waves[v]
      ensures job in plan.jobs && job.name in states[|es|].outs
    {
      assert WavePlanned(plan.jobs, states[|es|].outs.Keys, waves[v]);
    }
    FewestWaves(waves, round, count);
  }
}
