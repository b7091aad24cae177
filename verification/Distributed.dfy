/** One task as a graph of stages: the wave runner, and the one-stage-at-a-time runner it must agree with. */
module Distributed {
  import opened Common
  import opened Router

  datatype Job = Job(
    name: string, capability: string, sensitivity: Sensitivity, profile: Option<Profile>,
    heavy: bool, optional: bool, needs: seq<string>)

  /** What a stage produced and where, or why it did not run. */
  datatype Stage<V> =
    | Ran(value: V, device: Option<Device>, model: string, degraded: bool)
    | Failed(error: string)

  /** The work of a stage, routing and fallbacks included, as a function of the stage and its declared inputs. */
  type Work<!V> = (Job, map<string, V>) -> Stage<V>

  type Outcomes<V> = map<string, Stage<V>>

  /** The request a stage is routed with: the task's sensitivity is a floor under the stage's own. */
  function RequestFor(job: Job, sensitivity: Sensitivity, profile: Profile): (r: Request)
    ensures r.sensitivity >= sensitivity && r.sensitivity >= job.sensitivity
    ensures r.sensitivity == sensitivity || r.sensitivity == job.sensitivity
  {
    Request(job.capability, if sensitivity > job.sensitivity then sensitivity else job.sensitivity,
            if job.profile.Some? then job.profile.value else profile, Auto, None, job.heavy, false)
  }

  function Produced<V>(outs: Outcomes<V>): map<string, V> {
    map n | n in outs && outs[n].Ran? :: outs[n].value
  }

  predicate Ready<V>(job: Job, produced: map<string, V>) {
    forall n | n in job.needs :: n in produced
  }

  /** What a stage is handed: the outputs it declared, and nothing else. */
  function Inputs<V>(job: Job, produced: map<string, V>): map<string, V> {
    map n | n in job.needs && n in produced :: produced[n]
  }

  ghost predicate DistinctNames(jobs: seq<Job>) {
    forall i, j | 0 <= i < j < |jobs| :: jobs[i].name != jobs[j].name
  }

  // -------------------------------------------------------------- the reference: one enabled stage at a time

  predicate Runnable<V>(jobs: seq<Job>, outs: Outcomes<V>, job: Job) {
    job in jobs && job.name !in outs && Ready(job, Produced(outs))
  }

  ghost predicate Finished<V>(jobs: seq<Job>, outs: Outcomes<V>) {
    forall job | job in jobs :: !Runnable(jobs, outs, job)
  }

  function RunNext<V>(outs: Outcomes<V>, job: Job, work: Work<V>): Outcomes<V> {
    outs[job.name := work(job, Inputs(job, Produced(outs)))]
  }

  function OneByOne<V>(order: seq<Job>, work: Work<V>): Outcomes<V> {
    if order == [] then map[] else RunNext(OneByOne(order[..|order| - 1], work), order[|order| - 1], work)
  }

  /** Every stage in `order` was runnable when its turn came. */
  ghost predicate Schedule<V>(jobs: seq<Job>, order: seq<Job>, work: Work<V>) {
    order != [] ==>
      var before := order[..|order| - 1];
      Schedule(jobs, before, work) && Runnable(jobs, OneByOne(before, work), order[|order| - 1])
  }

  // -------------------------------------------------------------- confluence

  /** Every outcome is what its stage makes of its declared inputs, taken from the outcomes themselves. */
  ghost predicate Consistent<V>(jobs: seq<Job>, outs: Outcomes<V>, work: Work<V>) {
    forall n | n in outs ::
      exists job | job in jobs :: job.name == n && Ready(job, Produced(outs)) && outs[n] == work(job, Inputs(job, Produced(outs)))
  }

  ghost predicate Extends<V>(less: Outcomes<V>, more: Outcomes<V>) {
    forall n | n in less :: n in more && more[n] == less[n]
  }

  lemma InputsAreStable<V>(job: Job, less: Outcomes<V>, more: Outcomes<V>)
    requires Extends(less, more) && Ready(job, Produced(less))
    ensures Ready(job, Produced(more)) && Inputs(job, Produced(more)) == Inputs(job, Produced(less))
  {
  }

  lemma {:induction false} ScheduleIsConsistent<V>(jobs: seq<Job>, order: seq<Job>, work: Work<V>)
    requires Schedule(jobs, order, work)
    ensures Consistent(jobs, OneByOne(order, work), work)
  {
    if order != [] {
      var before, last := order[..|order| - 1], order[|order| - 1];
      ScheduleIsConsistent(jobs, before, work);
      var less, more := OneByOne(before, work), OneByOne(order, work);
      assert Extends(less, more);
      InputsAreStable(last, less, more);
      forall n | n in more
        ensures exists job | job in jobs :: job.name == n && Ready(job, Produced(more)) && more[n] == work(job, Inputs(job, Produced(more)))
      {
        if n in less {
          var job :| job in jobs && job.name == n && Ready(job, Produced(less)) && less[n] == work(job, Inputs(job, Produced(less)));
          InputsAreStable(job, less, more);
        }
      }
    }
  }

  lemma {:induction false} ScheduleStaysBelow<V>(jobs: seq<Job>, order: seq<Job>, work: Work<V>, final: Outcomes<V>)
    requires DistinctNames(jobs) && Schedule(jobs, order, work)
    requires Consistent(jobs, final, work) && Finished(jobs, final)
    ensures Extends(OneByOne(order, work), final)
  {
    if order != [] {
      var before, last := order[..|order| - 1], order[|order| - 1];
      ScheduleStaysBelow(jobs, before, work, final);
      InputsAreStable(last, OneByOne(before, work), final);
      assert last.name in final;
      var job :| job in jobs && job.name == last.name && final[last.name] == work(job, Inputs(job, Produced(final)));
      assert job == last;
    }
  }

  /** Any two complete one-at-a-time runs, in any order and from any listing of the same stages, agree on every outcome. */
  lemma Confluence<V>(jobs: seq<Job>, listing: seq<Job>, a: seq<Job>, b: seq<Job>, work: Work<V>)
    requires DistinctNames(jobs) && multiset(listing) == multiset(jobs)
    requires Schedule(jobs, a, work) && Finished(jobs, OneByOne(a, work))
    requires Schedule(listing, b, work) && Finished(listing, OneByOne(b, work))
    ensures OneByOne(a, work) == OneByOne(b, work)
  {
    SameStages(jobs, listing);
    ScheduleOfListing(jobs, listing, b, work);
    ScheduleIsConsistent(jobs, a, work);
    ScheduleIsConsistent(jobs, b, work);
    ScheduleStaysBelow(jobs, a, work, OneByOne(b, work));
    ScheduleStaysBelow(jobs, b, work, OneByOne(a, work));
  }

  lemma SameStages(jobs: seq<Job>, listing: seq<Job>)
    requires multiset(listing) == multiset(jobs)
    ensures forall job :: job in listing <==> job in jobs
  {
    forall job ensures job in listing <==> job in jobs {
      assert job in listing <==> job in multiset(listing);
    }
  }

  lemma {:induction false} ScheduleOfListing<V>(jobs: seq<Job>, listing: seq<Job>, order: seq<Job>, work: Work<V>)
    requires Schedule(listing, order, work) && forall job :: job in listing <==> job in jobs
    ensures Schedule(jobs, order, work)
  {
    if order != [] {
      ScheduleOfListing(jobs, listing, order[..|order| - 1], work);
    }
  }

  /** In a complete run a stage ran exactly when every input it declared was produced. */
  lemma RanIffInputsProduced<V>(jobs: seq<Job>, order: seq<Job>, work: Work<V>, job: Job)
    requires DistinctNames(jobs) && Schedule(jobs, order, work) && Finished(jobs, OneByOne(order, work)) && job in jobs
    ensures var outs := OneByOne(order, work); job.name in outs <==> Ready(job, Produced(outs))
    ensures var outs := OneByOne(order, work); job.name in outs ==> outs[job.name] == work(job, Inputs(job, Produced(outs)))
  {
    ScheduleIsConsistent(jobs, order, work);
    var outs := OneByOne(order, work);
    if job.name in outs {
      var same :| same in jobs && same.name == job.name && Ready(same, Produced(outs)) && outs[job.name] == work(same, Inputs(same, Produced(outs)));
      assert same == job;
    }
  }

  /** Stages that wait for each other, for themselves or for a name nobody produces never run, in any order. */
  lemma {:induction false} CyclesNeverRun<V>(jobs: seq<Job>, order: seq<Job>, work: Work<V>, stuck: set<string>)
    requires DistinctNames(jobs) && Schedule(jobs, order, work)
    requires forall job | job in jobs && job.name in stuck ::
               exists n | n in job.needs :: n in stuck || forall other | other in jobs :: other.name != n
    ensures forall n | n in stuck :: n !in OneByOne(order, work)
    ensures forall n | n in OneByOne(order, work) :: exists job | job in jobs :: job.name == n
  {
    if order != [] {
      CyclesNeverRun(jobs, order[..|order| - 1], work, stuck);
    }
  }

  // -------------------------------------------------------------- the wave runner

  /** The stages not yet run whose declared inputs exist, in the caller's order. */
  function Wave<V>(jobs: seq<Job>, done: set<string>, produced: map<string, V>): (wave: seq<Job>)
    ensures forall job :: job in wave <==> job in jobs && job.name !in done && Ready(job, produced)
    ensures DistinctNames(jobs) ==> DistinctNames(wave)
  {
    if jobs == [] then []
    else
      var last := jobs[|jobs| - 1];
      Wave(jobs[..|jobs| - 1], done, produced) + if last.name !in done && Ready(last, produced) then [last] else []
  }

  ghost function Names(jobs: seq<Job>): set<string> {
    set job | job in jobs :: job.name
  }

  /** After the waves in `before`, and directly after the last of them: some input came only then. */
  ghost predicate Follows(before: seq<seq<Job>>, job: Job) {
    && (forall n | n in job.needs :: exists wave | wave in before :: n in Names(wave))
    && (before != [] ==> exists n | n in job.needs :: n in Names(before[|before| - 1]))
  }

  /** Each stage runs as early as its inputs allow. */
  ghost predicate Earliest(waves: seq<seq<Job>>) {
    forall w, job | 0 <= w < |waves| && job in waves[w] :: Follows(waves[..w], job)
  }

  /** A stage that was runnable when its wave began is a valid next stage as long as it has not run, with the same outcome. */
  lemma LaterInWave<V>(jobs: seq<Job>, job: Job, work: Work<V>, outs: Outcomes<V>, now: Outcomes<V>, order: seq<Job>)
    requires Schedule(jobs, order, work) && now == OneByOne(order, work)
    requires Runnable(jobs, outs, job) && Extends(outs, now) && job.name !in now
    ensures Schedule(jobs, order + [job], work)
    ensures OneByOne(order + [job], work) == now[job.name := work(job, Inputs(job, Produced(outs)))]
  {
    InputsAreStable(job, outs, now);
    assert (order + [job])[..|order|] == order;
  }

  lemma ProducedRecord<V>(outs: Outcomes<V>, name: string, stage: Stage<V>)
    requires name !in outs
    ensures Produced(outs[name := stage]) == if stage.Ran? then Produced(outs)[name := stage.value] else Produced(outs)
    ensures Extends(outs, outs[name := stage])
  {
  }

  lemma NamesAppend(jobs: seq<Job>, more: seq<Job>)
    ensures Names(jobs + more) == Names(jobs) + Names(more)
  {
    assert forall job :: job in jobs + more <==> job in jobs || job in more;
  }

  /** `now` and `produced` part-way through a wave that began at `outs`, the stages so far having run in the order `soFar`. */
  ghost predicate PartWay<V>(
      jobs: seq<Job>, work: Work<V>, outs: Outcomes<V>, soFar: seq<Job>, now: Outcomes<V>, produced: map<string, V>) {
    Schedule(jobs, soFar, work) && now == OneByOne(soFar, work) && produced == Produced(now) && Extends(outs, now)
  }

  lemma PartWayNext<V>(
      jobs: seq<Job>, work: Work<V>, outs: Outcomes<V>, soFar: seq<Job>, now: Outcomes<V>, produced: map<string, V>, job: Job)
    requires PartWay(jobs, work, outs, soFar, now, produced) && Runnable(jobs, outs, job) && job.name !in now
    ensures var stage := work(job, Inputs(job, Produced(outs)));
            PartWay(jobs, work, outs, soFar + [job], now[job.name := stage],
                    if stage.Ran? then produced[job.name := stage.value] else produced)
  {
    LaterInWave(jobs, job, work, outs, now, soFar);
    ProducedRecord(now, job.name, work(job, Inputs(job, Produced(outs))));
  }

  lemma KeysRecord<V>(outs: Outcomes<V>, now: Outcomes<V>, names: set<string>, name: string, stage: Stage<V>)
    requires now.Keys == outs.Keys + names
    ensures now[name := stage].Keys == outs.Keys + (names + {name})
  {
  }

  lemma NextNameIsNew(wave: seq<Job>, i: nat)
    requires i < |wave| && DistinctNames(wave)
    ensures wave[i].name !in Names(wave[..i])
    ensures Names(wave[..i + 1]) == Names(wave[..i]) + {wave[i].name}
  {
    assert wave[..i + 1] == wave[..i] + [wave[i]];
    NamesAppend(wave[..i], [wave[i]]);
  }

  /** Runs all the stages of one wave and records them in order; their inputs were fixed before the wave began. */
  method RunWave<V>(jobs: seq<Job>, wave: seq<Job>, work: Work<V>, outs: Outcomes<V>, ghost order: seq<Job>)
    returns (outs': Outcomes<V>, produced': map<string, V>)
    requires DistinctNames(wave) && forall job | job in wave :: Runnable(jobs, outs, job)
    requires Schedule(jobs, order, work) && outs == OneByOne(order, work)
    ensures PartWay(jobs, work, outs, order + wave, outs', produced')
    ensures outs'.Keys == outs.Keys + Names(wave)
  {
    outs', produced' := outs, Produced(outs);
    ghost var soFar, names := order, Names(wave[..0]);
    for i := 0 to |wave|
      invariant PartWay(jobs, work, outs, soFar, outs', produced')
      invariant outs'.Keys == outs.Keys + names
      invariant soFar == order + wave[..i] && names == Names(wave[..i])
    {
      var job := wave[i];
      assert Runnable(jobs, outs, job) by { assert job in wave; }
      NextNameIsNew(wave, i);
      PartWayNext(jobs, work, outs, soFar, outs', produced', job);
      TakeNext(order, wave, i);
      var stage := work(job, Inputs(job, Produced(outs)));
      KeysRecord(outs, outs', names, job.name, stage);
      soFar, names := soFar + [job], names + {job.name};
      outs' := outs'[job.name := stage];
      produced' := if stage.Ran? then produced'[job.name := stage.value] else produced';
    }
    assert wave[..|wave|] == wave;
  }

  /** What the wave loop keeps: `before` is what had been produced when the last wave was chosen. */
  ghost predicate Layered<V>(jobs: seq<Job>, outs: Outcomes<V>, waves: seq<seq<Job>>, before: map<string, V>) {
    && Earliest(waves)
    && outs.Keys == Names(Flatten(waves))
    && (forall wave | wave in waves :: wave != [])
    && (waves != [] ==>
          && (forall n | n in Produced(outs) :: n in before || n in Names(waves[|waves| - 1]))
          && (forall job | job in jobs && job.name !in outs :: !Ready(job, before)))
  }

  /** Runs waves until none is left; the result is that of a complete one-at-a-time run, each stage in its earliest wave. */
  method RunWaves<V>(jobs: seq<Job>, work: Work<V>) returns (outs: Outcomes<V>, produced: map<string, V>, waves: seq<seq<Job>>)
    requires DistinctNames(jobs)
    ensures Schedule(jobs, Flatten(waves), work) && outs == OneByOne(Flatten(waves), work)
    ensures Finished(jobs, outs) && produced == Produced(outs)
    ensures Earliest(waves) && forall wave | wave in waves :: wave != []
    ensures outs.Keys == Names(Flatten(waves))
  {
    outs, produced, waves := map[], map[], [];
    ghost var before: map<string, V> := map[];
    while true
      invariant Schedule(jobs, Flatten(waves), work) && outs == OneByOne(Flatten(waves), work)
      invariant produced == Produced(outs)
      invariant Layered(jobs, outs, waves, before)
      decreases Names(jobs) - outs.Keys
    {
      var wave := Wave(jobs, outs.Keys, produced);
      if wave == [] {
        break;
      }
      assert wave[0] in wave;
      var outs', produced' := RunWave(jobs, wave, work, outs, Flatten(waves));
      FlattenAppend(waves, wave);
      StillLayered(jobs, outs, outs', waves, wave, before);
      assert wave[0].name in Names(jobs) - outs.Keys && wave[0].name in Names(wave);
      before, outs, produced, waves := produced, outs', produced', waves + [wave];
    }
  }

  lemma StillLayered<V>(
      jobs: seq<Job>, outs: Outcomes<V>, outs': Outcomes<V>, waves: seq<seq<Job>>, wave: seq<Job>, before: map<string, V>)
    requires Layered(jobs, outs, waves, before)
    requires wave == Wave(jobs, outs.Keys, Produced(outs)) && wave != []
    requires outs'.Keys == outs.Keys + Names(wave) && Extends(outs, outs')
    ensures Layered(jobs, outs', waves + [wave], Produced(outs))
  {
    FlattenAppend(waves, wave);
    NamesAppend(Flatten(waves), wave);
    forall job: Job | job in wave ensures Follows(waves, job) {
      WaveFollows(jobs, outs, waves, before, job);
    }
    EarliestAppend(waves, wave);
    forall job: Job | job in jobs && job.name !in outs' ensures !Ready(job, Produced(outs)) {
      assert job !in wave;
    }
  }

  lemma WaveFollows<V>(jobs: seq<Job>, outs: Outcomes<V>, waves: seq<seq<Job>>, before: map<string, V>, job: Job)
    requires Layered(jobs, outs, waves, before) && job in Wave(jobs, outs.Keys, Produced(outs))
    ensures Follows(waves, job)
  {
    forall n | n in job.needs ensures exists earlier | earlier in waves :: n in Names(earlier) {
      assert n in Produced(outs);
      NameInSomeWave(waves, n);
    }
  }

  lemma EarliestAppend(waves: seq<seq<Job>>, wave: seq<Job>)
    requires Earliest(waves) && forall job | job in wave :: Follows(waves, job)
    ensures Earliest(waves + [wave])
  {
    forall w, job: Job | 0 <= w < |waves + [wave]| && job in (waves + [wave])[w] ensures Follows((waves + [wave])[..w], job) {
      assert (waves + [wave])[..w] == waves[..w];
      assert waves[..|waves|] == waves;
    }
  }

  lemma {:induction false} NameInSomeWave(waves: seq<seq<Job>>, n: string)
    requires n in Names(Flatten(waves))
    ensures exists wave | wave in waves :: n in Names(wave)
  {
    var init, last := waves[..|waves| - 1], waves[|waves| - 1];
    if n in Names(last) {
      assert last in waves;
    } else {
      NameInSomeWave(init, n);
    }
  }

  /** No assignment of stages to rounds that puts every stage after its needs gives any stage an earlier round. */
  lemma {:induction false} NoEarlierRound(waves: seq<seq<Job>>, round: string -> nat, w: nat, job: Job)
    requires Earliest(waves) && w < |waves| && job in waves[w]
    requires forall v, other, n | 0 <= v < |waves| && other in waves[v] && n in other.needs :: round(n) < round(other.name)
    ensures round(job.name) >= w
    decreases w
  {
    if w > 0 {
      assert Follows(waves[..w], job) && waves[..w][w - 1] == waves[w - 1];
      var n :| n in job.needs && n in Names(waves[w - 1]);
      var need :| need in waves[w - 1] && need.name == n;
      NoEarlierRound(waves, round, w - 1, need);
    }
  }

  /** And no such grouping into rounds 0 .. count-1 has fewer rounds than there were waves. */
  lemma FewestWaves(waves: seq<seq<Job>>, round: string -> nat, count: nat)
    requires Earliest(waves) && forall wave | wave in waves :: wave != []
    requires forall v, other, n | 0 <= v < |waves| && other in waves[v] && n in other.needs :: round(n) < round(other.name)
    requires forall v, job | 0 <= v < |waves| && job in waves[v] :: round(job.name) < count
    ensures |waves| <= count
  {
    if waves != [] {
      var last := waves[|waves| - 1];
      assert last in waves;
      NoEarlierRound(waves, round, |waves| - 1, last[0]);
    }
  }

  // -------------------------------------------------------------- outcomes and the order they came in

  /** The outcomes of `order` and nothing else, each stage after all it needs. */
  ghost predicate Grown<V>(jobs: seq<Job>, order: seq<Job>, outs: Outcomes<V>) {
    && DistinctNames(order) && (forall job | job in order :: job in jobs) && outs.Keys == Names(order)
    && forall i | 0 <= i < |order| :: NeedsMet(order, outs, i)
  }

  /** All that stage `i` of `order` needs was produced before it. */
  ghost predicate NeedsMet<V>(order: seq<Job>, outs: Outcomes<V>, i: nat)
    requires i < |order|
  {
    forall n | n in order[i].needs :: n in Names(order[..i]) && n in outs && outs[n].Ran?
  }

  lemma GrownByWave<V>(jobs: seq<Job>, order: seq<Job>, outs: Outcomes<V>, wave: seq<Job>, outs': Outcomes<V>)
    requires Grown(jobs, order, outs) && DistinctNames(wave)
    requires forall job | job in wave :: Runnable(jobs, outs, job)
    requires outs'.Keys == outs.Keys + Names(wave) && Extends(outs, outs')
    ensures Grown(jobs, order + wave, outs')
  {
    var longer := order + wave;
    NamesAppend(order, wave);
    forall i, j | 0 <= i < j < |longer| ensures longer[i].name != longer[j].name {
      if i < |order| <= j {
        assert longer[i] in order && longer[j] in wave;
      }
    }
    forall i | 0 <= i < |longer| ensures NeedsMet(longer, outs', i) {
      if i < |order| {
        assert longer[..i] == order[..i] && longer[i] == order[i] && NeedsMet(order, outs, i);
      } else {
        assert longer[..i] == order + wave[..i - |order|] && longer[i] == wave[i - |order|];
        NeededByWave(jobs, order, outs, wave, i - |order|);
      }
    }
  }

  lemma NeededByWave<V>(jobs: seq<Job>, order: seq<Job>, outs: Outcomes<V>, wave: seq<Job>, k: nat)
    requires Grown(jobs, order, outs) && k < |wave| && forall job | job in wave :: Runnable(jobs, outs, job)
    ensures forall n | n in wave[k].needs :: n in Names(order + wave[..k]) && n in outs && outs[n].Ran?
  {
    assert wave[k] in wave;
    NamesAppend(order, wave[..k]);
    forall n | n in wave[k].needs ensures n in Names(order + wave[..k]) && n in outs && outs[n].Ran? {
      assert n in Produced(outs) && n in outs.Keys;
    }
  }

  /** What each stage got, whatever its inputs, as a work function. */
  function Recorded<V>(outs: Outcomes<V>): Work<V> {
    (job: Job, inputs: map<string, V>) => if job.name in outs then outs[job.name] else Failed("")
  }

  /** Outcomes that came one after the other are those of a one-at-a-time run in which each stage gets what it got. */
  lemma {:induction false} GrownIsSchedule<V>(jobs: seq<Job>, order: seq<Job>, outs: Outcomes<V>, n: nat)
    requires Grown(jobs, order, outs) && n <= |order|
    ensures Schedule(jobs, order[..n], Recorded(outs))
    ensures OneByOne(order[..n], Recorded(outs)).Keys == Names(order[..n])
    ensures Extends(OneByOne(order[..n], Recorded(outs)), outs)
    decreases n
  {
    hide *;
    if n == 0 {
      NothingRun(jobs, order, outs);
    } else {
      GrownIsSchedule(jobs, order, outs, n - 1);
      NameOfNext(jobs, order, outs, n - 1);
      var soFar := OneByOne(order[..n - 1], Recorded(outs));
      NextRuns(jobs, order, outs, soFar, n - 1);
      ScheduleNext(jobs, order, Recorded(outs), n - 1);
      OneMore(soFar, outs, order[n - 1].name);
    }
  }

  lemma GrownIsOneByOne<V>(jobs: seq<Job>, order: seq<Job>, outs: Outcomes<V>)
    requires Grown(jobs, order, outs)
    ensures Schedule(jobs, order, Recorded(outs)) && OneByOne(order, Recorded(outs)) == outs
  {
    GrownIsSchedule(jobs, order, outs, |order|);
    assert order[..|order|] == order;
    var all := OneByOne(order, Recorded(outs));
    hide Schedule, OneByOne, Recorded, Names;
    assert all.Keys == outs.Keys;
    assert all == outs;
  }

  lemma NothingRun<V>(jobs: seq<Job>, order: seq<Job>, outs: Outcomes<V>)
    ensures Schedule(jobs, order[..0], Recorded(outs)) && OneByOne(order[..0], Recorded(outs)) == map[]
    ensures Names(order[..0]) == {} && Extends(map[], outs)
  {
  }

  lemma NameOfNext<V>(jobs: seq<Job>, order: seq<Job>, outs: Outcomes<V>, n: nat)
    requires Grown(jobs, order, outs) && n < |order|
    ensures Names(order[..n + 1]) == Names(order[..n]) + {order[n].name}
  {
    NextNameIsNew(order, n);
  }

  lemma OneMore<V>(soFar: Outcomes<V>, outs: Outcomes<V>, name: string)
    requires Extends(soFar, outs) && name in outs
    ensures Extends(soFar[name := outs[name]], outs)
    ensures soFar[name := outs[name]].Keys == soFar.Keys + {name}
  {
  }

  lemma ScheduleNext<V>(jobs: seq<Job>, order: seq<Job>, work: Work<V>, n: nat)
    requires n < |order| && Schedule(jobs, order[..n], work) && Runnable(jobs, OneByOne(order[..n], work), order[n])
    ensures Schedule(jobs, order[..n + 1], work)
    ensures OneByOne(order[..n + 1], work) == RunNext(OneByOne(order[..n], work), order[n], work)
  {
    assert order[..n + 1][..n] == order[..n] && order[..n + 1][n] == order[n];
  }

  lemma NextRuns<V>(jobs: seq<Job>, order: seq<Job>, outs: Outcomes<V>, soFar: Outcomes<V>, n: nat)
    requires Grown(jobs, order, outs) && n < |order|
    requires soFar.Keys == Names(order[..n]) && Extends(soFar, outs)
    ensures Runnable(jobs, soFar, order[n]) && order[n].name in outs
    ensures RunNext(soFar, order[n], Recorded(outs)) == soFar[order[n].name := outs[order[n].name]]
  {
    NextNameIsNew(order, n);
    assert NeedsMet(order, outs, n) && order[n].name in outs.Keys;
    forall m | m in order[n].needs ensures m in Produced(soFar) {
      assert m in soFar.Keys;
    }
  }

  // -------------------------------------------------------------- which machine served a stage does not matter

  /** The stages that got an answer. */
  function Answered<V>(outs: Outcomes<V>): set<string> {
    set n | n in outs && outs[n].Ran?
  }

  /** Every answer is the value of its stage and declared inputs, whichever machine gave it. */
  ghost predicate Valued<V>(jobs: seq<Job>, outs: Outcomes<V>, value: (Job, map<string, V>) -> V) {
    forall job | job in jobs && job.name in outs && outs[job.name].Ran? ::
      outs[job.name].value == value(job, Inputs(job, Produced(outs)))
  }

  /** Whether a stage gets an answer is decided by the stage and its declared inputs. */
  ghost predicate AnsweredBy<V>(jobs: seq<Job>, outs: Outcomes<V>, answers: (Job, map<string, V>) -> bool) {
    forall job | job in jobs && job.name in outs ::
      outs[job.name].Ran? <==> answers(job, Inputs(job, Produced(outs)))
  }

  /** Both produced the same under name `n`, or both nothing. */
  predicate Alike<V(==)>(a: Outcomes<V>, b: Outcomes<V>, n: string) {
    n in a && n in b && (a[n].Ran? <==> b[n].Ran?) && (a[n].Ran? ==> a[n].value == b[n].value)
  }

  lemma SameInputs<V>(jobs: seq<Job>, order: seq<Job>, a: Outcomes<V>, b: Outcomes<V>, k: nat)
    requires Grown(jobs, order, a) && k < |order|
    requires forall i | 0 <= i < k && a[order[i].name].Ran? :: Alike(a, b, order[i].name)
    ensures Ready(order[k], Produced(a)) && Ready(order[k], Produced(b))
    ensures Inputs(order[k], Produced(a)) == Inputs(order[k], Produced(b))
  {
    assert NeedsMet(order, a, k);
    forall n | n in order[k].needs ensures n in Produced(a) && n in Produced(b) && Produced(a)[n] == Produced(b)[n] {
      var job :| job in order[..k] && job.name == n;
      var i :| 0 <= i < k && order[i] == job;
      assert Alike(a, b, order[i].name);
    }
  }

  lemma {:induction false} AnswersDecideValues<V>(
      jobs: seq<Job>, order: seq<Job>, a: Outcomes<V>, b: Outcomes<V>, value: (Job, map<string, V>) -> V, n: nat)
    requires Grown(jobs, order, a) && Valued(jobs, a, value) && Valued(jobs, b, value)
    requires Answered(a) == Answered(b) && n <= |order|
    ensures forall k | 0 <= k < n && a[order[k].name].Ran? :: Alike(a, b, order[k].name)
    decreases n
  {
    if n > 0 {
      AnswersDecideValues(jobs, order, a, b, value, n - 1);
      SameInputs(jobs, order, a, b, n - 1);
      var job := order[n - 1];
      if a[job.name].Ran? {
        assert job.name in Answered(a) && job.name in Answered(b);
      }
    }
  }

  /** Two sets of outcomes in which values depend on stages and declared inputs alone, but machines, routing and failures
      on anything: they produce the same under the same names if and only if the same stages got an answer. */
  lemma ProducedAgreeIffSameAnswered<V>(
      jobs: seq<Job>, order: seq<Job>, a: Outcomes<V>, b: Outcomes<V>, value: (Job, map<string, V>) -> V)
    requires Grown(jobs, order, a) && Valued(jobs, a, value) && Valued(jobs, b, value)
    ensures Produced(a) == Produced(b) <==> Answered(a) == Answered(b)
  {
    assert Produced(a).Keys == Answered(a) && Produced(b).Keys == Answered(b);
    if Answered(a) == Answered(b) {
      AnswersDecideValues(jobs, order, a, b, value, |order|);
      forall n | n in Produced(a) ensures n in Produced(b) && Produced(a)[n] == Produced(b)[n] {
        assert n in Names(order);
        var job :| job in order && job.name == n;
        var k :| 0 <= k < |order| && order[k] == job;
        assert Alike(a, b, order[k].name);
      }
    }
  }

  lemma {:induction false} InputsDecideAnswers<V>(
      jobs: seq<Job>, order: seq<Job>, a: Outcomes<V>, b: Outcomes<V>,
      value: (Job, map<string, V>) -> V, answers: (Job, map<string, V>) -> bool, n: nat)
    requires Grown(jobs, order, a) && Finished(jobs, b) && n <= |order|
    requires Valued(jobs, a, value) && Valued(jobs, b, value) && AnsweredBy(jobs, a, answers) && AnsweredBy(jobs, b, answers)
    ensures forall k | 0 <= k < n :: Alike(a, b, order[k].name)
    decreases n
  {
    if n > 0 {
      InputsDecideAnswers(jobs, order, a, b, value, answers, n - 1);
      SameInputs(jobs, order, a, b, n - 1);
      var job := order[n - 1];
      assert !Runnable(jobs, b, job) && job.name in a.Keys;
    }
  }

  /** When also whether a stage gets an answer is decided by its declared inputs, two complete runs record the same
      stages and produce the same, however each stage was routed. */
  lemma RoutingDoesNotMatter<V>(
      jobs: seq<Job>, orderA: seq<Job>, a: Outcomes<V>, orderB: seq<Job>, b: Outcomes<V>,
      value: (Job, map<string, V>) -> V, answers: (Job, map<string, V>) -> bool)
    requires Grown(jobs, orderA, a) && Finished(jobs, a) && Grown(jobs, orderB, b) && Finished(jobs, b)
    requires Valued(jobs, a, value) && Valued(jobs, b, value) && AnsweredBy(jobs, a, answers) && AnsweredBy(jobs, b, answers)
    ensures a.Keys == b.Keys && Produced(a) == Produced(b)
  {
    InputsDecideAnswers(jobs, orderA, a, b, value, answers, |orderA|);
    InputsDecideAnswers(jobs, orderB, b, a, value, answers, |orderB|);
    AllAlike(jobs, orderA, a, b);
    AllAlike(jobs, orderB, b, a);
  }

  lemma AllAlike<V>(jobs: seq<Job>, order: seq<Job>, a: Outcomes<V>, b: Outcomes<V>)
    requires Grown(jobs, order, a) && forall k | 0 <= k < |order| :: Alike(a, b, order[k].name)
    ensures forall n | n in a :: Alike(a, b, n)
  {
    forall n | n in a ensures Alike(a, b, n) {
      assert n in Names(order);
      var job :| job in order && job.name == n;
      var k :| 0 <= k < |order| && order[k] == job;
    }
  }

  // -------------------------------------------------------------- the report

  datatype Why = MissingInput(names: seq<string>) | NowhereToRun

  datatype Report<V> =
    | Complete(stages: seq<Stage<V>>, value: map<string, V>)
    | StageFailed(stage: string, why: Why, stages: seq<Stage<V>>)

  const MISSING := "missing input:"

  function Missing<V>(needs: seq<string>, produced: map<string, V>): (r: seq<string>)
    ensures forall n :: n in r <==> n in needs && n !in produced
    ensures r == [] <==> forall n | n in needs :: n in produced
  {
    if needs == [] then []
    else Missing(needs[..|needs| - 1], produced) + if needs[|needs| - 1] in produced then [] else [needs[|needs| - 1]]
  }

  function Joined(names: seq<string>): string {
    if names == [] then "" else if |names| == 1 then names[0] else names[0] + ", " + Joined(names[1..])
  }

  /** The names one after the other, a comma and a space between any two and nowhere else. */
  lemma {:induction false} JoinedInWords(before: seq<string>, after: seq<string>, name: string)
    ensures Joined([]) == "" && Joined([name]) == name
    ensures before != [] && after != [] ==> Joined(before + after) == Joined(before) + ", " + Joined(after)
  {
    if |before| == 1 {
      assert (before + after)[1..] == after;
    } else if |before| > 1 {
      JoinedInWords(before[1..], after, name);
      assert (before + after)[1..] == before[1..] + after;
    }
  }

  /** What the result says about a stage; one that never became runnable is recorded with the inputs it lacked. */
  function FinalStage<V>(job: Job, outs: Outcomes<V>): Stage<V> {
    if job.name in outs then outs[job.name] else Failed(MISSING + " " + Joined(Missing(job.needs, Produced(outs))))
  }

  ghost predicate Sinks<V>(job: Job, outs: Outcomes<V>) {
    FinalStage(job, outs).Failed? && !job.optional
  }

  /** `i` is the first stage that sinks the task, and `why` says whether it lacked inputs or ran nowhere. */
  ghost predicate FirstSink<V>(jobs: seq<Job>, outs: Outcomes<V>, i: nat, stage: string, why: Why) {
    && i < |jobs| && jobs[i].name == stage && Sinks(jobs[i], outs)
    && (forall k | 0 <= k < i :: !Sinks(jobs[k], outs))
    && (stage !in outs <==> why.MissingInput? && why.names != [])
    && (why.MissingInput? ==> why.names == Missing(jobs[i].needs, Produced(outs)))
  }

  ghost predicate Reports<V>(jobs: seq<Job>, outs: Outcomes<V>, report: Report<V>) {
    && |report.stages| == |jobs| && (forall i | 0 <= i < |jobs| :: report.stages[i] == FinalStage(jobs[i], outs))
    && (report.Complete? <==> forall job | job in jobs :: !Sinks(job, outs))
    && (report.Complete? ==> report.value == Produced(outs))
    && (report.StageFailed? ==> exists i: nat :: FirstSink(jobs, outs, i, report.stage, report.why))
  }

  /** Runs the plan and reports every stage in the caller's order; the first required stage without a result fails the task. */
  method Run<V>(jobs: seq<Job>, work: Work<V>) returns (report: Report<V>, outs: Outcomes<V>, waves: seq<seq<Job>>)
    requires DistinctNames(jobs)
    ensures Schedule(jobs, Flatten(waves), work) && outs == OneByOne(Flatten(waves), work) && Finished(jobs, outs)
    ensures Earliest(waves) && forall wave | wave in waves :: wave != []
    ensures Reports(jobs, outs, report)
  {
    var produced;
    outs, produced, waves := RunWaves(jobs, work);
    forall job | job in jobs ensures job.name in outs <==> Missing(job.needs, produced) == [] {
      RanIffInputsProduced(jobs, Flatten(waves), work, job);
    }
    report := Conclude(jobs, outs, produced);
  }

  /** Why the first stage that sinks the task does so. */
  lemma SinksHere<V>(jobs: seq<Job>, outs: Outcomes<V>, i: nat)
    requires i < |jobs| && Sinks(jobs[i], outs) && forall k | 0 <= k < i :: !Sinks(jobs[k], outs)
    requires jobs[i].name in outs <==> Missing(jobs[i].needs, Produced(outs)) == []
    ensures var missing := Missing(jobs[i].needs, Produced(outs));
            FirstSink(jobs, outs, i, jobs[i].name,
                      if MISSING <= FinalStage(jobs[i], outs).error then MissingInput(missing) else NowhereToRun)
  {
    hide Missing, Joined, Produced;
  }

  /** One entry for every stage, in the caller's order. */
  method FinalStages<V>(jobs: seq<Job>, outs: Outcomes<V>, produced: map<string, V>) returns (stages: seq<Stage<V>>)
    requires produced == Produced(outs)
    ensures |stages| == |jobs| && forall i | 0 <= i < |jobs| :: stages[i] == FinalStage(jobs[i], outs)
  {
    hide Missing, Joined, Produced;
    stages := [];
    for i := 0 to |jobs|
      invariant |stages| == i && forall k | 0 <= k < i :: stages[k] == FinalStage(jobs[k], outs)
    {
      var job := jobs[i];
      if job.name in outs {
        stages := stages + [outs[job.name]];
      } else {
        stages := stages + [Failed(MISSING + " " + Joined(Missing(job.needs, produced)))];
      }
    }
  }

  method Conclude<V>(jobs: seq<Job>, outs: Outcomes<V>, produced: map<string, V>) returns (report: Report<V>)
    requires produced == Produced(outs)
    requires forall job | job in jobs :: job.name in outs <==> Missing(job.needs, produced) == []
    ensures Reports(jobs, outs, report)
  {
    hide Missing, Joined, Produced, FirstSink, FinalStage;
    var stages := FinalStages(jobs, outs, produced);
    for i := 0 to |jobs|
      invariant forall k | 0 <= k < i :: !Sinks(jobs[k], outs)
    {
      var job := jobs[i];
      if stages[i].Ran? || job.optional {
        continue;
      }
      assert job in jobs;
      SinksHere(jobs, outs, i);
      var why := if MISSING <= stages[i].error then MissingInput(Missing(job.needs, produced)) else NowhereToRun;
      return StageFailed(job.name, why, stages);
    }
    return Complete(stages, produced);
  }
}
