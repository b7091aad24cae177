/** A house whose machines and answers do not change while a task runs: what then is left to the load. */
module House {
  import opened Common
  import opened Ranking
  import opened Router
  import opened Spread
  import opened Distributed
  import opened Scheduler
  import opened Agreement
  import C = Capacity
  import E = Executor

  /** Where a step sends the work. */
  datatype Place = Place(device: Option<Device>, runtime: string, model: string, local: bool)

  function PlaceOf(t: Target): Place { Place(t.device, t.runtime, t.model, t.local) }

  function SpotOf(c: Candidate): Place { Place(c.device, c.runtime, c.model, c.local) }

  /** The candidates for each stage, and how each place answers a stage and its declared inputs; a place that cannot be
      used is one that passes. */
  datatype Home<!V> = Home(candidates: Job -> seq<Candidate>, reply: (Job, Place, map<string, V>) -> E.Verdict<V>)

  /** The same verdict, whatever the reason for having passed. */
  predicate Like<V(==)>(v: E.Verdict<V>, w: E.Verdict<V>) {
    v == w || (v.Passed? && w.Passed?)
  }

  function Asked(plan: Plan, job: Job): Request { RequestFor(job, plan.sensitivity, plan.profile) }

  /** One step at home: routing sees the home's candidates, and a step ends as its place replies. */
  ghost predicate AtHome<V>(s: State<V>, e: Event<V>, home: Home<V>) {
    if e.Start? then e.k < |s.tasks| ==> e.considered == home.candidates(s.tasks[e.k].job)
    else if e.Skip? then e.k < |s.tasks| && OnStep(s.tasks[e.k]) ==> ReplyTo(s, e.k, home).Passed?
    else if e.Finish? then e.k < |s.tasks| && OnStep(s.tasks[e.k]) ==> Like(e.verdict, ReplyTo(s, e.k, home))
    else true
  }

  ghost function ReplyTo<V>(s: State<V>, k: nat, home: Home<V>): E.Verdict<V>
    requires k < |s.tasks| && OnStep(s.tasks[k])
  {
    var t := s.tasks[k];
    home.reply(t.job, PlaceOf(StepOf(t)), Inputs(t.job, Produced(s.outs)))
  }

  /** Every step of the run is at home: nothing is assumed about its outcome. */
  ghost predicate RunsAtHome<V>(r: Run<V>, home: Home<V>) {
    forall i | 0 <= i < |r.es| && i < |r.states| :: AtHome(r.states[i], r.es[i], home)
  }

  // -------------------------------------------------------------- what each stage got is explained by the home

  /** Which chains a stage may get. */
  type Routes = (Job, seq<Target>) -> bool

  /** Every stage that starts gets one of its routes. */
  ghost predicate Starts<V>(s: State<V>, e: Event<V>, routes: Routes) {
    e.Start? && e.k < |s.tasks| ==> routes(s.tasks[e.k].job, e.chain)
  }

  ghost predicate Routing<V>(r: Run<V>, routes: Routes) {
    forall i | 0 <= i < |r.es| && i < |r.states| :: Starts(r.states[i], r.es[i], routes)
  }

  /** The chain is the router's under some load. */
  ghost predicate ChainAtHome(chain: seq<Target>, candidates: seq<Candidate>, r: Request) {
    exists l :: Routed(chain, candidates, r, l)
  }

  /** The home's routes: the router's under any load. */
  ghost function AnyLoad<V>(plan: Plan, home: Home<V>): Routes {
    (job, chain) => ChainAtHome(chain, home.candidates(job), Asked(plan, job))
  }

  ghost predicate Replies<V>(job: Job, chain: seq<Target>, verdicts: seq<E.Verdict<V>>, inputs: map<string, V>, home: Home<V>) {
    |verdicts| <= |chain| && forall i | 0 <= i < |verdicts| :: Like(verdicts[i], home.reply(job, PlaceOf(chain[i]), inputs))
  }

  /** A task's chain and what it met on it are the home's. */
  ghost predicate WalksAtHome<V>(t: Task<V>, produced: map<string, V>, home: Home<V>, routes: Routes) {
    && (!t.phase.AtGate? ==> routes(t.job, t.chain))
    && Replies(t.job, t.chain, t.verdicts, Inputs(t.job, produced), home)
  }

  /** The stage ended as a walk at home ends. */
  ghost predicate Explained<V(!new)>(job: Job, stage: Stage<V>, inputs: map<string, V>, home: Home<V>, routes: Routes) {
    exists chain, verdicts ::
      && WalkEnds(chain, verdicts) && routes(job, chain)
      && Replies(job, chain, verdicts, inputs, home) && stage == StageOf(chain, verdicts)
  }

  ghost predicate AllExplained<V(!new)>(jobs: seq<Job>, outs: Outcomes<V>, home: Home<V>, routes: Routes) {
    forall job | job in jobs && job.name in outs ::
      Explained(job, outs[job.name], Inputs(job, Produced(outs)), home, routes)
  }

  ghost predicate HomeKept<V(!new)>(plan: Plan, s: State<V>, home: Home<V>, routes: Routes) {
    && AllExplained(plan.jobs, s.outs, home, routes)
    && forall i | 0 <= i < |s.tasks| :: WalksAtHome(s.tasks[i], Produced(s.outs), home, routes)
  }

  lemma VerdictReplies<V>(
      t: Task<V>, v: E.Verdict<V>, inputs: map<string, V>, home: Home<V>)
    requires OnStep(t) && |t.verdicts| == Position(t.phase) && Replies(t.job, t.chain, t.verdicts, inputs, home)
    requires Like(v, home.reply(t.job, PlaceOf(StepOf(t)), inputs))
    ensures Replies(t.job, t.chain, t.verdicts + [v], inputs, home)
  {
  }

  lemma MoveStaysAtHome<V>(s: State<V>, e: Event<V>, t': Task<V>, home: Home<V>, routes: Routes)
    requires (e.Start? || e.Skip? || e.AskSlot? || e.Admit? || e.Finish?) && e.k < |s.tasks|
    requires TaskMoves(s.tasks[e.k], e, t') && WalkSoFar(s.tasks[e.k]) && AtHome(s, e, home) && Starts(s, e, routes)
    requires WalksAtHome(s.tasks[e.k], Produced(s.outs), home, routes)
    ensures WalksAtHome(t', Produced(s.outs), home, routes)
  {
    var t, inputs := s.tasks[e.k], Inputs(s.tasks[e.k].job, Produced(s.outs));
    hide Produced, Inputs;
    if e.Skip? {
      VerdictReplies(t, E.Passed(e.why), inputs, home);
    } else if e.Finish? {
      VerdictReplies(t, e.verdict, inputs, home);
    }
  }

  lemma StartIsRouted<V>(plan: Plan, s: State<V>, e: Event<V>)
    requires Enabled(plan, s, e) && e.Start?
    ensures e.k < |s.tasks| && Routed(e.chain, e.considered, Asked(plan, s.tasks[e.k].job), s.ledger)
  {
    hide Routed;
  }

  lemma TaskStepStaysAtHome<V(!new)>(plan: Plan, s: State<V>, e: Event<V>, home: Home<V>, routes: Routes)
    requires HomeKept(plan, s, home, routes) && WalksKept(s) && Enabled(plan, s, e) && !e.NextWave?
    requires AtHome(s, e, home) && Starts(s, e, routes)
    ensures HomeKept(plan, Apply(plan, s, e), home, routes)
  {
    if !e.Resize? {
      TaskStep(plan, s, e);
      var s' := Apply(plan, s, e);
      assert WalkSoFar(s.tasks[e.k]);
      hide Apply, Enabled, TaskMoves, WalksAtHome, AllExplained, AtHome, Starts, Routed, WalkSoFar;
      MoveStaysAtHome(s, e, s'.tasks[e.k], home, routes);
    }
  }

  lemma RecordedIsExplained<V(!new)>(plan: Plan, s: State<V>, job: Job, home: Home<V>, routes: Routes)
    requires HomeKept(plan, s, home, routes) && OutcomesKept(plan, s) && WalksKept(s) && AllDone(s.tasks)
    requires job in plan.jobs && job.name in Record(s.outs, s.tasks)
    ensures var outs := Record(s.outs, s.tasks);
            Explained(job, outs[job.name], Inputs(job, Produced(outs)), home, routes)
  {
    var outs := Record(s.outs, s.tasks);
    WaveIsRecorded(plan, s);
    hide Record, Wave, Grown, StageOf;
    if job.name in s.outs {
      RecordedReady(plan, s, job);
      assert outs[job.name] == s.outs[job.name];
    } else {
      var k := WaveStage(plan, s, job);
      var t := s.tasks[k];
      assert WalksAtHome(t, Produced(s.outs), home, routes) && WalkSoFar(t) && t in s.tasks;
      assert WalkEnds(t.chain, t.verdicts);
    }
    InputsAreStable(job, s.outs, outs);
  }

  lemma NextWaveStaysAtHome<V(!new)>(plan: Plan, s: State<V>, home: Home<V>, routes: Routes)
    requires HomeKept(plan, s, home, routes) && OutcomesKept(plan, s) && WalksKept(s) && Enabled(plan, s, NextWave)
    ensures HomeKept(plan, Apply(plan, s, NextWave), home, routes)
  {
    var outs := Record(s.outs, s.tasks);
    hide Record, Wave, OutcomesKept, HomeKept, WalksKept, Explained;
    forall job | job in plan.jobs && job.name in outs
      ensures Explained(job, outs[job.name], Inputs(job, Produced(outs)), home, routes)
    {
      RecordedIsExplained(plan, s, job, home, routes);
    }
    NewTasksAreAtHome(plan, Apply(plan, s, NextWave), home, routes);
  }

  lemma NewTasksAreAtHome<V(!new)>(plan: Plan, s: State<V>, home: Home<V>, routes: Routes)
    requires AllExplained(plan.jobs, s.outs, home, routes)
    requires forall i | 0 <= i < |s.tasks| :: s.tasks[i].phase.AtGate? && s.tasks[i].verdicts == []
    ensures HomeKept(plan, s, home, routes)
  {
  }

  lemma {:induction false} RunStaysAtHome<V(!new)>(r: Run<V>, n: nat, home: Home<V>, routes: Routes)
    requires DistinctNames(r.plan.jobs) && r.defaultLimit >= 1 && IsRun(r.plan, r.defaultLimit, r.states, r.es)
    requires n < |r.states| && RunsAtHome(r, home) && Routing(r, routes)
    ensures HomeKept(r.plan, r.states[n], home, routes)
  {
    if n == 0 {
      NewTasksAreAtHome(r.plan, r.states[0], home, routes);
    } else {
      RunStaysAtHome(r, n - 1, home, routes);
      RunIsSound(r.plan, r.defaultLimit, r.states, r.es, n - 1);
      StepOfRun(r.plan, r.defaultLimit, r.states, r.es, n - 1);
      assert AtHome(r.states[n - 1], r.es[n - 1], home) && Starts(r.states[n - 1], r.es[n - 1], routes);
      hide HomeKept, Enabled, Apply, IsRun, AtHome, Starts, SlotsKept, WalksKept, PrivacyKept, OutcomesKept;
      if r.es[n - 1].NextWave? {
        NextWaveStaysAtHome(r.plan, r.states[n - 1], home, routes);
      } else {
        TaskStepStaysAtHome(r.plan, r.states[n - 1], r.es[n - 1], home, routes);
      }
    }
  }

  /** Everything a finished run recorded is explained by the home and the routes. */
  lemma FinishedAtHome<V(!new)>(r: Run<V>, home: Home<V>, routes: Routes)
    requires Finishes(r) && RunsAtHome(r, home) && Routing(r, routes)
    ensures AllExplained(r.plan.jobs, Outs(r), home, routes)
  {
    RunStaysAtHome(r, |r.es|, home, routes);
  }

  /** A run at home is routed by the router under some load. */
  lemma RoutedAtHome<V>(r: Run<V>, home: Home<V>)
    requires Finishes(r) && RunsAtHome(r, home)
    ensures Routing(r, AnyLoad(r.plan, home))
  {
    hide Enabled, Routed, Asked;
    forall i | 0 <= i < |r.es| && i < |r.states| ensures Starts(r.states[i], r.es[i], AnyLoad(r.plan, home)) {
      StepOfRun(r.plan, r.defaultLimit, r.states, r.es, i);
      assert AtHome(r.states[i], r.es[i], home);
      if r.es[i].Start? {
        StartIsRouted(r.plan, r.states[i], r.es[i]);
      }
    }
  }

  // -------------------------------------------------------------- the same stages get an answer

  /** Some admissible candidate answers the stage. */
  ghost predicate CanAnswer<V>(plan: Plan, job: Job, inputs: map<string, V>, home: Home<V>) {
    exists c | c in home.candidates(job) ::
      Open(c, Asked(plan, job)) && !home.reply(job, SpotOf(c), inputs).Passed?
  }

  ghost function Answering<V>(plan: Plan, home: Home<V>): (Job, map<string, V>) -> bool {
    (job, inputs) => CanAnswer(plan, job, inputs, home)
  }

  lemma RankedServes(chain: seq<Target>, allowed: seq<Candidate>, key: Candidate -> Key)
    requires RanksExactly(chain, allowed, key)
    ensures |chain| == |allowed|
    ensures forall t | t in chain :: exists c | c in allowed :: PlaceOf(t) == SpotOf(c)
    ensures forall c | c in allowed :: exists t | t in chain :: PlaceOf(t) == SpotOf(c)
  {
    var ranked :|
      StableDescending(allowed, ranked, key) && multiset(ranked) == multiset(allowed) && ServesInOrder(chain, ranked);
    hide StableDescending;
    assert |multiset(ranked)| == |multiset(allowed)|;
    forall t | t in chain ensures exists c | c in allowed :: PlaceOf(t) == SpotOf(c) {
      var i :| 0 <= i < |chain| && chain[i] == t;
      assert ranked[i] in multiset(ranked);
      assert ranked[i] in allowed && Serves(chain[i], ranked[i]);
    }
    forall c | c in allowed ensures exists t | t in chain :: PlaceOf(t) == SpotOf(c) {
      assert c in multiset(allowed);
      assert c in multiset(ranked);
      var i :| 0 <= i < |ranked| && ranked[i] == c;
      assert chain[i] in chain && Serves(chain[i], ranked[i]);
    }
  }

  /** The places of a chain are those of the admissible candidates. */
  lemma ChainPlaces(chain: seq<Target>, candidates: seq<Candidate>, r: Request)
    requires ChainAtHome(chain, candidates, r)
    ensures forall t | t in chain :: exists c | c in candidates :: Open(c, r) && PlaceOf(t) == SpotOf(c)
    ensures forall c | c in candidates && Open(c, r) :: exists t | t in chain :: PlaceOf(t) == SpotOf(c)
  {
    var l :| Routed(chain, candidates, r, l);
    var allowed := Filter(candidates, Admits(r));
    forall c | c in candidates ensures c in allowed <==> Open(c, r) {
      assert Admits(r)(c) <==> Open(c, r);
    }
    hide Open, RanksExactly, Filter, Admits, PlaceOf, SpotOf;
    if allowed != [] {
      RankedServes(chain, allowed, Scored(r, Carrying(l)));
    }
    forall t | t in chain ensures exists c | c in candidates :: Open(c, r) && PlaceOf(t) == SpotOf(c) {
      var c :| c in allowed && PlaceOf(t) == SpotOf(c);
      assert c in candidates;
    }
  }

  /** A walk has an answer exactly when some step of its chain answers: it only stops early on an answer. */
  lemma AnsweredIffSomeStepAnswers<V>(
      job: Job, chain: seq<Target>, verdicts: seq<E.Verdict<V>>, inputs: map<string, V>, home: Home<V>)
    requires WalkEnds(chain, verdicts) && Replies(job, chain, verdicts, inputs, home)
    ensures StageOf(chain, verdicts).Ran? <==> exists t | t in chain :: !home.reply(job, PlaceOf(t), inputs).Passed?
  {
    var at := AnswerAt(verdicts);
    if at.Some? {
      assert chain[at.value] in chain && Like(verdicts[at.value], home.reply(job, PlaceOf(chain[at.value]), inputs));
    } else {
      assert |verdicts| == |chain|;
      forall t | t in chain ensures home.reply(job, PlaceOf(t), inputs).Passed? {
        var i :| 0 <= i < |chain| && chain[i] == t;
        assert Like(verdicts[i], home.reply(job, PlaceOf(chain[i]), inputs));
      }
    }
  }

  lemma ExplainedIsAnswered<V(!new)>(plan: Plan, job: Job, stage: Stage<V>, inputs: map<string, V>, home: Home<V>)
    requires Explained(job, stage, inputs, home, AnyLoad(plan, home))
    ensures stage.Ran? <==> CanAnswer(plan, job, inputs, home)
  {
    var chain, verdicts :|
      && WalkEnds(chain, verdicts) && AnyLoad(plan, home)(job, chain)
      && Replies(job, chain, verdicts, inputs, home) && stage == StageOf(chain, verdicts);
    hide WalkEnds, ChainAtHome, Replies, StageOf, Open, Asked;
    AnsweredIffSomeStepAnswers(job, chain, verdicts, inputs, home);
    ChainPlaces(chain, home.candidates(job), Asked(plan, job));
  }

  /** The value of an answer is that of the stage and its declared inputs, whichever place gives it. */
  ghost predicate Valuing<V(!new)>(home: Home<V>, value: (Job, map<string, V>) -> V) {
    forall job, place, inputs ::
      !home.reply(job, place, inputs).Passed? ==> home.reply(job, place, inputs).value == value(job, inputs)
  }

  lemma StepIsHonest<V(!new)>(s: State<V>, e: Event<V>, home: Home<V>, value: (Job, map<string, V>) -> V)
    requires AtHome(s, e, home) && Valuing(home, value)
    requires e.Finish? && e.k < |s.tasks| ==> OnStep(s.tasks[e.k])
    ensures Honest(s, e, value)
  {
    if e.Finish? && e.k < |s.tasks| && !e.verdict.Passed? {
      assert ReplyTo(s, e.k, home) == e.verdict;
    }
  }

  lemma FinishIsOnStep<V>(plan: Plan, s: State<V>, e: Event<V>)
    requires Enabled(plan, s, e) && e.Finish?
    ensures e.k < |s.tasks| && OnStep(s.tasks[e.k])
  {
    hide OnStep;
  }

  lemma HomeWorksOut<V(!new)>(r: Run<V>, home: Home<V>, value: (Job, map<string, V>) -> V)
    requires Finishes(r) && RunsAtHome(r, home) && Valuing(home, value)
    ensures WorksOut(r.plan, r.states, r.es, value)
  {
    hide Valuing, AtHome, Honest, Enabled;
    forall i | 0 <= i < |r.es| && i < |r.states| ensures Honest(r.states[i], r.es[i], value) {
      StepOfRun(r.plan, r.defaultLimit, r.states, r.es, i);
      if r.es[i].Finish? {
        FinishIsOnStep(r.plan, r.states[i], r.es[i]);
      }
      StepIsHonest(r.states[i], r.es[i], home, value);
    }
  }

  lemma HomeAnswers<V(!new)>(plan: Plan, jobs: seq<Job>, outs: Outcomes<V>, home: Home<V>)
    requires AllExplained(plan.jobs, outs, home, AnyLoad(plan, home)) && multiset(jobs) == multiset(plan.jobs)
    ensures AnsweredBy(jobs, outs, Answering(plan, home))
  {
    SameStages(plan.jobs, jobs);
    hide Explained, CanAnswer;
    forall job | job in jobs && job.name in outs
      ensures outs[job.name].Ran? <==> Answering(plan, home)(job, Inputs(job, Produced(outs)))
    {
      ExplainedIsAnswered(plan, job, outs[job.name], Inputs(job, Produced(outs)), home);
    }
  }

  /** The same task, listed in whatever order and with whatever `max_parallel`. */
  predicate SameTask(a: Plan, b: Plan) {
    multiset(a.jobs) == multiset(b.jobs) && a.sensitivity == b.sensitivity && a.profile == b.profile
  }

  lemma SameAnswering<V>(a: Plan, b: Plan, home: Home<V>)
    requires a.sensitivity == b.sensitivity && a.profile == b.profile
    ensures forall job, inputs :: Answering(a, home)(job, inputs) == Answering(b, home)(job, inputs)
  {
  }

  /** In one house, where each stage has its candidates and each place its reply, all finished runs record the same stages
      and produce the same values under the same names, whatever the listing, `max_parallel`, the limits, the resizes and
      the interleaving were, and although the load routes them differently. */
  lemma OneHouseOneResult<V(!new)>(a: Run<V>, b: Run<V>, home: Home<V>, value: (Job, map<string, V>) -> V)
    requires Finishes(a) && Finishes(b) && SameTask(a.plan, b.plan)
    requires RunsAtHome(a, home) && RunsAtHome(b, home) && Valuing(home, value)
    ensures Outs(a).Keys == Outs(b).Keys && Produced(Outs(a)) == Produced(Outs(b))
  {
    RoutedAtHome(a, home);
    RoutedAtHome(b, home);
    FinishedAtHome(a, home, AnyLoad(a.plan, home));
    FinishedAtHome(b, home, AnyLoad(b.plan, home));
    HomeWorksOut(a, home, value);
    HomeWorksOut(b, home, value);
    hide Finishes, RunsAtHome, Routing, Valuing, WorksOut, Outs, AllExplained, Produced;
    HomeAnswers(a.plan, a.plan.jobs, Outs(a), home);
    HomeAnswers(b.plan, a.plan.jobs, Outs(b), home);
    SameAnswering(a.plan, b.plan, home);
    FinishedRunsAgree(a, b, value, Answering(a.plan, home));
  }

  // -------------------------------------------------------------- without ties, the same record

  /** No stage has two admissible candidates on different machines that only the load can put in order. */
  ghost predicate Untied<V>(plan: Plan, home: Home<V>) {
    forall job | job in plan.jobs :: NoTie(Filter(home.candidates(job), Admits(Asked(plan, job))), Asked(plan, job))
  }

  ghost predicate SamePlaces(chain: seq<Target>, other: seq<Target>) {
    |chain| == |other| && forall i | 0 <= i < |chain| :: PlaceOf(chain[i]) == PlaceOf(other[i])
  }

  lemma RankedPlaces(chain: seq<Target>, allowed: seq<Candidate>, r: Request, load: Carried)
    requires RanksExactly(chain, allowed, Scored(r, load))
    ensures ServesInOrder(chain, Rank(allowed, Scored(r, load)))
  {
    var key := Scored(r, load);
    var ranked :| StableDescending(allowed, ranked, key) && multiset(ranked) == multiset(allowed) && ServesInOrder(chain, ranked);
    hide StableDescending, Rank, Scored;
    RankIsStableDescending(allowed, key);
    StableDescendingIsUnique(allowed, ranked, Rank(allowed, key), key);
  }

  lemma OneChain(chain: seq<Target>, other: seq<Target>, candidates: seq<Candidate>, r: Request)
    requires ChainAtHome(chain, candidates, r) && ChainAtHome(other, candidates, r)
    requires NoTie(Filter(candidates, Admits(r)), r)
    ensures SamePlaces(chain, other)
  {
    var l :| Routed(chain, candidates, r, l);
    var m :| Routed(other, candidates, r, m);
    var allowed := Filter(candidates, Admits(r));
    hide Filter, Admits, NoTie, RanksExactly, Scored, Rank;
    if allowed != [] {
      RankedPlaces(chain, allowed, r, Carrying(l));
      RankedPlaces(other, allowed, r, Carrying(m));
      OneRanking(allowed, r, Carrying(l), Carrying(m));
    }
  }

  /** Two walks of the same places meet the same replies, stop at the same step and record the same. */
  lemma OneWalk<V>(
      job: Job, chain: seq<Target>, verdicts: seq<E.Verdict<V>>, other: seq<Target>, others: seq<E.Verdict<V>>,
      inputs: map<string, V>, home: Home<V>)
    requires WalkEnds(chain, verdicts) && WalkEnds(other, others) && SamePlaces(chain, other)
    requires Replies(job, chain, verdicts, inputs, home) && Replies(job, other, others, inputs, home)
    ensures StageOf(chain, verdicts) == StageOf(other, others)
  {
    forall i | 0 <= i < |verdicts| && i < |others| ensures Like(verdicts[i], others[i]) {
      assert Like(verdicts[i], home.reply(job, PlaceOf(chain[i]), inputs));
      assert Like(others[i], home.reply(job, PlaceOf(other[i]), inputs));
    }
    OneLength(chain, verdicts, other, others);
    SameAnswer(chain, verdicts, other, others);
  }

  lemma NoEarlierEnd<V>(chain: seq<Target>, verdicts: seq<E.Verdict<V>>, other: seq<Target>, others: seq<E.Verdict<V>>)
    requires WalkEnds(chain, verdicts) && WalkEnds(other, others) && |chain| == |other|
    requires forall i | 0 <= i < |verdicts| && i < |others| :: Like(others[i], verdicts[i])
    ensures |verdicts| >= |others|
  {
    if |verdicts| < |others| {
      assert false;
    }
  }

  lemma OneLength<V>(chain: seq<Target>, verdicts: seq<E.Verdict<V>>, other: seq<Target>, others: seq<E.Verdict<V>>)
    requires WalkEnds(chain, verdicts) && WalkEnds(other, others) && |chain| == |other|
    requires forall i | 0 <= i < |verdicts| && i < |others| :: Like(verdicts[i], others[i])
    ensures |verdicts| == |others|
  {
    NoEarlierEnd(chain, verdicts, other, others);
    NoEarlierEnd(other, others, chain, verdicts);
  }

  lemma SameAnswer<V>(chain: seq<Target>, verdicts: seq<E.Verdict<V>>, other: seq<Target>, others: seq<E.Verdict<V>>)
    requires |verdicts| == |others| <= |chain| && SamePlaces(chain, other)
    requires forall i | 0 <= i < |verdicts| :: Like(verdicts[i], others[i])
    ensures StageOf(chain, verdicts) == StageOf(other, others)
  {
    var at, to := AnswerAt(verdicts), AnswerAt(others);
    hide AnswerAt;
    if at.Some? {
      assert Like(verdicts[at.value], others[at.value]);
    }
    if to.Some? {
      assert Like(verdicts[to.value], others[to.value]);
    }
    assert at == to;
    if at.Some? {
      assert PlaceOf(chain[at.value]) == PlaceOf(other[at.value]);
    }
  }

  /** Whatever the load, a stage gets the same places in the same order. */
  ghost predicate OneRoute(job: Job, routes: Routes) {
    forall chain, other | routes(job, chain) && routes(job, other) :: SamePlaces(chain, other)
  }

  lemma OneExplanation<V(!new)>(
      job: Job, stage: Stage<V>, other: Stage<V>, inputs: map<string, V>, home: Home<V>, routes: Routes)
    requires OneRoute(job, routes)
    requires Explained(job, stage, inputs, home, routes) && Explained(job, other, inputs, home, routes)
    ensures stage == other
  {
    var chain, verdicts :|
      && WalkEnds(chain, verdicts) && routes(job, chain)
      && Replies(job, chain, verdicts, inputs, home) && stage == StageOf(chain, verdicts);
    var chain', verdicts' :|
      && WalkEnds(chain', verdicts') && routes(job, chain')
      && Replies(job, chain', verdicts', inputs, home) && other == StageOf(chain', verdicts');
    hide WalkEnds, Replies, StageOf, Explained;
    OneWalk(job, chain, verdicts, chain', verdicts', inputs, home);
  }

  /** A stage recorded in both with the same inputs is recorded alike. */
  ghost predicate Decided<V>(jobs: seq<Job>, a: Outcomes<V>, b: Outcomes<V>) {
    forall job | job in jobs && job.name in a && job.name in b ::
      Inputs(job, Produced(a)) == Inputs(job, Produced(b)) ==> a[job.name] == b[job.name]
  }

  ghost predicate RecordedAlike<V>(a: Outcomes<V>, b: Outcomes<V>, n: string) {
    n in a && n in b && a[n] == b[n]
  }

  lemma {:induction false} RecordsFollow<V>(
      jobs: seq<Job>, order: seq<Job>, a: Outcomes<V>, b: Outcomes<V>, n: nat)
    requires Grown(jobs, order, a) && Finished(jobs, b) && Decided(jobs, a, b) && n <= |order|
    ensures forall k | 0 <= k < n :: RecordedAlike(a, b, order[k].name)
    decreases n
  {
    if n > 0 {
      RecordsFollow(jobs, order, a, b, n - 1);
      assert forall i | 0 <= i < n - 1 :: Alike(a, b, order[i].name);
      SameInputs(jobs, order, a, b, n - 1);
      var job := order[n - 1];
      hide Finished, Decided, Grown, Produced, Inputs, Ready;
      NextIsRecordedAlike(jobs, order, a, b, job);
    }
  }

  lemma NextIsRecordedAlike<V>(jobs: seq<Job>, order: seq<Job>, a: Outcomes<V>, b: Outcomes<V>, job: Job)
    requires Grown(jobs, order, a) && Finished(jobs, b) && Decided(jobs, a, b) && job in order
    requires Ready(job, Produced(b)) && Inputs(job, Produced(a)) == Inputs(job, Produced(b))
    ensures RecordedAlike(a, b, job.name)
  {
    hide Produced, Inputs, Ready;
    assert !Runnable(jobs, b, job) && job.name in a.Keys;
  }

  lemma AllRecordedAlike<V>(jobs: seq<Job>, order: seq<Job>, a: Outcomes<V>, b: Outcomes<V>)
    requires Grown(jobs, order, a) && Finished(jobs, b) && Decided(jobs, a, b)
    ensures Extends(a, b)
  {
    RecordsFollow(jobs, order, a, b, |order|);
    forall n | n in a ensures n in b && b[n] == a[n] {
      assert n in Names(order);
      var job :| job in order && job.name == n;
      var k :| 0 <= k < |order| && order[k] == job;
      assert RecordedAlike(a, b, order[k].name);
    }
  }

  lemma HomeDecides<V(!new)>(jobs: seq<Job>, a: Outcomes<V>, b: Outcomes<V>, home: Home<V>, routes: Routes)
    requires forall job | job in jobs :: OneRoute(job, routes)
    requires AllExplained(jobs, a, home, routes) && AllExplained(jobs, b, home, routes)
    ensures Decided(jobs, a, b) && Decided(jobs, b, a)
  {
    hide Explained, OneRoute, Produced, Inputs;
    forall job | job in jobs && job.name in a && job.name in b
      ensures Inputs(job, Produced(a)) == Inputs(job, Produced(b)) ==> a[job.name] == b[job.name]
    {
      if Inputs(job, Produced(a)) == Inputs(job, Produced(b)) {
        OneExplanation(job, a[job.name], b[job.name], Inputs(job, Produced(a)), home, routes);
      }
    }
  }

  /** Two finished runs at one home, in which every stage has but one route, record the same. */
  lemma OneRouteOneRecord<V(!new)>(a: Run<V>, b: Run<V>, home: Home<V>, routes: Routes)
    requires Finishes(a) && Finishes(b) && multiset(a.plan.jobs) == multiset(b.plan.jobs)
    requires RunsAtHome(a, home) && RunsAtHome(b, home) && Routing(a, routes) && Routing(b, routes)
    requires forall job | job in a.plan.jobs :: OneRoute(job, routes)
    ensures Outs(a) == Outs(b)
  {
    FinishedAtHome(a, home, routes);
    FinishedAtHome(b, home, routes);
    FinishedRunReleases(a.plan, a.defaultLimit, a.states, a.es);
    FinishedRunReleases(b.plan, b.defaultLimit, b.states, b.es);
    GrownForListing(a.plan.jobs, b.plan.jobs, Outs(b));
    SameStages(a.plan.jobs, b.plan.jobs);
    assert AllExplained(a.plan.jobs, Outs(b), home, routes);
    HomeDecides(a.plan.jobs, Outs(a), Outs(b), home, routes);
    hide *;
    var orderA :| Grown(a.plan.jobs, orderA, Outs(a));
    var orderB :| Grown(a.plan.jobs, orderB, Outs(b));
    AllRecordedAlike(a.plan.jobs, orderA, Outs(a), Outs(b));
    AllRecordedAlike(a.plan.jobs, orderB, Outs(b), Outs(a));
    ExtendsBothWays(Outs(a), Outs(b));
  }

  lemma ExtendsBothWays<V>(a: Outcomes<V>, b: Outcomes<V>)
    requires Extends(a, b) && Extends(b, a)
    ensures a == b
  {
  }

  lemma UntiedIsOneRoute<V>(plan: Plan, home: Home<V>)
    requires Untied(plan, home)
    ensures forall job | job in plan.jobs :: OneRoute(job, AnyLoad(plan, home))
  {
    hide NoTie, ChainAtHome, SamePlaces, Asked;
    forall job, chain, other | job in plan.jobs && AnyLoad(plan, home)(job, chain) && AnyLoad(plan, home)(job, other)
      ensures SamePlaces(chain, other)
    {
      OneChain(chain, other, home.candidates(job), Asked(plan, job));
    }
  }

  lemma AskedAlike(a: Plan, b: Plan, job: Job)
    requires SameTask(a, b)
    ensures Asked(a, job) == Asked(b, job)
  {
  }

  lemma SameRouting<V>(a: Run<V>, b: Run<V>, home: Home<V>)
    requires SameTask(a.plan, b.plan) && Routing(b, AnyLoad(b.plan, home))
    ensures Routing(b, AnyLoad(a.plan, home))
  {
    hide ChainAtHome;
    forall i | 0 <= i < |b.es| && i < |b.states| ensures Starts(b.states[i], b.es[i], AnyLoad(a.plan, home)) {
      assert Starts(b.states[i], b.es[i], AnyLoad(b.plan, home));
      if b.es[i].Start? && b.es[i].k < |b.states[i].tasks| {
        AskedAlike(a.plan, b.plan, b.states[i].tasks[b.es[i].k].job);
      }
    }
  }

  /** If no candidates of a stage tie on what its profile looks at before the load, the whole record is the same: value,
      machine, model and whether it was degraded, even where the value depends on the machine. */
  lemma OneRecord<V(!new)>(a: Run<V>, b: Run<V>, home: Home<V>)
    requires Finishes(a) && Finishes(b) && SameTask(a.plan, b.plan)
    requires RunsAtHome(a, home) && RunsAtHome(b, home) && Untied(a.plan, home)
    ensures Outs(a) == Outs(b)
  {
    RoutedAtHome(a, home);
    RoutedAtHome(b, home);
    SameRouting(a, b, home);
    UntiedIsOneRoute(a.plan, home);
    hide *;
    assert multiset(a.plan.jobs) == multiset(b.plan.jobs) by { SameJobs(a.plan, b.plan); }
    OneRouteOneRecord(a, b, home, AnyLoad(a.plan, home));
  }

  lemma SameJobs(a: Plan, b: Plan)
    requires SameTask(a, b)
    ensures multiset(a.jobs) == multiset(b.jobs)
  {
  }

  // -------------------------------------------------------------- one stage at a time, the same record

  /** Thursday carries nothing. */
  ghost predicate Unloaded(l: C.Ledger) {
    forall d :: C.InFlight(l, d) == 0
  }

  ghost predicate ChainUnloaded(chain: seq<Target>, candidates: seq<Candidate>, r: Request) {
    exists l :: Unloaded(l) && Routed(chain, candidates, r, l)
  }

  /** The router's routes while Thursday carries nothing. */
  ghost function NoLoad<V>(plan: Plan, home: Home<V>): Routes {
    (job, chain) => ChainUnloaded(chain, home.candidates(job), Asked(plan, job))
  }

  /** Behind a gate of one a stage starts only while Thursday carries nothing. */
  lemma GateOfOneIsUnloaded<V>(plan: Plan, s: State<V>, e: Event<V>)
    requires SlotsKept(plan, s) && plan.maxParallel == 1 && Enabled(plan, s, e) && e.Start?
    ensures Unloaded(s.ledger)
  {
    hide Routed, Occupied;
    assert s.gate > 0;
    forall i | 0 <= i < |s.tasks| ensures !Inside()(s.tasks[i]) {
      if Inside()(s.tasks[i]) {
        CountPositive(s.tasks, i, Inside());
      }
    }
    QuietMeansReleased(plan, s);
    forall d ensures C.InFlight(s.ledger, d) == 0 {
      if d.Some? {
        assert C.InFlight(s.ledger, Some(d.value)) == 0;
      }
    }
  }

  lemma OneUnloadedChain(chain: seq<Target>, other: seq<Target>, candidates: seq<Candidate>, r: Request)
    requires ChainUnloaded(chain, candidates, r) && ChainUnloaded(other, candidates, r)
    ensures SamePlaces(chain, other)
  {
    var l :| Unloaded(l) && Routed(chain, candidates, r, l);
    var m :| Unloaded(m) && Routed(other, candidates, r, m);
    var allowed := Filter(candidates, Admits(r));
    hide Filter, Admits, RanksExactly, Rank;
    if allowed != [] {
      RankedPlaces(chain, allowed, r, Carrying(l));
      RankedPlaces(other, allowed, r, Carrying(m));
      SameLoadSameRank(allowed, r, Carrying(l), Carrying(m));
    }
  }

  lemma RoutedBehindGate<V>(r: Run<V>, home: Home<V>)
    requires Finishes(r) && RunsAtHome(r, home) && r.plan.maxParallel == 1
    ensures Routing(r, NoLoad(r.plan, home))
  {
    hide Enabled, Routed, Asked, Unloaded;
    forall i | 0 <= i < |r.es| && i < |r.states| ensures Starts(r.states[i], r.es[i], NoLoad(r.plan, home)) {
      StepOfRun(r.plan, r.defaultLimit, r.states, r.es, i);
      RunIsSound(r.plan, r.defaultLimit, r.states, r.es, i);
      assert AtHome(r.states[i], r.es[i], home);
      if r.es[i].Start? {
        StartIsRouted(r.plan, r.states[i], r.es[i]);
        GateOfOneIsUnloaded(r.plan, r.states[i], r.es[i]);
      }
    }
  }

  /** Behind a gate of one the whole record is the same even where candidates tie. */
  lemma GateOfOneOneRecord<V(!new)>(a: Run<V>, b: Run<V>, home: Home<V>)
    requires Finishes(a) && Finishes(b) && SameTask(a.plan, b.plan)
    requires RunsAtHome(a, home) && RunsAtHome(b, home) && a.plan.maxParallel == 1 && b.plan.maxParallel == 1
    ensures Outs(a) == Outs(b)
  {
    RoutedBehindGate(a, home);
    RoutedBehindGate(b, home);
    UnloadedIsOneRoute(a.plan, home);
    SameUnloadedRouting(a, b, home);
    hide *;
    assert multiset(a.plan.jobs) == multiset(b.plan.jobs) by { SameJobs(a.plan, b.plan); }
    OneRouteOneRecord(a, b, home, NoLoad(a.plan, home));
  }

  lemma UnloadedIsOneRoute<V>(plan: Plan, home: Home<V>)
    ensures forall job :: OneRoute(job, NoLoad(plan, home))
  {
    hide ChainUnloaded, SamePlaces, Asked;
    forall job, chain, other | NoLoad(plan, home)(job, chain) && NoLoad(plan, home)(job, other)
      ensures SamePlaces(chain, other)
    {
      OneUnloadedChain(chain, other, home.candidates(job), Asked(plan, job));
    }
  }

  lemma SameUnloadedRouting<V>(a: Run<V>, b: Run<V>, home: Home<V>)
    requires SameTask(a.plan, b.plan) && Routing(b, NoLoad(b.plan, home))
    ensures Routing(b, NoLoad(a.plan, home))
  {
    hide ChainUnloaded;
    forall i | 0 <= i < |b.es| && i < |b.states| ensures Starts(b.states[i], b.es[i], NoLoad(a.plan, home)) {
      assert Starts(b.states[i], b.es[i], NoLoad(b.plan, home));
      if b.es[i].Start? && b.es[i].k < |b.states[i].tasks| {
        AskedAlike(a.plan, b.plan, b.states[i].tasks[b.es[i].k].job);
      }
    }
  }
}
