/** What a task's stages are handed to: every call in words of the stage, the plan and the machine. */
module Handed {
  import opened Common
  import opened Router
  import opened Ranking
  import opened Preference
  import opened Distributed
  import opened Scheduler
  import C = Capacity

  /** A stage's own profile, or the task's. */
  function ProfileOf(plan: Plan, job: Job): Profile {
    match job.profile case Some(own) => own case None => plan.profile
  }

  /** Highly private or secret, by the stage or by the task. */
  predicate IsPrivate(plan: Plan, job: Job) {
    job.sensitivity >= 3 || plan.sensitivity >= 3
  }

  /** What may be handed a stage: a model of the stage's own capability, or a provider when neither privacy nor profile
      forbids it, that fits its machine; and for a heavy stage the machine must have room and power, for a light one not. */
  predicate MayBeHanded(plan: Plan, job: Job, c: Candidate) {
    && (if c.local then c.capability == job.capability
        else !IsPrivate(plan, job) && ProfileOf(plan, job) != Private && ProfileOf(plan, job) != Offline)
    && Fits(c)
    && (job.heavy && c.load.Some? ==>
          HasRoom(c.load.value, c.requiredVram) && HasPower(c.load.value, ProfileOf(plan, job)))
  }

  lemma OpenInWords(plan: Plan, job: Job, c: Candidate)
    ensures Open(c, RequestFor(job, plan.sensitivity, plan.profile)) <==> MayBeHanded(plan, job, c)
  {
    RefusedForAReason(c, RequestFor(job, plan.sensitivity, plan.profile));
    hide Excluded, Holds;
  }

  // -------------------------------------------------------------- what a stage starts with

  /** The stage's chain is all that may be handed it of what was considered, and nothing else. */
  ghost predicate ChainOf(plan: Plan, job: Job, considered: seq<Candidate>, chain: seq<Target>) {
    && (forall t | t in chain :: exists c | c in considered :: MayBeHanded(plan, job, c) && Serves(t, c))
    && (forall c | c in considered && MayBeHanded(plan, job, c) :: exists t | t in chain :: Serves(t, c))
  }

  /** In the order of the stage's profile, on the owner's side first, by what is carried at that moment. */
  ghost predicate InOrderOf(plan: Plan, job: Job, considered: seq<Candidate>, chain: seq<Target>, carrying: Option<Device> -> nat) {
    exists ranked: seq<Candidate> | |ranked| == |chain| ::
      && (forall i | 0 <= i < |chain| :: Serves(chain[i], ranked[i]) && ranked[i] in considered)
      && forall r: Request | r.profile == ProfileOf(plan, job) && r.prefer == None && r.mode == Auto ::
           forall i, j | 0 <= i < j < |ranked| :: !Preferred(ranked[j], ranked[i], r, carrying)
  }

  lemma AllowedInWords(plan: Plan, job: Job, considered: seq<Candidate>, c: Candidate)
    ensures c in Filter(considered, Admits(RequestFor(job, plan.sensitivity, plan.profile))) <==>
            c in considered && MayBeHanded(plan, job, c)
  {
    OpenInWords(plan, job, c);
    hide MayBeHanded, Open, RequestFor;
  }

  lemma ChainOfStage(plan: Plan, job: Job, considered: seq<Candidate>, chain: seq<Target>, l: C.Ledger)
    requires Routed(chain, considered, RequestFor(job, plan.sensitivity, plan.profile), l)
    ensures ChainOf(plan, job, considered, chain)
  {
    var r := RequestFor(job, plan.sensitivity, plan.profile);
    var allowed := Filter(considered, Admits(r));
    hide MayBeHanded, Filter, Admits, RanksExactly, Serves, RequestFor;
    forall c ensures c in allowed <==> c in considered && MayBeHanded(plan, job, c) {
      AllowedInWords(plan, job, considered, c);
    }
    if allowed != [] {
      RankedAreServed(chain, allowed, Scored(r, Carrying(l)));
    }
    forall t | t in chain ensures exists c | c in considered :: MayBeHanded(plan, job, c) && Serves(t, c) {
      var c :| c in allowed && Serves(t, c);
    }
  }

  lemma SamePreference(c: Candidate, d: Candidate, r: Request, q: Request, carrying: Option<Device> -> nat)
    requires r.profile == q.profile && r.prefer == q.prefer && r.mode == q.mode
    ensures Preferred(c, d, r, carrying) <==> Preferred(c, d, q, carrying)
  {
    hide Criteria;
    assert forall on :: Better(on, c, d, r, carrying) == Better(on, c, d, q, carrying);
    assert forall on :: Better(on, d, c, r, carrying) == Better(on, d, c, q, carrying);
  }

  lemma RequestOfStage(plan: Plan, job: Job)
    ensures var q := RequestFor(job, plan.sensitivity, plan.profile);
            q.profile == ProfileOf(plan, job) && q.prefer == None && q.mode == Auto
  {
  }

  lemma OrderOfStage(plan: Plan, job: Job, considered: seq<Candidate>, chain: seq<Target>, l: C.Ledger)
    requires Routed(chain, considered, RequestFor(job, plan.sensitivity, plan.profile), l)
    ensures InOrderOf(plan, job, considered, chain, Carrying(l))
  {
    var q := RequestFor(job, plan.sensitivity, plan.profile);
    RequestOfStage(plan, job);
    var ranked := SomeRanking(chain, considered, q, l);
    hide Preferred, Serves, ProfileOf, RequestFor, Routed;
    forall r: Request, i, j | r.profile == ProfileOf(plan, job) && r.prefer == None && r.mode == Auto && 0 <= i < j < |ranked|
      ensures !Preferred(ranked[j], ranked[i], r, Carrying(l))
    {
      SamePreference(ranked[j], ranked[i], r, q, Carrying(l));
    }
  }

  lemma SomeRanking(chain: seq<Target>, considered: seq<Candidate>, q: Request, l: C.Ledger) returns (ranked: seq<Candidate>)
    requires Routed(chain, considered, q, l)
    ensures |ranked| == |chain|
    ensures forall i | 0 <= i < |chain| :: Serves(chain[i], ranked[i]) && ranked[i] in considered
    ensures forall i, j | 0 <= i < j < |ranked| :: !Preferred(ranked[j], ranked[i], q, Carrying(l))
  {
    var allowed := Filter(considered, Admits(q));
    hide Preferred, SameTies, Serves, Filter, Admits, RanksExactly;
    ranked := [];
    if allowed != [] {
      ranked := ChainFollowsPreference(chain, allowed, q, Carrying(l));
      forall i | 0 <= i < |chain| ensures ranked[i] in considered {
        assert ranked[i] in multiset(ranked);
        assert ranked[i] in allowed;
      }
    }
  }

  /** Whenever a stage starts: the chain is all that may be handed it and no more, in the order of its profile. */
  lemma StageStartsAsItShould<V>(plan: Plan, s: State<V>, e: Event<V>)
    requires Enabled(plan, s, e) && e.Start?
    ensures var job := s.tasks[e.k].job;
            ChainOf(plan, job, e.considered, e.chain) && InOrderOf(plan, job, e.considered, e.chain, Carrying(s.ledger))
  {
    hide Routed, ChainOf, InOrderOf;
    ChainOfStage(plan, s.tasks[e.k].job, e.considered, e.chain, s.ledger);
    OrderOfStage(plan, s.tasks[e.k].job, e.considered, e.chain, s.ledger);
  }

  // -------------------------------------------------------------- what is called

  /** Everything ahead in a chain and everything called is as `fit` says of its stage. */
  ghost predicate AllFit<V>(s: State<V>, fit: (Job, Target) -> bool) {
    && (forall k, t | 0 <= k < |s.tasks| && t in s.tasks[k].chain :: fit(s.tasks[k].job, t))
    && (forall c | c in s.calls :: fit(c.job, c.target))
  }

  lemma MoveKeepsFit<V>(s: State<V>, e: Event<V>, s': State<V>, fit: (Job, Target) -> bool)
    requires AllFit(s, fit) && (e.Start? || e.Skip? || e.AskSlot? || e.Admit? || e.Finish?) && e.k < |s.tasks|
    requires |s'.tasks| == |s.tasks| && s'.tasks == s.tasks[e.k := s'.tasks[e.k]] && TaskMoves(s.tasks[e.k], e, s'.tasks[e.k])
    requires s'.calls ==
             if CallsNow(s.tasks[e.k], e) then s.calls + [Call(s.tasks[e.k].job, StepOf(s.tasks[e.k]))] else s.calls
    requires e.Start? ==> forall t | t in e.chain :: fit(s.tasks[e.k].job, t)
    ensures AllFit(s', fit)
  {
    var t, t' := s.tasks[e.k], s'.tasks[e.k];
    assert t'.job == t.job && t'.chain == if e.Start? then e.chain else t.chain;
    if CallsNow(t, e) {
      assert StepOf(t) in t.chain;
    }
    hide TaskMoves, CallsNow;
  }

  lemma StepKeepsFit<V>(plan: Plan, s: State<V>, e: Event<V>, fit: (Job, Target) -> bool)
    requires AllFit(s, fit) && Enabled(plan, s, e)
    requires e.Start? ==> e.k < |s.tasks| && forall t | t in e.chain :: fit(s.tasks[e.k].job, t)
    ensures AllFit(Apply(plan, s, e), fit)
  {
    if e.NextWave? {
      hide Record, Wave;
    } else if !e.Resize? {
      TaskStep(plan, s, e);
      hide Enabled, Apply, Routed, AllFit, TaskMoves, CallsNow;
      MoveKeepsFit(s, e, Apply(plan, s, e), fit);
    }
  }

  /** When the stage of `job` was routed, at step `i` of the run, a candidate at the place of `t` was considered that may
      be handed the stage. */
  ghost predicate RoutedAt<V>(plan: Plan, s: State<V>, e: Event<V>, job: Job, t: Target) {
    && e.Start? && e.k < |s.tasks| && s.tasks[e.k].job == job
    && exists c | c in e.considered :: MayBeHanded(plan, job, c) && Serves(t, c)
  }

  ghost predicate RoutedBefore<V>(plan: Plan, states: seq<State<V>>, es: seq<Event<V>>, job: Job, t: Target) {
    exists i | 0 <= i < |es| && i < |states| :: RoutedAt(plan, states[i], es[i], job, t)
  }

  lemma {:induction false} RunIsFit<V>(
      plan: Plan, defaultLimit: nat, states: seq<State<V>>, es: seq<Event<V>>, n: nat, fit: (Job, Target) -> bool)
    requires IsRun(plan, defaultLimit, states, es) && n <= |es|
    requires forall i | 0 <= i < |es| && es[i].Start? :: es[i].k < |states[i].tasks| &&
               forall t | t in es[i].chain :: fit(states[i].tasks[es[i].k].job, t)
    ensures AllFit(states[n], fit)
  {
    if n > 0 {
      RunIsFit(plan, defaultLimit, states, es, n - 1, fit);
      StepOfRun(plan, defaultLimit, states, es, n - 1);
      hide IsRun, Enabled, Apply, AllFit;
      StepKeepsFit(plan, states[n - 1], es[n - 1], fit);
    } else {
      hide Wave;
    }
  }

  lemma StartIsRoutedAt<V>(plan: Plan, s: State<V>, e: Event<V>)
    requires Enabled(plan, s, e) && e.Start?
    ensures e.k < |s.tasks| && forall t | t in e.chain :: RoutedAt(plan, s, e, s.tasks[e.k].job, t)
  {
    StageStartsAsItShould(plan, s, e);
    hide Routed, MayBeHanded, Serves, InOrderOf;
  }

  /** In every run, whatever was ever called for a stage was, when the stage was routed, something that may be handed it: of
      its own capability, at home if it is private, fitting its machine, and for a heavy stage neither overloaded nor short
      of power. */
  lemma CallsAreFit<V>(plan: Plan, defaultLimit: nat, states: seq<State<V>>, es: seq<Event<V>>)
    requires IsRun(plan, defaultLimit, states, es)
    ensures forall c | c in states[|es|].calls :: RoutedBefore(plan, states, es, c.job, c.target)
  {
    var fit: (Job, Target) -> bool := (job, t) => RoutedBefore(plan, states, es, job, t);
    hide RoutedAt, Enabled, Apply;
    forall i | 0 <= i < |es| && es[i].Start?
      ensures es[i].k < |states[i].tasks| && forall t | t in es[i].chain :: fit(states[i].tasks[es[i].k].job, t)
    {
      StepOfRun(plan, defaultLimit, states, es, i);
      StartIsRoutedAt(plan, states[i], es[i]);
    }
    RunIsFit(plan, defaultLimit, states, es, |es|, fit);
  }
}
