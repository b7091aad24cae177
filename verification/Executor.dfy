/** Walking a chain of targets until one gives an acceptable result. */
module Executor {
  import opened Common
  import opened Router

  /** What the hub and the model registry say at one moment; either may be absent. */
  datatype View = View(online: Option<map<Device, bool>>, usable: Option<map<Device, set<string>>>)

  datatype Attempt = Attempt(target: Target, ok: bool, reason: string)

  datatype Outcome<T> = Outcome(value: T, target: Target, attempts: seq<Attempt>)
  {
    predicate Degraded() { |attempts| > 1 }
  }

  /** Why a step is no longer worth attempting, or None. */
  function Unusable(step: Target, view: View): Option<string> {
    if !step.local || step.device.None? then None
    else
      var d := step.device.value;
      if view.online.Some? && d !in view.online.value then Some("the machine is no longer registered")
      else if view.online.Some? && !view.online.value[d] then Some("the machine went offline")
      else if view.usable.Some? && !(d in view.usable.value && step.model in view.usable.value[d]) then
        Some("the model is no longer usable on that machine")
      else None
  }

  /** Everything outside the walk: what is usable when step `i` is reached, and what the work then does. */
  datatype Environment<!T> = Environment(
    view: nat -> View, work: (nat, Target) -> Result<T, string>, acceptable: Option<T -> bool>)

  datatype Verdict<T> = Passed(reason: string) | Insufficient(value: T) | Accepted(value: T)

  const NOT_GOOD_ENOUGH := "result did not meet the bar"

  /** How step `i` ends: passed over, answered but not well enough, or accepted. */
  function Judge<T>(step: Target, i: nat, env: Environment<T>): Verdict<T> {
    var unusable := Unusable(step, env.view(i));
    if unusable.Some? then Passed(unusable.value)
    else match env.work(i, step)
      case Err(e) => Passed(e)
      case Ok(v) => if env.acceptable.Some? && !env.acceptable.value(v) then Insufficient(v) else Accepted(v)
  }

  function AttemptOf<T>(step: Target, v: Verdict<T>): Attempt {
    match v
    case Passed(reason) => Attempt(step, false, reason)
    case Insufficient(_) => Attempt(step, false, NOT_GOOD_ENOUGH)
    case Accepted(_) => Attempt(step, true, "")
  }

  /** The attempts are exactly the first `n` steps, each tried once, in order, with its own verdict. */
  ghost predicate Prefix<T>(attempts: seq<Attempt>, steps: seq<Target>, n: nat, env: Environment<T>) {
    |attempts| == n <= |steps| && forall k | 0 <= k < n :: attempts[k] == AttemptOf(steps[k], Judge(steps[k], k, env))
  }

  /** `i` is the first accepted step. */
  ghost predicate FirstAccepted<T>(steps: seq<Target>, i: nat, env: Environment<T>) {
    i < |steps| && Judge(steps[i], i, env).Accepted? && forall k: nat | k < i :: !Judge(steps[k], k, env).Accepted?
  }

  ghost predicate NoneAccepted<T>(steps: seq<Target>, env: Environment<T>) {
    forall k: nat | k < |steps| :: !Judge(steps[k], k, env).Accepted?
  }

  /** `i` is the last step that answered, when none was accepted. */
  ghost predicate LastInsufficient<T>(steps: seq<Target>, i: nat, env: Environment<T>) {
    && i < |steps| && Judge(steps[i], i, env).Insufficient?
    && forall k: nat | i < k < |steps| :: Judge(steps[k], k, env).Passed?
  }

  ghost predicate WalkResult<T>(steps: seq<Target>, env: Environment<T>, r: Result<Outcome<T>, seq<Attempt>>) {
    match r
    case Ok(o) =>
      || (exists i: nat :: FirstAccepted(steps, i, env) && o.value == Judge(steps[i], i, env).value && o.target == steps[i] &&
                      Prefix(o.attempts, steps, i + 1, env))
      || (NoneAccepted(steps, env) && Prefix(o.attempts, steps, |steps|, env) &&
          exists i: nat :: LastInsufficient(steps, i, env) && o.value == Judge(steps[i], i, env).value && o.target == steps[i])
    case Err(attempts) =>
      && Prefix(attempts, steps, |steps|, env)
      && forall k: nat | k < |steps| :: Judge(steps[k], k, env).Passed?
  }

  /** Tries each step at most once: the first acceptable result, else the last insufficient one, else every attempt. */
  method Run<T>(steps: seq<Target>, env: Environment<T>) returns (r: Result<Outcome<T>, seq<Attempt>>)
    ensures WalkResult(steps, env, r)
  {
    var attempts: seq<Attempt> := [];
    var last: Option<(T, Target)> := None;
    ghost var lastAt: nat := 0;
    for i := 0 to |steps|
      invariant Prefix(attempts, steps, i, env)
      invariant forall k: nat | k < i :: !Judge(steps[k], k, env).Accepted?
      invariant last.None? ==> forall k: nat | k < i :: Judge(steps[k], k, env).Passed?
      invariant last.Some? ==>
                  && lastAt < i && Judge(steps[lastAt], lastAt, env) == Insufficient(last.value.0)
                  && last.value.1 == steps[lastAt]
                  && forall k: nat | lastAt < k < i :: Judge(steps[k], k, env).Passed?
    {
      var step := steps[i];
      var unusable := Unusable(step, env.view(i));
      if unusable.Some? {
        attempts := attempts + [Attempt(step, false, unusable.value)];
        continue;
      }
      var reply := env.work(i, step);
      if reply.Err? {
        attempts := attempts + [Attempt(step, false, reply.error)];
        continue;
      }
      if env.acceptable.Some? && !env.acceptable.value(reply.value) {
        attempts := attempts + [Attempt(step, false, NOT_GOOD_ENOUGH)];
        last, lastAt := Some((reply.value, step)), i;
        continue;
      }
      attempts := attempts + [Attempt(step, true, "")];
      assert FirstAccepted(steps, i, env);
      return Ok(Outcome(reply.value, step, attempts));
    }
    if last.Some? {
      assert LastInsufficient(steps, lastAt, env);
      return Ok(Outcome(last.value.0, last.value.1, attempts));
    }
    return Err(attempts);
  }

  lemma LastInsufficientIsUnique<T>(steps: seq<Target>, i: nat, j: nat, env: Environment<T>)
    requires LastInsufficient(steps, i, env) && LastInsufficient(steps, j, env)
    ensures i == j
  {
  }

  lemma PrefixIsUnique<T>(a: seq<Attempt>, b: seq<Attempt>, steps: seq<Target>, n: nat, env: Environment<T>)
    requires Prefix(a, steps, n, env) && Prefix(b, steps, n, env)
    ensures a == b
  {
  }

  /** The description of the walk leaves exactly one result. */
  lemma WalkResultIsUnique<T>(
      steps: seq<Target>, env: Environment<T>, a: Result<Outcome<T>, seq<Attempt>>, b: Result<Outcome<T>, seq<Attempt>>)
    requires WalkResult(steps, env, a) && WalkResult(steps, env, b)
    ensures a == b
  {
    if i: nat :| FirstAccepted(steps, i, env) {
      FirstAcceptedDecides(steps, env, a, i);
      FirstAcceptedDecides(steps, env, b, i);
      PrefixIsUnique(a.value.attempts, b.value.attempts, steps, i + 1, env);
    } else if i: nat :| LastInsufficient(steps, i, env) {
      LastInsufficientDecides(steps, env, a, i);
      LastInsufficientDecides(steps, env, b, i);
      PrefixIsUnique(a.value.attempts, b.value.attempts, steps, |steps|, env);
    } else {
      PrefixIsUnique(a.error, b.error, steps, |steps|, env);
    }
  }

  lemma FirstAcceptedDecides<T>(steps: seq<Target>, env: Environment<T>, r: Result<Outcome<T>, seq<Attempt>>, i: nat)
    requires WalkResult(steps, env, r) && FirstAccepted(steps, i, env)
    ensures r.Ok? && r.value.value == Judge(steps[i], i, env).value && r.value.target == steps[i]
    ensures Prefix(r.value.attempts, steps, i + 1, env)
  {
    assert !NoneAccepted(steps, env);
  }

  lemma LastInsufficientDecides<T>(steps: seq<Target>, env: Environment<T>, r: Result<Outcome<T>, seq<Attempt>>, i: nat)
    requires WalkResult(steps, env, r) && LastInsufficient(steps, i, env) && forall k: nat :: !FirstAccepted(steps, k, env)
    ensures r.Ok? && r.value.value == Judge(steps[i], i, env).value && r.value.target == steps[i]
    ensures Prefix(r.value.attempts, steps, |steps|, env)
  {
    var j: nat :| LastInsufficient(steps, j, env) && r.value.value == Judge(steps[j], j, env).value && r.value.target == steps[j];
    LastInsufficientIsUnique(steps, i, j, env);
  }

  /** `degraded` is promised to mean that the first choice did not serve the result. It does mean that whenever it is
      false; when it is true the first choice may still have served, in exactly the case where it answered below the
      bar and every other step was passed over. */
  lemma DegradedAsItRuns<T>(steps: seq<Target>, env: Environment<T>, o: Outcome<T>)
    requires WalkResult(steps, env, Ok(o)) && forall i, j | 0 <= i < j < |steps| :: steps[i] != steps[j]
    ensures steps != []
    ensures o.Degraded() <==> |steps| > 1 && !Judge(steps[0], 0, env).Accepted?
    ensures !o.Degraded() ==> o.target == steps[0]
    ensures o.Degraded() && o.target == steps[0] <==>
              |steps| > 1 && Judge(steps[0], 0, env).Insufficient? && forall k: nat | 0 < k < |steps| :: Judge(steps[k], k, env).Passed?
  {
    if NoneAccepted(steps, env) {
      var i: nat :| LastInsufficient(steps, i, env) && o.target == steps[i];
      if i > 0 { assert steps[0] != steps[i]; }
    } else {
      var i: nat :| FirstAccepted(steps, i, env) && o.target == steps[i] && Prefix(o.attempts, steps, i + 1, env);
      if i > 0 { assert steps[0] != steps[i]; }
    }
  }

  // -------------------------------------------------------------- when a step is called, and what comes of it

  predicate OnMachine(step: Target) { step.local && step.device.Some? }

  predicate Unregistered(step: Target, view: View) {
    OnMachine(step) && view.online.Some? && step.device.value !in view.online.value
  }

  predicate WentOffline(step: Target, view: View) {
    OnMachine(step) && view.online.Some? && step.device.value in view.online.value && !view.online.value[step.device.value]
  }

  predicate ModelGone(step: Target, view: View) {
    OnMachine(step) && view.usable.Some? && (step.device.value in view.usable.value ==> step.model !in view.usable.value[step.device.value])
  }

  /** Nothing is known against the step when it is reached; a provider is never looked up. */
  predicate Healthy(step: Target, view: View) {
    !Unregistered(step, view) && !WentOffline(step, view) && !ModelGone(step, view)
  }

  predicate GoodEnough<T>(v: T, env: Environment<T>) {
    env.acceptable.Some? ==> env.acceptable.value(v)
  }

  /** Step `k` is called and answers. */
  predicate Answers<T>(steps: seq<Target>, k: nat, env: Environment<T>) {
    k < |steps| && Healthy(steps[k], env.view(k)) && env.work(k, steps[k]).Ok?
  }

  predicate AnswersWell<T>(steps: seq<Target>, k: nat, env: Environment<T>) {
    Answers(steps, k, env) && GoodEnough(env.work(k, steps[k]).value, env)
  }

  /** The attempt tells what happened to the step: why it was not called, or how the work ended. */
  predicate Tells<T>(a: Attempt, step: Target, k: nat, env: Environment<T>) {
    && a.target == step
    && (Unregistered(step, env.view(k)) ==> !a.ok && a.reason == "the machine is no longer registered")
    && (WentOffline(step, env.view(k)) ==> !a.ok && a.reason == "the machine went offline")
    && (!Unregistered(step, env.view(k)) && !WentOffline(step, env.view(k)) && ModelGone(step, env.view(k)) ==>
          !a.ok && a.reason == "the model is no longer usable on that machine")
    && (Healthy(step, env.view(k)) ==>
          var reply := env.work(k, step);
          if reply.Err? then !a.ok && a.reason == reply.error
          else if GoodEnough(reply.value, env) then a.ok && a.reason == ""
          else !a.ok && a.reason == "result did not meet the bar")
  }

  lemma JudgeInWords<T>(step: Target, k: nat, env: Environment<T>)
    ensures Judge(step, k, env).Passed? <==> !(Healthy(step, env.view(k)) && env.work(k, step).Ok?)
    ensures !Judge(step, k, env).Passed? ==>
              && Judge(step, k, env).value == env.work(k, step).value
              && (Judge(step, k, env).Accepted? <==> GoodEnough(env.work(k, step).value, env))
    ensures Tells(AttemptOf(step, Judge(step, k, env)), step, k, env)
  {
  }

  /** A step whose machine is gone or offline, or whose model is, is never called; every other step that is reached is, and
      counts by its own answer. The result is the first good answer, else the last answer, else a failure; and the attempts
      tell each step walked, in order. */
  lemma RunInWords<T>(steps: seq<Target>, env: Environment<T>, r: Result<Outcome<T>, seq<Attempt>>)
    requires WalkResult(steps, env, r)
    ensures var attempts := if r.Ok? then r.value.attempts else r.error;
            |attempts| <= |steps| && forall k | 0 <= k < |attempts| :: Tells(attempts[k], steps[k], k, env)
    ensures r.Err? <==> forall k: nat :: !Answers(steps, k, env)
    ensures r.Err? ==> |r.error| == |steps|
    ensures r.Ok? ==>
              exists i: nat | Answers(steps, i, env) ::
                && r.value.target == steps[i] && r.value.value == env.work(i, steps[i]).value
                && (if AnswersWell(steps, i, env)
                    then |r.value.attempts| == i + 1 && forall k: nat | k < i :: !AnswersWell(steps, k, env)
                    else |r.value.attempts| == |steps| && (forall k: nat :: !AnswersWell(steps, k, env))
                         && forall k: nat | k > i :: !Answers(steps, k, env))
  {
    forall k: nat | k < |steps|
      ensures Answers(steps, k, env) <==> !Judge(steps[k], k, env).Passed?
      ensures AnswersWell(steps, k, env) <==> Judge(steps[k], k, env).Accepted?
      ensures Answers(steps, k, env) ==> Judge(steps[k], k, env).value == env.work(k, steps[k]).value
      ensures Tells(AttemptOf(steps[k], Judge(steps[k], k, env)), steps[k], k, env)
    {
      JudgeInWords(steps[k], k, env);
    }
    hide Judge, Answers, AnswersWell, Tells, AttemptOf;
    NobodyBeyond(steps, env);
    if r.Ok? {
      if i: nat :| FirstAccepted(steps, i, env) {
        FirstAcceptedDecides(steps, env, r, i);
        assert Answers(steps, i, env) && AnswersWell(steps, i, env);
      } else {
        var i: nat :| LastInsufficient(steps, i, env) && r.value.value == Judge(steps[i], i, env).value && r.value.target == steps[i];
        assert Answers(steps, i, env) && !AnswersWell(steps, i, env);
      }
    }
  }

  lemma NobodyBeyond<T>(steps: seq<Target>, env: Environment<T>)
    ensures forall k: nat | k >= |steps| :: !Answers(steps, k, env) && !AnswersWell(steps, k, env)
  {
  }

  /** In particular a healthy first choice with a good answer serves, and nothing else is called. */
  lemma HealthyFirstChoiceServes<T>(steps: seq<Target>, env: Environment<T>, r: Result<Outcome<T>, seq<Attempt>>)
    requires WalkResult(steps, env, r) && AnswersWell(steps, 0, env)
    ensures r == Ok(Outcome(env.work(0, steps[0]).value, steps[0], [Attempt(steps[0], true, "")]))
  {
    RunInWords(steps, env, r);
    hide WalkResult, Healthy, Unregistered, WentOffline, ModelGone, GoodEnough;
    var i: nat :| Answers(steps, i, env) && r.value.target == steps[i] && r.value.value == env.work(i, steps[i]).value
                  && (if AnswersWell(steps, i, env)
                      then |r.value.attempts| == i + 1 && forall k: nat | k < i :: !AnswersWell(steps, k, env)
                      else |r.value.attempts| == |steps| && (forall k: nat :: !AnswersWell(steps, k, env))
                           && forall k: nat | k > i :: !Answers(steps, k, env));
    assert i == 0 && Tells(r.value.attempts[0], steps[0], 0, env);
    assert r.value.attempts[0] == Attempt(steps[0], true, "");
    assert r.value.attempts == [Attempt(steps[0], true, "")];
  }

  const WEAK := Target(None, "cloud", "weak", false, [])
  const STRONG := Target(None, "cloud", "strong", false, [])

  /** The first answers 1, below the bar; the second cannot be reached. */
  const POOR: Environment<int> := Environment(
    _ => View(None, None), (_: nat, t: Target) => if t == WEAK then Ok(1) else Err("down"), Some((v: int) => v > 1))

  /** A chain of two, of which the first answers below the bar and the second fails: the first choice served, and the
      result is called degraded. */
  lemma FirstChoiceCalledDegraded()
    ensures var o := Outcome(1, WEAK, [Attempt(WEAK, false, NOT_GOOD_ENOUGH), Attempt(STRONG, false, "down")]);
            WalkResult([WEAK, STRONG], POOR, Ok(o)) && o.target == [WEAK, STRONG][0] && o.Degraded()
  {
    var steps := [WEAK, STRONG];
    assert steps[0] == WEAK && steps[1] == STRONG;
    assert Judge(WEAK, 0, POOR) == Insufficient(1);
    assert Judge(STRONG, 1, POOR) == Passed("down");
    assert LastInsufficient(steps, 0, POOR);
  }
}
