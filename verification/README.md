# Thursday's core, verified

Thursday is a personal assistant that runs work on the owner's own machines and, when allowed, on cloud providers. This
project models the parts of it whose promises span many steps or several components, and proves those promises.

- **Running a task.** `Distributed` is the runner of a graph of stages in concurrent waves, next to a reference that
  runs one enabled stage at a time. `Router` (with `Ranking`) filters and ranks the machines, `Executor` walks the
  fallback chain, `Capacity` is the ledger and the semaphores of every machine. `Scheduler` puts the four together as
  a step machine: stages wait at the task's gate, are routed by the load of that moment, wait for a slot, work, fall
  back, finish, in any interleaving, while limits change under them; what is recorded is what the walk of the chain
  ended with. `Preference`, `Handed` and `Slots` say in the owner's words what the router prefers, what a stage may be
  handed and how many jobs a machine carries. `Waves` follows the waves and `Agreement` compares finished runs.
  `House` does so for a house whose candidates and replies are fixed, `Spread` says when the load has a say in a
  ranking, and `Ties` that it then shows.
- **Replacing a node's key.** `Rotation` is the protocol between node and core with crashes between any two writes and
  messages lost, delayed and repeated; `NodeIdentity` is the node's stores and one run of the command. The core's side
  is an environment: it adopts the incoming key of a doubly signed request exactly when it holds the retiring one.
- **Rules and timing.** `Cron` parses and matches schedules (`CronText` writes them down and reads them back),
  `Engine` decides what is due, `Proactivity` limits how often Thursday speaks up (`Manners`: about what and to whom)
  and `HourlyLimit` says what becomes of that on a clock that goes back, `Workflow` and `Conversion` turn the
  builder's canvas into a rule and back. `Rules` holds the data they share.
- **Bounded state that stands for unbounded state.** `Cost` (with `Calendar`) is the spend ledger, `Dates` and `Bill`
  say what it counts in years, months and days, and `Overrun` how far its caps can be overrun, `Bus` the replay guard
  and the history, `Benchmarks` the measurement window and `Figures` what its figures say, `Jpeg` the walk over a
  picture's segments.

Objects that the source changes in place are classes whose methods are tied to pure functions of the old state; the
theorems are lemmas about those functions or about runs of a state machine. `dafny verify dfyconfig.toml` checks all of
it.

## Where the code and its documentation part

The model follows the code. Where a comment promises more, a lemma says exactly when the promise holds.

- `set_limit` says a busy device picks the new limit up once it drains (`packages/core/thursday_core/capacity.py:109-111`).
  It drops the old semaphore at once, so old and new holders overlap and can exceed the limit:
  `Capacity.ResizeKeepsLimitIffIdle`.
- `degraded` is documented as "the first choice did not serve this" (`packages/core/thursday_core/compute_execution.py:76`);
  it counts attempts: `Executor.DegradedAsItRuns`, and `Executor.FirstChoiceCalledDegraded` for an input.
- A battery level of exactly zero is read as full (`packages/core/thursday_core/compute_router.py:308-313`):
  `Router.BatteryRuleAsItRuns`, and `Router.EmptyBatteryLeads` for a chain it heads.
- `max_parallel` is described as a ceiling only (`packages/core/thursday_core/distributed.py:168-171`). In a
  house whose replies are fixed the values never depend on it (`House.OneHouseOneResult`), but a gate changes what is in
  flight when a stage is routed, and with it the machine, if and only if two candidates tie on all that ranks ahead of
  the load: `Spread.OneRankingIffNoTie`, `House.OneRecord`, `Ties.OneRecordIffNoTie`, and `Ties.MachinesMayDiffer` for an
  example.
- `pending_key` swallows a keychain read error (`apps/node/__main__.py:231-235`), after which `stage_pending` replaces a
  key the core may already hold: `Rotation.BlindStagingIsSafeIffNeverAsked`; `Rotation.BlindStagingLocksOut` reaches it.
- The day rule is called the POSIX rule (`packages/automation/thursday_automation/cron.py:95`) but always demands the
  month as well: `Cron.PosixAgreement`, and `CronText.PosixDiffers` for a moment.
- A schedule is to fire once in its minute (`packages/automation/thursday_automation/engine.py:108-110`); when the
  clock goes back it fires again: `Engine.FiredOnceIffUninterrupted`, `Engine.ClockGoingBackFiresTwice`.
- The hourly limit (`packages/automation/thursday_automation/engine.py:66-72`) needs a clock that does not go back, and a
  sweep takes its time before it waits (`packages/automation/thursday_automation/proactive.py:157-166`):
  `HourlyLimit.LimitsKeptIffNotOutrun` says exactly when the limits can still be kept,
  `Proactivity.SlowSweepExceedsTheLimit` shows them broken.
- A canvas with two action nodes of one id loses one of them, although no node is meant to vanish
  (`packages/automation/thursday_automation/workflow.py:142-146`): `Workflow.ActionsArePermutedIffIdsAreDistinct`,
  `Workflow.FirstNamesakeVanishes`.
- Canvas and rule are said to round-trip (`packages/automation/thursday_automation/workflow.py:19-21`); several fields
  are not carried: `Conversion.RoundTripIffCarriable`, `Conversion.RoundTripRestores`,
  `Conversion.HintIsLost`.
- A history limit of zero keeps everything (`packages/core/thursday_core/bus.py:65`): `Bus.HistoryIsBoundedIffLimited`.
- An unclassified fault is documented as counted in neither direction (`packages/core/thursday_core/benchmarks.py:73-75`)
  and is counted against the model: `Benchmarks.RateAsDocumentedIffAllClassified`,
  `Benchmarks.UnclassifiedFailureLowersTheRate`.
- A flush clears marks set while it waits (`packages/core/thursday_core/benchmarks.py:281-287`):
  `Benchmarks.FlushForgetsIffRecordedTooLate`, `Benchmarks.ChangeForgotten`.
- Fill bytes before a marker, allowed by section B.1.1.2 of ITU-T T.81, are taken for a segment
  (`packages/agents/thursday_agents/media.py:116-128`): `Jpeg.FoundIffNoFill`,
  `Jpeg.OneFillByteHidesTheFrame`.

A row of the table gives the member, the lines it models, and what its contract promises.

## Model

| member | source | states |
|---|---|---|
| `Scheduler.DeadlockFree` | packages/core/thursday_core/distributed.py:212-218 | In every state reachable by any interleaving (stages overlapping, fallbacks, resizes at any moment) that still has stages, some step other than a resize is possible, whatever candidates the router is given, whichever steps have become unusable and however the work ends; a stage starts with the chain the router gives for the load at that moment. |
| `Scheduler.NeverStuck` | packages/core/thursday_core/distributed.py:212-231 | The same from any state that keeps its slots: a working stage can finish, else a waiting one be admitted, else one at a step ask or skip, else one at the gate start, else the wave be recorded. |
| `Scheduler.EndlessRunsAreResized` | packages/core/thursday_core/distributed.py:212-231 | There is no endless run without endless resizing: in every endless run from a state that keeps the invariants there is a resize after every point. |
| `Scheduler.CanAlwaysComplete` | packages/core/thursday_core/distributed.py:212-231 | From every state that keeps the invariants, and in any surroundings (candidates, unusable steps, verdicts), even ones that react to everything done so far, steps other than resizes lead to the end of the task. |
| `Scheduler.EveryStepIsNearer` | packages/core/thursday_core/distributed.py:218-231 | Every step but a resize strictly decreases a well-founded measure: stages unrecorded, then stages at the gate, then chain steps ahead. |
| `Scheduler.PrivateTaskStaysLocal` | packages/core/thursday_core/distributed.py:179-201 | For a task at HIGHLY_PRIVATE or above, every target ever handed to the work, first choice or fallback, in any stage, in any reachable state, is local, whatever sensitivity the stage claims and however candidates scored. |
| `Scheduler.StageIsTheExecutors` | packages/core/thursday_core/distributed.py:194-210 | What a finished stage is recorded with is the executor's outcome for its chain: the value, machine and model of the accepted or last insufficient step and whether it was degraded, or a failure when no step answered. |
| `Scheduler.AnswersAreServed` | packages/core/thursday_core/distributed.py:194-210 | In every reachable state every recorded answer names the machine and model of a call made for that stage, to a local target if the task is private; a stage for which nothing was called is recorded as failed. |
| `Scheduler.FinishedRunReleases` | packages/core/thursday_core/distributed.py:212-231 | When no stage is left, no machine is held or awaited, every count is zero, the gate is full, and no stage is runnable. |
| `Scheduler.CarriesAtMostLimit` | packages/core/thursday_core/capacity.py:125-158 | If a machine is resized only while no job holds or awaits it, it carries at most its limit in every reachable state of the whole task. |
| `Scheduler.StepKeepsSlots` | packages/core/thursday_core/capacity.py:125-158 | Every step keeps: held permits of each semaphore generation = tasks working on it, its waiters = tasks waiting for it, the cloud count = tasks in the cloud, missing gate permits = tasks inside the gate. |
| `Scheduler.StepKeepsPrivacy` | packages/core/thursday_core/compute_router.py:265-285 | Every step keeps private stages on local targets, both those already called and those still ahead in a chain. |
| `Scheduler.RunIsSound` | packages/core/thursday_core/distributed.py:173-234 | All four invariants (slots, outcomes, walks, privacy) hold in every state of every run from the start. |
| `Scheduler.QuietMeansReleased` | packages/core/thursday_core/capacity.py:140-158 | When no task is inside the gate, nothing is held, awaited or counted on any machine or the cloud, and the gate is full. |
| `Scheduler.WorkingCanFinish` | packages/core/thursday_core/capacity.py:154-158 | A task that is working waits for nothing: it can give its slot back whatever happened to its result. |
| `Scheduler.WaitingCanBeAdmitted` | packages/core/thursday_core/capacity.py:140-155 | When nobody is working, a waiting task can be admitted by the generation it waits on, even one that a resize has since dropped. |
| `Scheduler.NextWaveKeepsOutcomes` | packages/core/thursday_core/distributed.py:218-231 | Recording a finished wave keeps what is recorded reachable by running one enabled stage at a time, and adds exactly the names of the wave. |
| `Scheduler.TaskStepKeepsOutcomes` | packages/core/thursday_core/distributed.py:179-210 | No step within a wave changes what is recorded or takes a stage out of the wave. |
| `Scheduler.StepKeepsWalks` | packages/core/thursday_core/compute_execution.py:110-155 | Every step keeps: the verdicts of a stage are those of a prefix of its chain walked in order up to the first accepted one, every answer among them and every recorded answer came from a call made. |
| `Agreement.OverlapDoesNotMatter` | packages/core/thursday_core/distributed.py:173-234 | Given what each stage got, every complete one-at-a-time run of any listing of the plan, in any order, records exactly what the finished overlapping run recorded. |
| `Agreement.FinishedRunsAgreeIffSameAnswered` | packages/core/thursday_core/distributed.py:173-234 | Two finished runs of the same stages, however listed, gated, limited, routed and interleaved, whose work gives a value from stage and declared inputs, produce the same values under the same names if and only if the same stages got an answer, and then record the same stages. |
| `Agreement.FinishedRunsAgree` | packages/core/thursday_core/distributed.py:173-234 | If the declared inputs also decide whether a stage gets an answer, all finished runs record the same stages and produce the same values, whatever `max_parallel`, the limits and the routing were. |
| `House.OneHouseOneResult` | packages/core/thursday_core/distributed.py:173-247 | With each stage's candidates fixed and each place's reply a function of stage and declared inputs, a step that cannot be used being one whose place passes, and values that do not depend on the place: all finished runs of one task, however listed, gated, limited, resized and interleaved, record the same stages and produce the same values. Nothing is assumed about their outcomes. |
| `House.OneRecord` | packages/core/thursday_core/distributed.py:173-247 | If moreover no admissible candidates of a stage tie on what its profile looks at before the load, the whole record is the same: value, machine, model and degraded, even where values depend on the machine. |
| `House.GateOfOneOneRecord` | packages/core/thursday_core/distributed.py:173-247 | With `max_parallel` 1 in both runs the whole record is the same even where candidates tie. |
| `House.ExplainedIsAnswered` | packages/core/thursday_core/compute_execution.py:97-155 | A stage gets an answer exactly when some admissible candidate answers it, in whatever order the load puts them. |
| `Spread.OneRankingIffNoTie` | packages/core/thursday_core/compute_router.py:317-365 | The router's order of the candidates is the same under every load if and only if no two admissible ones on different machines agree in every key ahead of the load. |
| `Ties.OneRecordIffNoTie` | packages/core/thursday_core/distributed.py:168-247 | Among candidates each at a place of its own, every two finished runs of one task in one house record the same if and only if no two admissible candidates tie. |
| `Ties.TieShows` | packages/core/thursday_core/distributed.py:168-247 | For any two that tie there are two finished runs of two independent stages, with `max_parallel` 0 and 1, in one house, with the same values from different machines. |
| `Ties.MachinesMayDiffer` | packages/core/thursday_core/distributed.py:168-216 | Two equal machines are such a case. |
| `Distributed.Confluence` | packages/core/thursday_core/distributed.py:173-247 | For any plan with distinct names (cyclic, self-dependent or with unknown needs included) and any two listings of it, all complete one-at-a-time runs give the same outcome to every stage. |
| `Distributed.ScheduleIsConsistent` | packages/core/thursday_core/distributed.py:190-194 | In any run every outcome is what its stage makes of its declared inputs as they are at the end: later stages never change an earlier stage's inputs. |
| `Distributed.ScheduleStaysBelow` | packages/core/thursday_core/distributed.py:218-231 | Any partial run agrees, outcome by outcome, with any complete and consistent result. |
| `Distributed.RanIffInputsProduced` | packages/core/thursday_core/distributed.py:218-231 | In a complete run a stage has an outcome if and only if everything it needs was produced, and that outcome is its work on exactly those inputs. |
| `Distributed.CyclesNeverRun` | packages/core/thursday_core/distributed.py:160-166 | Stages that wait for each other, for themselves or for a name nobody produces never run in any order, and nothing outside the plan gets an outcome. |
| `Distributed.GrownIsOneByOne` | packages/core/thursday_core/distributed.py:218-231 | Outcomes grown stage by stage, each when its needs were produced, are those of a one-at-a-time run of a fixed work function. |
| `Distributed.ProducedAgreeIffSameAnswered` | packages/core/thursday_core/distributed.py:190-234 | Two results whose values come from stage and declared inputs produce the same if and only if the same stages got an answer. |
| `Distributed.RoutingDoesNotMatter` | packages/core/thursday_core/distributed.py:190-234 | Two complete results whose values and answering come from stage and declared inputs record the same stages and produce the same. |
| `Distributed.RunWaves` | packages/core/thursday_core/distributed.py:218-231 | The wave loop terminates, its result is a complete one-at-a-time run in wave order, every wave is non-empty, and each stage is in the earliest wave its inputs allow. |
| `Distributed.RunWave` | packages/core/thursday_core/distributed.py:225-231 | One wave, its inputs fixed before it began, has the effect of running its stages one after the other, and records exactly their names. |
| `Distributed.NoEarlierRound` | packages/core/thursday_core/distributed.py:219-225 | No assignment of rounds that puts every stage after its needs gives any stage an earlier round than its wave. |
| `Distributed.FewestWaves` | packages/core/thursday_core/distributed.py:218-225 | No grouping of those stages into rounds that respects `needs` uses fewer rounds than there were waves. |
| `Waves.WavesAreEarliest` | packages/core/thursday_core/distributed.py:218-231 | In every reachable state of a task that overlaps its stages, each wave recorded so far was as early as its stages' inputs allowed, none was empty, and together they are the stages recorded. |
| `Waves.RunTakesFewestWaves` | packages/core/thursday_core/distributed.py:218-231 | No run goes through more waves than the fewest rounds into which the stages it recorded can be put so that each comes after all it needs. |
| `Distributed.Run` | packages/core/thursday_core/distributed.py:173-276 | The report lists every stage in the caller's order, the task fails exactly when a required stage has no result, and then with the first such stage of the listing and whether it lacked inputs (which ones) or ran nowhere. |
| `Distributed.Conclude` | packages/core/thursday_core/distributed.py:236-269 | The same report from the outcomes alone: a stage that never became runnable is recorded with the inputs it lacked. |
| `Distributed.Missing` | packages/core/thursday_core/distributed.py:242-246 | Lists exactly the needs that were not produced; empty if and only if the stage was runnable. |
| `Distributed.RequestFor` | packages/core/thursday_core/distributed.py:182-189 | The task's sensitivity is a floor: the request is at least as sensitive as both the task and the stage, and no more than one of them. |
| `Handed.StageStartsAsItShould` | packages/core/thursday_core/distributed.py:179-193 | Whenever a stage starts, its chain is all that may be handed it and nothing else: models of the stage's own capability, providers unless stage or task is private or the profile in force forbids them, each fitting its machine, and for a heavy stage only machines with room and power, for a light one whatever their load; in the order of the stage's own profile, or the task's when it has none. |
| `Handed.CallsAreFit` | packages/core/thursday_core/distributed.py:179-201 | In every run every call ever made for a stage was at a place that, when the stage was routed, might be handed it in the same sense: no heavy stage is called on a machine that load or power ruled out then. |
| `Handed.OpenInWords` | packages/core/thursday_core/distributed.py:182-189 | The router admits a candidate for a stage if and only if it may be handed the stage. |
| `Distributed.JoinedInWords` | packages/core/thursday_core/distributed.py:242-246 | The inputs a failed stage lacked are listed with a comma and a space between any two and nowhere else. |
| `Router.Choose` | packages/core/thursday_core/compute_router.py:170-285 | Fails if and only if something stands against every registered candidate of the capability and the cloud one, and then names for each in order the first of the reasons that is so; otherwise its chain is all those that may serve and nothing else, in the stable descending order of the score. What stands against a candidate is written out: a provider for a request that stays at home by sensitivity, mode, profile or network, a machine for CLOUD_ONLY, a model that does not fit, and for heavy work a machine without room or power. |
| `Router.RefusedForAReason` | packages/core/thursday_core/compute_router.py:265-315 | A candidate is refused if and only if one of the written-out rules stands against it, and the reason given is so and comes before every other that is so. |
| `Router.ConsideredAreEligible` | packages/core/thursday_core/compute_router.py:174-248 | Considered are the registered models of the asked capability and the provider the caller brought, and no others. |
| `Preference.ScoresFollowCriteria` | packages/core/thursday_core/compute_router.py:317-365 | One candidate scores below another if and only if the other is better by the first of the profile's criteria that tells them apart, each criterion being written out: named, on the mode's side, with a GPU, loaded, faster, more successful, carrying less, less busy, on mains. |
| `Preference.ChainFollowsPreference` | packages/core/thursday_core/compute_router.py:194-213 | In a chain no candidate comes after one it is preferred to, and candidates that nothing tells apart stay in the order they were offered in. |
| `Router.Sift` | packages/core/thursday_core/compute_router.py:176-193 | Keeps exactly the admissible candidates in order, and has one reason per candidate when none is left. |
| `Router.Ranked` | packages/core/thursday_core/compute_router.py:195-222 | Target and fallbacks together are a stable, lexicographically descending permutation of the admissible candidates, each step saying where its candidate is. |
| `Router.RankedChainIsAdmissible` | packages/core/thursday_core/compute_router.py:176-222 | Every step of a chosen chain, fallbacks included, serves a candidate that the filter admitted. |
| `Router.PrivateChainsAreLocal` | packages/core/thursday_core/compute_router.py:265-285 | No score can put a provider into the chain of a HIGHLY_PRIVATE or SECRET request. |
| `Router.RaisingSensitivityOnlyRemoves` | packages/core/thursday_core/compute_router.py:265-285 | Raising the sensitivity never admits an excluded candidate, and newly excludes exactly the non-local ones once the floor is HIGHLY_PRIVATE. |
| `Router.PreferredMachineLeads` | packages/core/thursday_core/compute_router.py:317-365 | The explicitly preferred machine heads the chain if and only if one of its candidates is admissible: it beats every preference and no exclusion. |
| `Router.BatteryRuleAsItRuns` | packages/core/thursday_core/compute_router.py:170-222 | For heavy work a candidate on battery that would be in the chain on the mains is in the chain exactly when its machine's level is missing, zero, or no less than 25 %; other models of that machine may be candidates too. |
| `Router.EmptyBatteryLeads` | packages/core/thursday_core/compute_router.py:302-313 | A machine on battery at zero heads the chain of heavy work before its twin on the mains that is listed later and carries no less (BALANCED). |
| `Ranking.RankIsStableDescending` | packages/core/thursday_core/compute_router.py:195-200 | The sorted list is descending and keeps equals in their original order. |
| `Ranking.StableDescendingIsUnique` | packages/core/thursday_core/compute_router.py:195-200 | Order and stability leave only one list, so the description determines the chain. |
| `Ranking.RankIsPermutation` | packages/core/thursday_core/compute_router.py:195-200 | Sorting neither drops nor repeats a candidate. |
| `Router.ProfileDecides` | packages/core/thursday_core/compute_router.py:317-365 | Among candidates equally preferred by name: FAST ranks a loaded model and then a faster one first, QUALITY the one that succeeds more, LOW_POWER a machine that is not on battery, every other profile the side, house or cloud, that the mode asks for. |
| `Router.WorkIsSpread` | packages/core/thursday_core/compute_router.py:317-365 | Of two candidates that differ only in the machine, the one whose machine carries less of Thursday's own work is tried first, under every profile. |
| `Router.TwinsFollowLoad` | packages/core/thursday_core/compute_router.py:317-365 | Of two candidates alike but for machine and power the first stays first exactly unless its machine carries more of Thursday's own work (BALANCED). |
| `Executor.Run` | packages/core/thursday_core/compute_execution.py:97-155 | Returns the first accepted result in chain order, else the last insufficient one, else fails; each step is tried at most once and the attempts are exactly the walked prefix, each with its own verdict. |
| `Executor.RunInWords` | packages/core/thursday_core/compute_execution.py:97-187 | A cloud step that is reached is always called, a local one if and only if its machine is registered and online and its model usable there at that moment; otherwise its attempt names which of these failed. The result is the first good answer with no step before it answering well, else the last answer with none behind it, else a failure; each walked step has its own attempt, which tells what became of it. |
| `Executor.HealthyFirstChoiceServes` | packages/core/thursday_core/compute_execution.py:110-135 | When the first step is healthy and answers well, the result is its answer, after one attempt. |
| `Executor.WalkResultIsUnique` | packages/core/thursday_core/compute_execution.py:97-155 | That description has exactly one result for every chain and environment. |
| `Executor.DegradedAsItRuns` | packages/core/thursday_core/compute_execution.py:74-81 | `degraded` is false only if the first choice served; it is true although the first choice served exactly when that choice answered below the bar and every other step was passed over. |
| `Executor.FirstChoiceCalledDegraded` | packages/core/thursday_core/compute_execution.py:74-155 | A chain of two whose first step answers below the bar and whose second fails: served by the first choice and called degraded. |
| `Capacity.NextConserves` | packages/core/thursday_core/capacity.py:97-158 | Asking, being admitted, releasing and resizing all keep, per semaphore generation, free + held permits = the limit it was created with, and per machine, in-flight = holders summed over generations. |
| `Capacity.WithinLimitAlways` | packages/core/thursday_core/capacity.py:97-158 | Over every run that resizes a machine only while no job holds or awaits it, in-flight never exceeds the limit. |
| `Capacity.ResizeKeepsLimitIffIdle` | packages/core/thursday_core/capacity.py:97-112 | After a resize the limit is kept in every later state (without further resizing) if and only if no job held or awaited the machine at that moment. |
| `Capacity.Overshoot` | packages/core/thursday_core/capacity.py:97-112 | From a dropped generation that is still held or awaited, builds a run without resizes that drives the machine past its limit. |
| `Capacity.NotStaleMeansWithinLimit` | packages/core/thursday_core/capacity.py:88-95 | As long as nobody holds or awaits a dropped generation, in-flight is at most the limit. |
| `Capacity.HolderMayRelease` | packages/core/thursday_core/capacity.py:154-158 | Every holder of a permit, of any generation, can give it back at once. |
| `Capacity.HoldRestores` | packages/core/thursday_core/capacity.py:124-158 | A job that asks, is admitted and leaves puts every permit, waiter and count back where it was. |
| `Capacity.FillRaises` | packages/core/thursday_core/capacity.py:140-158 | As many further jobs as the current semaphore has permits can be admitted, each raising in-flight by one. |
| `Capacity.AdmitEffect` | packages/core/thursday_core/capacity.py:154-155 | Admission turns one waiter into one holder of the same generation and touches no other. |
| `Capacity.DeviceCapacity.constructor` | packages/core/thursday_core/capacity.py:70-80 | A new ledger is empty and conserved. |
| `Capacity.DeviceCapacity.Create` | packages/core/thursday_core/capacity.py:70-80 | A default limit below one is refused, any other gives a fresh ledger. |
| `Capacity.DeviceCapacity.SetLimit` | packages/core/thursday_core/capacity.py:97-112 | A limit below one is refused and changes nothing; any other drops the semaphore, and makes a new one at once only when nothing is in flight. |
| `Capacity.DeviceCapacity.AskFor` | packages/core/thursday_core/capacity.py:125-154 | The cloud is counted and let through; a machine's job joins its current semaphore, made on demand with the limit in force. |
| `Slots.CountsAreJobs` | packages/core/thursday_core/capacity.py:86-158 | Over any run the in-flight count of a machine, and of the cloud, changes by the jobs that were admitted to it less those that left. |
| `Slots.AtMostTheDefault` | packages/core/thursday_core/capacity.py:72-158 | From a new ledger of default `n` a machine that is never resized has at no time more than `n` jobs on it, whatever is resized besides. |
| `Slots.TheDefaultFits` | packages/core/thursday_core/capacity.py:72-158 | And it can have `n` at once. |
| `Slots.AtMostTheNewLimit` | packages/core/thursday_core/capacity.py:96-158 | After an idle machine is resized to `n`, it has at no time more than `n` jobs on it until it is resized again. |
| `Slots.TheNewLimitFits` | packages/core/thursday_core/capacity.py:96-158 | And it can have `n` at once. |
| `Capacity.DeviceCapacity.Enter` | packages/core/thursday_core/capacity.py:154-155 | Admission takes a permit of the generation waited on and counts the job. |
| `Capacity.DeviceCapacity.Leave` | packages/core/thursday_core/capacity.py:135-158 | Leaving, however the work ended, returns the permit to the generation it came from and the count to what it was. |
| `Rotation.NeverLockedOut` | apps/node/__main__.py:513-580 | After any crashes and any lost, delayed or repeated messages, the core's key is the node's live or staged key; every request in flight is stale for ever, asks for the staged key in place of the live one, or maps a key to itself. |
| `Rotation.NextKeepsInv` | apps/node/__main__.py:240-304 | The inductive invariant behind it, kept by every step between two persistent writes on either side. |
| `Rotation.RotationRecovers` | apps/node/__main__.py:513-580 | From any reachable state, one uninterrupted loss-free rotation that ends has returned 0 with the core's key live and nothing staged, even if an earlier reply was lost or a crash left live = staged. |
| `Rotation.RotationCanEnd` | apps/node/__main__.py:513-580 | Such a rotation can always be carried to its end, in at most nine steps. |
| `Rotation.BlindStagingIsSafeIffNeverAsked` | apps/node/__main__.py:227-271 | When the keychain read inside `pending_key` fails silently, a fresh key overwrites the staged one; the node is safe for ever after if and only if the overwritten key was already live or had never been asked for in place of the live one. |
| `Rotation.BlindStagingLocksOut` | apps/node/__main__.py:227-271 | It happens from a freshly paired node: begin, post, delivery, a restart before the reply, and a blind read leave a state in which neither store holds the core's key. |
| `NodeIdentity.Identity.constructor` | apps/node/__main__.py:109-116 | A new node has no key, no staged key and no pairing. |
| `NodeIdentity.Identity.GetKey` | apps/node/__main__.py:140-222 | An existing key is kept and only moved between stores, otherwise a fresh one is stored; the staged key and the pairing are untouched. |
| `NodeIdentity.Identity.AdoptOrGenerate` | apps/node/__main__.py:172-198 | A key file moves into the keychain unchanged and is removed; without one a fresh key is stored there. |
| `NodeIdentity.Identity.StagePending` | apps/node/__main__.py:240-271 | The successor is stored before anything is asked; one already staged is used again, and the identity is untouched. |
| `NodeIdentity.Identity.PromotePending` | apps/node/__main__.py:273-304 | The staged key becomes the identity, in the store and the pairing record, and the stage is cleared, unless the keychain fails to delete it unnoticed: then the same key stays staged; without a staged key nothing changes. |
| `NodeIdentity.Core.Rotate` | apps/node/__main__.py:486-493 | The core adopts the incoming key if and only if it holds the retiring one. |
| `NodeIdentity.RotateKey` | apps/node/__main__.py:513-580 | One run is a run of the protocol, so that what holds of its runs holds of the stores; it never loses the core's key whatever messages are lost; 0 means the core's key is live and recorded, and nothing is staged, or that same key when its delete failed unnoticed; a run whose request and question arrive returns 0 even if the reply is lost; an earlier lost reply needs only the question; an unpaired node changes nothing. |
| `NodeIdentity.CommandIsARun` | apps/node/__main__.py:513-580 | What one run of the command does to the stores and the core, whatever is lost, is a run of the protocol that never finds the store unreadable. |
| `NodeIdentity.CommandsNeverLockOut` | apps/node/__main__.py:513-580 | Run any number of times, with anything lost each time, the command leaves the node able to prove itself to the core. |
| `Cron.Parse` | packages/automation/thursday_automation/cron.py:114-140 | Accepts exactly the expressions with five readable words, with the sets those words denote, and otherwise says whether there were no words, a wrong number of them, or an unreadable one. |
| `Cron.ParseField` | packages/automation/thursday_automation/cron.py:143-149 | A field is accepted if and only if every comma-separated item is; its set is then non-empty, in range, and exactly the union of what the items denote; otherwise the first unreadable item is reported. |
| `Cron.Item` | packages/automation/thursday_automation/cron.py:152-178 | An accepted item is a range within the field's bounds, start not after end, with a step of at least one. |
| `Cron.Number` | packages/automation/thursday_automation/cron.py:181-198 | A number or name that is accepted lies within the field's bounds. |
| `Cron.SteppedMeaning` | packages/automation/thursday_automation/cron.py:152-178 | The set built by stepping is exactly {v : start <= v <= stop and step divides v - start}. |
| `Cron.JoinOfSplit` | packages/automation/thursday_automation/cron.py:143-149 | Splitting a field at commas loses nothing: joining the pieces gives the text back. |
| `Cron.ReadingIsUnique` | packages/automation/thursday_automation/cron.py:114-140 | An expression denotes at most one schedule. |
| `Cron.MatchesMeaning` | packages/automation/thursday_automation/cron.py:85-111 | A moment matches if and only if minute, hour and month are in their sets and: day or weekday when both are restricted, otherwise whichever is restricted, otherwise nothing more. |
| `Cron.PosixAgreement` | packages/automation/thursday_automation/cron.py:94-111 | Never fires when the rule of IEEE Std 1003.1-2017 does not, and agrees with it at every moment except exactly those with weekday and month both restricted that fall on the weekday outside the month, or in the month on another weekday with the day left open. |
| `CronText.PosixDiffers` | packages/automation/thursday_automation/cron.py:94-111 | `0 0 * 1 1` at midnight on a Friday in January: due by the POSIX rule, not due here. |
| `CronText.ExpressionReadsBack` | packages/automation/thursday_automation/cron.py:114-140 | Any five lists of stars, values, ranges and steps, in digits or names, written out as an expression, are read back as exactly the schedule whose sets are the unions of what they stand for, with a day field restricted unless it is a single star, and no other. |
| `CronText.FieldReadsBack` | packages/automation/thursday_automation/cron.py:143-149 | A field written as a comma-separated list of such pieces means exactly the union of what they stand for. |
| `CronText.ItemReadsBack` | packages/automation/thursday_automation/cron.py:152-178 | A star, a value or a range, with a step or without, is read as the range and step it was written for. |
| `CronText.AtomReadsBack` | packages/automation/thursday_automation/cron.py:181-198 | A number or name is read as its value, names in any case, Sunday as 0 or 7. |
| `CronText.NamesRead` | packages/automation/thursday_automation/cron.py:43-64 | SUN to SAT are 0 to 6 in the weekday field and JAN to DEC 1 to 12 in the month field, in any case; in the other fields they are refused. |
| `CronText.CasesIgnored` | packages/automation/thursday_automation/cron.py:181-183 | Small letters are read as their large ones and no other character changes. |
| `CronText.BoundsRead` | packages/automation/thursday_automation/cron.py:33-39 | A number in digits is accepted if and only if it is within 0-59, 0-23, 1-31, 1-12 or 0-7, the weekday 7 being Sunday. |
| `CronText.IntegersRead` | packages/automation/thursday_automation/cron.py:184-188 | An integer is groups of digits with one underscore between two groups, behind one sign or none, worth what its digits are worth from the right; every other text is refused. |
| `CronText.StarRead` | packages/automation/thursday_automation/cron.py:164-166 | A star is every value of its field, with Sunday once. |
| `CronText.BareStepRead` | packages/automation/thursday_automation/cron.py:156-166 | A step with nothing before it is read as behind a star. |
| `CronText.DayOfMoment` | packages/automation/thursday_automation/cron.py:101-103 | The weekday a moment is compared by is the one its English name is read as. |
| `CronText.SpacesSeparate` | packages/automation/thursday_automation/cron.py:114-124 | Fields are told apart by any white space of any length, and white space around them counts for nothing. |
| `CronText.SplitOfJoin` | packages/automation/thursday_automation/cron.py:143-149 | Joining pieces that hold no comma and splitting again gives the pieces back. |
| `CronText.WordsOfJoin` | packages/automation/thursday_automation/cron.py:114-128 | Words joined by a space are the words of the expression. |
| `Engine.ExactFiring` | packages/automation/thursday_automation/engine.py:141-167 | Over any calls at non-decreasing minutes, a rule is fired for a minute exactly once if that minute was called and the live rule's cron matches it, and never otherwise, however many calls fall into the minute. |
| `Engine.MarkIsLatestWanted` | packages/automation/thursday_automation/engine.py:141-167 | What a rule is marked as served for is the latest minute called at which it wanted to fire. |
| `Engine.FiredOnceIffUninterrupted` | packages/automation/thursday_automation/engine.py:141-167 | In whatever order the minutes are called, a rule is fired at least once for every minute it wants that was called, and exactly once if and only if no other minute it wants was called between two calls at it. |
| `Engine.FiresWhenMet` | packages/automation/thursday_automation/engine.py:141-167 | A rule on a schedule, switched on and within the level, fires for a minute that is called if and only if minute, hour and month are in the sets of its expression and the day as the expression restricts it. |
| `Engine.NeverFires` | packages/automation/thursday_automation/engine.py:141-167 | A rule that is switched off, above the level, or not on a schedule with an expression never fires. |
| `Engine.FiringsAreRuns` | packages/automation/thursday_automation/engine.py:141-167 | It is fired for such a minute once for each unbroken run of calls at it among its calls at minutes it wants. |
| `Engine.MarkIsLastWantedCall` | packages/automation/thursday_automation/engine.py:141-167 | What a rule is marked as served for is the last call at a minute it wanted, in whatever order the calls came. |
| `Engine.ClockGoingBackFiresTwice` | packages/automation/thursday_automation/engine.py:157-165 | A minute called again after another one that matched is fired a second time. |
| `Engine.AutomationEngine.Due` | packages/automation/thursday_automation/engine.py:141-167 | Fires exactly the live schedules that match this minute and were not served for it, in registry order, and marks exactly those. |
| `Engine.AutomationEngine.IsDue` | packages/automation/thursday_automation/engine.py:154-165 | A rule is due if and only if it is enabled, scheduled, allowed by the level, readable, matching and not yet served for the minute; an unreadable expression never runs. |
| `Engine.AutomationEngine.constructor` | packages/automation/thursday_automation/engine.py:87-110 | Starts with no rules and nothing served. |
| `Engine.AutomationEngine.Add` | packages/automation/thursday_automation/engine.py:117-123 | A suggested rule is never registered enabled; re-registering keeps its place in the order. |
| `Engine.AutomationEngine.Enable` | packages/automation/thursday_automation/engine.py:125-128 | Changes only the named rule's switch, and only when it exists. |
| `Engine.AutomationEngine.Remove` | packages/automation/thursday_automation/engine.py:130-134 | Removes the rule together with the minute it was last served for. |
| `Proactivity.EveryHourWithinLimit` | packages/automation/thursday_automation/engine.py:47-75 | Over any run of questions and accepted raises at times that never go back, every one-hour window, ending at any instant, holds at most the limit of each priority, although the gate forgets as it goes. |
| `Proactivity.PruningIsHarmless` | packages/automation/thursday_automation/engine.py:66-72 | What the gate remembers and everything ever raised agree on every window a later question could count. |
| `Proactivity.MentionsAreApart` | packages/automation/thursday_automation/proactive.py:160-194 | Two mentions of one fact are at least the repeat window apart unless it was forgotten in between, whatever the clock does. |
| `Proactivity.HourlyLimitOverAnyLife` | packages/automation/thursday_automation/proactive.py:143-194 | From an empty memory, however sweeps at any level, forgettings and the other users of the shared gate follow one another on a clock that never goes back, no hour holds more notices of a priority than its limit. |
| `Proactivity.SpacingOverAnyLife` | packages/automation/thursday_automation/proactive.py:143-194 | However they follow one another, and whatever the clock does, a sweep raises a fact again only after the repeat window, unless it was forgotten in between. |
| `Proactivity.SweepSaysOnce` | packages/automation/thursday_automation/proactive.py:143-185 | A sweep adds exactly the facts it raised to the history of mentions that its memory stands for. |
| `Proactivity.SweepIsMetered` | packages/automation/thursday_automation/proactive.py:143-185 | A sweep uses the gate so that exactly what it raised is added to the log that the gate's memory stands for. |
| `Manners.RaisedInWords` | packages/automation/thursday_automation/engine.py:24-72 | An observation is raised if and only if it was not said within the window, is urgent enough for the owner's level (none at 0, CRITICAL at 1, all but LOW at 2, all at 3), is CRITICAL or comes while the owner is neither on DND nor asleep, is not private with company, and its priority was raised fewer than 20, 6, 3 or 1 times in the last hour. |
| `Manners.SweepIsPolite` | packages/automation/thursday_automation/proactive.py:143-185 | Whatever a sweep raises was found and is urgent enough and welcome. |
| `Manners.FailuresArePassedOver` | packages/automation/thursday_automation/proactive.py:157-167 | What an observer found is considered whichever others failed. |
| `Manners.OnlyAnswersAreFound` | packages/automation/thursday_automation/proactive.py:157-167 | Nothing is considered that no observer found. |
| `Proactivity.LifeSaysOnce` | packages/automation/thursday_automation/proactive.py:143-194 | After any life the memory is that of its history of mentions and forgettings, every mention of which was made when the fact was not remembered. |
| `Proactivity.LifeIsMetered` | packages/automation/thursday_automation/engine.py:47-75 | After any life the gate's memory is what some run of questions and accepted raises leaves, and that run raised exactly what was raised. |
| `Proactivity.SlowSweepExceedsTheLimit` | packages/automation/thursday_automation/proactive.py:157-182 | A sweep that took its time before waiting for its observers, with the gate asked meanwhile, can put a second LOW notice into one hour. |
| `HourlyLimit.LimitsKeptIffRemembered` | packages/automation/thursday_automation/engine.py:47-75 | After any history of accepted uses, on any clock, with nothing raised later than now: every way to go on from now, on a clock that does not go back again, keeps every later hour within the limits if and only if, for each priority, the gate remembers as many notices of the last hour as were raised in it. |
| `HourlyLimit.LimitsKeptIffNotOutrun` | packages/automation/thursday_automation/engine.py:47-75 | That is, if and only if no question that got as far as counting came an hour or more after a notice that is still inside the last hour. |
| `HourlyLimit.RememberedIffNotOutrun` | packages/automation/thursday_automation/engine.py:66-75 | On any clock, the gate has forgotten no notice later than a cutoff if and only if no question that counted came an hour or more after one of them. |
| `HourlyLimit.SlowSweepIsOutrun` | packages/automation/thursday_automation/proactive.py:157-182 | A notice, a question an hour later and a sweep that took its time just before: the limits can no longer be kept. |
| `Proactivity.Gate.Allows` | packages/automation/thursday_automation/engine.py:47-72 | Accepts if and only if level, owner status, privacy and the hourly limit all allow it, and forgets only notices older than an hour, only when it gets as far as counting. |
| `Proactivity.Gate.Record` | packages/automation/thursday_automation/engine.py:74-75 | Appends one notice and changes nothing else. |
| `Proactivity.ProactiveEngine.Consider` | packages/automation/thursday_automation/proactive.py:160-184 | Raises an observation if and only if its fact was not mentioned within the window and the gate allows it, and then remembers both. |
| `Proactivity.ProactiveEngine.Sweep` | packages/automation/thursday_automation/proactive.py:143-185 | Raises exactly what considering, in order, everything the observers that did not fail found would raise; a failing observer stops none of the others. |
| `Proactivity.ProactiveEngine.Forget` | packages/automation/thursday_automation/proactive.py:192-194 | Forgets one fact and no other. |
| `Workflow.Actions` | packages/automation/thursday_automation/workflow.py:139-146 | The action nodes in running order: one node for each id, those the order mentions first and at their first mention, then the rest as drawn; of several nodes with one id, the last. |
| `Workflow.ArrangementIsUnique` | packages/automation/thursday_automation/workflow.py:139-146 | That description determines the list. |
| `Workflow.ActionsArePermutedIffIdsAreDistinct` | packages/automation/thursday_automation/workflow.py:139-146 | Whatever the order list says (repeats, unknown or missing ids), the result is a permutation of the action nodes if and only if no two of them share an id. |
| `Workflow.FirstNamesakeVanishes` | packages/automation/thursday_automation/workflow.py:139-146 | Of two action nodes under one id only the second is run. |
| `Workflow.ById` | packages/automation/thursday_automation/workflow.py:142 | Keys at their first insertion, each with its last value. |
| `Workflow.TakeOrdered` | packages/automation/thursday_automation/workflow.py:143 | Takes each mentioned node once, at its first mention, and leaves exactly the others. |
| `Workflow.Validate` | packages/automation/thursday_automation/workflow.py:150-181 | Lists a problem if and only if it is there, with the node that causes it. |
| `Workflow.TriggerProblems` | packages/automation/thursday_automation/workflow.py:183-198 | Exactly what is wrong with a trigger node; a schedule is wrong if and only if its cron text denotes nothing. |
| `Workflow.ConditionProblems` | packages/automation/thursday_automation/workflow.py:200-219 | Exactly what is wrong with a condition node. |
| `Workflow.ActionProblems` | packages/automation/thursday_automation/workflow.py:221-228 | Exactly what is wrong with an action node. |
| `Common.DecimalIsInjective` | packages/automation/thursday_automation/workflow.py:340-347 | The ids given to drawn actions are distinct because numbers print differently. |
| `Conversion.ToAutomation` | packages/automation/thursday_automation/workflow.py:232-267 | Refused if and only if something other than a missing notification title is wrong, and then with exactly the errors; otherwise the rule the canvas means, its two action lists together being all the actions in running order. |
| `Conversion.FromAutomation` | packages/automation/thursday_automation/workflow.py:299-358 | Draws the canvas of a rule: trigger, conditions and actions with their ids, order and follow-up point. |
| `Conversion.OpensRunnable` | packages/automation/thursday_automation/workflow.py:150-228 | The builder accepts a rule it opens if and only if name, trigger, every condition and every action could run and it has an action before its follow-ups. |
| `Conversion.TriggersKnown` | packages/automation/thursday_automation/workflow.py:43-198 | A trigger could run if and only if it is by hand, by a named event, or by a schedule that can be read. |
| `Conversion.OperatorsKnown` | packages/automation/thursday_automation/workflow.py:69-219 | A condition on a named field could run if and only if its operator is one of seven, two of which want a number and one a list. |
| `Conversion.ActionsKnown` | packages/automation/thursday_automation/workflow.py:60-230 | An action could run if and only if it is one of three kinds, or calls a tool that is named. |
| `Conversion.StateTrip` | packages/automation/thursday_automation/workflow.py:232-360 | A rule that waits for a state to change is drawn and read back with the state it names. |
| `Workflow.SettingRead` | packages/automation/thursday_automation/workflow.py:183-266 | A setting is read as its text, and as nothing when it is missing, null or false. |
| `Conversion.CanvasRunsAsListed` | packages/automation/thursday_automation/workflow.py:340-347 | On a canvas the builder drew, the actions run in the order of the rule, follow-ups last. |
| `Conversion.RoundTripIffCarriable` | packages/automation/thursday_automation/workflow.py:232-358 | A rule the builder accepts comes back from the canvas unchanged if and only if its name is trimmed, its trigger leaves unused fields at their defaults, no action has a device hint or an argument called `name`, and level, origin and run history are those of a new rule. |
| `Conversion.RoundTripRestores` | packages/automation/thursday_automation/workflow.py:232-358 | Whatever its level, origin and run history, a rule the builder accepts comes back from the canvas as itself with those four set as in a new rule, if and only if its name is trimmed, its trigger leaves unused fields at their defaults and no action has a device hint or an argument called `name`. |
| `Conversion.HintIsLost` | packages/automation/thursday_automation/workflow.py:232-358 | A rule the builder accepts, whose one action asks for a machine: opened and saved it is another rule. |
| `Conversion.OneTripSettles` | packages/automation/thursday_automation/workflow.py:232-358 | Whatever the builder saves, it can open and save again, and every later trip changes nothing. |
| `Overrun.OverrunIsBounded` | packages/core/thursday_core/cost.py:117-214 | Over any run that asks before each paid call, with at most `limit` calls open and each costing at most `most`, across rollovers, pruning, failed writes and restarts: the true total of a day or month plus open calls at their dearest stays below the cap plus `limit` calls plus what was lost at restarts, or nothing was spent but what was lost. |
| `Overrun.StepStaysBelow` | packages/core/thursday_core/cost.py:117-214 | Every begin, finish, passing of time and restart keeps that bound on what the meter knows. |
| `Overrun.OnlyFailuresAreLost` | packages/core/thursday_core/cost.py:132-178 | What is lost at restarts is only charges whose write failed; with every write done the bound is the cap plus `limit` calls. |
| `Overrun.StepKeepsOrder` | packages/core/thursday_core/cost.py:117-178 | Through pruning, failed writes and restarts memory agrees with what is known over the whole retention. |
| `Overrun.ClosedCapStaysClosed` | packages/core/thursday_core/cost.py:198-214 | A cap of zero or less never lets a paid call through. |
| `Cost.PruningNeverShows` | packages/core/thursday_core/cost.py:346-363 | With at least 31 days of retention, pruning never changes what was spent today or this month, nor any verdict, at any time from the last charge on, in whatever order charges came. |
| `Cost.SpentPermuted` | packages/core/thursday_core/cost.py:253-258 | What was spent does not depend on the order of the ledger. |
| `Cost.RowsFollow` | packages/core/thursday_core/cost.py:356-363 | Removing the expired ids from storage leaves exactly the rows of what stays in memory. |
| `Cost.CostMeter.constructor` | packages/core/thursday_core/cost.py:94-113 | Starts empty, in memory and in storage. |
| `Cost.CostMeter.Record` | packages/core/thursday_core/cost.py:117-164 | The charge is kept in memory always and in storage unless the write failed; memory, storage and complete history keep agreeing from the cutoff on. |
| `Cost.CostMeter.Prune` | packages/core/thursday_core/cost.py:346-363 | Drops the charges before the cutoff (and nothing when the first is not), from memory and storage alike. |
| `Cost.CostMeter.Remove` | packages/core/thursday_core/cost.py:356-363 | Takes exactly the rows with the expired ids out of storage. |
| `Cost.CostMeter.Check` | packages/core/thursday_core/cost.py:190-214 | The verdict is the one the complete history gives, daily cap before monthly, as long as the cutoff is not inside the month; `Bill.VerdictByDate` says which one that is. |
| `Bill.VerdictByDate` | packages/core/thursday_core/cost.py:190-258 | A paid call is refused if and only if the charges made on the same calendar date reach the daily cap, or those made in the same calendar month and year the monthly one; the daily cap is named first, with what was spent and the cap. |
| `Bill.SpentByDate` | packages/core/thursday_core/cost.py:244-258 | What counts as spent today and this month is the sum of the charges of that date and of that month, and of no others. |
| `Bill.DayStaysClosed` | packages/core/thursday_core/cost.py:190-214 | Once the charges of a day reach the daily cap, no further paid call is allowed for the rest of that day, whatever else is charged. |
| `Bill.MonthStaysClosed` | packages/core/thursday_core/cost.py:190-214 | And once those of a month reach the monthly cap, none for the rest of that month. |
| `Cost.PrunedInWords` | packages/core/thursday_core/cost.py:346-363 | Pruning takes every charge before the cutoff and no other, once the oldest is before it; with charges in the order of time exactly those not before the cutoff stay. |
| `Cost.CostMeter.Restart` | packages/core/thursday_core/cost.py:166-178 | A new process, given the stored rows in any order, counts the same over any period less exactly the charges whose write failed; with none lost it holds the same charges. |
| `Calendar.MonthStart` | packages/core/thursday_core/cost.py:248-251 | The first of the month is not after the moment and less than 31 days before it. |
| `Calendar.StartsGrow` | packages/core/thursday_core/cost.py:244-251 | Later moments have no earlier day or month start. |
| `Calendar.MonthBeforeDay` | packages/core/thursday_core/cost.py:244-251 | A month never starts after the day does. |
| `Dates.DayOfDate` | packages/core/thursday_core/cost.py:244-246 | The day of a moment starts at midnight of its date, dates being counted by year, the twelve lengths of months, and leap years. |
| `Dates.MonthOfDate` | packages/core/thursday_core/cost.py:248-251 | Its month starts at midnight of the first of that month. |
| `Dates.DaysBeforeMonth` | packages/core/thursday_core/cost.py:248-251 | The days before a month are 365 for every year gone, one for every leap year gone, and the months of the year before it. |
| `Dates.FourCenturies` | packages/core/thursday_core/cost.py:248-251 | Four hundred years are 146097 days, from whatever year. |
| `Dates.DateOf` | packages/core/thursday_core/cost.py:244-251 | Every moment has a date. |
| `Dates.OneDate` | packages/core/thursday_core/cost.py:244-251 | And only one. |
| `Bus.InProcessEventBus.constructor` | packages/core/thursday_core/bus.py:34-44 | Starts with nothing seen and no history. |
| `Bus.InProcessEventBus.Publish` | packages/core/thursday_core/bus.py:50-65 | After every publish the guard holds the ids of the last `dedupe_limit` delivered events in order and the history the last `history_limit` events; an event is dropped if and only if its id is in that window. |
| `Bus.InProcessEventBus.History` | packages/core/thursday_core/bus.py:95-96 | Reads back the last matching events of that history, in order. |
| `Bus.GuardMoves` | packages/core/thursday_core/bus.py:56-61 | Inserting and evicting the oldest is sliding the window over the complete log by one. |
| `Bus.RepeatsAreFarApart` | packages/core/thursday_core/bus.py:50-61 | Over any stream of arrivals, an id is delivered again only after at least `dedupe_limit` other deliveries. |
| `Bus.BoundIsTight` | packages/core/thursday_core/bus.py:50-61 | No more than that is promised: of any events with distinct ids, the first arriving again after `dedupe_limit` others is delivered again. |
| `Bus.OnceWithinTheWindow` | packages/core/thursday_core/bus.py:50-61 | As long as no more ids arrive than the guard remembers, every event is delivered exactly once, at its first arrival. |
| `Bus.HistoryIsBoundedIffLimited` | packages/core/thursday_core/bus.py:63-65 | The history is bounded by its limit on every log if and only if the limit is not zero. |
| `Benchmarks.ThroughputIsRobust` | packages/core/thursday_core/benchmarks.py:114-129 | The figure for a measured model lies in every range that more than half of its fresh warm speeds lie in, whatever the rest were. |
| `Figures.FiguresInWords` | packages/core/thursday_core/benchmarks.py:98-153 | Of the last fifty calls those count for speed that succeeded on a loaded model, gave tokens in some time and are under fourteen days old, each by its tokens per second; below five of them the figure is zero, otherwise their median. The rate is zero below five calls without an infrastructure fault, otherwise the share of them that succeeded. |
| `Figures.MedianInWords` | packages/core/thursday_core/benchmarks.py:128-129 | However the values are put in order, the median is the middle one, or halfway between the two in the middle. |
| `Figures.SpeedsAreTold` | packages/core/thursday_core/benchmarks.py:87-118 | There is one speed for each call that tells one, in the order of the calls: that many tokens a second make its tokens in its time. |
| `Benchmarks.MedianIsRobust` | packages/core/thursday_core/benchmarks.py:128-129 | Fewer than half of the values, however wild, cannot push the median, of an odd or even count, out of the range of the others. |
| `Benchmarks.HalfIsTooMany` | packages/core/thursday_core/benchmarks.py:128-129 | Exactly half of them are enough, for any range. |
| `Benchmarks.SortUpCount` | packages/core/thursday_core/benchmarks.py:128-129 | The sort under the median keeps every count. |
| `Benchmarks.ColdCallOnlyEvicts` | packages/core/thursday_core/benchmarks.py:107-118 | A cold, failed or unmeasurable call leaves the speeds as they were but for the sample it pushes out of a full window. |
| `Benchmarks.RateAsDocumentedIffAllClassified` | packages/core/thursday_core/benchmarks.py:141-153 | With enough calls judged, the success rate is successes over successes and model faults if and only if no fresh failure was left unclassified or nothing succeeded. |
| `Benchmarks.UnclassifiedFailureLowersTheRate` | packages/core/thursday_core/benchmarks.py:141-153 | Five successes and one unclassified failure give five sixths. |
| `Benchmarks.BenchmarkProfile.constructor` | packages/core/thursday_core/benchmarks.py:98-105 | Starts without samples. |
| `Benchmarks.BenchmarkProfile.Add` | packages/core/thursday_core/benchmarks.py:103-108 | The window is always the last fifty of all samples ever added. |
| `Benchmarks.BenchmarkProfile.TokensPerSecond` | packages/core/thursday_core/benchmarks.py:114-129 | Median over the fresh warm speeds of those fifty, zero below five of them. |
| `Benchmarks.BenchmarkProfile.SuccessRateNow` | packages/core/thursday_core/benchmarks.py:141-153 | Successes over fresh calls without an infrastructure fault, zero below five of them. |
| `Benchmarks.Recorded` | packages/core/thursday_core/benchmarks.py:252-260 | A recorded success carries no fault, and a call says something about speed if and only if it succeeded with positive output and time. |
| `Figures.RecordedAsItWent` | packages/core/thursday_core/benchmarks.py:252-260 | Time and outcome are kept, a failure's cause too, a model that was not loaded makes the call cold, and negative sizes become zero. |
| `Benchmarks.FlushForgetsIffRecordedTooLate` | packages/core/thursday_core/benchmarks.py:268-288 | A flush leaves every profile stored as it is if and only if no call was recorded, while it waited for storage, for a profile it had already written or had not listed. |
| `Benchmarks.ChangeForgotten` | packages/core/thursday_core/benchmarks.py:268-288 | A call recorded for a profile just after the flush wrote it is stored nowhere and marked nowhere. |
| `Jpeg.JpegSize` | packages/agents/thursday_agents/media.py:108-129 | Terminates on any bytes and reads none past the end. |
| `Jpeg.SizeRoundTrip` | packages/agents/thursday_agents/media.py:108-129 | For any segments before the frame without fill bytes and any frame header, the size read back is the size written, as long as at least one byte follows the header; with none following there is no answer. |
| `Jpeg.FoundIffNoFill` | packages/agents/thursday_agents/media.py:116-128 | Without fill bytes the size is found if and only if something follows the frame header; with them the walk jumps from the first one at least 48 KiB ahead, to a place given by the bytes behind it, and the size is found if and only if it is found from there. |
| `Jpeg.ShortPictureFoundIffNoFill` | packages/agents/thursday_agents/media.py:116-128 | So in a picture of 48 KiB or less the size is found if and only if no fill byte stands before a marker and something follows the frame header. |
| `Jpeg.OneFillByteHidesTheFrame` | packages/agents/thursday_agents/media.py:116-128 | A picture of 800 by 600 with one fill byte before its frame: no size. |
| `Jpeg.WalkSkipsSegment` | packages/agents/thursday_agents/media.py:124-128 | The length field takes the walk exactly to the next marker. |
| `Jpeg.EveryFrameIsFound` | packages/agents/thursday_agents/media.py:120-124 | A frame is found under each of thirteen markers, C0 to CF without C4, C8 and CC, behind segments of every other marker. |
| `Jpeg.FoundBehindJunk` | packages/agents/thursday_agents/media.py:116-119 | Bytes other than FF between start and markers are passed over and hide nothing. |

## Left out

- Engine.ExactFiring: is about fixed rules and a fixed level between calls; adding, removing and re-enabling rules are
  specified one by one.
- House.OneHouseOneResult: candidates and replies that change while a task runs are outside the claim, and so are values
  that depend on the machine; `House.OneRecord` covers the latter.
- Ties.OneRecordIffNoTie: assumes one candidate for each model, runtime and machine, as the registry keeps them
  (`packages/core/thursday_core/model_registry.py:185-196`).
- Cron.Number: digits and letters are those of ASCII; `int` and `upper` also take other Unicode digits and letters.
- Several tasks sharing one ledger, cancellation of a running task, and the first-come-first-served order in which
  asyncio admits waiters (any waiter may be admitted).
- Registration of models and machines, from which the router builds its candidates: the usable registered models, each
  with its capability, are parameters, and so is the provider the caller brings.
- The bodies of stage work, event handlers and observers, and log lines and reason texts (reasons are constructors).
- The reconnection loop of the node with its back-off, pairing, pin hand-over, HTTP, TLS and real signatures. Keychain
  writes either succeed or end the run, except the delete after a promotion, which may fail unnoticed; whether a machine
  has a keychain does not change while the node runs; a stored key is read back as written.
- Time zones, daylight saving and Unicode white space: minutes and instants are integers, local calendar fields a
  parameter, white space is that of ASCII.
- Floating point: amounts, speeds and scores are reals, and rounding for display is dropped.
- Cost: tokens, providers, tasks, warnings, summaries and backups of the ledger, and instants before the year 1.
- Benchmarks: time to first token, latency, hardware fingerprints, the restoring of stored profiles and the keys they
  are stored under.
- Bus: glob patterns (a predicate stands for one) and the delivery to handlers.
- Rules: evaluating conditions against an event, running actions through the permission engine, budgets.
- Workflow: the layout of the canvas, preview and explanation texts, and `describe` for cron expressions, which does not
  mention the month at all. Which values `float` accepts is a parameter.
- Media formats other than JPEG: fixed offsets, easy members.
