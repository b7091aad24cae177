/** Which machine and which model may serve a request, and in what order to try them. */
module Router {
  import opened Common
  import opened Ranking

  /** A machine's id; no id means a cloud provider. */
  type Device = nat

  const PUBLIC := 0
  const INTERNAL := 1
  const PRIVATE := 2
  const HIGHLY_PRIVATE := 3
  const SECRET := 4

  type Sensitivity = n: nat | n <= 4

  datatype Mode = Auto | LocalFirst | LocalOnly | CloudFirst | CloudOnly

  datatype Profile = Fast | Balanced | Quality | Private | Offline | LowPower

  const BUSY_GPU_PERCENT := 90.0
  const BUSY_QUEUE := 4
  const LOW_BATTERY_PERCENT := 25.0

  datatype Request = Request(
    capability: string, sensitivity: Sensitivity, profile: Profile, mode: Mode,
    prefer: Option<Device>, heavy: bool, offline: bool)

  datatype Hardware = Hardware(vram: nat, ram: nat)

  datatype Load = Load(
    throttling: bool, gpuPercent: real, queueDepth: int, vramFree: nat,
    onBattery: bool, battery: Option<real>)

  /** `capability` is what a registered model is for. */
  datatype Candidate = Candidate(
    capability: string, device: Option<Device>, model: string, runtime: string, local: bool,
    hardware: Option<Hardware>, load: Option<Load>, loaded: bool,
    tokensPerSecond: real, successRate: real, requiredVram: nat, requiredRam: nat)

  datatype Target = Target(
    device: Option<Device>, runtime: string, model: string, local: bool, fallback: seq<Target>)
  {
    /** The target itself, then its fallbacks. */
    function Chain(): (steps: seq<Target>)
      ensures |steps| == 1 + |fallback|
    {
      [this] + fallback
    }
  }

  datatype Reason =
    | SecretStaysLocal | HighlyPrivateStaysLocal | LocalOnlyMode | ProfileForbidsCloud | NetworkDown
    | CloudOnlyMode
    | TooLittleVram | TooLittleRam
    | Throttling | GpuBusy | QueueFull | VramTaken | LowPowerOnBattery | LowBattery

  datatype Rejection = Rejection(candidate: Candidate, reason: Reason)

  // -------------------------------------------------------------- the filter

  /** Why a candidate may not be used at all, or None. */
  function Excluded(c: Candidate, r: Request): Option<Reason> {
    if !c.local && r.sensitivity >= SECRET then Some(SecretStaysLocal)
    else if !c.local && r.sensitivity >= HIGHLY_PRIVATE then Some(HighlyPrivateStaysLocal)
    else if !c.local && r.mode == LocalOnly then Some(LocalOnlyMode)
    else if !c.local && (r.profile == Private || r.profile == Offline) then Some(ProfileForbidsCloud)
    else if !c.local && r.offline then Some(NetworkDown)
    else if c.local && r.mode == CloudOnly then Some(CloudOnlyMode)
    else if c.hardware.Some? && c.requiredVram > c.hardware.value.vram then Some(TooLittleVram)
    else if c.hardware.Some? && c.requiredRam > c.hardware.value.ram then Some(TooLittleRam)
    else if c.load.Some? && r.heavy then Overloaded(c.load.value, c.requiredVram, r.profile)
    else None
  }

  /** The load and power rules, applied to heavy work only. */
  function Overloaded(load: Load, wants: nat, profile: Profile): Option<Reason> {
    if load.throttling then Some(Throttling)
    else if load.gpuPercent >= BUSY_GPU_PERCENT then Some(GpuBusy)
    else if load.queueDepth >= BUSY_QUEUE then Some(QueueFull)
    else if wants != 0 && load.vramFree != 0 && wants > load.vramFree then Some(VramTaken)
    else if load.onBattery && profile == LowPower then Some(LowPowerOnBattery)
    else if load.onBattery && BatteryRead(load) < LOW_BATTERY_PERCENT then Some(LowBattery)
    else None
  }

  /** `battery_percent or 100.0`: a missing reading counts as full, and so does a zero one. */
  function BatteryRead(load: Load): real {
    if load.battery.None? || load.battery.value == 0.0 then 100.0 else load.battery.value
  }

  /** A registered model is asked for its own capability only; a provider for any. */
  predicate Offers(c: Candidate, capability: string) {
    c.local ==> c.capability == capability
  }

  predicate Open(c: Candidate, r: Request) {
    Offers(c, r.capability) && Excluded(c, r).None?
  }

  function Admits(r: Request): Candidate -> bool {
    c => Open(c, r)
  }

  function NotExcluded(r: Request): Candidate -> bool {
    c => Excluded(c, r).None?
  }

  function OfCapability(capability: string): Candidate -> bool {
    (c: Candidate) => c.capability == capability
  }

  // -------------------------------------------------------------- the rules as they are promised

  /** What the owner's data, mode and profile, and the network, say about providers. */
  predicate StaysAtHome(r: Request) {
    r.sensitivity >= 3 || r.mode == LocalOnly || r.profile == Private || r.profile == Offline || r.offline
  }

  /** The model fits the machine, as far as the machine is known. */
  predicate Fits(c: Candidate) {
    c.hardware.Some? ==> c.requiredVram <= c.hardware.value.vram && c.requiredRam <= c.hardware.value.ram
  }

  /** The machine has room for heavy work that wants so much video memory; zero free means not reported. */
  predicate HasRoom(load: Load, wants: nat) {
    !load.throttling && load.gpuPercent < 90.0 && load.queueDepth < 4 && (load.vramFree == 0 || wants <= load.vramFree)
  }

  /** The machine has the power for heavy work; a level of zero reads as full. */
  predicate HasPower(load: Load, profile: Profile) {
    load.onBattery ==> profile != LowPower && (load.battery.None? || load.battery.value == 0.0 || load.battery.value >= 25.0)
  }

  /** Nothing stands against this candidate. */
  predicate MayServe(c: Candidate, r: Request) {
    && (if c.local then r.mode != CloudOnly else !StaysAtHome(r))
    && Fits(c)
    && (r.heavy && c.load.Some? ==> HasRoom(c.load.value, c.requiredVram) && HasPower(c.load.value, r.profile))
  }

  /** What each reason says. */
  predicate Holds(reason: Reason, c: Candidate, r: Request) {
    match reason
    case SecretStaysLocal => !c.local && r.sensitivity == 4
    case HighlyPrivateStaysLocal => !c.local && r.sensitivity == 3
    case LocalOnlyMode => !c.local && r.mode == LocalOnly
    case ProfileForbidsCloud => !c.local && (r.profile == Private || r.profile == Offline)
    case NetworkDown => !c.local && r.offline
    case CloudOnlyMode => c.local && r.mode == CloudOnly
    case TooLittleVram => c.hardware.Some? && c.requiredVram > c.hardware.value.vram
    case TooLittleRam => c.hardware.Some? && c.requiredRam > c.hardware.value.ram
    case Throttling => r.heavy && c.load.Some? && c.load.value.throttling
    case GpuBusy => r.heavy && c.load.Some? && c.load.value.gpuPercent >= 90.0
    case QueueFull => r.heavy && c.load.Some? && c.load.value.queueDepth >= 4
    case VramTaken => r.heavy && c.load.Some? && 0 < c.load.value.vramFree < c.requiredVram
    case LowPowerOnBattery => r.heavy && c.load.Some? && c.load.value.onBattery && r.profile == LowPower
    case LowBattery =>
      r.heavy && c.load.Some? && c.load.value.onBattery && c.load.value.battery.Some?
      && c.load.value.battery.value != 0.0 && c.load.value.battery.value < 25.0
  }

  /** Before what a reason comes when several are so: the owner's data first, then the mode and profile, the network, the
      machine's memory, its load and its power. */
  function Place(reason: Reason): nat {
    match reason
    case SecretStaysLocal => 0 case HighlyPrivateStaysLocal => 1 case LocalOnlyMode => 2 case ProfileForbidsCloud => 3
    case NetworkDown => 4 case CloudOnlyMode => 5 case TooLittleVram => 6 case TooLittleRam => 7 case Throttling => 8
    case GpuBusy => 9 case QueueFull => 10 case VramTaken => 11 case LowPowerOnBattery => 12 case LowBattery => 13
  }

  ghost predicate FirstToHold(reason: Reason, c: Candidate, r: Request) {
    Holds(reason, c, r) && forall other: Reason :: Holds(other, c, r) ==> Place(reason) <= Place(other)
  }

  /** A candidate is refused exactly when something stands against it, and for the first reason that is so. */
  lemma RefusedForAReason(c: Candidate, r: Request)
    ensures Excluded(c, r).None? <==> MayServe(c, r)
    ensures Excluded(c, r).Some? ==> FirstToHold(Excluded(c, r).value, c, r)
  {
  }

  // -------------------------------------------------------------- the preference

  function Bit(b: bool): real { if b then 1.0 else 0.0 }

  /** The ranking tuple; higher is better, left to right. `carrying` is Thursday's own in-flight count. */
  function Score(c: Candidate, r: Request, carrying: Option<Device> -> nat): Key {
    var explicit := Bit(r.prefer.Some? && c.device == r.prefer);
    var locality := Bit(c.local != (r.mode == CloudFirst || r.mode == CloudOnly));
    var gpu := Bit(c.hardware.Some? && c.hardware.value.vram > 0);
    var warm := Bit(c.loaded);
    var spread := -(carrying(c.device) as real);
    var idle := if c.load.Some? then -c.load.value.gpuPercent else 0.0;
    var speed := c.tokensPerSecond;
    match r.profile
    case Fast => [explicit, warm, speed, gpu, locality, spread, idle]
    case Quality => [explicit, c.successRate, gpu, locality, speed, warm, spread, idle]
    case LowPower =>
      [explicit, Bit(!(c.load.Some? && c.load.value.onBattery)), locality, warm, spread, idle, speed]
    case _ => [explicit, locality, gpu, warm, spread, idle, speed]
  }

  function Scored(r: Request, carrying: Option<Device> -> nat): Candidate -> Key {
    c => Score(c, r, carrying)
  }

  /** The target says exactly where the candidate is. */
  predicate Serves(t: Target, c: Candidate) {
    t.device == c.device && t.runtime == c.runtime && t.model == c.model && t.local == c.local
  }

  ghost predicate ServesInOrder(steps: seq<Target>, ranked: seq<Candidate>) {
    |steps| == |ranked| && forall i | 0 <= i < |steps| :: Serves(steps[i], ranked[i])
  }

  /** The steps are all of `allowed` and nothing else, in the stable descending order of `key`. */
  ghost predicate RanksExactly(steps: seq<Target>, allowed: seq<Candidate>, key: Candidate -> Key) {
    exists ranked ::
      StableDescending(allowed, ranked, key) && multiset(ranked) == multiset(allowed) && ServesInOrder(steps, ranked)
  }

  function Fallback(c: Candidate): Target {
    Target(c.device, c.runtime, c.model, c.local, [])
  }

  /** The candidates considered: the registered models of the capability, and the cloud one last when there is one. */
  function Considered(registry: seq<Candidate>, cloud: Option<Candidate>, capability: string): seq<Candidate> {
    Filter(registry, OfCapability(capability)) + if cloud.Some? then [cloud.value] else []
  }

  /** Registered for what is asked, or the provider the caller brought. */
  predicate Eligible(c: Candidate, registry: seq<Candidate>, cloud: Option<Candidate>, capability: string) {
    (c in registry && c.capability == capability) || cloud == Some(c)
  }

  lemma ConsideredAreEligible(registry: seq<Candidate>, cloud: Option<Candidate>, capability: string)
    ensures forall c :: c in Considered(registry, cloud, capability) <==> Eligible(c, registry, cloud, capability)
  {
    forall c ensures c in Considered(registry, cloud, capability) <==> Eligible(c, registry, cloud, capability) {
      assert OfCapability(capability)(c) <==> c.capability == capability;
    }
  }

  // -------------------------------------------------------------- the decision

  /** Picks a target with its fallback chain, or gives the reason against every candidate. */
  method Choose(registry: seq<Candidate>, cloud: Option<Candidate>, r: Request, carrying: Option<Device> -> nat)
    returns (choice: Result<Target, seq<Rejection>>)
    // No chain exactly when something stands against every candidate, and then what.
    ensures choice.Err? <==> forall c | Eligible(c, registry, cloud, r.capability) :: !MayServe(c, r)
    ensures choice.Err? ==>
              var all := Considered(registry, cloud, r.capability);
              |choice.error| == |all| &&
              forall i | 0 <= i < |all| :: FirstToHold(choice.error[i].reason, all[i], r) && choice.error[i].candidate == all[i]
    // Otherwise all those that may serve and no other, in the order of the score.
    ensures choice.Ok? ==> forall step | step in choice.value.Chain() ::
              exists c | Eligible(c, registry, cloud, r.capability) :: MayServe(c, r) && Serves(step, c)
    ensures choice.Ok? ==> forall c | Eligible(c, registry, cloud, r.capability) && MayServe(c, r) ::
              exists step | step in choice.value.Chain() :: Serves(step, c)
    ensures choice.Ok? ==>
              RanksExactly(choice.value.Chain(), Filter(Considered(registry, cloud, r.capability), NotExcluded(r)),
                           Scored(r, carrying))
  {
    var candidates := Considered(registry, cloud, r.capability);
    ConsideredAreEligible(registry, cloud, r.capability);
    var allowed, rejected := Sift(candidates, r);
    hide Considered, Filter, MayServe, FirstToHold, Excluded, RanksExactly, Eligible;
    forall c ensures Excluded(c, r).None? <==> MayServe(c, r)
      ensures Excluded(c, r).Some? ==> FirstToHold(Excluded(c, r).value, c, r)
    {
      RefusedForAReason(c, r);
    }
    if allowed == [] {
      return Err(rejected);
    }
    var target := Ranked(allowed, Scored(r, carrying));
    RankedAreServed(target.Chain(), allowed, Scored(r, carrying));
    return Ok(target);
  }

  /** A ranked chain serves each of the candidates and nothing else. */
  lemma RankedAreServed(steps: seq<Target>, allowed: seq<Candidate>, key: Candidate -> Key)
    requires RanksExactly(steps, allowed, key)
    ensures forall step | step in steps :: exists c | c in allowed :: Serves(step, c)
    ensures forall c | c in allowed :: exists step | step in steps :: Serves(step, c)
  {
    var ranked :|
      StableDescending(allowed, ranked, key) && multiset(ranked) == multiset(allowed) && ServesInOrder(steps, ranked);
    hide StableDescending;
    forall step | step in steps ensures exists c | c in allowed :: Serves(step, c) {
      var i :| 0 <= i < |steps| && steps[i] == step;
      assert ranked[i] in multiset(ranked);
      assert ranked[i] in allowed && Serves(steps[i], ranked[i]);
    }
    forall c | c in allowed ensures exists step | step in steps :: Serves(step, c) {
      assert c in multiset(allowed);
      assert c in multiset(ranked);
      var i :| 0 <= i < |ranked| && ranked[i] == c;
      assert steps[i] in steps && Serves(steps[i], ranked[i]);
    }
  }

  /** Splits the candidates into the usable ones and the reasons against the others. */
  method Sift(candidates: seq<Candidate>, r: Request) returns (allowed: seq<Candidate>, rejected: seq<Rejection>)
    ensures allowed == Filter(candidates, NotExcluded(r))
    ensures allowed == [] <==> forall c | c in candidates :: Excluded(c, r).Some?
    ensures allowed == [] ==>
              |rejected| == |candidates| &&
              forall i | 0 <= i < |candidates| ::
                Excluded(candidates[i], r) == Some(rejected[i].reason) && rejected[i].candidate == candidates[i]
  {
    allowed, rejected := [], [];
    for i := 0 to |candidates|
      invariant allowed == Filter(candidates[..i], NotExcluded(r))
      invariant allowed == [] ==> |rejected| == i
      invariant allowed == [] ==> forall k | 0 <= k < i ::
                  Excluded(candidates[k], r) == Some(rejected[k].reason) && rejected[k].candidate == candidates[k]
      invariant allowed != [] ==> exists c | c in candidates :: Excluded(c, r).None?
    {
      FilterNext(candidates, i, NotExcluded(r));
      hide Filter, Excluded;
      var why := Excluded(candidates[i], r);
      if why.None? {
        allowed := allowed + [candidates[i]];
        assert candidates[i] in candidates;
      } else {
        rejected := rejected + [Rejection(candidates[i], why.value)];
      }
    }
    assert candidates[..|candidates|] == candidates;
  }

  /** Sorts, stably and best first, and makes the best the target and the rest its fallbacks. */
  method Ranked(allowed: seq<Candidate>, key: Candidate -> Key) returns (target: Target)
    requires allowed != []
    ensures RanksExactly(target.Chain(), allowed, key)
  {
    var ranked := Rank(allowed, key);
    RankIsStableDescending(allowed, key);
    RankIsPermutation(allowed, key);
    hide Rank, StableDescending;
    assert |multiset(ranked)| == |multiset(allowed)|;
    var rest := ranked[1..];
    target := Target(ranked[0].device, ranked[0].runtime, ranked[0].model, ranked[0].local,
                     seq(|rest|, i requires 0 <= i < |rest| => Fallback(rest[i])));
    assert ServesInOrder(target.Chain(), ranked);
  }

  function RankedSteps(allowed: seq<Candidate>, key: Candidate -> Key): seq<Target> {
    var ranked := Rank(allowed, key);
    seq(|ranked|, i requires 0 <= i < |ranked| => Fallback(ranked[i]))
  }

  /** There is always a chain that ranks the admissible candidates exactly. */
  lemma RankedStepsRank(allowed: seq<Candidate>, key: Candidate -> Key)
    ensures RanksExactly(RankedSteps(allowed, key), allowed, key)
  {
    RankIsStableDescending(allowed, key);
    RankIsPermutation(allowed, key);
    assert ServesInOrder(RankedSteps(allowed, key), Rank(allowed, key));
  }

  // -------------------------------------------------------------- what the filter guarantees

  /** A chain for `r` over `considered`: every step serves some candidate that is not excluded. */
  ghost predicate Admissible(steps: seq<Target>, considered: seq<Candidate>, r: Request) {
    forall t | t in steps :: exists c | c in considered :: Open(c, r) && Serves(t, c)
  }

  lemma RankedChainIsAdmissible(steps: seq<Target>, considered: seq<Candidate>, r: Request, key: Candidate -> Key)
    requires RanksExactly(steps, Filter(considered, Admits(r)), key)
    ensures Admissible(steps, considered, r)
  {
    var ranked :|
      StableDescending(Filter(considered, Admits(r)), ranked, key) &&
      multiset(ranked) == multiset(Filter(considered, Admits(r))) && ServesInOrder(steps, ranked);
    forall step | step in steps ensures exists c | c in considered :: Open(c, r) && Serves(step, c) {
      var i :| 0 <= i < |steps| && steps[i] == step;
      assert ranked[i] in multiset(ranked);
      assert ranked[i] in Filter(considered, Admits(r));
      assert Admits(r)(ranked[i]);
    }
  }

  /** Nothing the score says can put a private request on a provider: every step of the chain is local. */
  lemma PrivateChainsAreLocal(steps: seq<Target>, considered: seq<Candidate>, r: Request)
    requires r.sensitivity >= HIGHLY_PRIVATE && Admissible(steps, considered, r)
    ensures forall t | t in steps :: t.local
  {
  }

  /** Raising the sensitivity only ever removes candidates, and removes no local one. */
  lemma RaisingSensitivityOnlyRemoves(c: Candidate, r: Request, floor: Sensitivity)
    requires r.sensitivity <= floor
    ensures Excluded(c, r).Some? ==> Excluded(c, r.(sensitivity := floor)).Some?
    ensures Excluded(c, r).None? ==>
              (Excluded(c, r.(sensitivity := floor)).Some? <==> !c.local && floor >= HIGHLY_PRIVATE)
  {
  }

  lemma ScoreLeadsWithPreference(c: Candidate, r: Request, carrying: Option<Device> -> nat)
    ensures Score(c, r, carrying) != []
    ensures Score(c, r, carrying)[0] == Bit(r.prefer.Some? && c.device == r.prefer)
  {
  }

  /** The explicit machine wins over every preference, and over no exclusion. */
  lemma PreferredMachineLeads(allowed: seq<Candidate>, ranked: seq<Candidate>, r: Request, carrying: Option<Device> -> nat)
    requires r.prefer.Some? && StableDescending(allowed, ranked, Scored(r, carrying)) && multiset(ranked) == multiset(allowed)
    ensures (exists c | c in allowed :: c.device == r.prefer) <==> ranked != [] && ranked[0].device == r.prefer
  {
    if c :| c in allowed && c.device == r.prefer {
      assert c in multiset(ranked);
      var i :| 0 <= i < |ranked| && ranked[i] == c;
      ScoreLeadsWithPreference(ranked[0], r, carrying);
      ScoreLeadsWithPreference(c, r, carrying);
      assert i > 0 ==> !Less(Scored(r, carrying)(ranked[0]), Scored(r, carrying)(ranked[i]));
    }
    if ranked != [] && ranked[0].device == r.prefer {
      assert ranked[0] in multiset(allowed);
    }
  }

  predicate Explicit(c: Candidate, r: Request) { r.prefer.Some? && c.device == r.prefer }

  /** On the side of the house or the cloud that the mode asks for. */
  predicate OnItsSide(c: Candidate, r: Request) { c.local != (r.mode == CloudFirst || r.mode == CloudOnly) }

  predicate Drains(c: Candidate) { c.load.Some? && c.load.value.onBattery }

  /** What each profile puts first among candidates that are equally preferred by name: the mode's side, a loaded and
      then a fast model, a model that succeeds, or a machine that is not on battery. */
  lemma ProfileDecides(c: Candidate, d: Candidate, r: Request, carrying: Option<Device> -> nat)
    requires Explicit(c, r) == Explicit(d, r)
    requires match r.profile
             case Fast => (c.loaded && !d.loaded) || (c.loaded == d.loaded && c.tokensPerSecond > d.tokensPerSecond)
             case Quality => c.successRate > d.successRate
             case LowPower => !Drains(c) && Drains(d)
             case _ => OnItsSide(c, r) && !OnItsSide(d, r)
    ensures Less(Score(d, r, carrying), Score(c, r, carrying))
  {
    hide Less;
    var at := if r.profile.Fast? && c.loaded == d.loaded then 2 else 1;
    FirstDifference(Score(d, r, carrying), Score(c, r, carrying), at);
  }

  /** Of two candidates that differ only in the machine, neither asked for by name, the one whose machine carries less
      of Thursday's own work is tried first, under every profile. */
  lemma WorkIsSpread(
      allowed: seq<Candidate>, ranked: seq<Candidate>, r: Request, carrying: Option<Device> -> nat, i: nat, j: nat)
    requires StableDescending(allowed, ranked, Scored(r, carrying)) && i < |ranked| && j < |ranked|
    requires ranked[j] == ranked[i].(device := ranked[j].device)
    requires !Explicit(ranked[i], r) && !Explicit(ranked[j], r)
    requires carrying(ranked[i].device) < carrying(ranked[j].device)
    ensures i < j
  {
    var c, d := ranked[i], ranked[j];
    var at := match r.profile case Fast => 5 case Quality => 6 case LowPower => 4 case _ => 4;
    assert Less(Score(d, r, carrying), Score(c, r, carrying)) by {
      hide Less;
      FirstDifference(Score(d, r, carrying), Score(c, r, carrying), at);
    }
    hide Less, Score;
    BetterComesFirst(ranked, Scored(r, carrying), i, j);
  }

  /** Alike but for the machine and what it is powered by. */
  predicate Twins(c: Candidate, d: Candidate) {
    && d == c.(device := d.device, load := d.load) && c.load.Some? == d.load.Some?
    && (c.load.Some? ==> c.load.value.gpuPercent == d.load.value.gpuPercent)
  }

  /** Of two candidates that differ only in the machine and its power, neither asked for by name, the first leads the
      chain unless its machine carries more of Thursday's own work. */
  lemma TwinsFollowLoad(c: Candidate, d: Candidate, r: Request, carrying: Option<Device> -> nat)
    requires Twins(c, d) && !Explicit(c, r) && !Explicit(d, r) && r.profile == Balanced
    ensures Rank([c, d], Scored(r, carrying)) ==
            if carrying(c.device) <= carrying(d.device) then [c, d] else [d, c]
  {
    var key := Scored(r, carrying);
    assert [c, d][1..] == [d] && [d][1..] == [];
    assert Rank([d], key) == [d];
    assert Rank([c, d], key) == Insert(c, [d], key);
    assert Insert(c, [d][1..], key) == [c];
    BalancedSpreads(c, d, r, carrying);
  }

  lemma BalancedSpreads(c: Candidate, d: Candidate, r: Request, carrying: Option<Device> -> nat)
    requires Twins(c, d) && !Explicit(c, r) && !Explicit(d, r) && r.profile == Balanced
    ensures Less(Score(c, r, carrying), Score(d, r, carrying)) <==> carrying(c.device) > carrying(d.device)
  {
    var a, b := Score(c, r, carrying), Score(d, r, carrying);
    assert forall i | 0 <= i < 7 && i != 4 :: a[i] == b[i];
    if carrying(c.device) > carrying(d.device) {
      FirstDifference(a, b, 4);
    } else if carrying(c.device) < carrying(d.device) {
      FirstDifference(b, a, 4);
      LessIsTotal(a, b);
    } else {
      assert a == b;
      LessIsTotal(a, b);
    }
  }

  /** On the mains, and otherwise as it is. */
  function OnMains(c: Candidate): Candidate {
    if c.load.Some? then c.(load := Some(c.load.value.(onBattery := false))) else c
  }

  /** Both would send work to the same model of the same machine. */
  predicate SamePlace(c: Candidate, d: Candidate) {
    c.device == d.device && c.runtime == d.runtime && c.model == d.model && c.local == d.local
  }

  /** The battery rule as it runs. A machine on battery is promised to be spared heavy work below 25 %. It is, unless its
      reading is exactly zero: every candidate that would be in the chain on the mains is in the chain on battery exactly
      when its machine's reading is missing, zero, or no less than 25. */
  lemma BatteryRuleAsItRuns(steps: seq<Target>, considered: seq<Candidate>, c: Candidate, r: Request, key: Candidate -> Key)
    requires RanksExactly(steps, Filter(considered, Admits(r)), key) && r.heavy && r.profile != LowPower
    requires c in considered && c.load.Some? && c.load.value.onBattery && Open(OnMains(c), r)
    requires forall d | d in considered && SamePlace(c, d) :: d == c
    ensures (exists step | step in steps :: Serves(step, c)) <==>
              (c.load.value.battery.Some? ==>
                 c.load.value.battery.value == 0.0 || c.load.value.battery.value >= LOW_BATTERY_PERCENT)
  {
    AdmittedOnBattery(c, r);
    hide *;
    InChainIffAdmitted(steps, considered, c, r, key);
  }

  lemma AdmittedOnBattery(c: Candidate, r: Request)
    requires r.heavy && r.profile != LowPower
    requires c.load.Some? && c.load.value.onBattery && Open(OnMains(c), r)
    ensures Admits(r)(c) <==>
              (c.load.value.battery.Some? ==>
                 c.load.value.battery.value == 0.0 || c.load.value.battery.value >= LOW_BATTERY_PERCENT)
  {
  }

  lemma InChainIffAdmitted(steps: seq<Target>, considered: seq<Candidate>, c: Candidate, r: Request, key: Candidate -> Key)
    requires RanksExactly(steps, Filter(considered, Admits(r)), key)
    requires c in considered && forall d | d in considered && SamePlace(c, d) :: d == c
    ensures (exists step | step in steps :: Serves(step, c)) <==> Admits(r)(c)
  {
    if step :| step in steps && Serves(step, c) {
      hide Excluded, RanksExactly;
      RankedChainIsAdmissible(steps, considered, r, key);
      var d :| d in considered && Open(d, r) && Serves(step, d);
      assert SamePlace(c, d);
    }
    if Admits(r)(c) {
      hide Excluded, RanksExactly;
      AllowedIsInChain(steps, Filter(considered, Admits(r)), c, key);
    }
  }

  lemma AllowedIsInChain(steps: seq<Target>, allowed: seq<Candidate>, c: Candidate, key: Candidate -> Key)
    requires RanksExactly(steps, allowed, key) && c in allowed
    ensures exists step | step in steps :: Serves(step, c)
  {
    var ranked :|
      StableDescending(allowed, ranked, key) && multiset(ranked) == multiset(allowed) && ServesInOrder(steps, ranked);
    hide StableDescending;
    assert c in multiset(ranked);
    var i :| 0 <= i < |ranked| && ranked[i] == c;
    assert steps[i] in steps && Serves(steps[i], c);
  }

  /** A machine on battery at zero heads the chain of heavy work before its twin on the mains, when it is listed first and
      carries no more. */
  lemma EmptyBatteryLeads(
      steps: seq<Target>, c: Candidate, d: Candidate, r: Request, carrying: Option<Device> -> nat)
    requires c.load.Some? && c.load.value.onBattery && c.load.value.battery == Some(0.0)
    requires d == OnMains(c).(device := d.device) && Open(d, r)
    requires r.heavy && r.profile == Balanced && !Explicit(c, r) && !Explicit(d, r)
    requires carrying(c.device) <= carrying(d.device)
    requires RanksExactly(steps, Filter([c, d], Admits(r)), Scored(r, carrying))
    ensures |steps| == 2 && steps[0].device == c.device && steps[1].device == d.device
  {
    assert Admits(r)(c) && Admits(r)(d);
    FilterEverything([c, d], Admits(r));
    hide Filter, Admits, Less, Score;
    var ranked :|
      StableDescending([c, d], ranked, Scored(r, carrying)) && multiset(ranked) == multiset([c, d])
      && ServesInOrder(steps, ranked);
    TwinsFollowLoad(c, d, r, carrying);
    RankIsStableDescending([c, d], Scored(r, carrying));
    RankIsPermutation([c, d], Scored(r, carrying));
    StableDescendingIsUnique([c, d], ranked, Rank([c, d], Scored(r, carrying)), Scored(r, carrying));
  }
}
