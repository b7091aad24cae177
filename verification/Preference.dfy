/** The order of a chain in words: what each profile looks at, one thing after the other. */
module Preference {
  import opened Common
  import opened Ranking
  import opened Router

  /** What can make one candidate better than another. */
  datatype Criterion = Named | Warm | Quick | Gpu | Side | LessCarried | LessBusy | Succeeds | OnMains

  /** What a profile looks at, the most important first. */
  function Criteria(p: Profile): seq<Criterion> {
    match p
    case Fast => [Named, Warm, Quick, Gpu, Side, LessCarried, LessBusy]
    case Quality => [Named, Succeeds, Gpu, Side, Quick, Warm, LessCarried, LessBusy]
    case LowPower => [Named, OnMains, Side, Warm, LessCarried, LessBusy, Quick]
    case Balanced => [Named, Side, Gpu, Warm, LessCarried, LessBusy, Quick]
    case Private => [Named, Side, Gpu, Warm, LessCarried, LessBusy, Quick]
    case Offline => [Named, Side, Gpu, Warm, LessCarried, LessBusy, Quick]
  }

  predicate HasGpu(c: Candidate) { c.hardware.Some? && c.hardware.value.vram > 0 }

  predicate Plugged(c: Candidate) { c.load.None? || !c.load.value.onBattery }

  /** A machine that reports no load reads as idle. */
  function Busy(c: Candidate): real { if c.load.Some? then c.load.value.gpuPercent else 0.0 }

  /** The owner's own hardware, unless the mode asks for the cloud first or only. */
  predicate OnRightSide(c: Candidate, r: Request) {
    if r.mode == CloudFirst || r.mode == CloudOnly then !c.local else c.local
  }

  /** `c` is better than `d` by this criterion. */
  predicate Better(on: Criterion, c: Candidate, d: Candidate, r: Request, carrying: Option<Device> -> nat) {
    match on
    case Named => r.prefer.Some? && c.device == r.prefer && d.device != r.prefer
    case Warm => c.loaded && !d.loaded
    case Quick => c.tokensPerSecond > d.tokensPerSecond
    case Gpu => HasGpu(c) && !HasGpu(d)
    case Side => OnRightSide(c, r) && !OnRightSide(d, r)
    case LessCarried => carrying(c.device) < carrying(d.device)
    case LessBusy => Busy(c) < Busy(d)
    case Succeeds => c.successRate > d.successRate
    case OnMains => Plugged(c) && !Plugged(d)
  }

  predicate Even(on: Criterion, c: Candidate, d: Candidate, r: Request, carrying: Option<Device> -> nat) {
    !Better(on, c, d, r, carrying) && !Better(on, d, c, r, carrying)
  }

  /** `c` is better by the first criterion of the profile that tells them apart. */
  ghost predicate Preferred(c: Candidate, d: Candidate, r: Request, carrying: Option<Device> -> nat) {
    exists i | 0 <= i < |Criteria(r.profile)| ::
      && Better(Criteria(r.profile)[i], c, d, r, carrying)
      && forall k | 0 <= k < i :: Even(Criteria(r.profile)[k], c, d, r, carrying)
  }

  /** A criterion as a number, higher being better. */
  function Value(on: Criterion, c: Candidate, r: Request, carrying: Option<Device> -> nat): real {
    match on
    case Named => Bit(r.prefer.Some? && c.device == r.prefer)
    case Warm => Bit(c.loaded)
    case Quick => c.tokensPerSecond
    case Gpu => Bit(HasGpu(c))
    case Side => Bit(OnRightSide(c, r))
    case LessCarried => -(carrying(c.device) as real)
    case LessBusy => -Busy(c)
    case Succeeds => c.successRate
    case OnMains => Bit(Plugged(c))
  }

  lemma ValueTells(on: Criterion, c: Candidate, d: Candidate, r: Request, carrying: Option<Device> -> nat)
    ensures Value(on, c, r, carrying) > Value(on, d, r, carrying) <==> Better(on, c, d, r, carrying)
  {
  }

  lemma FastScore(c: Candidate, r: Request, carrying: Option<Device> -> nat, i: nat)
    requires r.profile.Fast? && i < |Criteria(r.profile)|
    ensures |Score(c, r, carrying)| == |Criteria(r.profile)|
    ensures Score(c, r, carrying)[i] == Value(Criteria(r.profile)[i], c, r, carrying)
  {
  }

  lemma QualityScore(c: Candidate, r: Request, carrying: Option<Device> -> nat, i: nat)
    requires r.profile.Quality? && i < |Criteria(r.profile)|
    ensures |Score(c, r, carrying)| == |Criteria(r.profile)|
    ensures Score(c, r, carrying)[i] == Value(Criteria(r.profile)[i], c, r, carrying)
  {
  }

  lemma LowPowerScore(c: Candidate, r: Request, carrying: Option<Device> -> nat, i: nat)
    requires r.profile.LowPower? && i < |Criteria(r.profile)|
    ensures |Score(c, r, carrying)| == |Criteria(r.profile)|
    ensures Score(c, r, carrying)[i] == Value(Criteria(r.profile)[i], c, r, carrying)
  {
  }

  lemma OtherScore(c: Candidate, r: Request, carrying: Option<Device> -> nat, i: nat)
    requires (r.profile.Balanced? || r.profile.Private? || r.profile.Offline?) && i < |Criteria(r.profile)|
    ensures |Score(c, r, carrying)| == |Criteria(r.profile)|
    ensures Score(c, r, carrying)[i] == Value(Criteria(r.profile)[i], c, r, carrying)
  {
  }

  lemma ScoreIsValueAt(c: Candidate, r: Request, carrying: Option<Device> -> nat, i: nat)
    requires i < |Criteria(r.profile)|
    ensures |Score(c, r, carrying)| == |Criteria(r.profile)|
    ensures Score(c, r, carrying)[i] == Value(Criteria(r.profile)[i], c, r, carrying)
  {
    hide *;
    match r.profile {
      case Fast => FastScore(c, r, carrying, i);
      case Quality => QualityScore(c, r, carrying, i);
      case LowPower => LowPowerScore(c, r, carrying, i);
      case _ => OtherScore(c, r, carrying, i);
    }
  }

  lemma KeysTell(c: Candidate, d: Candidate, r: Request, carrying: Option<Device> -> nat)
    ensures var a, b := Score(c, r, carrying), Score(d, r, carrying);
            |a| == |b| == |Criteria(r.profile)|
    ensures var a, b := Score(c, r, carrying), Score(d, r, carrying);
            forall i | 0 <= i < |a| :: a[i] > b[i] <==> Better(Criteria(r.profile)[i], c, d, r, carrying)
  {
    ScoreIsValueAt(c, r, carrying, 0);
    ScoreIsValueAt(d, r, carrying, 0);
    hide Score, Criteria, Value, Better;
    forall i | 0 <= i < |Criteria(r.profile)|
      ensures Score(c, r, carrying)[i] > Score(d, r, carrying)[i] <==> Better(Criteria(r.profile)[i], c, d, r, carrying)
    {
      ScoreIsValueAt(c, r, carrying, i);
      ScoreIsValueAt(d, r, carrying, i);
      ValueTells(Criteria(r.profile)[i], c, d, r, carrying);
    }
  }

  lemma {:induction false} LessIffFirstDifference(a: Key, b: Key)
    requires |a| == |b|
    ensures Less(a, b) <==> exists i | 0 <= i < |a| :: a[i] < b[i] && a[..i] == b[..i]
  {
    if Less(a, b) {
      if a[0] == b[0] {
        LessIffFirstDifference(a[1..], b[1..]);
        var i :| 0 <= i < |a[1..]| && a[1..][i] < b[1..][i] && a[1..][..i] == b[1..][..i];
        assert a[..i + 1] == [a[0]] + a[1..][..i] && b[..i + 1] == [b[0]] + b[1..][..i];
        assert a[i + 1] < b[i + 1] && a[..i + 1] == b[..i + 1];
      } else {
        assert a[0] < b[0] && a[..0] == b[..0];
      }
    }
    if i :| 0 <= i < |a| && a[i] < b[i] && a[..i] == b[..i] {
      forall k | 0 <= k < i ensures a[k] == b[k] {
        assert a[..i][k] == b[..i][k];
      }
      FirstDifference(a, b, i);
    }
  }

  /** One candidate scores less than another exactly when the other is preferred. */
  lemma ScoresFollowCriteria(c: Candidate, d: Candidate, r: Request, carrying: Option<Device> -> nat)
    ensures Less(Score(d, r, carrying), Score(c, r, carrying)) <==> Preferred(c, d, r, carrying)
  {
    KeysTell(c, d, r, carrying);
    KeysTell(d, c, r, carrying);
    var a, b := Score(c, r, carrying), Score(d, r, carrying);
    hide Score, Less, Better, Criteria;
    LessIffFirstDifference(b, a);
    if i :| 0 <= i < |a| && b[i] < a[i] && b[..i] == a[..i] {
      forall k | 0 <= k < i ensures Even(Criteria(r.profile)[k], c, d, r, carrying) {
        assert a[..i][k] == b[..i][k];
      }
    }
    if i :| 0 <= i < |a| && Better(Criteria(r.profile)[i], c, d, r, carrying)
            && forall k | 0 <= k < i :: Even(Criteria(r.profile)[k], c, d, r, carrying) {
      forall k | 0 <= k < i ensures b[k] == a[k] {
        assert Even(Criteria(r.profile)[k], c, d, r, carrying);
      }
      assert b[..i] == a[..i];
    }
  }

  /** In a chain no candidate comes after one that it is preferred to, and candidates that nothing tells apart keep the
      order they were offered in. */
  lemma ChainFollowsPreference(
      steps: seq<Target>, allowed: seq<Candidate>, r: Request, carrying: Option<Device> -> nat)
    returns (ranked: seq<Candidate>)
    requires RanksExactly(steps, allowed, Scored(r, carrying))
    ensures multiset(ranked) == multiset(allowed) && |ranked| == |steps|
    ensures forall i | 0 <= i < |steps| :: Serves(steps[i], ranked[i])
    ensures forall i, j | 0 <= i < j < |ranked| :: !Preferred(ranked[j], ranked[i], r, carrying)
    ensures SameTies(allowed, ranked, Scored(r, carrying))
  {
    ranked :|
      StableDescending(allowed, ranked, Scored(r, carrying)) && multiset(ranked) == multiset(allowed)
      && ServesInOrder(steps, ranked);
    hide Score, Less, Preferred, SameTies;
    forall i, j | 0 <= i < j < |ranked| ensures !Preferred(ranked[j], ranked[i], r, carrying) {
      ScoresFollowCriteria(ranked[j], ranked[i], r, carrying);
      assert !Less(Scored(r, carrying)(ranked[i]), Scored(r, carrying)(ranked[j]));
    }
  }
}
