/** The figures about a model in words of the calls that were made. */
module Figures {
  import opened Common
  import opened Benchmarks

  /** A call that says how fast the model is: it succeeded on a loaded model, gave tokens in some time, and is younger
      than fourteen days, in microseconds. */
  predicate TellsSpeed(s: Sample, now: int) {
    s.ok && !s.cold && s.tokensOut > 0 && s.latencyMs > 0 && now - s.at < 14 * 24 * 60 * 60 * 1_000_000
  }

  /** A call the model could have got right, in the same fourteen days. */
  function Answerable(now: int): Sample -> bool {
    (s: Sample) => s.fault != Infrastructure && now - s.at < 14 * 24 * 60 * 60 * 1_000_000
  }

  function Answered(now: int): Sample -> bool {
    (s: Sample) => s.ok && s.fault != Infrastructure && now - s.at < 14 * 24 * 60 * 60 * 1_000_000
  }

  /** `x` tokens a second over so many milliseconds make those tokens. */
  predicate IsSpeedOf(x: real, s: Sample) {
    x * s.latencyMs as real == 1000.0 * s.tokensOut as real
  }

  lemma SpeedOf(s: Sample)
    requires Speed(s).Some?
    ensures IsSpeedOf(Speed(s).value, s)
  {
    var seconds := s.latencyMs as real / 1000.0;
    assert seconds * 1000.0 == s.latencyMs as real;
    var x := s.tokensOut as real / seconds;
    assert x * seconds == s.tokensOut as real;
    assert x * (seconds * 1000.0) == (x * seconds) * 1000.0;
  }

  /** `picked` are the places of `samples` that tell a speed, in order. */
  ghost predicate Picks(samples: seq<Sample>, now: int, picked: seq<nat>) {
    && (forall j | 0 <= j < |picked| :: picked[j] < |samples| && TellsSpeed(samples[picked[j]], now))
    && (forall j, k | 0 <= j < k < |picked| :: picked[j] < picked[k])
    && forall i | 0 <= i < |samples| && TellsSpeed(samples[i], now) :: i in picked
  }

  ghost predicate AreSpeeds(speeds: seq<real>, samples: seq<Sample>, picked: seq<nat>) {
    |speeds| == |picked| && forall j | 0 <= j < |picked| :: picked[j] < |samples| && IsSpeedOf(speeds[j], samples[picked[j]])
  }

  lemma OneMore(samples: seq<Sample>, now: int, n: nat)
    requires |samples| == n + 1
    ensures WarmSpeeds(samples, now) ==
            WarmSpeeds(samples[..n], now) + if TellsSpeed(samples[n], now) then [Speed(samples[n]).value] else []
    ensures TellsSpeed(samples[n], now) ==> Speed(samples[n]).Some?
  {
  }

  lemma PickMore(samples: seq<Sample>, now: int, n: nat, picked: seq<nat>)
    requires |samples| == n + 1 && Picks(samples[..n], now, picked)
    ensures Picks(samples, now, if TellsSpeed(samples[n], now) then picked + [n] else picked)
  {
    hide TellsSpeed;
    assert forall i | 0 <= i < n :: samples[..n][i] == samples[i];
    var more := if TellsSpeed(samples[n], now) then picked + [n] else picked;
    forall j | 0 <= j < |more| ensures more[j] < |samples| && TellsSpeed(samples[more[j]], now) {
      if j < |picked| {
        assert more[j] == picked[j] && picked[j] < |samples[..n]|;
      }
    }
    forall j, k | 0 <= j < k < |more| ensures more[j] < more[k] {
      assert more[j] == picked[j] && picked[j] < |samples[..n]|;
    }
    forall i | 0 <= i < |samples| && TellsSpeed(samples[i], now) ensures i in more {
      if i < n {
        assert i in picked;
        var j :| 0 <= j < |picked| && picked[j] == i;
        assert more[j] == i;
      } else {
        assert more[|picked|] == n;
      }
    }
  }

  lemma SpeedsMore(speeds: seq<real>, samples: seq<Sample>, n: nat, picked: seq<nat>, x: real)
    requires |samples| == n + 1 && AreSpeeds(speeds, samples[..n], picked)
    ensures AreSpeeds(speeds, samples, picked)
    ensures IsSpeedOf(x, samples[n]) ==> AreSpeeds(speeds + [x], samples, picked + [n])
  {
    hide IsSpeedOf;
    assert forall j | 0 <= j < |picked| :: samples[..n][picked[j]] == samples[picked[j]];
  }

  /** The speeds are one for each call that tells one, in the order of the calls. */
  lemma {:induction false} SpeedsAreTold(samples: seq<Sample>, now: int) returns (picked: seq<nat>)
    ensures Picks(samples, now, picked) && AreSpeeds(WarmSpeeds(samples, now), samples, picked)
  {
    if samples == [] {
      picked := [];
      assert AreSpeeds(WarmSpeeds(samples, now), samples, picked);
    } else {
      var n := |samples| - 1;
      picked := SpeedsAreTold(samples[..n], now);
      OneMore(samples, now, n);
      PickMore(samples, now, n, picked);
      hide *;
      if TellsSpeed(samples[n], now) {
        SpeedOf(samples[n]);
        SpeedsMore(WarmSpeeds(samples[..n], now), samples, n, picked, Speed(samples[n]).value);
        picked := picked + [n];
      } else {
        SpeedsMore(WarmSpeeds(samples[..n], now), samples, n, picked, 0.0);
        assert WarmSpeeds(samples, now) == WarmSpeeds(samples[..n], now);
      }
    }
  }

  /** `values` in order, each as often as in `values`. */
  ghost predicate IsSorted(sorted: seq<real>, values: seq<real>) {
    Ascending(sorted) && multiset(sorted) == multiset(values)
  }

  lemma {:induction false} InsertUpKeeps(x: real, values: seq<real>)
    ensures multiset(InsertUp(x, values)) == multiset(values) + multiset{x}
  {
    if values != [] && values[|values| - 1] > x {
      InsertUpKeeps(x, values[..|values| - 1]);
      assert values == values[..|values| - 1] + [values[|values| - 1]];
    }
  }

  lemma {:induction false} SortUpKeeps(values: seq<real>)
    ensures IsSorted(SortUp(values), values)
  {
    SortUpAscends(values);
    if values != [] {
      var front := values[..|values| - 1];
      SortUpKeeps(front);
      InsertUpKeeps(values[|values| - 1], SortUp(front));
      assert values == front + [values[|values| - 1]];
    }
  }

  lemma LastIsLargest(a: seq<real>, x: real)
    requires Ascending(a) && x in multiset(a)
    ensures a != [] && x <= a[|a| - 1]
  {
    var i :| 0 <= i < |a| && a[i] == x;
  }

  lemma SameLast(a: seq<real>, b: seq<real>)
    requires Ascending(a) && Ascending(b) && multiset(a) == multiset(b) && |a| == |b| && a != []
    ensures a[|a| - 1] == b[|a| - 1]
  {
    hide Ascending;
    assert a[|a| - 1] in multiset(a) && b[|a| - 1] in multiset(b);
    LastIsLargest(a, b[|a| - 1]);
    LastIsLargest(b, a[|a| - 1]);
  }

  lemma Front(a: seq<real>)
    requires Ascending(a) && a != []
    ensures var n := |a| - 1; Ascending(a[..n]) && multiset(a[..n]) == multiset(a) - multiset{a[n]}
  {
    assert a == a[..|a| - 1] + [a[|a| - 1]];
  }

  lemma SameLength(a: seq<real>, b: seq<real>)
    requires multiset(a) == multiset(b)
    ensures |a| == |b|
  {
    assert |a| == |multiset(a)| == |multiset(b)| == |b|;
  }

  lemma Again(a: seq<real>, b: seq<real>)
    requires |a| == |b| && a != [] && a[..|a| - 1] == b[..|a| - 1] && a[|a| - 1] == b[|a| - 1]
    ensures a == b
  {
    assert a == a[..|a| - 1] + [a[|a| - 1]] && b == b[..|a| - 1] + [b[|a| - 1]];
  }

  lemma {:induction false} SortedIsUnique(a: seq<real>, b: seq<real>)
    requires Ascending(a) && Ascending(b) && multiset(a) == multiset(b)
    ensures a == b
  {
    hide Ascending;
    SameLength(a, b);
    if a != [] {
      SameLast(a, b);
      Front(a);
      Front(b);
      SortedIsUnique(a[..|a| - 1], b[..|a| - 1]);
      Again(a, b);
    }
  }

  /** However the values are put in order, the median is the middle one, or halfway between the two in the middle. */
  lemma MedianInWords(values: seq<real>, sorted: seq<real>, k: nat)
    requires IsSorted(sorted, values)
    ensures |values| == |sorted|
    ensures |values| == 2 * k + 1 ==> Median(values) == sorted[k]
    ensures |values| == 2 * k && k > 0 ==> 2.0 * Median(values) == sorted[k - 1] + sorted[k]
  {
    SortUpKeeps(values);
    SortedIsUnique(sorted, SortUp(values));
  }

  /** What the last fifty calls say: no speed below five that tell one and the median of them otherwise; no rate below five
      the model could have got right and the share it did get right otherwise. */
  lemma FiguresInWords(log: seq<Sample>, early: seq<Sample>, window: seq<Sample>, now: int) returns (picked: seq<nat>)
    requires log == early + window && (|window| == 50 || (|window| < 50 && early == []))
    ensures Picks(window, now, picked) && AreSpeeds(WarmSpeeds(window, now), window, picked)
    ensures Throughput(Suffix(log, WINDOW), now) == if |picked| < 5 then 0.0 else Median(WarmSpeeds(window, now))
    ensures var judged, good := Count(window, Answerable(now)), Count(window, Answered(now));
            var rate := SuccessRate(Suffix(log, WINDOW), now);
            if judged < 5 then rate == 0.0 else rate * judged as real == good as real
  {
    assert Suffix(log, WINDOW) == window;
    picked := SpeedsAreTold(window, now);
    SameCount(window, FreshJudged(now), Answerable(now));
    SameCount(window, FreshSuccess(now), Answered(now));
    hide Median, IsSpeedOf, Picks, Count, WarmSpeeds;
  }

  lemma {:induction false} SameCount<T>(s: seq<T>, p: T -> bool, q: T -> bool)
    requires forall x :: p(x) <==> q(x)
    ensures Count(s, p) == Count(s, q)
  {
    if s != [] {
      SameCount(s[..|s| - 1], p, q);
    }
  }

  /** A call is recorded as it went: on a loaded model or not, with what a failure is put down to, and with no size below
      nothing. */
  lemma RecordedAsItWent(at: int, latencyMs: int, ok: bool, tokensOut: int, fault: Fault, loaded: bool)
    ensures var s := Recorded(at, latencyMs, ok, tokensOut, fault, loaded);
            && s.at == at && s.ok == ok && (s.cold <==> !loaded) && (!ok ==> s.fault == fault)
            && 0 <= s.latencyMs && latencyMs <= s.latencyMs && (latencyMs >= 0 ==> s.latencyMs == latencyMs)
            && 0 <= s.tokensOut && tokensOut <= s.tokensOut && (tokensOut >= 0 ==> s.tokensOut == tokensOut)
    ensures forall now ::
              TellsSpeed(Recorded(at, latencyMs, ok, tokensOut, fault, loaded), now) <==>
              ok && loaded && tokensOut > 0 && latencyMs > 0 && now - at < 1_209_600_000_000
  {
  }
}
