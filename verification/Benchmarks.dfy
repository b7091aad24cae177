/** Figures measured from real calls: a window of samples, a median over the good ones, and a success rate. */
module Benchmarks {
  import opened Common

  datatype Fault = Model | Infrastructure | Unknown

  datatype Sample = Sample(at: int, latencyMs: int, ok: bool, tokensOut: int, fault: Fault, cold: bool)

  const WINDOW: nat := 50
  const MIN_SAMPLES: nat := 5

  /** Fourteen days, in microseconds. */
  const MAX_AGE: int := 14 * 86_400_000_000

  /** Throughput of one call, when it says anything about throughput. */
  function Speed(s: Sample): Option<real> {
    if !s.ok || s.tokensOut <= 0 || s.latencyMs <= 0 then None
    else Some(s.tokensOut as real / (s.latencyMs as real / 1000.0))
  }

  predicate Fresh(s: Sample, now: int) {
    s.at > now - MAX_AGE
  }

  predicate IsWarm(s: Sample) {
    !s.cold && Speed(s).Some?
  }

  /** The speeds of the fresh calls served by a loaded model. */
  function WarmSpeeds(samples: seq<Sample>, now: int): (speeds: seq<real>) {
    if samples == [] then []
    else
      var s := samples[|samples| - 1];
      WarmSpeeds(samples[..|samples| - 1], now)
      + if Fresh(s, now) && IsWarm(s) then [Speed(s).value] else []
  }

  // -------------------------------------------------------------- the median

  ghost predicate Ascending(values: seq<real>) {
    forall i, j | 0 <= i < j < |values| :: values[i] <= values[j]
  }

  function InsertUp(x: real, values: seq<real>): (r: seq<real>)
    ensures |r| == |values| + 1
    ensures forall y | y in r :: y == x || y in values
  {
    if values == [] || values[|values| - 1] <= x then values + [x]
    else InsertUp(x, values[..|values| - 1]) + [values[|values| - 1]]
  }

  function SortUp(values: seq<real>): (r: seq<real>)
    ensures |r| == |values|
  {
    if values == [] then [] else InsertUp(values[|values| - 1], SortUp(values[..|values| - 1]))
  }

  lemma {:induction false} InsertUpAscends(x: real, values: seq<real>)
    requires Ascending(values)
    ensures Ascending(InsertUp(x, values))
  {
    if values != [] && values[|values| - 1] > x {
      var r := InsertUp(x, values[..|values| - 1]);
      InsertUpAscends(x, values[..|values| - 1]);
      forall i | 0 <= i < |r| ensures r[i] <= values[|values| - 1] {
        assert r[i] in r;
      }
    }
  }

  lemma {:induction false} SortUpAscends(values: seq<real>)
    ensures Ascending(SortUp(values))
  {
    if values != [] {
      SortUpAscends(values[..|values| - 1]);
      InsertUpAscends(values[|values| - 1], SortUp(values[..|values| - 1]));
    }
  }

  lemma {:induction false} InsertUpCount(x: real, values: seq<real>, p: real -> bool)
    ensures Count(InsertUp(x, values), p) == Count(values, p) + if p(x) then 1 else 0
  {
    if values == [] || values[|values| - 1] <= x {
      assert (values + [x])[..|values|] == values;
    } else {
      var front, last := values[..|values| - 1], values[|values| - 1];
      InsertUpCount(x, front, p);
      assert (InsertUp(x, front) + [last])[..|InsertUp(x, front)|] == InsertUp(x, front);
    }
  }

  /** Sorting loses and invents nothing. */
  lemma {:induction false} SortUpCount(values: seq<real>, p: real -> bool)
    ensures Count(SortUp(values), p) == Count(values, p)
  {
    if values != [] {
      SortUpCount(values[..|values| - 1], p);
      InsertUpCount(values[|values| - 1], SortUp(values[..|values| - 1]), p);
    }
  }

  /** The middle value, or halfway between the two middle values. */
  function Median(values: seq<real>): real
    requires values != []
  {
    var sorted, n := SortUp(values), |values|;
    if n % 2 == 1 then sorted[n / 2] else (sorted[n / 2 - 1] + sorted[n / 2]) / 2.0
  }

  function Outside(lo: real, hi: real): real -> bool {
    (x: real) => x < lo || x > hi
  }

  lemma {:induction false} CountAll<T>(s: seq<T>, p: T -> bool)
    requires forall i | 0 <= i < |s| :: p(s[i])
    ensures Count(s, p) == |s|
  {
    if s != [] {
      CountAll(s[..|s| - 1], p);
    }
  }

  lemma CountPart(s: seq<real>, from: int, to: int, p: real -> bool)
    requires 0 <= from <= to <= |s| && forall i | from <= i < to :: p(s[i])
    ensures Count(s, p) >= to - from
  {
    assert s == (s[..from] + s[from..to]) + s[to..];
    CountConcat(s[..from] + s[from..to], s[to..], p);
    CountConcat(s[..from], s[from..to], p);
    CountAll(s[from..to], p);
  }

  /** An element is outside only if everything on one side of it is. */
  lemma MiddleIsInside(sorted: seq<real>, k: nat, lo: real, hi: real)
    requires Ascending(sorted) && k < |sorted|
    requires Count(sorted, Outside(lo, hi)) < k + 1 && Count(sorted, Outside(lo, hi)) < |sorted| - k
    ensures lo <= sorted[k] <= hi
  {
    if sorted[k] < lo {
      CountPart(sorted, 0, k + 1, Outside(lo, hi));
    } else if sorted[k] > hi {
      CountPart(sorted, k, |sorted|, Outside(lo, hi));
    }
  }

  /** Fewer than half of the values, however wild, cannot push the median out of the range of the others. */
  lemma MedianIsRobust(values: seq<real>, lo: real, hi: real)
    requires values != [] && 2 * Count(values, Outside(lo, hi)) < |values|
    ensures lo <= Median(values) <= hi
  {
    hide SortUp, Count, Ascending, Outside;
    var sorted, n := SortUp(values), |values|;
    SortUpAscends(values);
    SortUpCount(values, Outside(lo, hi));
    MiddleIsInside(sorted, n / 2, lo, hi);
    if n % 2 == 0 {
      MiddleIsInside(sorted, n / 2 - 1, lo, hi);
    }
  }

  /** Half of them are enough. */
  lemma HalfIsTooMany(lo: real, hi: real)
    requires lo <= hi
    ensures exists values: seq<real> ::
              values != [] && 2 * Count(values, Outside(lo, hi)) == |values| && Median(values) > hi
  {
    var wild := hi + (hi - lo) + 1.0;
    var values := [hi, wild];
    assert values[..1] == [hi] && [hi][..0] == [];
    assert SortUp([hi]) == [hi];
    assert SortUp(values) == [hi, wild];
    assert Count(values, Outside(lo, hi)) == Count([hi], Outside(lo, hi)) + 1;
    assert Count([hi], Outside(lo, hi)) == Count([], Outside(lo, hi));
  }

  // -------------------------------------------------------------- the profile

  /** What the router is told: the median once there is enough, zero for "unmeasured". */
  function Throughput(samples: seq<Sample>, now: int): real {
    var speeds := WarmSpeeds(samples, now);
    if |speeds| >= MIN_SAMPLES then Median(speeds) else 0.0
  }

  predicate Judged(s: Sample) { !s.fault.Infrastructure? }

  function FreshJudged(now: int): Sample -> bool {
    (s: Sample) => Fresh(s, now) && Judged(s)
  }

  function FreshSuccess(now: int): Sample -> bool {
    (s: Sample) => Fresh(s, now) && Judged(s) && s.ok
  }

  function SuccessRate(samples: seq<Sample>, now: int): real {
    var judged := Count(samples, FreshJudged(now));
    if judged < MIN_SAMPLES then 0.0 else Count(samples, FreshSuccess(now)) as real / judged as real
  }

  /** `log` is every sample ever added. */
  class BenchmarkProfile {
    var samples: seq<Sample>
    ghost var log: seq<Sample>

    ghost predicate Valid()
      reads this
    {
      samples == Suffix(log, WINDOW)
    }

    constructor ()
      ensures Valid() && log == []
    {
      samples, log := [], [];
    }

    method Add(s: Sample)
      requires Valid()
      modifies this
      ensures Valid() && log == old(log) + [s]
    {
      samples := samples + [s];
      if |samples| > WINDOW {
        samples := samples[1..];
      }
      log := log + [s];
    }

    method TokensPerSecond(now: int) returns (r: real)
      requires Valid()
      ensures r == Throughput(Suffix(log, WINDOW), now)
    {
      var speeds: seq<real> := [];
      for i := 0 to |samples|
        invariant speeds == WarmSpeeds(samples[..i], now)
      {
        assert samples[..i + 1][..i] == samples[..i];
        var s := samples[i];
        if s.at > now - MAX_AGE && !s.cold {
          var speed := Speed(s);
          if speed.Some? {
            speeds := speeds + [speed.value];
          }
        }
      }
      assert samples[..|samples|] == samples;
      r := if |speeds| >= MIN_SAMPLES then Median(speeds) else 0.0;
    }

    method SuccessRateNow(now: int) returns (r: real)
      requires Valid()
      ensures r == SuccessRate(Suffix(log, WINDOW), now)
    {
      var judged, good := 0, 0;
      for i := 0 to |samples|
        invariant judged == Count(samples[..i], FreshJudged(now)) && good == Count(samples[..i], FreshSuccess(now))
        invariant judged >= 0
      {
        CountNext(samples, i, FreshJudged(now));
        CountNext(samples, i, FreshSuccess(now));
        hide Count;
        var s := samples[i];
        if s.at > now - MAX_AGE && !s.fault.Infrastructure? {
          judged := judged + 1;
          if s.ok {
            good := good + 1;
          }
        }
      }
      assert samples[..|samples|] == samples;
      r := if judged < MIN_SAMPLES then 0.0 else good as real / judged as real;
    }
  }

  lemma CountNext<T>(s: seq<T>, i: nat, p: T -> bool)
    requires i < |s|
    ensures Count(s[..i + 1], p) == Count(s[..i], p) + if p(s[i]) then 1 else 0
  {
    assert s[..i + 1][..i] == s[..i];
  }

  /** One real call as it is recorded: only a failure has a fault, and sizes are not negative. */
  function Recorded(at: int, latencyMs: int, ok: bool, tokensOut: int, fault: Fault, loaded: bool): (s: Sample)
    ensures s.ok ==> s.fault.Unknown?
    ensures Speed(s).Some? <==> ok && tokensOut > 0 && latencyMs > 0
  {
    Sample(
      at, if latencyMs < 0 then 0 else latencyMs, ok, if tokensOut < 0 then 0 else tokensOut,
      if ok then Unknown else fault, !loaded)
  }

  /** The figure the router gets for a measured model lies in any range that more than half of its fresh warm speeds lie
      in, whatever the rest were, and however many samples came before the window. */
  lemma ThroughputIsRobust(log: seq<Sample>, now: int, lo: real, hi: real)
    requires var speeds := WarmSpeeds(Suffix(log, WINDOW), now);
             |speeds| >= MIN_SAMPLES && 2 * Count(speeds, Outside(lo, hi)) < |speeds|
    ensures lo <= Throughput(Suffix(log, WINDOW), now) <= hi
  {
    MedianIsRobust(WarmSpeeds(Suffix(log, WINDOW), now), lo, hi);
  }

  lemma {:induction false} WarmSpeedsConcat(a: seq<Sample>, b: seq<Sample>, now: int)
    ensures WarmSpeeds(a + b, now) == WarmSpeeds(a, now) + WarmSpeeds(b, now)
  {
    if b == [] {
      assert a + b == a;
    } else {
      assert (a + b)[..|a + b| - 1] == a + b[..|b| - 1];
      WarmSpeedsConcat(a, b[..|b| - 1], now);
    }
  }

  /** A cold, failed or unmeasurable call never enters the speeds; all it can do is push the oldest sample out. */
  lemma ColdCallOnlyEvicts(log: seq<Sample>, s: Sample, now: int)
    requires !IsWarm(s)
    ensures var window := Suffix(log, WINDOW);
            WarmSpeeds(Suffix(log + [s], WINDOW), now) ==
            WarmSpeeds(if |window| == WINDOW then window[1..] else window, now)
  {
    var window, next := Suffix(log, WINDOW), Suffix(log + [s], WINDOW);
    assert [s][..0] == [];
    var rest := if |window| == WINDOW then window[1..] else window;
    assert next == rest + [s];
    WarmSpeedsConcat(rest, [s], now);
  }

  // -------------------------------------------------------------- the success rate

  function FreshModelFault(now: int): Sample -> bool {
    (s: Sample) => Fresh(s, now) && !s.ok && s.fault.Model?
  }

  function FreshUnknownFault(now: int): Sample -> bool {
    (s: Sample) => Fresh(s, now) && !s.ok && s.fault.Unknown?
  }

  ghost predicate AsRecorded(samples: seq<Sample>) {
    forall s | s in samples :: s.ok ==> s.fault.Unknown?
  }

  lemma {:induction false} JudgedParts(samples: seq<Sample>, now: int)
    requires AsRecorded(samples)
    ensures Count(samples, FreshJudged(now)) ==
            Count(samples, FreshSuccess(now)) + Count(samples, FreshModelFault(now))
            + Count(samples, FreshUnknownFault(now))
  {
    if samples != [] {
      JudgedParts(samples[..|samples| - 1], now);
      assert samples[|samples| - 1] in samples;
    }
  }

  /** An unclassified failure is documented to count in neither direction. It counts against the model: the rate is
      successes over successes and model faults exactly when nothing fresh failed unclassified or nothing succeeded. */
  lemma RateAsDocumentedIffAllClassified(samples: seq<Sample>, now: int)
    requires AsRecorded(samples)
    requires Count(samples, FreshSuccess(now)) + Count(samples, FreshModelFault(now)) >= MIN_SAMPLES
    ensures var good, bad := Count(samples, FreshSuccess(now)), Count(samples, FreshModelFault(now));
            SuccessRate(samples, now) == good as real / (good + bad) as real <==>
            good == 0 || Count(samples, FreshUnknownFault(now)) == 0
  {
    JudgedParts(samples, now);
    Quotients(
      Count(samples, FreshSuccess(now)), Count(samples, FreshSuccess(now)) + Count(samples, FreshModelFault(now)),
      Count(samples, FreshUnknownFault(now)));
  }

  lemma Quotients(good: nat, judged: nat, more: nat)
    requires judged > 0
    ensures good as real / (judged + more) as real == good as real / judged as real <==> good == 0 || more == 0
  {
    var q := good as real / judged as real;
    assert q * judged as real == good as real;
    if good as real / (judged + more) as real == q {
      assert q * (judged + more) as real == good as real;
      assert q * more as real == 0.0;
    }
  }

  const SERVED := Sample(0, 100, true, 10, Unknown, false)
  const UNEXPLAINED := Sample(0, 100, false, 0, Unknown, false)

  /** Five successes and one failure nobody classified: not five out of five, but five out of six. */
  lemma UnclassifiedFailureLowersTheRate()
    ensures var samples := [SERVED, SERVED, SERVED, SERVED, SERVED, UNEXPLAINED];
            && AsRecorded(samples) && Count(samples, FreshModelFault(0)) == 0
            && Count(samples, FreshSuccess(0)) == 5 && SuccessRate(samples, 0) == 5.0 / 6.0
  {
    var good, samples := [SERVED, SERVED, SERVED, SERVED, SERVED], [SERVED, SERVED, SERVED, SERVED, SERVED, UNEXPLAINED];
    assert good + [UNEXPLAINED] == samples;
    CountZero(samples, FreshModelFault(0));
    AllFive(FreshSuccess(0), SERVED);
    AllFive(FreshJudged(0), SERVED);
    CountConcat(good, [UNEXPLAINED], FreshSuccess(0));
    CountConcat(good, [UNEXPLAINED], FreshJudged(0));
    CountOne(UNEXPLAINED, FreshSuccess(0));
    CountOne(UNEXPLAINED, FreshJudged(0));
    hide Count;
  }

  lemma AllFive<T>(p: T -> bool, x: T)
    requires p(x)
    ensures Count([x, x, x, x, x], p) == 5
  {
    CountOne(x, p);
    CountConcat([x], [x], p);
    CountConcat([x, x], [x], p);
    CountConcat([x, x, x], [x], p);
    CountConcat([x, x, x, x], [x], p);
    hide Count;
    assert [x] + [x] == [x, x] && [x, x] + [x] == [x, x, x];
    assert [x, x, x] + [x] == [x, x, x, x] && [x, x, x, x] + [x] == [x, x, x, x, x];
  }

  // -------------------------------------------------------------- writing through

  /** What the book holds (each profile by how often it changed), what storage holds, and which profiles changed since
      the last flush. While a flush runs, `todo` are the profiles it still has to write. */
  datatype Book = Book(current: map<string, nat>, stored: map<string, nat>, dirty: set<string>, todo: seq<string>)

  /** A call is recorded, or the running flush writes its next profile. */
  datatype Step = Record(key: string) | Put

  predicate CanStep(b: Book, e: Step) {
    e.Put? ==> b.todo != [] && b.todo[0] in b.current
  }

  function NextVersion(b: Book, key: string): nat {
    if key in b.current then b.current[key] + 1 else if key in b.stored then b.stored[key] + 1 else 0
  }

  function Stepped(b: Book, e: Step): Book
    requires CanStep(b, e)
  {
    match e
    case Record(key) => b.(current := b.current[key := NextVersion(b, key)], dirty := b.dirty + {key})
    case Put => b.(stored := b.stored[b.todo[0] := b.current[b.todo[0]]], todo := b.todo[1..])
  }

  predicate UpToDate(b: Book, key: string) {
    key in b.current && key in b.stored && b.stored[key] == b.current[key]
  }

  /** Every profile is stored as it is, or marked as changed. */
  ghost predicate NothingForgotten(b: Book) {
    && b.dirty <= b.current.Keys
    && forall key | key in b.current && key !in b.dirty :: UpToDate(b, key)
  }

  /** The whole of a flush, with the calls recorded while it waits for storage; at its end no mark is left. */
  ghost predicate Flushes(b: Book, es: seq<Step>, b': Book)
    decreases |es|
  {
    if es == [] then b.todo == [] && b' == b.(dirty := {})
    else CanStep(b, es[0]) && Flushes(Stepped(b, es[0]), es[1..], b')
  }

  /** Some call was recorded while the flush ran, for a profile the flush had already written or had not listed. */
  ghost predicate RecordedTooLate(b: Book, es: seq<Step>)
    decreases |es|
  {
    es != [] && CanStep(b, es[0]) &&
    ((es[0].Record? && es[0].key !in b.todo) || RecordedTooLate(Stepped(b, es[0]), es[1..]))
  }

  /** Mid-flush, whatever is not about to be written is stored as it is. */
  ghost predicate OnlyTodoIsBehind(b: Book) {
    && (forall key | key in b.todo :: key in b.current)
    && forall key | key in b.current && key !in b.todo :: UpToDate(b, key)
  }

  ghost predicate Behind(b: Book, key: string) {
    key in b.current && key !in b.todo && (key in b.stored ==> b.stored[key] < b.current[key])
  }

  lemma {:induction false} BehindStaysBehind(b: Book, es: seq<Step>, b': Book, key: string)
    requires Behind(b, key) && Flushes(b, es, b')
    ensures Behind(b', key) && b'.dirty == {}
    decreases |es|
  {
    if es != [] {
      BehindStaysBehind(Stepped(b, es[0]), es[1..], b', key);
    }
  }

  lemma {:induction false} FlushMidway(b: Book, es: seq<Step>, b': Book)
    requires OnlyTodoIsBehind(b) && Flushes(b, es, b')
    ensures NothingForgotten(b') <==> !RecordedTooLate(b, es)
    decreases |es|
  {
    if es != [] {
      var next := Stepped(b, es[0]);
      if es[0].Record? && es[0].key !in b.todo {
        BehindStaysBehind(next, es[1..], b', es[0].key);
      } else {
        PutKeepsUp(b, es[0]);
        FlushMidway(next, es[1..], b');
      }
    }
  }

  lemma PutKeepsUp(b: Book, e: Step)
    requires OnlyTodoIsBehind(b) && CanStep(b, e) && (e.Record? ==> e.key in b.todo)
    ensures OnlyTodoIsBehind(Stepped(b, e))
  {
    if e.Put? {
      assert forall key | key in b.todo :: key == b.todo[0] || key in b.todo[1..];
    }
  }

  /** A flush promises to write through what changed. It forgets no change exactly when no call is recorded, while it
      waits for storage, for a profile it has already written or had not listed. */
  lemma FlushForgetsIffRecordedTooLate(b: Book, listed: seq<string>, es: seq<Step>, b': Book)
    requires NothingForgotten(b) && forall key :: key in listed <==> key in b.dirty
    requires Flushes(b.(todo := listed), es, b')
    ensures NothingForgotten(b') <==> !RecordedTooLate(b.(todo := listed), es)
  {
    var start := b.(todo := listed);
    forall key | key in start.current && key !in listed ensures UpToDate(start, key) {
      assert UpToDate(b, key);
    }
    FlushMidway(start, es, b');
  }

  /** A call for profile `a` recorded just after the flush has written it: the change is stored nowhere and marked
      nowhere. */
  lemma ChangeForgotten()
    ensures var b := Book(map["a" := 1], map["a" := 0], {"a"}, []);
            var b' := Book(map["a" := 2], map["a" := 1], {}, []);
            NothingForgotten(b) && Flushes(b.(todo := ["a"]), [Put, Record("a")], b') && !NothingForgotten(b')
  {
    var start := Book(map["a" := 1], map["a" := 0], {"a"}, ["a"]);
    var written := Book(map["a" := 1], map["a" := 1], {"a"}, []);
    var late := Book(map["a" := 2], map["a" := 1], {"a"}, []);
    var end := Book(map["a" := 2], map["a" := 1], {}, []);
    assert start.stored["a" := 1] == written.stored && written.current["a" := 2] == late.current;
    assert Stepped(start, Put) == written && Stepped(written, Record("a")) == late;
    assert [Put, Record("a")][1..] == [Record("a")] && [Record("a")][1..] == [];
    assert Flushes(late, [], end);
    assert Flushes(written, [Record("a")], end);
    assert "a" in end.current && !UpToDate(end, "a");
  }
}
