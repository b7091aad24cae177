/** Five-field cron expressions: what is accepted, what it denotes, and when it matches. */
module Cron {
  import opened Common

  datatype Field = Minute | Hour | Day | Month | Weekday

  const FIELDS: seq<Field> := [Minute, Hour, Day, Month, Weekday]

  function Low(f: Field): int {
    match f case Day => 1 case Month => 1 case _ => 0
  }

  function High(f: Field): int {
    match f case Minute => 59 case Hour => 23 case Day => 31 case Month => 12 case Weekday => 6
  }

  const NAMES: map<string, int> := map[
    "SUN" := 0, "MON" := 1, "TUE" := 2, "WED" := 3, "THU" := 4, "FRI" := 5, "SAT" := 6,
    "JAN" := 1, "FEB" := 2, "MAR" := 3, "APR" := 4, "MAY" := 5, "JUN" := 6, "JUL" := 7, "AUG" := 8, "SEP" := 9,
    "OCT" := 10, "NOV" := 11, "DEC" := 12]

  datatype ItemRefusal =
    | EmptyItem(field: Field) | StepNotANumber(field: Field) | StepTooSmall(field: Field)
    | StartsAfterEnd(field: Field) | NotANumber(field: Field) | OutOfRange(field: Field)

  datatype Refusal = NoExpression | NotFiveFields(count: nat) | BadField(why: ItemRefusal)

  // -------------------------------------------------------------- text

  predicate IsSpace(c: char) {
    9 <= c as int <= 13 || 28 <= c as int <= 32
  }

  predicate IsDigit(c: char) { '0' <= c <= '9' }

  function Upper(s: string): (u: string)
    ensures |u| == |s|
  {
    if s == "" then ""
    else [if 'a' <= s[0] <= 'z' then (s[0] as int - 32) as char else s[0]] + Upper(s[1..])
  }

  /** The pieces of `s` between separators, empty ones included. */
  function Split(s: string, sep: char): (pieces: seq<string>)
    ensures pieces != [] && forall p | p in pieces :: sep !in p
  {
    if s == "" then [""]
    else
      var rest := Split(s[1..], sep);
      if s[0] == sep then [""] + rest else [[s[0]] + rest[0]] + rest[1..]
  }

  function Join(pieces: seq<string>, sep: char): string
    requires pieces != []
  {
    if |pieces| == 1 then pieces[0] else pieces[0] + [sep] + Join(pieces[1..], sep)
  }

  /** Splitting loses nothing. */
  lemma {:induction false} JoinOfSplit(s: string, sep: char)
    ensures Join(Split(s, sep), sep) == s
  {
    if s != "" {
      var rest := Split(s[1..], sep);
      JoinOfSplit(s[1..], sep);
      assert s == [s[0]] + s[1..];
      if s[0] == sep {
        assert ([""] + rest)[1..] == rest;
      } else if |rest| > 1 {
        var pieces := [[s[0]] + rest[0]] + rest[1..];
        assert pieces[1..] == rest[1..];
        assert rest[0] + [sep] + Join(rest[1..], sep) == s[1..];
        assert pieces[0] + [sep] + Join(pieces[1..], sep) == [s[0]] + (rest[0] + [sep] + Join(rest[1..], sep));
      }
    }
  }

  /** The maximal runs of characters that are not white space. */
  function Words(s: string): (words: seq<string>)
    ensures forall w | w in words :: w != "" && forall c | c in w :: !IsSpace(c)
    decreases |s|
  {
    if s == "" then []
    else if IsSpace(s[0]) then Words(s[1..])
    else [s[..WordLength(s)]] + Words(s[WordLength(s)..])
  }

  function WordLength(s: string): (n: nat)
    ensures n <= |s| && forall i | 0 <= i < n :: !IsSpace(s[i])
    ensures s != "" && !IsSpace(s[0]) ==> n > 0
  {
    if s == "" || IsSpace(s[0]) then 0 else 1 + WordLength(s[1..])
  }

  /** The first occurrence of `c`, or the length of `s`. */
  function IndexOf(s: string, c: char): (i: nat)
    ensures i <= |s| && (i < |s| ==> s[i] == c) && forall k | 0 <= k < i :: s[k] != c
    ensures c in s <==> i < |s|
  {
    if s == "" || s[0] == c then 0 else 1 + IndexOf(s[1..], c)
  }

  function DropDashes(s: string): string {
    if s != "" && s[0] == '-' then DropDashes(s[1..]) else s
  }

  /** Digits, with single underscores allowed between them. */
  predicate IsDigits(s: string) {
    s != "" && IsDigit(s[0]) &&
    (|s| == 1 || (if s[1] == '_' then IsDigits(s[2..]) else IsDigits(s[1..])))
  }

  function DigitsValue(s: string): nat
    requires IsDigits(s)
  {
    Fold(s, 0)
  }

  function Fold(s: string, value: nat): nat {
    if s == "" then value
    else Fold(s[1..], if IsDigit(s[0]) then 10 * value + (s[0] as int - '0' as int) else value)
  }

  /** `int(text)` on text without white space. */
  function ReadInt(s: string): Option<int> {
    var signed := s != "" && (s[0] == '-' || s[0] == '+');
    var body := if signed then s[1..] else s;
    if !IsDigits(body) then None
    else Some(if signed && s[0] == '-' then -(DigitsValue(body) as int) else DigitsValue(body))
  }

  // -------------------------------------------------------------- one item

  datatype Range = Range(start: int, stop: int, step: int)

  function Number(text: string, f: Field): (r: Result<int, ItemRefusal>)
    ensures r.Ok? ==> Low(f) <= r.value <= High(f)
  {
    var token := Upper(text);
    var read := if token in NAMES && (f.Weekday? || f.Month?) then Some(NAMES[token]) else ReadInt(token);
    if read.None? then Err(NotANumber(f))
    else
      var value := if f.Weekday? && read.value == 7 then 0 else read.value;
      if Low(f) <= value <= High(f) then Ok(value) else Err(OutOfRange(f))
  }

  function Bounds(body: string, step: int, f: Field): (r: Result<Range, ItemRefusal>)
    requires step >= 1
    ensures r.Ok? ==> Low(f) <= r.value.start <= r.value.stop <= High(f) && r.value.step == step
  {
    if body == "*" || body == "" then Ok(Range(Low(f), High(f), step))
    else if '-' in DropDashes(body) then
      var at := IndexOf(body, '-');
      var start := Number(body[..at], f);
      var stop := Number(if at < |body| then body[at + 1..] else "", f);
      if start.Err? then Err(start.error)
      else if stop.Err? then Err(stop.error)
      else if start.value > stop.value then Err(StartsAfterEnd(f))
      else Ok(Range(start.value, stop.value, step))
    else
      var only := Number(body, f);
      if only.Err? then Err(only.error) else Ok(Range(only.value, only.value, step))
  }

  function Item(piece: string, f: Field): (r: Result<Range, ItemRefusal>)
    ensures r.Ok? ==> Low(f) <= r.value.start <= r.value.stop <= High(f) && r.value.step >= 1
  {
    if piece == "" then Err(EmptyItem(f))
    else
      var at := IndexOf(piece, '/');
      if at == |piece| then Bounds(piece, 1, f)
      else
        var step := ReadInt(piece[at + 1..]);
        if step.None? then Err(StepNotANumber(f))
        else if step.value < 1 then Err(StepTooSmall(f))
        else Bounds(piece[..at], step.value, f)
  }

  /** `range(start, stop + 1, step)` as a set. */
  function Stepped(r: Range): set<int>
    requires r.step >= 1
    decreases r.stop - r.start + 1
  {
    if r.start > r.stop then {} else {r.start} + Stepped(r.(start := r.start + r.step))
  }

  ghost predicate InRange(v: int, r: Range)
    requires r.step >= 1
  {
    r.start <= v <= r.stop && (v - r.start) % r.step == 0
  }

  lemma {:induction false} SteppedMeaning(r: Range, v: int)
    requires r.step >= 1
    ensures v in Stepped(r) <==> InRange(v, r)
    decreases r.stop - r.start + 1
  {
    if r.start <= r.stop {
      var next := r.(start := r.start + r.step);
      SteppedMeaning(next, v);
      if v >= r.start {
        StepOver(v - r.start, r.step);
      }
    }
  }

  lemma StepOver(distance: nat, step: int)
    requires step >= 1
    ensures distance % step == 0 <==> distance == 0 || (distance >= step && (distance - step) % step == 0)
  {
    if distance < step {
      assert distance % step == distance;
    } else {
      var q := (distance - step) / step;
      assert distance == (q + 1) * step + (distance - step) % step;
      ModUnique(distance, q + 1, step, (distance - step) % step);
    }
  }

  lemma ModUnique(n: nat, q: nat, step: nat, r: nat)
    requires step >= 1 && n == q * step + r && r < step
    ensures n % step == r
  {
    var q', r' := n / step, n % step;
    assert (q' - q) * step == r - r' by {
      assert n == q' * step + r';
      assert (q' - q) * step == q' * step - q * step;
    }
    if q < q' {
      AtLeastOne(q' - q, step);
    } else if q' < q {
      AtLeastOne(q - q', step);
    }
  }

  lemma AtLeastOne(x: nat, step: nat)
    requires x >= 1
    ensures x * step >= step
  {
  }

  // -------------------------------------------------------------- one field

  /** `v` is denoted by some item of the comma-separated field. */
  ghost predicate Denotes(pieces: seq<string>, f: Field, v: int) {
    exists p | p in pieces :: Item(p, f).Ok? && InRange(v, Item(p, f).value)
  }

  ghost predicate Accepted(pieces: seq<string>, f: Field) {
    forall p | p in pieces :: Item(p, f).Ok?
  }

  /** The field's set: accepted exactly when every item is, and then the union of what its items denote. */
  ghost predicate FieldMeans(raw: string, f: Field, r: Result<set<int>, ItemRefusal>) {
    var pieces := Split(raw, ',');
    && (r.Ok? <==> Accepted(pieces, f))
    && (r.Ok? ==> r.value != {} && forall v :: v in r.value <==> Denotes(pieces, f, v))
    && (r.Ok? ==> forall v | v in r.value :: Low(f) <= v <= High(f))
    && (r.Err? ==> exists i | 0 <= i < |pieces| :: Item(pieces[i], f) == Err(r.error) && Accepted(pieces[..i], f))
  }

  method ParseField(raw: string, f: Field) returns (r: Result<set<int>, ItemRefusal>)
    ensures FieldMeans(raw, f, r)
  {
    var pieces := Split(raw, ',');
    var out: set<int> := {};
    for i := 0 to |pieces|
      invariant Accepted(pieces[..i], f)
      invariant forall v :: v in out <==> Denotes(pieces[..i], f, v)
      invariant forall v | v in out :: Low(f) <= v <= High(f)
      invariant i > 0 ==> out != {}
    {
      assert pieces[..i + 1] == pieces[..i] + [pieces[i]];
      var item := Item(pieces[i], f);
      if item.Err? {
        return Err(item.error);
      }
      UnionMeaning(pieces[..i], pieces[i], f, out);
      SteppedMeaning(item.value, item.value.start);
      out := out + Stepped(item.value);
    }
    assert pieces[..|pieces|] == pieces;
    return Ok(out);
  }

  lemma UnionMeaning(pieces: seq<string>, piece: string, f: Field, out: set<int>)
    requires Item(piece, f).Ok? && forall v :: v in out <==> Denotes(pieces, f, v)
    ensures forall v :: v in out + Stepped(Item(piece, f).value) <==> Denotes(pieces + [piece], f, v)
    ensures forall v | v in Stepped(Item(piece, f).value) :: Low(f) <= v <= High(f)
  {
    forall v ensures v in Stepped(Item(piece, f).value) <==> InRange(v, Item(piece, f).value) {
      SteppedMeaning(Item(piece, f).value, v);
    }
    forall v ensures v in out + Stepped(Item(piece, f).value) <==> Denotes(pieces + [piece], f, v) {
      assert forall p :: p in pieces + [piece] <==> p in pieces || p == piece;
    }
  }

  lemma AcceptedUpTo(pieces: seq<string>, f: Field, n: nat)
    requires n <= |pieces| && Accepted(pieces[..n], f)
    ensures forall k | 0 <= k < n :: Item(pieces[k], f).Ok?
  {
    forall k | 0 <= k < n ensures Item(pieces[k], f).Ok? {
      assert pieces[k] in pieces[..n];
    }
  }

  /** The description leaves no choice of set. */
  lemma FieldMeaningIsUnique(raw: string, f: Field, a: Result<set<int>, ItemRefusal>, b: Result<set<int>, ItemRefusal>)
    requires FieldMeans(raw, f, a) && FieldMeans(raw, f, b)
    ensures a == b
  {
    if a.Ok? {
      forall v ensures v in a.value <==> v in b.value {
        assert v in a.value <==> Denotes(Split(raw, ','), f, v);
      }
      assert a.value == b.value;
    } else {
      var pieces := Split(raw, ',');
      var i :| 0 <= i < |pieces| && Item(pieces[i], f) == Err(a.error) && Accepted(pieces[..i], f);
      var j :| 0 <= j < |pieces| && Item(pieces[j], f) == Err(b.error) && Accepted(pieces[..j], f);
      AcceptedUpTo(pieces, f, i);
      AcceptedUpTo(pieces, f, j);
    }
  }

  // -------------------------------------------------------------- the expression

  datatype Schedule = Schedule(
    minute: set<int>, hour: set<int>, day: set<int>, month: set<int>, weekday: set<int>,
    dayRestricted: bool, weekdayRestricted: bool)

  function SetOf(s: Schedule, f: Field): set<int> {
    match f case Minute => s.minute case Hour => s.hour case Day => s.day case Month => s.month case Weekday => s.weekday
  }

  lemma SetsInOrder(s: Schedule)
    ensures SetOf(s, FIELDS[0]) == s.minute && SetOf(s, FIELDS[1]) == s.hour && SetOf(s, FIELDS[2]) == s.day
    ensures SetOf(s, FIELDS[3]) == s.month && SetOf(s, FIELDS[4]) == s.weekday
  {
  }

  /** `s` is what the five words say, field by field. */
  ghost predicate Reads(expression: string, s: Schedule) {
    var parts := Words(expression);
    && |parts| == 5
    && (forall i | 0 <= i < 5 :: FieldMeans(parts[i], FIELDS[i], Ok(SetOf(s, FIELDS[i]))))
    && (s.dayRestricted <==> parts[2] != "*") && (s.weekdayRestricted <==> parts[4] != "*")
  }

  lemma RefusedField(raw: string, f: Field, why: ItemRefusal)
    requires FieldMeans(raw, f, Err(why))
    ensures forall s :: !FieldMeans(raw, f, Ok(s))
  {
  }

  method Parse(expression: string) returns (r: Result<Schedule, Refusal>)
    ensures r.Ok? ==> Reads(expression, r.value)
    ensures r.Err? ==> forall s :: !Reads(expression, s)
    ensures r.Err? && r.error.NoExpression? <==> Words(expression) == []
    ensures r.Err? && r.error.NotFiveFields? <==> Words(expression) != [] && |Words(expression)| != 5
    ensures r.Err? && r.error.BadField? ==>
              exists i | 0 <= i < 5 :: FieldMeans(Words(expression)[i], FIELDS[i], Err(r.error.why))
  {
    hide FieldMeans, SetOf;
    var parts := Words(expression);
    if parts == [] {
      return Err(NoExpression);
    }
    if |parts| != 5 {
      return Err(NotFiveFields(|parts|));
    }
    var values: seq<set<int>> := [];
    for i := 0 to 5
      invariant |values| == i && forall k | 0 <= k < i :: FieldMeans(parts[k], FIELDS[k], Ok(values[k]))
    {
      var value := ParseField(parts[i], FIELDS[i]);
      if value.Err? {
        RefusedField(parts[i], FIELDS[i], value.error);
        return Err(BadField(value.error));
      }
      values := values + [value.value];
    }
    var s := Schedule(values[0], values[1], values[2], values[3], values[4], parts[2] != "*", parts[4] != "*");
    SetsInOrder(s);
    return Ok(s);
  }

  lemma ReadingIsUnique(expression: string, a: Schedule, b: Schedule)
    requires Reads(expression, a) && Reads(expression, b)
    ensures a == b
  {
    var parts := Words(expression);
    forall i | 0 <= i < 5 ensures SetOf(a, FIELDS[i]) == SetOf(b, FIELDS[i]) {
      FieldMeaningIsUnique(parts[i], FIELDS[i], Ok(SetOf(a, FIELDS[i])), Ok(SetOf(b, FIELDS[i])));
    }
    SetsInOrder(a);
    SetsInOrder(b);
  }

  /** A moment's calendar fields; `weekday` counts from Monday as zero. */
  datatype Moment = Moment(minute: int, hour: int, day: int, month: int, weekday: int)

  predicate IsMoment(m: Moment) {
    0 <= m.minute <= 59 && 0 <= m.hour <= 23 && 1 <= m.day <= 31 && 1 <= m.month <= 12 && 0 <= m.weekday <= 6
  }

  /** Cron's weekday, Sunday as zero. */
  function CronWeekday(m: Moment): int { (m.weekday + 1) % 7 }

  predicate DayMatches(s: Schedule, m: Moment) {
    var byDay := m.day in s.day;
    var byWeekday := CronWeekday(m) in s.weekday;
    if s.dayRestricted && s.weekdayRestricted then byDay || byWeekday else byDay && byWeekday
  }

  predicate Matches(s: Schedule, m: Moment) {
    m.minute in s.minute && m.hour in s.hour && m.month in s.month && DayMatches(s, m)
  }

  lemma StarAlone()
    ensures Split("*", ',') == ["*"] && IndexOf("*", '/') == 1
  {
    assert "*"[1..] == "" && Split("", ',') == [""];
    assert ['*'] + "" == "*";
  }

  lemma StarIsFull(f: Field, set_: set<int>)
    requires FieldMeans("*", f, Ok(set_))
    ensures forall v :: v in set_ <==> Low(f) <= v <= High(f)
  {
    StarAlone();
    forall v ensures v in set_ <==> Low(f) <= v <= High(f) {
      assert Item("*", f) == Ok(Range(Low(f), High(f), 1));
      assert (v - Low(f)) % 1 == 0;
    }
  }

  /** Which day rule is in force: either field when both are restricted, otherwise whichever is, and none when neither is. */
  lemma MatchesMeaning(expression: string, s: Schedule, m: Moment)
    requires Reads(expression, s) && IsMoment(m)
    ensures Matches(s, m) <==>
              && m.minute in s.minute && m.hour in s.hour && m.month in s.month
              && (if s.dayRestricted && s.weekdayRestricted then m.day in s.day || CronWeekday(m) in s.weekday
                  else if s.dayRestricted then m.day in s.day
                  else if s.weekdayRestricted then CronWeekday(m) in s.weekday
                  else true)
  {
    var parts := Words(expression);
    assert FIELDS[2] == Day && FIELDS[4] == Weekday;
    if !s.dayRestricted { StarIsFull(Day, s.day); }
    if !s.weekdayRestricted { StarIsFull(Weekday, s.weekday); }
  }

  /** The day rule of the crontab format in IEEE Std 1003.1-2017, where the month belongs with the day of the month. */
  predicate PosixMatches(s: Schedule, monthRestricted: bool, m: Moment) {
    && m.minute in s.minute && m.hour in s.hour
    && (if s.weekdayRestricted && (monthRestricted || s.dayRestricted)
        then (m.month in s.month && m.day in s.day) || CronWeekday(m) in s.weekday
        else m.month in s.month && m.day in s.day && CronWeekday(m) in s.weekday)
  }

  /** The match is promised to be the POSIX rule. It never fires when POSIX does not, and it agrees at every moment
      exactly unless the weekday is restricted, the month is too, and the moment falls on the weekday outside the month,
      or in the month on another weekday with the day of the month left open. */
  lemma PosixAgreement(expression: string, s: Schedule, m: Moment)
    requires Reads(expression, s) && IsMoment(m)
    ensures var monthRestricted := Words(expression)[3] != "*";
            && (Matches(s, m) ==> PosixMatches(s, monthRestricted, m))
            && ((Matches(s, m) <==> PosixMatches(s, monthRestricted, m)) <==>
                !(&& s.weekdayRestricted && monthRestricted && m.minute in s.minute && m.hour in s.hour
                  && (if m.month in s.month then !s.dayRestricted && CronWeekday(m) !in s.weekday
                      else CronWeekday(m) in s.weekday)))
  {
    var parts := Words(expression);
    assert FIELDS[2] == Day && FIELDS[3] == Month && FIELDS[4] == Weekday;
    if !s.dayRestricted { StarIsFull(Day, s.day); }
    if !s.weekdayRestricted { StarIsFull(Weekday, s.weekday); }
    if parts[3] == "*" { StarIsFull(Month, s.month); }
  }
}
