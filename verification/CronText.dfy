/** Writing a schedule down and reading it back. */
module CronText {
  import opened Common
  import opened Cron

  // -------------------------------------------------------------- numbers

  lemma {:induction false} AllDigits(s: string)
    requires s != "" && forall c | c in s :: IsDigit(c)
    ensures IsDigits(s)
  {
    assert s[0] in s;
    if |s| > 1 {
      assert s[1] in s;
      AllDigits(s[1..]);
    }
  }

  lemma {:induction false} FoldAppend(s: string, c: char, value: nat)
    requires IsDigit(c)
    ensures Fold(s + [c], value) == 10 * Fold(s, value) + (c as int - '0' as int)
    decreases |s|
  {
    if s == "" {
      assert ([c])[1..] == "";
    } else {
      assert (s + [c])[1..] == s[1..] + [c];
      FoldAppend(s[1..], c, if IsDigit(s[0]) then 10 * value + (s[0] as int - '0' as int) else value);
    }
  }

  lemma {:induction false} DecimalValue(n: nat)
    ensures Fold(Decimal(n), 0) == n
  {
    var digit := "0123456789"[n % 10];
    assert digit as int - '0' as int == n % 10;
    if n < 10 {
      assert Decimal(n)[1..] == "";
    } else {
      DecimalValue(n / 10);
      FoldAppend(Decimal(n / 10), digit, 0);
    }
  }

  lemma {:induction false} UpperOfDigits(s: string)
    requires forall c | c in s :: IsDigit(c)
    ensures Upper(s) == s
  {
    if s != "" {
      assert s[0] in s;
      UpperOfDigits(s[1..]);
      assert s == [s[0]] + s[1..];
    }
  }

  lemma NamesAreNotNumbers(s: string)
    requires s != "" && IsDigit(s[0])
    ensures s !in NAMES
  {
  }

  lemma ReadDecimal(n: nat)
    ensures ReadInt(Decimal(n)) == Some(n)
  {
    AllDigits(Decimal(n));
    DecimalValue(n);
    assert Decimal(n)[0] in Decimal(n);
  }

  const DIGITS := "0123456789"

  predicate AreDigits(s: string) {
    s != "" && forall i | 0 <= i < |s| :: s[i] in DIGITS
  }

  predicate AreGroups(pieces: seq<string>) {
    forall i | 0 <= i < |pieces| :: AreDigits(pieces[i])
  }

  /** What the digits are worth from the right, underscores counting for nothing. */
  function Worth(s: string): nat {
    if s == "" then 0
    else
      var front, last := s[..|s| - 1], s[|s| - 1];
      if last in DIGITS then 10 * Worth(front) + IndexOf(DIGITS, last) else Worth(front)
  }

  lemma DigitKnown(c: char)
    ensures IsDigit(c) <==> c in DIGITS
    ensures IsDigit(c) ==> IndexOf(DIGITS, c) == c as int - '0' as int
  {
    if IsDigit(c) {
      assert DIGITS[c as int - '0' as int] == c;
    }
  }

  /** A digit before the first group. */
  lemma GroupGrows(c: char, pieces: seq<string>)
    requires pieces != []
    ensures AreGroups([[c] + pieces[0]] + pieces[1..]) <==> c in DIGITS && (pieces[0] == "" || AreDigits(pieces[0])) && AreGroups(pieces[1..])
  {
    var all, first := [[c] + pieces[0]] + pieces[1..], [c] + pieces[0];
    assert AreDigits(first) <==> c in DIGITS && (pieces[0] == "" || AreDigits(pieces[0])) by {
      assert first[0] == c && forall i | 0 <= i < |pieces[0]| :: first[i + 1] == pieces[0][i];
    }
    Groups(first, pieces[1..]);
  }

  lemma Groups(first: string, rest: seq<string>)
    ensures AreGroups([first] + rest) <==> AreDigits(first) && AreGroups(rest)
  {
    hide AreDigits;
    var all := [first] + rest;
    assert all[0] == first && forall i | 0 <= i < |rest| :: all[i + 1] == rest[i];
  }

  lemma SplitStarts(s: string, sep: char)
    ensures s == "" ==> Split(s, sep) == [""]
    ensures s != "" && s[0] == sep ==> Split(s, sep) == [""] + Split(s[1..], sep)
    ensures s != "" && s[0] != sep ==> Split(s, sep) == [[s[0]] + Split(s[1..], sep)[0]] + Split(s[1..], sep)[1..]
    ensures Split(s, sep)[0] == "" <==> s == "" || s[0] == sep
  {
  }

  /** Read as digits is what consists of groups of digits with one underscore between two groups. */
  lemma {:induction false} DigitsInWords(s: string)
    ensures IsDigits(s) <==> AreGroups(Split(s, '_'))
    decreases |s|
  {
    SplitStarts(s, '_');
    if s == "" || s[0] == '_' {
      assert !AreDigits(Split(s, '_')[0]);
    } else {
      var rest := Split(s[1..], '_');
      DigitKnown(s[0]);
      GroupGrows(s[0], rest);
      SplitStarts(s[1..], '_');
      hide AreDigits, AreGroups, Split;
      if |s| > 1 && s[1] == '_' {
        DigitsInWords(s[2..]);
        assert s[1..][1..] == s[2..];
        assert rest[1..] == Split(s[2..], '_');
      } else if |s| > 1 {
        DigitsInWords(s[1..]);
        Groups(rest[0], rest[1..]);
        assert [rest[0]] + rest[1..] == rest;
      } else {
        assert rest == [""] && s[1..] == "";
        NoGroups();
      }
    }
  }

  lemma NoGroups()
    ensures AreGroups([""][1..])
  {
  }

  lemma {:induction false} WorthInWords(s: string)
    ensures Fold(s, 0) == Worth(s)
  {
    if s != "" {
      var front, last := s[..|s| - 1], s[|s| - 1];
      WorthInWords(front);
      DigitKnown(last);
      assert s == front + [last];
      if IsDigit(last) {
        FoldAppend(front, last, 0);
      } else {
        FoldSkips(front, last, 0);
      }
    }
  }

  lemma {:induction false} FoldSkips(s: string, c: char, value: nat)
    requires !IsDigit(c)
    ensures Fold(s + [c], value) == Fold(s, value)
    decreases |s|
  {
    if s == "" {
      assert ([c])[1..] == "";
    } else {
      assert (s + [c])[1..] == s[1..] + [c];
      FoldSkips(s[1..], c, if IsDigit(s[0]) then 10 * value + (s[0] as int - '0' as int) else value);
    }
  }

  lemma SignRead(sign: char, s: string)
    requires sign == '+' || sign == '-'
    ensures IsDigits(s) ==> ReadInt([sign] + s) == Some(if sign == '-' then -(Fold(s, 0) as int) else Fold(s, 0))
    ensures !IsDigits(s) ==> ReadInt([sign] + s) == None
  {
    assert ([sign] + s)[1..] == s;
    hide IsDigits, Fold;
  }

  lemma NoSignRead(s: string)
    requires s == "" || (s[0] != '+' && s[0] != '-')
    ensures IsDigits(s) ==> ReadInt(s) == Some(Fold(s, 0))
    ensures !IsDigits(s) ==> ReadInt(s) == None
  {
    hide IsDigits, Fold;
  }

  /** An integer is groups of digits with one underscore between two groups, behind one sign or none, and is what the
      digits are worth, below zero behind a minus. Nothing else is an integer. */
  lemma IntegersRead(s: string)
    ensures AreGroups(Split(s, '_')) ==> ReadInt(['+'] + s) == Some(Worth(s)) && ReadInt(['-'] + s) == Some(0 - Worth(s))
    ensures !AreGroups(Split(s, '_')) ==> ReadInt(['+'] + s) == None && ReadInt(['-'] + s) == None
    ensures s == "" || (s[0] != '+' && s[0] != '-') ==>
              ReadInt(s) == if AreGroups(Split(s, '_')) then Some(Worth(s)) else None
  {
    hide *;
    DigitsInWords(s);
    WorthInWords(s);
    SignRead('+', s);
    SignRead('-', s);
    if s == "" || (s[0] != '+' && s[0] != '-') {
      NoSignRead(s);
    }
  }

  // -------------------------------------------------------------- names and bounds

  const DAYS: seq<string> := ["SUN", "MON", "TUE", "WED", "THU", "FRI", "SAT"]

  const MONTHS: seq<string> :=
    ["JAN", "FEB", "MAR", "APR", "MAY", "JUN", "JUL", "AUG", "SEP", "OCT", "NOV", "DEC"]

  lemma NamesKnown(k: nat)
    ensures k < 7 ==> DAYS[k] in NAMES && NAMES[DAYS[k]] == k
    ensures k < 12 ==> MONTHS[k] in NAMES && NAMES[MONTHS[k]] == k + 1
  {
  }

  lemma OnlyTheseNames(name: string)
    requires name in NAMES
    ensures name in DAYS || name in MONTHS
  {
    var k := NAMES[name];
    assert DAYS[0] == "SUN" && DAYS[1] == "MON" && DAYS[2] == "TUE" && DAYS[3] == "WED" && DAYS[4] == "THU";
    assert DAYS[5] == "FRI" && DAYS[6] == "SAT";
    assert MONTHS[0] == "JAN" && MONTHS[1] == "FEB" && MONTHS[2] == "MAR" && MONTHS[3] == "APR" && MONTHS[4] == "MAY";
    assert MONTHS[5] == "JUN" && MONTHS[6] == "JUL" && MONTHS[7] == "AUG" && MONTHS[8] == "SEP" && MONTHS[9] == "OCT";
    assert MONTHS[10] == "NOV" && MONTHS[11] == "DEC";
  }

  const SMALL := "abcdefghijklmnopqrstuvwxyz"
  const LARGE := "ABCDEFGHIJKLMNOPQRSTUVWXYZ"

  /** Small letters become large ones and nothing else changes. */
  lemma {:induction false} CasesIgnored(s: string, i: nat, k: nat)
    requires i < |s| && k < 26
    ensures s[i] == SMALL[k] ==> Upper(s)[i] == LARGE[k]
    ensures s[i] !in SMALL ==> Upper(s)[i] == s[i]
  {
    UpperStarts(s);
    LettersKnown(k, s[0]);
    hide Upper, SMALL, LARGE;
    if i > 0 {
      CasesIgnored(s[1..], i - 1, k);
      assert s[1..][i - 1] == s[i] && Upper(s)[i] == Upper(s[1..])[i - 1];
    }
  }

  lemma UpperStarts(s: string)
    requires s != ""
    ensures Upper(s) == [Upper(s)[0]] + Upper(s[1..])
    ensures Upper(s)[0] == if 'a' <= s[0] <= 'z' then (s[0] as int - 32) as char else s[0]
  {
  }

  lemma LettersKnown(k: nat, c: char)
    requires k < 26
    ensures |SMALL| == |LARGE| == 26 && SMALL[k] as int == 'a' as int + k && LARGE[k] as int == 'A' as int + k
    ensures c !in SMALL ==> !('a' <= c <= 'z')
  {
    if 'a' <= c <= 'z' {
      assert SMALL[c as int - 'a' as int] == c;
    }
  }

  /** A day of the week by its name is its number from Sunday, and a month by its name its number, in any mixture of cases;
      no other field takes names. */
  lemma NamesRead(text: string, k: nat)
    ensures k < 7 && Upper(text) == DAYS[k] ==> Number(text, Weekday) == Ok(k)
    ensures k < 12 && Upper(text) == MONTHS[k] ==> Number(text, Month) == Ok(k + 1)
    ensures Upper(text) in DAYS || Upper(text) in MONTHS ==>
              Number(text, Minute).Err? && Number(text, Hour).Err? && Number(text, Day).Err?
  {
    NamesKnown(k);
    if Upper(text) in DAYS || Upper(text) in MONTHS {
      LettersAreNoNumber(Upper(text));
    }
    hide NAMES, ReadInt;
  }

  /** A moment counts the days from Monday. */
  const WEEK: seq<string> := ["MON", "TUE", "WED", "THU", "FRI", "SAT", "SUN"]

  /** The name of a moment's day is read as the day the schedule compares with. */
  lemma DayOfMoment(m: Moment)
    requires IsMoment(m)
    ensures 0 <= m.weekday < 7 && Number(WEEK[m.weekday], Weekday) == Ok(CronWeekday(m))
  {
    var k := CronWeekday(m);
    var name := WEEK[m.weekday];
    assert name == DAYS[k];
    forall i | 0 <= i < |name| ensures Upper(name)[i] == name[i] {
      CasesIgnored(name, i, 0);
      assert name[i] !in SMALL by {
        LettersKnown(0, name[i]);
        if j :| 0 <= j < 26 && SMALL[j] == name[i] {
          LettersKnown(j, name[i]);
        }
      }
    }
    assert Upper(name) == name;
    NamesRead(name, k);
  }

  lemma LettersAreNoNumber(name: string)
    requires name in DAYS || name in MONTHS
    ensures ReadInt(name) == None
  {
    assert name != "" && 'A' <= name[0] <= 'Z';
  }

  /** A number in digits is read in a field exactly when the field has it, Sunday being 7 as well as 0. */
  lemma BoundsRead(n: nat)
    ensures Number(Decimal(n), Minute).Ok? <==> n <= 59
    ensures Number(Decimal(n), Hour).Ok? <==> n <= 23
    ensures Number(Decimal(n), Day).Ok? <==> 1 <= n <= 31
    ensures Number(Decimal(n), Month).Ok? <==> 1 <= n <= 12
    ensures Number(Decimal(n), Weekday).Ok? <==> n <= 7
    ensures forall f | Number(Decimal(n), f).Ok? :: Number(Decimal(n), f).value == if f.Weekday? && n == 7 then 0 else n
  {
    var s := Decimal(n);
    assert s[0] in s;
    UpperOfDigits(s);
    NamesAreNotNumbers(s);
    ReadDecimal(n);
    hide NAMES, ReadInt, Decimal, Upper;
  }

  // -------------------------------------------------------------- items

  /** A value as people write it: in digits, or by its name in any mixture of cases. */
  datatype Atom = Digits(n: nat) | Name(text: string)

  datatype Body = All | One(at: Atom) | Span(from: Atom, to: Atom)

  /** What stands between two commas. */
  datatype Piece = Piece(body: Body, step: Option<nat>)

  const STAR := Piece(All, None)

  predicate IsName(text: string, f: Field) {
    Upper(text) in NAMES && (f.Weekday? || f.Month?)
  }

  /** Sunday is 0, and 7 as well. */
  function ValueOf(a: Atom, f: Field): int {
    var n := match a
      case Digits(n) => n
      case Name(text) => if IsName(text, f) then NAMES[Upper(text)] else -1;
    if f.Weekday? && n == 7 then 0 else n
  }

  predicate Known(a: Atom, f: Field) {
    Low(f) <= ValueOf(a, f) <= High(f)
  }

  predicate Fits(p: Piece, f: Field) {
    && (p.step.Some? ==> p.step.value >= 1)
    && match p.body
       case All => true
       case One(a) => Known(a, f)
       case Span(a, b) => Known(a, f) && Known(b, f) && ValueOf(a, f) <= ValueOf(b, f)
  }

  /** The values a piece stands for. */
  function RangeOf(p: Piece, f: Field): (r: Range)
    requires Fits(p, f)
    ensures Low(f) <= r.start <= r.stop <= High(f) && r.step >= 1
  {
    var step := if p.step.Some? then p.step.value else 1;
    match p.body
    case All => Range(Low(f), High(f), step)
    case One(a) => Range(ValueOf(a, f), ValueOf(a, f), step)
    case Span(a, b) => Range(ValueOf(a, f), ValueOf(b, f), step)
  }

  function AtomText(a: Atom): string {
    match a case Digits(n) => Decimal(n) case Name(text) => text
  }

  function BodyText(b: Body): string {
    match b
    case All => "*"
    case One(a) => AtomText(a)
    case Span(a, b) => AtomText(a) + "-" + AtomText(b)
  }

  function WritePiece(p: Piece): string {
    BodyText(p.body) + if p.step.Some? then "/" + Decimal(p.step.value) else ""
  }

  predicate IsPlain(c: char) {
    IsDigit(c) || 'A' <= c <= 'Z' || 'a' <= c <= 'z'
  }

  predicate AllPlain(s: string) {
    s != "" && forall c | c in s :: IsPlain(c)
  }

  lemma {:induction false} PlainIfUpperIs(s: string)
    requires forall c | c in Upper(s) :: IsPlain(c)
    ensures forall c | c in s :: IsPlain(c)
  {
    if s != "" {
      var u := Upper(s);
      assert u == [u[0]] + Upper(s[1..]) && u[0] in u;
      PlainIfUpperIs(s[1..]);
      assert s == [s[0]] + s[1..];
    }
  }

  lemma NamesArePlain()
    ensures forall name | name in NAMES :: AllPlain(name)
  {
  }

  lemma AtomsArePlain(a: Atom, f: Field)
    requires Known(a, f)
    ensures AllPlain(AtomText(a))
  {
    if a.Name? {
      NamesArePlain();
      assert AllPlain(Upper(a.text));
      PlainIfUpperIs(a.text);
    }
  }

  /** A value is read as itself, whether by number or by name. */
  lemma AtomReadsBack(a: Atom, f: Field)
    requires Known(a, f)
    ensures Number(AtomText(a), f) == Ok(ValueOf(a, f))
  {
    if a.Digits? {
      var s := Decimal(a.n);
      assert s[0] in s;
      UpperOfDigits(s);
      NamesAreNotNumbers(s);
      ReadDecimal(a.n);
    }
  }

  lemma {:induction false} IndexAfter(a: string, c: char, b: string)
    requires c !in a
    ensures IndexOf(a + [c] + b, c) == |a|
  {
    if a != "" {
      assert a[0] in a;
      assert (a + [c] + b)[1..] == a[1..] + [c] + b;
      IndexAfter(a[1..], c, b);
    }
  }

  lemma DashesStay(s: string)
    requires s != "" && s[0] != '-'
    ensures DropDashes(s) == s
  {
  }

  lemma OneReadsBack(a: Atom, step: nat, f: Field)
    requires Known(a, f) && step >= 1
    ensures Bounds(AtomText(a), step, f) == Ok(Range(ValueOf(a, f), ValueOf(a, f), step))
  {
    AtomsArePlain(a, f);
    AtomReadsBack(a, f);
    var s := AtomText(a);
    assert s[0] in s;
    DashesStay(s);
    hide Number, AtomText;
  }

  lemma DashFound(a: string, b: string)
    requires AllPlain(a)
    ensures var s := a + "-" + b;
            && s != "*" && s != "" && '-' in DropDashes(s)
            && IndexOf(s, '-') == |a| && s[..|a|] == a && s[|a| + 1..] == b
  {
    var s := a + "-" + b;
    assert a[0] in a && s[0] == a[0] && '-' !in a;
    IndexAfter(a, '-', b);
    DashesStay(s);
    assert s == a + ['-'] + b && s[|a|] == '-';
  }

  lemma SpanReadsBack(from: Atom, to: Atom, step: nat, f: Field)
    requires Fits(Piece(Span(from, to), Some(step)), f)
    ensures Bounds(BodyText(Span(from, to)), step, f) == Ok(Range(ValueOf(from, f), ValueOf(to, f), step))
  {
    AtomsArePlain(from, f);
    AtomReadsBack(from, f);
    AtomReadsBack(to, f);
    DashFound(AtomText(from), AtomText(to));
    hide Number, AtomText, IndexOf, DropDashes, AllPlain, ValueOf;
  }

  lemma BodyReadsBack(p: Piece, f: Field)
    requires Fits(p, f)
    ensures Bounds(BodyText(p.body), RangeOf(p, f).step, f) == Ok(RangeOf(p, f))
    ensures BodyText(p.body) != "" && '/' !in BodyText(p.body)
  {
    var step := RangeOf(p, f).step;
    match p.body {
      case All =>
      case One(a) =>
        AtomsArePlain(a, f);
        OneReadsBack(a, step, f);
      case Span(a, b) =>
        AtomsArePlain(a, f);
        AtomsArePlain(b, f);
        SpanReadsBack(a, b, step, f);
    }
  }

  lemma ItemWithStep(body: string, step: nat, f: Field)
    requires '/' !in body && step >= 1
    ensures Item(body + "/" + Decimal(step), f) == Bounds(body, step, f)
  {
    ReadDecimal(step);
    var text := Decimal(step);
    hide Decimal, Bounds, ReadInt;
    IndexAfter(body, '/', text);
    var s := body + "/" + text;
    assert s == body + ['/'] + text && s[..|body|] == body && s[|body| + 1..] == text;
  }

  lemma ItemWithoutStep(body: string, f: Field)
    requires '/' !in body && body != ""
    ensures Item(body, f) == Bounds(body, 1, f)
  {
    hide Bounds;
  }

  /** Whatever stands between two commas, a star, a value or a range, with a step or without, is read as the range and
      step it was written for. */
  lemma ItemReadsBack(p: Piece, f: Field)
    requires Fits(p, f)
    ensures Item(WritePiece(p), f) == Ok(RangeOf(p, f))
  {
    BodyReadsBack(p, f);
    StepOf(p, f);
    hide BodyText, Bounds, Item, Decimal, RangeOf, Fits;
    var body := BodyText(p.body);
    if p.step.Some? {
      ItemWithStep(body, p.step.value, f);
      assert WritePiece(p) == body + "/" + Decimal(p.step.value);
    } else {
      ItemWithoutStep(body, f);
      assert WritePiece(p) == body;
    }
  }

  lemma StepOf(p: Piece, f: Field)
    requires Fits(p, f)
    ensures RangeOf(p, f).step == if p.step.Some? then p.step.value else 1
  {
  }

  // -------------------------------------------------------------- fields

  lemma {:induction false} SplitOne(s: string, sep: char)
    requires sep !in s
    ensures Split(s, sep) == [s]
  {
    if s != "" {
      assert s[0] in s;
      SplitOne(s[1..], sep);
      assert s == [s[0]] + s[1..];
    }
  }

  lemma {:induction false} SplitAt(a: string, sep: char, rest: string)
    requires sep !in a
    ensures Split(a + [sep] + rest, sep) == [a] + Split(rest, sep)
  {
    var s := a + [sep] + rest;
    if a == "" {
      assert s[1..] == rest;
    } else {
      assert a[0] in a && s[1..] == a[1..] + [sep] + rest && s[0] == a[0];
      SplitAt(a[1..], sep, rest);
      assert [a[0]] + a[1..] == a;
    }
  }

  /** Joining loses nothing either, as long as no piece holds the separator. */
  lemma {:induction false} SplitOfJoin(pieces: seq<string>, sep: char)
    requires pieces != [] && forall i | 0 <= i < |pieces| :: sep !in pieces[i]
    ensures Split(Join(pieces, sep), sep) == pieces
  {
    if |pieces| == 1 {
      SplitOne(pieces[0], sep);
    } else {
      SplitOfJoin(pieces[1..], sep);
      SplitAt(pieces[0], sep, Join(pieces[1..], sep));
      assert [pieces[0]] + pieces[1..] == pieces;
    }
  }

  predicate AllFit(ps: seq<Piece>, f: Field) {
    forall i | 0 <= i < |ps| :: Fits(ps[i], f)
  }

  function WritePieces(ps: seq<Piece>): (pieces: seq<string>)
    ensures |pieces| == |ps|
  {
    seq(|ps|, i requires 0 <= i < |ps| => WritePiece(ps[i]))
  }

  function WriteField(ps: seq<Piece>): string
    requires ps != []
  {
    Join(WritePieces(ps), ',')
  }

  function RangesOf(ps: seq<Piece>, f: Field): (rs: seq<Range>)
    requires AllFit(ps, f)
    ensures |rs| == |ps| && forall i | 0 <= i < |rs| :: rs[i] == RangeOf(ps[i], f)
    ensures Bounded(rs, f)
  {
    seq(|ps|, i requires 0 <= i < |ps| => RangeOf(ps[i], f))
  }

  predicate Bounded(rs: seq<Range>, f: Field) {
    forall i | 0 <= i < |rs| :: Low(f) <= rs[i].start <= rs[i].stop <= High(f) && rs[i].step >= 1
  }

  predicate IsWord(w: string) {
    w != "" && forall c | c in w :: !IsSpace(c)
  }

  lemma BodyCharacters(b: Body, f: Field)
    requires Fits(Piece(b, None), f)
    ensures var s := BodyText(b);
            ',' !in s && '/' !in s && IsWord(s) && (s == "*" <==> b.All?)
  {
    match b {
      case All =>
      case One(a) =>
        AtomsArePlain(a, f);
        assert AtomText(a)[0] in AtomText(a);
      case Span(from, to) =>
        AtomsArePlain(from, f);
        AtomsArePlain(to, f);
        assert AtomText(from)[0] in AtomText(from) && BodyText(b)[0] == AtomText(from)[0];
    }
  }

  lemma NoCommaInside(p: Piece, f: Field)
    requires Fits(p, f)
    ensures ',' !in WritePiece(p) && IsWord(WritePiece(p))
    ensures WritePiece(p) == "*" <==> p == STAR
  {
    BodyCharacters(p.body, f);
    hide BodyText, Fits, Decimal;
    var s := WritePiece(p);
    if p.step.Some? {
      assert s == BodyText(p.body) + "/" + Decimal(p.step.value);
      assert s[|BodyText(p.body)|] == '/';
    } else {
      assert s == BodyText(p.body);
    }
  }

  /** `v` is in one of the ranges. */
  ghost predicate Covered(rs: seq<Range>, f: Field, v: int)
    requires Bounded(rs, f)
  {
    exists i | 0 <= i < |rs| :: InRange(v, rs[i])
  }

  /** A field written as a list of pieces means exactly the union of what they stand for. */
  lemma FieldReadsBack(ps: seq<Piece>, f: Field, values: set<int>)
    requires ps != [] && AllFit(ps, f)
    ensures FieldMeans(WriteField(ps), f, Ok(values)) <==> forall v :: v in values <==> Covered(RangesOf(ps, f), f, v)
  {
    hide *;
    var pieces, rs := WritePieces(ps), RangesOf(ps, f);
    PiecesReadBack(ps, f);
    PiecesDenote(rs, pieces, f);
    CoveredValues(rs, f, values);
    MeaningOfPieces(WriteField(ps), f, pieces, values);
  }

  lemma PiecesReadBack(ps: seq<Piece>, f: Field)
    requires ps != [] && AllFit(ps, f)
    ensures forall i | 0 <= i < |ps| :: Item(WritePieces(ps)[i], f) == Ok(RangesOf(ps, f)[i])
    ensures Split(WriteField(ps), ',') == WritePieces(ps)
    ensures WriteField(ps) == "*" <==> ps == [STAR]
  {
    var pieces := WritePieces(ps);
    hide WritePiece, Item, Join, Split, RangeOf;
    forall i | 0 <= i < |ps|
      ensures Item(pieces[i], f) == Ok(RangeOf(ps[i], f)) && ',' !in pieces[i] && (pieces[i] == "*" <==> ps[i] == STAR)
    {
      NoCommaInside(ps[i], f);
      ItemReadsBack(ps[i], f);
    }
    SplitOfJoin(pieces, ',');
    StarAlone();
    JoinOne("*", ',');
    assert WriteField(ps) == "*" ==> pieces == ["*"];
    assert ps == [STAR] ==> pieces == ["*"];
  }

  lemma JoinOne(s: string, sep: char)
    ensures Join([s], sep) == s
  {
  }

  lemma MeaningOfPieces(raw: string, f: Field, pieces: seq<string>, values: set<int>)
    requires Split(raw, ',') == pieces && Accepted(pieces, f)
    ensures FieldMeans(raw, f, Ok(values)) <==>
            && values != {} && (forall v :: v in values <==> Denotes(pieces, f, v))
            && forall v | v in values :: Low(f) <= v <= High(f)
  {
    hide Split, Accepted, Denotes;
  }

  lemma PiecesDenote(rs: seq<Range>, pieces: seq<string>, f: Field)
    requires Bounded(rs, f) && |pieces| == |rs| && forall i | 0 <= i < |rs| :: Item(pieces[i], f) == Ok(rs[i])
    ensures Accepted(pieces, f) && forall v :: Denotes(pieces, f, v) <==> Covered(rs, f, v)
  {
    hide Item, InRange;
    forall v ensures Denotes(pieces, f, v) <==> Covered(rs, f, v) {
      if Covered(rs, f, v) {
        var i :| 0 <= i < |rs| && InRange(v, rs[i]);
        assert pieces[i] in pieces;
      }
    }
  }

  lemma CoveredValues(rs: seq<Range>, f: Field, values: set<int>)
    requires rs != [] && Bounded(rs, f)
    ensures (forall v :: v in values <==> Covered(rs, f, v)) ==>
              values != {} && forall v | v in values :: Low(f) <= v <= High(f)
  {
    assert InRange(rs[0].start, rs[0]);
    if forall v :: v in values <==> Covered(rs, f, v) {
      assert rs[0].start in values;
      forall v | v in values ensures Low(f) <= v <= High(f) {
        var i :| 0 <= i < |rs| && InRange(v, rs[i]);
      }
    }
  }

  // -------------------------------------------------------------- expressions

  lemma {:induction false} WordIsTaken(w: string, rest: string)
    requires forall c | c in w :: !IsSpace(c)
    requires rest == "" || IsSpace(rest[0])
    ensures WordLength(w + rest) == |w|
  {
    if w == "" {
      assert w + rest == rest;
    } else {
      assert w[0] in w && (w + rest)[1..] == w[1..] + rest;
      WordIsTaken(w[1..], rest);
    }
  }

  lemma {:induction false} WordsOfJoin(words: seq<string>)
    requires words != [] && forall i | 0 <= i < |words| :: IsWord(words[i])
    ensures Words(Join(words, ' ')) == words
  {
    var w := words[0];
    assert w[0] in w;
    if |words| == 1 {
      WordIsTaken(w, "");
      assert w + "" == w && w[..|w|] == w && w[|w|..] == "";
    } else {
      var rest := Join(words[1..], ' ');
      var s := w + [' '] + rest;
      assert s == w + ([' '] + rest);
      WordIsTaken(w, [' '] + rest);
      assert s[..|w|] == w && s[|w|..] == [' '] + rest && ([' '] + rest)[1..] == rest;
      WordsOfJoin(words[1..]);
      assert [w] + words[1..] == words;
    }
  }

  /** Tab, line feed, vertical tab, form feed, carriage return, the four separators and the space. */
  const SPACES: set<int> := {9, 10, 11, 12, 13, 28, 29, 30, 31, 32}

  predicate IsGap(s: string) {
    forall i | 0 <= i < |s| :: s[i] as int in SPACES
  }

  predicate HasNoGap(s: string) {
    s != "" && forall i | 0 <= i < |s| :: s[i] as int !in SPACES
  }

  /** A gap before each word and one at the end. */
  function Spaced(gaps: seq<string>, words: seq<string>): string
    requires |gaps| == |words| + 1
  {
    if words == [] then gaps[0] else gaps[0] + (words[0] + Spaced(gaps[1..], words[1..]))
  }

  lemma SpaceKnown(c: char)
    ensures IsSpace(c) <==> c as int in SPACES
  {
  }

  lemma {:induction false} GapSkipped(gap: string, rest: string)
    requires IsGap(gap)
    ensures Words(gap + rest) == Words(rest)
  {
    if gap == "" {
      assert gap + rest == rest;
    } else {
      SpaceKnown(gap[0]);
      GapSkipped(gap[1..], rest);
      assert (gap + rest)[1..] == gap[1..] + rest;
    }
  }

  lemma WordTaken(w: string, rest: string)
    requires HasNoGap(w) && (rest == "" || rest[0] as int in SPACES)
    ensures Words(w + rest) == [w] + Words(rest)
  {
    forall c | c in w ensures !IsSpace(c) {
      SpaceKnown(c);
    }
    if rest != "" {
      SpaceKnown(rest[0]);
    }
    hide SPACES;
    WordIsTaken(w, rest);
    SpaceKnown(w[0]);
    assert (w + rest)[..|w|] == w && (w + rest)[|w|..] == rest;
  }

  /** Words are told apart by any white space between them, of any length, and white space around them counts for
      nothing. */
  lemma {:induction false} SpacesSeparate(gaps: seq<string>, words: seq<string>)
    requires |gaps| == |words| + 1
    requires forall i | 0 <= i < |gaps| :: IsGap(gaps[i]) && (0 < i < |words| ==> gaps[i] != "")
    requires forall i | 0 <= i < |words| :: HasNoGap(words[i])
    ensures Words(Spaced(gaps, words)) == words
  {
    if words == [] {
      GapSkipped(gaps[0], "");
      assert gaps[0] + "" == gaps[0];
    } else {
      var rest := Spaced(gaps[1..], words[1..]);
      SpacesSeparate(gaps[1..], words[1..]);
      hide Words, HasNoGap, SPACES;
      GapSkipped(gaps[0], words[0] + rest);
      WordTaken(words[0], rest);
    }
  }

  ghost predicate Writable(fields: seq<seq<Piece>>) {
    |fields| == 5 && forall i | 0 <= i < 5 :: fields[i] != [] && AllFit(fields[i], FIELDS[i])
  }

  ghost function WriteFields(fields: seq<seq<Piece>>): (words: seq<string>)
    requires Writable(fields)
    ensures |words| == 5
  {
    seq(5, i requires 0 <= i < 5 => WriteField(fields[i]))
  }

  /** Five fields, each a list of pieces. */
  ghost function WriteExpression(fields: seq<seq<Piece>>): string
    requires Writable(fields)
  {
    Join(WriteFields(fields), ' ')
  }

  lemma {:induction false} JoinedCharacters(pieces: seq<string>)
    requires pieces != [] && forall i | 0 <= i < |pieces| :: IsWord(pieces[i])
    ensures IsWord(Join(pieces, ','))
  {
    if |pieces| > 1 {
      JoinedCharacters(pieces[1..]);
    }
  }

  lemma WordOfField(ps: seq<Piece>, f: Field)
    requires ps != [] && AllFit(ps, f)
    ensures IsWord(WriteField(ps)) && (WriteField(ps) == "*" <==> ps == [STAR])
  {
    var pieces := WritePieces(ps);
    forall i | 0 <= i < |pieces| ensures IsWord(pieces[i]) {
      NoCommaInside(ps[i], f);
    }
    JoinedCharacters(pieces);
    PiecesReadBack(ps, f);
  }

  /** Any schedule written down is read back as it was meant: each field as the union of its pieces, and the day fields
      as restricted unless they are a single star. */
  lemma ExpressionReadsBack(fields: seq<seq<Piece>>, s: Schedule)
    requires Writable(fields)
    ensures Reads(WriteExpression(fields), s) <==>
            && (s.dayRestricted <==> fields[2] != [STAR])
            && (s.weekdayRestricted <==> fields[4] != [STAR])
            && forall i | 0 <= i < 5 :: forall v :: v in SetOf(s, FIELDS[i]) <==> Covered(RangesOf(fields[i], FIELDS[i]), FIELDS[i], v)
  {
    var words := WriteFields(fields);
    forall i | 0 <= i < 5 ensures IsWord(words[i]) && (words[i] == "*" <==> fields[i] == [STAR]) {
      WordOfField(fields[i], FIELDS[i]);
    }
    WordsOfJoin(words);
    forall i | 0 <= i < 5
      ensures FieldMeans(words[i], FIELDS[i], Ok(SetOf(s, FIELDS[i]))) <==>
              forall v :: v in SetOf(s, FIELDS[i]) <==> Covered(RangesOf(fields[i], FIELDS[i]), FIELDS[i], v)
    {
      FieldReadsBack(fields[i], FIELDS[i], SetOf(s, FIELDS[i]));
    }
  }

  // -------------------------------------------------------------- a moment where POSIX differs

  function Just(n: nat): seq<Piece> { [Piece(One(Digits(n)), None)] }

  const MONDAYS_IN_JANUARY: seq<seq<Piece>> := [Just(0), Just(0), [STAR], Just(1), Just(1)]

  const ANY_DAY: set<int> := set d | 1 <= d <= 31

  const MEANT := Schedule({0}, {0}, ANY_DAY, {1}, {1}, false, true)

  const FRIDAY := Moment(0, 0, 5, 1, 4)

  lemma JustOne(n: nat, f: Field, v: int)
    requires Low(f) <= n <= High(f) && n != 7
    ensures AllFit(Just(n), f) && (Covered(RangesOf(Just(n), f), f, v) <==> v == n)
  {
    var rs := RangesOf(Just(n), f);
    assert rs[0] == Range(n, n, 1);
    if v == n { assert InRange(v, rs[0]); }
  }

  lemma JustStar(f: Field, v: int)
    ensures AllFit([STAR], f) && (Covered(RangesOf([STAR], f), f, v) <==> Low(f) <= v <= High(f))
  {
    var rs := RangesOf([STAR], f);
    assert rs[0] == Range(Low(f), High(f), 1);
    if Low(f) <= v <= High(f) { assert InRange(v, rs[0]); }
  }

  /** A star is every value the field has, Sunday once. */
  lemma StarRead(f: Field, values: set<int>)
    requires FieldMeans("*", f, Ok(values))
    ensures forall v :: v in values <==>
              match f
              case Minute => 0 <= v <= 59
              case Hour => 0 <= v <= 23
              case Day => 1 <= v <= 31
              case Month => 1 <= v <= 12
              case Weekday => 0 <= v <= 6
  {
    StarText();
    JustStar(f, 0);
    FieldReadsBack([STAR], f, values);
    hide FieldMeans, Covered;
    forall v ensures v in values <==> Low(f) <= v <= High(f) {
      JustStar(f, v);
    }
  }

  lemma WholeField(step: nat, f: Field)
    requires step >= 1
    ensures Bounds("", step, f) == Ok(Range(Low(f), High(f), step))
    ensures Bounds("*", step, f) == Ok(Range(Low(f), High(f), step))
  {
  }

  lemma NothingBefore(rest: string)
    ensures "" + rest == rest
  {
  }

  /** A step with nothing before it counts from the start of the field, as behind a star. */
  lemma BareStepRead(step: nat, f: Field)
    requires step >= 1
    ensures Item("/" + Decimal(step), f) == Ok(Range(Low(f), High(f), step))
    ensures Item("*" + "/" + Decimal(step), f) == Ok(Range(Low(f), High(f), step))
  {
    hide *;
    WholeField(step, f);
    ItemWithStep("", step, f);
    ItemWithStep("*", step, f);
    NothingBefore("/");
  }

  lemma JustText(n: nat)
    requires n < 10
    ensures WriteField(Just(n)) == Decimal(n)
  {
    assert WritePiece(Just(n)[0]) == Decimal(n) + "" == Decimal(n);
    assert WritePieces(Just(n)) == [Decimal(n)];
    JoinOne(Decimal(n), ',');
  }

  lemma StarText()
    ensures WriteField([STAR]) == "*"
  {
    assert WritePiece(STAR) == "*" + "" == "*";
    assert WritePieces([STAR]) == ["*"];
    JoinOne("*", ',');
  }

  lemma TextOfMondays()
    requires Writable(MONDAYS_IN_JANUARY)
    ensures WriteExpression(MONDAYS_IN_JANUARY) == "0 0 * 1 1"
  {
    JustText(0);
    JustText(1);
    StarText();
    JoinOfMondays();
    hide WriteField, Just, Join;
    assert WriteFields(MONDAYS_IN_JANUARY) == ["0", "0", "*", "1", "1"];
  }

  lemma JoinOfMondays()
    ensures Join(["0", "0", "*", "1", "1"], ' ') == "0 0 * 1 1"
  {
    var words := ["0", "0", "*", "1", "1"];
    assert words[1..] == ["0", "*", "1", "1"] && words[1..][1..] == ["*", "1", "1"];
    assert ["*", "1", "1"][1..] == ["1", "1"] && ["1", "1"][1..] == ["1"];
    assert Join(["1", "1"], ' ') == "1 1";
    assert Join(["*", "1", "1"], ' ') == "* 1 1";
    assert Join(["0", "*", "1", "1"], ' ') == "0 * 1 1";
  }

  lemma MeantField(i: nat)
    requires i < 5
    ensures MeantAt(i)
  {
    var ps, f := MONDAYS_IN_JANUARY[i], FIELDS[i];
    FieldsHere(i);
    forall v ensures AllFit(ps, f) && (v in SetOf(MEANT, f) <==> Covered(RangesOf(ps, f), f, v)) {
      if i == 2 {
        JustStar(f, v);
      } else {
        JustOne(if i < 2 then 0 else 1, f, v);
      }
      hide AllFit, Covered, RangesOf, Just;
    }
    assert AllFit(ps, f);
  }

  lemma FieldsHere(i: nat)
    requires i < 5
    ensures MONDAYS_IN_JANUARY[i] == if i == 2 then [STAR] else Just(if i < 2 then 0 else 1)
    ensures Low(FIELDS[i]) <= 1 <= High(FIELDS[i]) && (i < 2 ==> Low(FIELDS[i]) == 0)
  {
  }

  lemma MondaysAreMeant()
    ensures Reads("0 0 * 1 1", MEANT)
  {
    forall i: nat | i < 5 ensures MeantAt(i) {
      MeantField(i);
    }
    MeantAll();
    TextOfMondays();
    hide *;
    ExpressionReadsBack(MONDAYS_IN_JANUARY, MEANT);
  }

  ghost predicate MeantAt(i: nat)
    requires i < 5
  {
    var ps, f := MONDAYS_IN_JANUARY[i], FIELDS[i];
    ps != [] && AllFit(ps, f) && forall v :: v in SetOf(MEANT, f) <==> Covered(RangesOf(ps, f), f, v)
  }

  lemma MeantAll()
    requires forall i: nat | i < 5 :: MeantAt(i)
    ensures Writable(MONDAYS_IN_JANUARY) && !MEANT.dayRestricted && MEANT.weekdayRestricted
    ensures MONDAYS_IN_JANUARY[2] == [STAR] && MONDAYS_IN_JANUARY[4] != [STAR]
    ensures forall i | 0 <= i < 5 :: forall v ::
              v in SetOf(MEANT, FIELDS[i]) <==> Covered(RangesOf(MONDAYS_IN_JANUARY[i], FIELDS[i]), FIELDS[i], v)
  {
    hide AllFit, Covered, RangesOf, SetOf;
    assert MeantAt(0) && MeantAt(1) && MeantAt(2) && MeantAt(3) && MeantAt(4);
  }

  /** At midnight on a Friday in January, `0 0 * 1 1` is due by the POSIX rule and not here. */
  lemma PosixDiffers()
    ensures Reads("0 0 * 1 1", MEANT) && IsMoment(FRIDAY)
    ensures PosixMatches(MEANT, Words("0 0 * 1 1")[3] != "*", FRIDAY) && !Matches(MEANT, FRIDAY)
  {
    MondaysAreMeant();
    WordsOfMondays();
    hide Reads, Words;
    assert ["0", "0", "*", "1", "1"][3] == "1";
    assert FRIDAY.day in ANY_DAY && CronWeekday(FRIDAY) == 5;
  }

  lemma WordsOfMondays()
    ensures Words("0 0 * 1 1") == ["0", "0", "*", "1", "1"]
  {
    var words := ["0", "0", "*", "1", "1"];
    JoinOfMondays();
    WordsOfJoin(words);
  }
}
