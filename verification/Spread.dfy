/** How far the order of a chain depends on the load: only candidates that tie on everything ahead of it change places. */
module Spread {
  import opened Common
  import opened Ranking
  import opened Router

  type Carried = Option<Device> -> nat

  const IDLE: Carried := _ => 0

  /** Where the load stands in the score. */
  function SpreadAt(p: Profile): nat {
    match p case Fast => 5 case Quality => 6 case _ => 4
  }

  /** What the profile looks at before the load, and after it. */
  function Ahead(c: Candidate, r: Request): Key {
    Score(c, r, IDLE)[..SpreadAt(r.profile)]
  }

  function Behind(c: Candidate, r: Request): Key {
    Score(c, r, IDLE)[SpreadAt(r.profile) + 1..]
  }

  /** On different machines, and alike in everything the profile looks at before the load. */
  predicate Tie(c: Candidate, d: Candidate, r: Request) {
    c.device != d.device && Ahead(c, r) == Ahead(d, r)
  }

  ghost predicate NoTie(allowed: seq<Candidate>, r: Request) {
    forall c, d | c in allowed && d in allowed :: !Tie(c, d, r)
  }

  lemma ScoreParts(c: Candidate, r: Request, load: Carried)
    ensures |Ahead(c, r)| == SpreadAt(r.profile)
    ensures Score(c, r, load) == Ahead(c, r) + ([-(load(c.device) as real)] + Behind(c, r))
  {
  }

  // -------------------------------------------------------------- comparing keys part by part

  lemma {:induction false} SamePrefix(p: Key, a: Key, b: Key)
    ensures Less(p + a, p + b) <==> Less(a, b)
  {
    if p == [] {
      assert p + a == a && p + b == b;
    } else {
      assert (p + a)[1..] == p[1..] + a && (p + b)[1..] == p[1..] + b;
      SamePrefix(p[1..], a, b);
    }
  }

  lemma {:induction false} OtherPrefix(p: Key, q: Key, a: Key, b: Key)
    requires |p| == |q| && p != q
    ensures Less(p + a, q + b) <==> Less(p, q)
  {
    assert (p + a)[1..] == p[1..] + a && (q + b)[1..] == q[1..] + b;
    if p[0] == q[0] {
      assert p == [p[0]] + p[1..] && q == [q[0]] + q[1..];
      OtherPrefix(p[1..], q[1..], a, b);
    }
  }

  lemma Heads(x: real, y: real, a: Key, b: Key)
    ensures x == y ==> (Less([x] + a, [y] + b) <==> Less(a, b))
    ensures x < y ==> Less([x] + a, [y] + b)
  {
    assert ([x] + a)[1..] == a && ([y] + b)[1..] == b;
  }

  /** Without a tie the load has no say in who is better. */
  lemma LoadHasNoSay(c: Candidate, d: Candidate, r: Request, x: Carried, y: Carried)
    requires !Tie(c, d, r)
    ensures Less(Score(c, r, x), Score(d, r, x)) <==> Less(Score(c, r, y), Score(d, r, y))
  {
    LessByParts(c, d, r, x);
    LessByParts(c, d, r, y);
  }

  lemma LessByParts(c: Candidate, d: Candidate, r: Request, load: Carried)
    requires !Tie(c, d, r)
    ensures Less(Score(c, r, load), Score(d, r, load)) <==>
              if Ahead(c, r) == Ahead(d, r) then Less(Behind(c, r), Behind(d, r)) else Less(Ahead(c, r), Ahead(d, r))
  {
    ScoreParts(c, r, load);
    ScoreParts(d, r, load);
    hide Score, Ahead, Behind, Less, SpreadAt;
    var p, q := Ahead(c, r), Ahead(d, r);
    var a, b := [-(load(c.device) as real)] + Behind(c, r), [-(load(d.device) as real)] + Behind(d, r);
    if p == q {
      SamePrefix(p, a, b);
      Heads(-(load(c.device) as real), -(load(d.device) as real), Behind(c, r), Behind(d, r));
    } else {
      OtherPrefix(p, q, a, b);
    }
  }

  /** In a tie the busier machine is the worse one. */
  lemma BusierIsWorse(c: Candidate, d: Candidate, r: Request, load: Carried)
    requires Tie(c, d, r) && load(c.device) > load(d.device)
    ensures Less(Score(c, r, load), Score(d, r, load))
  {
    ScoreParts(c, r, load);
    ScoreParts(d, r, load);
    hide Score, Ahead, Behind, Less, SpreadAt;
    Heads(-(load(c.device) as real), -(load(d.device) as real), Behind(c, r), Behind(d, r));
    SamePrefix(Ahead(c, r), [-(load(c.device) as real)] + Behind(c, r), [-(load(d.device) as real)] + Behind(d, r));
  }

  // -------------------------------------------------------------- sorting by either key

  ghost predicate SameOrder<T>(s: seq<T>, key: T -> Key, other: T -> Key) {
    forall i, j | 0 <= i < |s| && 0 <= j < |s| :: Less(key(s[i]), key(s[j])) <==> Less(other(s[i]), other(s[j]))
  }

  lemma {:induction false} InsertAlike<T>(x: T, s: seq<T>, key: T -> Key, other: T -> Key)
    requires forall y | y in s :: Less(key(x), key(y)) <==> Less(other(x), other(y))
    ensures Insert(x, s, key) == Insert(x, s, other)
  {
    if s != [] {
      InsertAlike(x, s[1..], key, other);
    }
  }

  lemma {:induction false} RankAlike<T>(s: seq<T>, key: T -> Key, other: T -> Key)
    requires SameOrder(s, key, other)
    ensures Rank(s, key) == Rank(s, other)
  {
    if s != [] {
      var rest := Rank(s[1..], key);
      RankAlike(s[1..], key, other);
      RankIsPermutation(s[1..], key);
      forall y | y in rest ensures Less(key(s[0]), key(y)) <==> Less(other(s[0]), other(y)) {
        assert y in multiset(rest);
        var i :| 0 <= i < |s[1..]| && s[1..][i] == y;
        assert s[i + 1] == y;
      }
      InsertAlike(s[0], rest, key, other);
    }
  }

  /** Only the load of each machine matters. */
  lemma SameLoadSameRank(allowed: seq<Candidate>, r: Request, x: Carried, y: Carried)
    requires forall d :: x(d) == y(d)
    ensures Rank(allowed, Scored(r, x)) == Rank(allowed, Scored(r, y))
  {
    hide Rank, Less;
    forall c ensures Score(c, r, x) == Score(c, r, y) {
      ScoreParts(c, r, x);
      ScoreParts(c, r, y);
      hide Score;
    }
    RankAlike(allowed, Scored(r, x), Scored(r, y));
  }

  function BusyOnly(device: Option<Device>): Carried {
    d => if d == device then 1 else 0
  }

  lemma TieIsLoadDependent(allowed: seq<Candidate>, c: Candidate, d: Candidate, r: Request)
    requires c in allowed && d in allowed && Tie(c, d, r)
    ensures Rank(allowed, Scored(r, BusyOnly(c.device))) != Rank(allowed, Scored(r, BusyOnly(d.device)))
  {
    var x, y := Scored(r, BusyOnly(c.device)), Scored(r, BusyOnly(d.device));
    var ranked := Rank(allowed, x);
    RankIsStableDescending(allowed, x);
    RankIsStableDescending(allowed, y);
    RankIsPermutation(allowed, x);
    BusierIsWorse(c, d, r, BusyOnly(c.device));
    BusierIsWorse(d, c, r, BusyOnly(d.device));
    hide Rank, Less, Score, SameTies, Tie;
    assert c in multiset(allowed) && d in multiset(allowed);
    assert c in multiset(ranked) && d in multiset(ranked);
    var i :| 0 <= i < |ranked| && ranked[i] == c;
    var j :| 0 <= j < |ranked| && ranked[j] == d;
    BetterComesFirst(ranked, x, j, i);
    if Rank(allowed, y) == ranked {
      BetterComesFirst(ranked, y, i, j);
    }
  }

  /** The chain is the same under every load if and only if no two admissible candidates on different machines tie on all
      that the profile looks at before the load. */
  lemma OneRankingIffNoTie(allowed: seq<Candidate>, r: Request)
    ensures (forall x: Carried, y: Carried :: Rank(allowed, Scored(r, x)) == Rank(allowed, Scored(r, y))) <==> NoTie(allowed, r)
  {
    if NoTie(allowed, r) {
      forall x: Carried, y: Carried ensures Rank(allowed, Scored(r, x)) == Rank(allowed, Scored(r, y)) {
        OneRanking(allowed, r, x, y);
      }
    } else {
      var c, d :| c in allowed && d in allowed && Tie(c, d, r);
      TieIsLoadDependent(allowed, c, d, r);
    }
  }

  lemma OneRanking(allowed: seq<Candidate>, r: Request, x: Carried, y: Carried)
    requires NoTie(allowed, r)
    ensures Rank(allowed, Scored(r, x)) == Rank(allowed, Scored(r, y))
  {
    hide Rank, Less, Score, Tie;
    forall i, j | 0 <= i < |allowed| && 0 <= j < |allowed|
      ensures Less(Scored(r, x)(allowed[i]), Scored(r, x)(allowed[j])) <==>
              Less(Scored(r, y)(allowed[i]), Scored(r, y)(allowed[j]))
    {
      LoadHasNoSay(allowed[i], allowed[j], r, x, y);
    }
    RankAlike(allowed, Scored(r, x), Scored(r, y));
  }
}
