/** Lexicographic keys and the stable, descending order that routing sorts by. */
module Ranking {
  import opened Common

  type Key = seq<real>

  /** Tuple comparison: the first difference decides, and a proper prefix is smaller. */
  predicate Less(a: Key, b: Key) {
    b != [] && (a == [] || a[0] < b[0] || (a[0] == b[0] && Less(a[1..], b[1..])))
  }

  /** The first difference decides. */
  lemma {:induction false} FirstDifference(a: Key, b: Key, i: nat)
    requires i < |a| && i < |b| && a[i] < b[i] && forall k | 0 <= k < i :: a[k] == b[k]
    ensures Less(a, b)
  {
    if i > 0 {
      FirstDifference(a[1..], b[1..], i - 1);
    }
  }

  lemma {:induction false} LessIsTotal(a: Key, b: Key)
    ensures a == b || Less(a, b) || Less(b, a)
    ensures !(Less(a, b) && (a == b || Less(b, a)))
  {
    if a != [] && b != [] && a[0] == b[0] {
      LessIsTotal(a[1..], b[1..]);
      assert a == [a[0]] + a[1..] && b == [b[0]] + b[1..];
    }
  }

  lemma {:induction false} LessIsTransitive(a: Key, b: Key, c: Key)
    requires Less(a, b) && Less(b, c)
    ensures Less(a, c)
  {
    if a != [] && a[0] == b[0] == c[0] {
      LessIsTransitive(a[1..], b[1..], c[1..]);
    }
  }

  lemma NotLessIsTransitive(a: Key, b: Key, c: Key)
    requires !Less(a, b) && !Less(b, c)
    ensures !Less(a, c)
  {
    LessIsTotal(a, b);
    LessIsTotal(b, c);
    LessIsTotal(a, c);
    if Less(a, c) {
      if a == b || b == c {
      } else {
        LessIsTransitive(c, b, a);
        LessIsTotal(a, c);
      }
    }
  }

  ghost predicate Descending<T>(s: seq<T>, key: T -> Key) {
    forall i, j | 0 <= i < j < |s| :: !Less(key(s[i]), key(s[j]))
  }

  lemma BetterComesFirst<T>(s: seq<T>, key: T -> Key, i: nat, j: nat)
    requires Descending(s, key) && i < |s| && j < |s| && Less(key(s[j]), key(s[i]))
    ensures i < j
  {
    LessIsTotal(key(s[j]), key(s[i]));
  }

  /** The elements of `s` whose key is `k`, in order; stability is about these. */
  function Ties<T>(s: seq<T>, key: T -> Key, k: Key): seq<T> {
    Filter(s, x => key(x) == k)
  }

  lemma TiesCons<T>(s: seq<T>, key: T -> Key, k: Key)
    requires s != []
    ensures Ties(s, key, k) == (if key(s[0]) == k then [s[0]] else []) + Ties(s[1..], key, k)
    ensures key(s[0]) == k ==> Ties(s, key, k)[0] == s[0] && Ties(s, key, k)[1..] == Ties(s[1..], key, k)
    ensures key(s[0]) != k ==> Ties(s, key, k) == Ties(s[1..], key, k)
  {
    FilterCons(s, x => key(x) == k);
  }

  ghost predicate SameTies<T>(xs: seq<T>, ys: seq<T>, key: T -> Key) {
    forall k :: Ties(xs, key, k) == Ties(ys, key, k)
  }

  /** `ys` is `xs` sorted by descending key, ties left in their original order. */
  ghost predicate StableDescending<T>(xs: seq<T>, ys: seq<T>, key: T -> Key) {
    Descending(ys, key) && SameTies(xs, ys, key)
  }

  /** Places `x`, which came before everything in `s`, in front of its equals. */
  function Insert<T>(x: T, s: seq<T>, key: T -> Key): (r: seq<T>)
    ensures |r| == |s| + 1
    ensures forall y | y in r :: y == x || y in s
  {
    if s == [] || !Less(key(x), key(s[0])) then [x] + s
    else [s[0]] + Insert(x, s[1..], key)
  }

  function Rank<T>(s: seq<T>, key: T -> Key): (r: seq<T>)
    ensures |r| == |s|
  {
    if s == [] then [] else Insert(s[0], Rank(s[1..], key), key)
  }

  lemma DescendingCons<T>(x: T, s: seq<T>, key: T -> Key)
    requires Descending(s, key) && forall y | y in s :: !Less(key(x), key(y))
    ensures Descending([x] + s, key)
  {
  }

  lemma {:induction false} InsertDescends<T>(x: T, s: seq<T>, key: T -> Key)
    requires Descending(s, key)
    ensures Descending(Insert(x, s, key), key)
  {
    if s == [] {
    } else if !Less(key(x), key(s[0])) {
      forall y | y in s ensures !Less(key(x), key(y)) {
        var i :| 0 <= i < |s| && s[i] == y;
        if i > 0 {
          NotLessIsTransitive(key(x), key(s[0]), key(y));
        }
      }
      DescendingCons(x, s, key);
    } else {
      InsertDescends(x, s[1..], key);
      LessIsTotal(key(x), key(s[0]));
      DescendingCons(s[0], Insert(x, s[1..], key), key);
    }
  }

  lemma {:induction false} InsertKeepsTies<T>(x: T, s: seq<T>, key: T -> Key, k: Key)
    ensures Ties(Insert(x, s, key), key, k) == (if key(x) == k then [x] else []) + Ties(s, key, k)
  {
    TiesCons(Insert(x, s, key), key, k);
    if s == [] || !Less(key(x), key(s[0])) {
      assert Insert(x, s, key)[1..] == s;
    } else {
      assert Insert(x, s, key)[1..] == Insert(x, s[1..], key);
      InsertKeepsTies(x, s[1..], key, k);
      TiesCons(s, key, k);
      LessIsTotal(key(x), key(s[0]));
    }
  }

  lemma {:induction false} RankIsStableDescending<T>(s: seq<T>, key: T -> Key)
    ensures StableDescending(s, Rank(s, key), key)
  {
    if s != [] {
      var t := Rank(s[1..], key);
      RankIsStableDescending(s[1..], key);
      InsertDescends(s[0], t, key);
      forall k ensures Ties(s, key, k) == Ties(Rank(s, key), key, k) {
        InsertKeepsTies(s[0], t, key, k);
        TiesCons(s, key, k);
      }
    }
  }

  /** Stability and order leave no choice: the sorted list is unique. */
  lemma StableDescendingIsUnique<T>(xs: seq<T>, ys: seq<T>, zs: seq<T>, key: T -> Key)
    requires StableDescending(xs, ys, key) && StableDescending(xs, zs, key)
    ensures ys == zs
  {
    forall k ensures Ties(ys, key, k) == Ties(zs, key, k) {
      assert Ties(xs, key, k) == Ties(ys, key, k) && Ties(xs, key, k) == Ties(zs, key, k);
    }
    SameTiesMeanEqual(ys, zs, key);
  }

  lemma {:induction false} SameTiesMeanEqual<T>(ys: seq<T>, zs: seq<T>, key: T -> Key)
    requires Descending(ys, key) && Descending(zs, key) && SameTies(ys, zs, key)
    ensures ys == zs
    decreases |ys|
  {
    if ys != [] || zs != [] {
      HeadsAgree(ys, zs, key);
      forall k ensures Ties(ys[1..], key, k) == Ties(zs[1..], key, k) {
        assert Ties(ys, key, k) == Ties(zs, key, k);
        TiesCons(ys, key, k);
        TiesCons(zs, key, k);
      }
      SameTiesMeanEqual(ys[1..], zs[1..], key);
      assert ys == [ys[0]] + ys[1..] && zs == [zs[0]] + zs[1..];
    }
  }

  lemma HeadsAgree<T>(ys: seq<T>, zs: seq<T>, key: T -> Key)
    requires ys != [] || zs != []
    requires Descending(ys, key) && Descending(zs, key) && SameTies(ys, zs, key)
    ensures ys != [] && zs != [] && ys[0] == zs[0]
  {
    if ys != [] { HeadIsNotAbove(ys, zs, key); }
    if zs != [] { HeadIsNotAbove(zs, ys, key); }
    LessIsTotal(key(ys[0]), key(zs[0]));
    var k := key(ys[0]);
    assert Ties(ys, key, k) == Ties(zs, key, k);
    TiesCons(ys, key, k);
    TiesCons(zs, key, k);
  }

  lemma HeadIsNotAbove<T>(ys: seq<T>, zs: seq<T>, key: T -> Key)
    requires ys != [] && Descending(zs, key) && SameTies(ys, zs, key)
    ensures zs != [] && !Less(key(zs[0]), key(ys[0]))
  {
    assert Ties(ys, key, key(ys[0])) == Ties(zs, key, key(ys[0]));
    assert ys[0] in Ties(ys, key, key(ys[0]));
    var i :| 0 <= i < |zs| && zs[i] == ys[0];
    if i == 0 { LessIsTotal(key(zs[0]), key(ys[0])); }
  }

  /** Sorting neither drops nor repeats anything. */
  lemma {:induction false} RankIsPermutation<T>(s: seq<T>, key: T -> Key)
    ensures multiset(Rank(s, key)) == multiset(s)
  {
    if s != [] {
      RankIsPermutation(s[1..], key);
      InsertIsPermutation(s[0], Rank(s[1..], key), key);
      assert s == [s[0]] + s[1..];
    }
  }

  lemma {:induction false} InsertIsPermutation<T>(x: T, s: seq<T>, key: T -> Key)
    ensures multiset(Insert(x, s, key)) == multiset{x} + multiset(s)
  {
    if s != [] {
      assert s == [s[0]] + s[1..];
      if Less(key(x), key(s[0])) {
        InsertIsPermutation(x, s[1..], key);
      }
    }
  }
}
