/** Replacing a node's key: the node and the core as a protocol with crashes, lost replies, delays and duplicates. */
module Rotation {
  import opened Common

  /** Keys are never generated twice, so a counter stands for a fresh one. */
  type Key = nat

  /** A request signed by both keys: the core, holding `retiring`, is asked to adopt `incoming`. */
  datatype Request = Request(id: nat, retiring: Key, incoming: Key)

  /** Where the node's process is. Everything here is lost in a crash. */
  datatype Process =
    | Idle
    | Chosen(successor: Key)
    | Sent(successor: Key, id: nat)
    | Asking(successor: Key)
    | Answered(successor: Key, held: Option<Key>)
    | Promoting(successor: Key)
    | Written(successor: Key)
    | Ended(code: int)

  /** `live` and `staged` are the node's stores, `core` the key the core holds for it. A request once sent may be
      delivered at any later time and any number of times; `accepted` and `refused` are the requests the core answered. */
  datatype State = State(
    live: Key, staged: Option<Key>, core: Key, process: Process,
    sent: set<Request>, accepted: set<nat>, refused: set<nat>, nextKey: Key, nextId: nat)

  datatype Event =
    | Begin | Post | Deliver(r: Request)
    | ReplyOk | ReplyRefused | ReplyLost
    | Query | QueryLost | Decide
    | WriteLive | DropStaged | DropFails
    | Crash
    // The keychain fails to read while a successor is looked for; the failure is swallowed.
    | BeginBlind

  predicate Enabled(s: State, e: Event) {
    match e
    case Begin => s.process.Idle?
    case BeginBlind => s.process.Idle?
    case Post => s.process.Chosen?
    case Deliver(r) => r in s.sent
    case ReplyOk => s.process.Sent? && s.process.id in s.accepted
    case ReplyRefused => s.process.Sent? && s.process.id in s.refused
    case ReplyLost => s.process.Sent?
    case Query => s.process.Asking?
    case QueryLost => s.process.Asking?
    case Decide => s.process.Answered?
    case WriteLive => s.process.Promoting?
    case DropStaged => s.process.Written?
    case DropFails => s.process.Written?
    case Crash => true
  }

  /** Writes down a fresh successor. */
  function StageFresh(s: State): State {
    s.(staged := Some(s.nextKey), process := Chosen(s.nextKey), nextKey := s.nextKey + 1)
  }

  function Next(s: State, e: Event): State
    requires Enabled(s, e)
  {
    match e
    case Begin => if s.staged.Some? then s.(process := Chosen(s.staged.value)) else StageFresh(s)
    case BeginBlind => StageFresh(s)
    case Post =>
      var k := s.process.successor;
      s.(process := Sent(k, s.nextId), sent := s.sent + {Request(s.nextId, s.live, k)}, nextId := s.nextId + 1)
    case Deliver(r) =>
      if r.retiring == s.core then s.(core := r.incoming, accepted := s.accepted + {r.id}) else s.(refused := s.refused + {r.id})
    case ReplyOk => s.(process := Promoting(s.process.successor))
    case ReplyRefused => s.(process := Asking(s.process.successor))
    case ReplyLost => s.(process := Asking(s.process.successor))
    case Query => s.(process := Answered(s.process.successor, Some(s.core)))
    case QueryLost => s.(process := Answered(s.process.successor, None))
    case Decide =>
      s.(process := if s.process.held == Some(s.process.successor) then Promoting(s.process.successor) else Ended(1))
    case WriteLive => s.(live := s.process.successor, process := Written(s.process.successor))
    case DropStaged => s.(staged := None, process := Ended(0))
    case DropFails => s.(process := Ended(0))
    case Crash => s.(process := Idle)
  }

  /** A paired node: the core holds its live key, nothing is staged, nothing was ever sent. */
  function Paired(key: Key): State {
    State(key, None, key, Idle, {}, {}, {}, key + 1, 0)
  }

  // -------------------------------------------------------------- safety

  /** The node can prove itself to the core: the core's key is the live one or the staged one. */
  predicate Recoverable(s: State) {
    s.core == s.live || s.staged == Some(s.core)
  }

  /** Neither store has the key, and as new keys are fresh neither ever will. */
  predicate Retired(s: State, k: Key) {
    k < s.nextKey && k != s.live && s.staged != Some(k)
  }

  /** A request in flight maps a key to itself, asks for the staged key in place of the live one, or is stale for ever. */
  predicate Harmless(s: State, r: Request) {
    r.retiring == r.incoming || (r.retiring == s.live && s.staged == Some(r.incoming)) || Retired(s, r.retiring)
  }

  predicate KnownKeys(s: State) {
    && s.live < s.nextKey && s.core < s.nextKey && (s.staged.Some? ==> s.staged.value < s.nextKey)
    && (forall id | id in s.accepted :: id < s.nextId) && (forall id | id in s.refused :: id < s.nextId)
  }

  /** What the process has concluded is true. */
  ghost predicate Informed(s: State) {
    match s.process
    case Idle => true
    case Ended(_) => true
    case Chosen(k) => s.staged == Some(k)
    case Sent(k, id) =>
      && s.staged == Some(k) && id < s.nextId && Request(id, s.live, k) in s.sent
      && (forall r | r in s.sent && r.id == id :: r.retiring == s.live && r.incoming == k)
      && (id in s.accepted || id in s.refused ==> s.core == k)
    case Asking(k) => s.staged == Some(k)
    case Answered(k, held) => s.staged == Some(k) && (held == Some(k) ==> s.core == k)
    case Promoting(k) => s.staged == Some(k) && s.core == k
    case Written(k) => s.staged == Some(k) && s.core == k && s.live == k
  }

  /** Requests sent stay harmless, and those in flight that ask for the core's key stay in flight. */
  ghost predicate Covered(s: State) {
    && (forall r | r in s.sent :: Harmless(s, r) && r.retiring < s.nextKey && r.incoming < s.nextKey && r.id < s.nextId)
    && (s.core != s.live ==> exists r | r in s.sent :: r.retiring == s.live && r.incoming == s.core)
  }

  ghost predicate Inv(s: State) {
    && Recoverable(s) && KnownKeys(s) && Informed(s) && Covered(s)
  }

  lemma DeliverKeepsInv(s: State, r: Request)
    requires Inv(s) && Enabled(s, Deliver(r))
    ensures Inv(Next(s, Deliver(r)))
  {
    var t := Next(s, Deliver(r));
    assert Harmless(s, r);
    forall q | q in t.sent ensures Harmless(t, q) {
      assert Harmless(s, q);
    }
    assert Covered(t) by {
      if t.core != t.live && t.core == s.core {
        var q :| q in s.sent && q.retiring == s.live && q.incoming == s.core;
        assert q in t.sent;
      }
    }
  }

  /** A step of the node that leaves its stores, the core and the requests as they are. */
  lemma QuietKeepsInv(s: State, t: State)
    requires Inv(s) && t == s.(process := t.process) && Informed(t)
    ensures Inv(t)
  {
    forall r | r in t.sent ensures Harmless(t, r) {
      assert Harmless(s, r);
    }
    if t.core != t.live {
      var r :| r in s.sent && r.retiring == s.live && r.incoming == s.core;
      assert r in t.sent;
    }
  }

  lemma StoreKeepsInv(s: State, e: Event)
    requires Inv(s) && Enabled(s, e) && (e.Begin? || e.Post? || e.WriteLive? || e.DropStaged?)
    ensures Inv(Next(s, e))
  {
    var t := Next(s, e);
    forall r | r in t.sent ensures Harmless(t, r) {
      if r in s.sent { assert Harmless(s, r); }
    }
    if t.core != t.live && s.core != s.live {
      var r :| r in s.sent && r.retiring == s.live && r.incoming == s.core;
      assert r in t.sent;
    }
  }

  lemma NextKeepsInv(s: State, e: Event)
    requires Inv(s) && Enabled(s, e) && !e.BeginBlind?
    ensures Inv(Next(s, e))
  {
    if e.Deliver? {
      DeliverKeepsInv(s, e.r);
    } else if e.Begin? || e.Post? || e.WriteLive? || e.DropStaged? {
      StoreKeepsInv(s, e);
    } else {
      QuietKeepsInv(s, Next(s, e));
    }
  }

  ghost predicate CanRun(s: State, es: seq<Event>)
    decreases |es|
  {
    es != [] ==> Enabled(s, es[0]) && CanRun(Next(s, es[0]), es[1..])
  }

  function End(s: State, es: seq<Event>): State
    requires CanRun(s, es)
    decreases |es|
  {
    if es == [] then s else End(Next(s, es[0]), es[1..])
  }

  /** Every key the node ever generates while it can read its store: no step finds it blind. */
  ghost predicate Sighted(es: seq<Event>) {
    forall e | e in es :: !e.BeginBlind?
  }

  lemma {:induction false} RunKeepsInv(s: State, es: seq<Event>)
    requires Inv(s) && CanRun(s, es) && Sighted(es)
    ensures Inv(End(s, es))
    decreases |es|
  {
    if es != [] {
      NextKeepsInv(s, es[0]);
      hide Inv, Next, Enabled;
      RunKeepsInv(Next(s, es[0]), es[1..]);
    }
  }

  /** However requests and replies are lost, delayed and repeated, and wherever the node crashes, it keeps the core's key. */
  lemma NeverLockedOut(key: Key, es: seq<Event>)
    requires CanRun(Paired(key), es) && Sighted(es)
    ensures Recoverable(End(Paired(key), es))
    ensures forall r | r in End(Paired(key), es).sent :: Harmless(End(Paired(key), es), r)
  {
    RunKeepsInv(Paired(key), es);
  }

  // -------------------------------------------------------------- recovery

  /** No crash, nothing lost, nothing unreadable; old requests may still arrive whenever they like. */
  ghost predicate LossFree(es: seq<Event>) {
    forall e | e in es :: !e.Crash? && !e.ReplyLost? && !e.QueryLost? && !e.DropFails? && !e.BeginBlind?
  }

  /** What a loss-free rotation adds to the invariant. */
  ghost predicate Succeeding(s: State) {
    && Inv(s)
    && (s.process.Asking? ==> s.core == s.process.successor)
    && (s.process.Answered? ==> s.process.held == Some(s.process.successor))
    && (s.process.Ended? ==> s.process.code == 0 && s.live == s.core && s.staged == None)
  }

  lemma NextKeepsSucceeding(s: State, e: Event)
    requires Succeeding(s) && Enabled(s, e) && LossFree([e])
    ensures Succeeding(Next(s, e))
  {
    assert e in [e];
    NextKeepsInv(s, e);
    if e.Deliver? {
      assert Harmless(s, e.r);
    }
  }

  lemma {:induction false} RunKeepsSucceeding(s: State, es: seq<Event>)
    requires Succeeding(s) && CanRun(s, es) && LossFree(es)
    ensures Succeeding(End(s, es))
    decreases |es|
  {
    if es != [] {
      NextKeepsSucceeding(s, es[0]);
      hide Succeeding, Next, Enabled;
      RunKeepsSucceeding(Next(s, es[0]), es[1..]);
    }
  }

  /** From any reachable state, one uninterrupted and loss-free rotation that ends has returned 0, with the core's key
      live and nothing staged, whatever earlier attempts left behind. */
  lemma RotationRecovers(key: Key, history: seq<Event>, es: seq<Event>)
    requires CanRun(Paired(key), history) && Sighted(history)
    requires var s := End(Paired(key), history).(process := Idle); CanRun(s, es) && LossFree(es) && End(s, es).process.Ended?
    ensures var t := End(End(Paired(key), history).(process := Idle), es);
            t.process == Ended(0) && t.live == t.core && t.staged == None
  {
    RunKeepsInv(Paired(key), history);
    var s := End(Paired(key), history);
    NextKeepsInv(s, Crash);
    RunKeepsSucceeding(s.(process := Idle), es);
  }

  /** How many steps an undisturbed rotation still takes. */
  function StepsLeft(s: State): nat {
    match s.process
    case Idle => 9
    case Chosen(_) => 8
    case Sent(_, id) => if id in s.accepted || id in s.refused then 6 else 7
    case Asking(_) => 5
    case Answered(_, _) => 4
    case Promoting(_) => 3
    case Written(_) => 2
    case Ended(_) => 0
  }

  /** And such a rotation can always be carried to its end. */
  lemma {:induction false} RotationCanEnd(s: State) returns (es: seq<Event>)
    requires Succeeding(s)
    ensures CanRun(s, es) && LossFree(es) && End(s, es).process.Ended? && |es| <= StepsLeft(s)
    decreases StepsLeft(s)
  {
    if s.process.Ended? {
      return [];
    }
    var e :=
      match s.process
      case Idle => Begin
      case Chosen(_) => Post
      case Sent(k, id) =>
        if id in s.accepted then ReplyOk else if id in s.refused then ReplyRefused else Deliver(Request(id, s.live, k))
      case Asking(_) => Query
      case Answered(_, _) => Decide
      case Promoting(_) => WriteLive
      case _ => DropStaged;
    NextKeepsSucceeding(s, e);
    var rest := RotationCanEnd(Next(s, e));
    es := [e] + rest;
    assert es[1..] == rest;
  }

  // -------------------------------------------------------------- staging without being able to read

  /** No later run can lock the node out. */
  ghost predicate SafeForEver(s: State) {
    forall es | CanRun(s, es) && Sighted(es) :: Recoverable(End(s, es))
  }

  /** A keychain read that fails while a successor is looked for overwrites the staged key. The node stays recoverable
      for ever if and only if the overwritten key was never asked for, or was already the live one. */
  lemma BlindStagingIsSafeIffNeverAsked(s: State)
    requires Inv(s) && s.process.Idle?
    ensures SafeForEver(Next(s, BeginBlind)) <==>
              !(s.staged.Some? && s.staged.value != s.live &&
                exists r | r in s.sent :: r.retiring == s.live && r.incoming == s.staged.value)
  {
    var t := Next(s, BeginBlind);
    if r :| r in s.sent && r.retiring == s.live && s.staged == Some(r.incoming) && r.incoming != s.live {
      var es: seq<Event> := if s.core == r.incoming then [] else [Deliver(r)];
      assert s.core != r.incoming ==> es[1..] == [] && Enabled(t, es[0]);
      assert CanRun(t, es) && Sighted(es);
      assert !Recoverable(End(t, es));
    } else {
      forall r | r in t.sent ensures Harmless(t, r) {
        assert Harmless(s, r);
      }
      assert Inv(t);
      forall es | CanRun(t, es) && Sighted(es) ensures Recoverable(End(t, es)) {
        RunKeepsInv(t, es);
      }
    }
  }

  /** And it happens: the core adopts the staged key, the node restarts before it hears so, and the key it now has to
      find cannot be read. */
  lemma BlindStagingLocksOut(key: Key)
    ensures var es := [Begin, Post, Deliver(Request(0, key, key + 1)), Crash, BeginBlind];
            CanRun(Paired(key), es) && !Recoverable(End(Paired(key), es))
  {
    var adopt := Deliver(Request(0, key, key + 1));
    var a := Next(Paired(key), Begin);
    var b := Next(a, Post);
    var c := Next(b, adopt);
    var d := Next(c, Crash);
    assert [Begin, Post, adopt, Crash, BeginBlind][1..] == [Post, adopt, Crash, BeginBlind];
    assert [Post, adopt, Crash, BeginBlind][1..] == [adopt, Crash, BeginBlind];
    assert [adopt, Crash, BeginBlind][1..] == [Crash, BeginBlind] && [Crash, BeginBlind][1..] == [BeginBlind];
    assert [BeginBlind][1..] == [];
    hide Recoverable;
    assert CanRun(d, [BeginBlind]) && End(d, [BeginBlind]) == Next(d, BeginBlind);
    assert CanRun(c, [Crash, BeginBlind]) && End(c, [Crash, BeginBlind]) == Next(d, BeginBlind);
    assert CanRun(b, [adopt, Crash, BeginBlind]) && End(b, [adopt, Crash, BeginBlind]) == Next(d, BeginBlind);
    assert CanRun(a, [Post, adopt, Crash, BeginBlind]);
    assert !Recoverable(Next(d, BeginBlind)) by { LockedOut(key); }
  }

  lemma LockedOut(key: Key)
    ensures var c := Next(Next(Next(Paired(key), Begin), Post), Deliver(Request(0, key, key + 1)));
            !Recoverable(Next(Next(c, Crash), BeginBlind))
  {
  }
}
