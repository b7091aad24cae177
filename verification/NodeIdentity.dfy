/** The node's key stores, and one `--rotate-key` run over them. */
module NodeIdentity {
  import opened Common
  import opened Rotation

  const KEY_ACCOUNT := "node-identity"
  const PENDING_KEY_ACCOUNT := "node-identity-pending"

  class Identity {
    const keychainAvailable: bool
    var keychain: map<string, Key>
    var keyFile: Option<Key>
    var pendingFile: Option<Key>
    var cached: Option<Key>
    /** The fingerprint recorded with the pairing, when there is one. */
    var pairing: Option<Key>
    var nextKey: Key

    /** The identity on disk: the keychain's entry where there is a keychain, the file's otherwise or until it is moved. */
    function Stored(): Option<Key>
      reads this
    {
      if keychainAvailable && KEY_ACCOUNT in keychain then Some(keychain[KEY_ACCOUNT]) else keyFile
    }

    function Staged(): Option<Key>
      reads this
    {
      if keychainAvailable && PENDING_KEY_ACCOUNT in keychain then Some(keychain[PENDING_KEY_ACCOUNT]) else pendingFile
    }

    ghost predicate Valid()
      reads this
    {
      && (cached.Some? ==> Stored() == cached)
      && (keychainAvailable ==> pendingFile.None?)
      && (Stored().Some? ==> Stored().value < nextKey) && (Staged().Some? ==> Staged().value < nextKey)
    }

    constructor (keychainAvailable: bool)
      ensures Valid() && Stored() == None && Staged() == None && pairing == None
      ensures this.keychainAvailable == keychainAvailable
    {
      this.keychainAvailable := keychainAvailable;
      keychain, keyFile, pendingFile, cached, pairing, nextKey := map[], None, None, None, None, 0;
    }

    method Generate() returns (key: Key)
      requires Valid()
      modifies this`nextKey
      ensures Valid() && key == old(nextKey) && nextKey == key + 1
    {
      key := nextKey;
      nextKey := nextKey + 1;
    }

    /** The node's key, made on first use. A key that already exists is kept, and only moved between stores. */
    method GetKey() returns (key: Key)
      requires Valid()
      modifies this
      ensures Valid() && Stored() == Some(key) && cached == Some(key)
      ensures old(Stored()).Some? ==> key == old(Stored()).value
      ensures old(Stored()).None? ==> key == old(nextKey)
      ensures nextKey == if old(Stored()).Some? then old(nextKey) else old(nextKey) + 1
      ensures Staged() == old(Staged()) && pairing == old(pairing)
    {
      if cached.Some? {
        return cached.value;
      }
      if keychainAvailable && KEY_ACCOUNT in keychain {
        key := keychain[KEY_ACCOUNT];
      } else if keychainAvailable {
        key := AdoptOrGenerate();
      } else if keyFile.Some? {
        key := keyFile.value;
      } else {
        key := Generate();
        keyFile := Some(key);
      }
      cached := Some(key);
    }

    /** Moves a file key into the keychain, or makes one there; the file goes only after the keychain holds the key. */
    method AdoptOrGenerate() returns (key: Key)
      requires Valid() && keychainAvailable && KEY_ACCOUNT !in keychain && cached.None?
      modifies this
      ensures Valid() && Stored() == Some(key) && cached == old(cached) && keychainAvailable
      ensures old(keyFile).Some? ==> key == old(keyFile).value && keyFile.None?
      ensures old(keyFile).None? ==> key == old(nextKey)
      ensures nextKey == if old(keyFile).Some? then old(nextKey) else old(nextKey) + 1
      ensures Staged() == old(Staged()) && pairing == old(pairing)
    {
      var moving := keyFile.Some?;
      if moving {
        key := keyFile.value;
      } else {
        key := Generate();
      }
      keychain := keychain[KEY_ACCOUNT := key];
      if moving {
        keyFile := None;
      }
    }

    /** The successor, written down before the core is asked; one already staged is used again. */
    method StagePending() returns (key: Key)
      requires Valid()
      modifies this
      ensures Valid() && Staged() == Some(key)
      ensures old(Staged()).Some? ==> key == old(Staged()).value
      ensures old(Staged()).None? ==> key == old(nextKey)
      ensures nextKey == if old(Staged()).Some? then old(nextKey) else old(nextKey) + 1
      ensures Stored() == old(Stored()) && cached == old(cached) && pairing == old(pairing)
    {
      if Staged().Some? {
        return Staged().value;
      }
      key := Generate();
      if keychainAvailable {
        keychain := keychain[PENDING_KEY_ACCOUNT := key];
      } else {
        pendingFile := Some(key);
      }
    }

    /** Makes the staged key the identity and clears the stage; without one nothing changes. A keychain may fail to delete
        and nobody is told; the key then stays staged. */
    method PromotePending(deleteFails: bool) returns (r: Result<Key, string>)
      requires Valid()
      modifies this
      ensures Valid() && (r.Ok? <==> old(Staged()).Some?) && nextKey == old(nextKey)
      ensures r.Ok? ==>
                && r.value == old(Staged()).value && Stored() == Some(r.value) && cached == Some(r.value)
                && Staged() == (if keychainAvailable && deleteFails then Some(r.value) else None)
                && pairing == if old(pairing).Some? then Some(r.value) else None
      ensures r.Err? ==> Stored() == old(Stored()) && Staged() == None && cached == old(cached) && pairing == old(pairing)
    {
      if Staged().None? {
        return Err("there is no staged key to promote");
      }
      var key := Staged().value;
      if keychainAvailable {
        keychain := keychain[KEY_ACCOUNT := key];
        if !deleteFails {
          keychain := keychain - {PENDING_KEY_ACCOUNT};
        }
      } else {
        keyFile := Some(key);
        pendingFile := None;
      }
      cached := Some(key);
      if pairing.Some? {
        pairing := Some(key);
      }
      return Ok(key);
    }
  }

  /** The core's side: it adopts the incoming key of a doubly signed request only when it holds the retiring one. */
  class Core {
    var key: Key

    constructor (key: Key)
      ensures this.key == key
    {
      this.key := key;
    }

    method Rotate(r: Request) returns (ok: bool)
      modifies this
      ensures ok <==> old(key) == r.retiring
      ensures key == if ok then r.incoming else old(key)
    {
      ok := key == r.retiring;
      if ok {
        key := r.incoming;
      }
    }
  }

  /** The core holds a key the node could prove itself with. */
  predicate Proves(identity: Identity, core: Core)
    reads identity, core
  {
    identity.Stored() == Some(core.key) || identity.Staged() == Some(core.key)
  }

  /** `s` is the protocol's view of these stores. */
  ghost predicate Mirrors(s: State, identity: Identity, core: Core)
    reads identity, core
  {
    && identity.Stored() == Some(s.live) && identity.Staged() == s.staged && core.key == s.core
    && identity.nextKey == s.nextKey
  }

  /** The events lead from `s` to `t`, and none of them finds the store unreadable. */
  ghost predicate Goes(s: State, es: seq<Event>, t: State) {
    CanRun(s, es) && Sighted(es) && End(s, es) == t
  }

  lemma {:induction false} GoesOn(s: State, es: seq<Event>, t: State, e: Event)
    requires Goes(s, es, t) && Enabled(t, e) && !e.BeginBlind?
    ensures Goes(s, es + [e], Next(t, e))
    decreases |es|
  {
    hide Enabled, Next;
    if es == [] {
      assert es + [e] == [e] && [e][1..] == [];
      assert CanRun(Next(t, e), []) && End(Next(t, e), []) == Next(t, e);
    } else {
      assert (es + [e])[1..] == es[1..] + [e];
      assert Sighted(es[1..]);
      GoesOn(Next(s, es[0]), es[1..], t, e);
    }
  }

  lemma GoesNowhere(s: State)
    ensures Goes(s, [], s)
  {
  }

  lemma Then(s: State, es: seq<Event>, t: State, e: Event) returns (es': seq<Event>, t': State)
    requires Goes(s, es, t) && Enabled(t, e) && !e.BeginBlind?
    ensures es' == es + [e] && t' == Next(t, e) && Goes(s, es', t')
  {
    GoesOn(s, es, t, e);
    es', t' := es + [e], Next(t, e);
  }

  lemma Promoted(s: State, es: seq<Event>, t: State, deleteFails: bool) returns (es': seq<Event>, t': State)
    requires Goes(s, es, t) && t.process.Promoting?
    ensures Goes(s, es', t')
    ensures t' == t.(live := t.process.successor, staged := if deleteFails then t.staged else None, process := Ended(0))
  {
    es', t' := Then(s, es, t, WriteLive);
    es', t' := Then(s, es', t', if deleteFails then DropFails else DropStaged);
  }

  /** What the command does to the protocol's state when these messages are lost. */
  function AfterCommand(s: State, lostRequest: bool, lostReply: bool, lostQuery: bool, deleteFails: bool): State {
    var k := if s.staged.Some? then s.staged.value else s.nextKey;
    var accepted := !lostRequest && s.core == s.live;
    var core := if accepted then k else s.core;
    var won := (accepted && !lostReply) || (!lostQuery && core == k);
    State(
      if won then k else s.live, if won && !deleteFails then None else Some(k), core, Ended(if won then 0 else 1),
      s.sent + {Request(s.nextId, s.live, k)},
      if accepted then s.accepted + {s.nextId} else s.accepted,
      if !lostRequest && !accepted then s.refused + {s.nextId} else s.refused,
      if s.staged.Some? then s.nextKey else s.nextKey + 1, s.nextId + 1)
  }

  /** And that it is a run of the protocol. */
  lemma CommandIsARun(s: State, lostRequest: bool, lostReply: bool, lostQuery: bool, deleteFails: bool)
    returns (es: seq<Event>)
    requires s.process.Idle?
    ensures Goes(s, es, AfterCommand(s, lostRequest, lostReply, lostQuery, deleteFails))
  {
    hide Goes;
    GoesNowhere(s);
    var t;
    es, t := Then(s, [], s, Begin);
    var k := t.process.successor;
    es, t := Then(s, es, t, Post);
    var accepted := !lostRequest && s.core == s.live;
    if !lostRequest {
      es, t := Then(s, es, t, Deliver(Request(s.nextId, s.live, k)));
    }
    if accepted && !lostReply {
      es, t := Then(s, es, t, ReplyOk);
      es, t := Promoted(s, es, t, deleteFails);
    } else {
      es, t := Then(s, es, t, if !lostRequest && !accepted && !lostReply then ReplyRefused else ReplyLost);
      es, t := Then(s, es, t, if lostQuery then QueryLost else Query);
      es, t := Then(s, es, t, Decide);
      if !lostQuery && t.core == k {
        es, t := Promoted(s, es, t, deleteFails);
      }
    }
    assert t == AfterCommand(s, lostRequest, lostReply, lostQuery, deleteFails);
  }

  /** What is lost during one run of the command. */
  datatype Losses = Losses(request: bool, reply: bool, query: bool, delete: bool)

  /** The command run again and again, each time as a new process. */
  function AfterCommands(s: State, losses: seq<Losses>): State {
    if losses == [] then s
    else
      var l := losses[|losses| - 1];
      AfterCommand(AfterCommands(s, losses[..|losses| - 1]), l.request, l.reply, l.query, l.delete).(process := Idle)
  }

  /** Run as often as you like, whatever is lost each time, the command leaves the node able to prove itself. */
  lemma {:induction false} CommandsNeverLockOut(s: State, losses: seq<Losses>)
    requires Inv(s) && s.process.Idle?
    ensures var t := AfterCommands(s, losses); Inv(t) && t.process.Idle? && Recoverable(t)
  {
    hide *;
    if losses == [] {
      InvIsRecoverable(s);
    } else {
      var before, l := losses[..|losses| - 1], losses[|losses| - 1];
      CommandsNeverLockOut(s, before);
      OneCommandKeepsInv(AfterCommands(s, before), l);
    }
    AfterCommandsLast(s, losses);
  }

  lemma AfterCommandsLast(s: State, losses: seq<Losses>)
    ensures losses == [] ==> AfterCommands(s, losses) == s
    ensures losses != [] ==>
              var l := losses[|losses| - 1];
              AfterCommands(s, losses) ==
              AfterCommand(AfterCommands(s, losses[..|losses| - 1]), l.request, l.reply, l.query, l.delete).(process := Idle)
  {
  }

  lemma InvIsRecoverable(s: State)
    requires Inv(s)
    ensures Recoverable(s)
  {
  }

  lemma OneCommandKeepsInv(s: State, l: Losses)
    requires Inv(s) && s.process.Idle?
    ensures var t := AfterCommand(s, l.request, l.reply, l.query, l.delete).(process := Idle); Inv(t) && Recoverable(t)
  {
    var es := CommandIsARun(s, l.request, l.reply, l.query, l.delete);
    hide AfterCommand;
    RunKeepsInv(s, es);
    NextKeepsInv(End(s, es), Crash);
  }

  /** One run of the rotation command, any of its messages lost or not. It is a run of the protocol: `s` is the protocol's
      view of the stores before and `es` leads to its view of them after, so that what is proved of the protocol's runs holds
      of the stores. */
  method RotateKey(
      identity: Identity, core: Core, lostRequest: bool, lostReply: bool, lostQuery: bool, deleteFails: bool, ghost s: State)
    returns (code: int, ghost es: seq<Event>)
    requires identity.Valid() && identity.Stored().Some?
    requires Mirrors(s, identity, core) && s.process.Idle?
    modifies identity, core
    ensures identity.Valid() && identity.Stored().Some?
    ensures old(identity.pairing).None? ==>
              code == 1 && identity.Stored() == old(identity.Stored()) && identity.Staged() == old(identity.Staged()) && core.key == old(core.key)
    // It is a run of the protocol.
    ensures CanRun(s, es) && Sighted(es) && Mirrors(End(s, es), identity, core)
    ensures End(s, es).process == if old(identity.pairing).Some? then Ended(code) else Idle
    // Safe, whatever was lost.
    ensures old(Proves(identity, core)) ==> Proves(identity, core)
    ensures code == 0 || code == 1
    ensures code == 0 ==>
              && identity.Stored() == Some(core.key) && identity.pairing == Some(core.key)
              && identity.Staged() == (if identity.keychainAvailable && deleteFails then Some(core.key) else None)
    ensures code == 1 ==> identity.Stored() == old(identity.Stored())
    ensures code == 1 && old(identity.pairing).Some? ==> identity.Staged().Some?
    // One run whose request and question arrive recovers, even when the reply to the request is lost.
    ensures old(identity.pairing).Some? && old(Proves(identity, core)) && !lostRequest && !lostQuery ==> code == 0
    // A reply lost earlier needs only the question.
    ensures old(identity.pairing).Some? && old(identity.Staged()) == Some(old(core.key)) && !lostQuery ==> code == 0
  {
    hide CanRun, Sighted, End;
    es := [];
    if identity.pairing.None? {
      assert Goes(s, es, s) by { GoesNowhere(s); }
      return 1, es;
    }
    es := CommandIsARun(s, lostRequest, lostReply, lostQuery, identity.keychainAvailable && deleteFails);
    var successor := identity.StagePending();
    var live := identity.GetKey();
    if !lostRequest {
      var accepted := core.Rotate(Request(0, live, successor));
      if accepted && !lostReply {
        var promoted := identity.PromotePending(deleteFails);
        return 0, es;
      }
    }
    // The core refused, or nothing was heard: ask it what it holds.
    if !lostQuery && core.key == successor {
      var promoted := identity.PromotePending(deleteFails);
      return 0, es;
    }
    return 1, es;
  }
}
