/** The canvas of the workflow builder and the rule it means, converted both ways. */
module Workflow {
  import opened Common
  import opened Rules
  import Cron

  datatype NodeKind = TriggerNode | ConditionNode | ActionNode

  datatype Node = Node(id: string, kind: NodeKind, subkind: string, config: map<string, Value>)

  datatype Canvas = Canvas(
    name: string, nodes: seq<Node>, order: seq<string>, followUpFrom: Option<int>, enabled: bool,
    automationId: Option<Id>, priority: Priority, budget: Budget)

  datatype Fault =
    | NoName | NoTrigger | ManyTriggers | NoAction | FollowUpOutside
    | UnknownTrigger | NoRunner | BadCron | NoEventKind
    | UnknownOperator | NoField | NotANumber | NotAList
    | UnknownAction | NoToolName | NoTitle

  /** `node` is empty for a fault of the whole canvas. */
  datatype Problem = Problem(node: string, fault: Fault)

  /** Only a missing notification title is a warning. */
  predicate IsError(p: Problem) { !p.fault.NoTitle? }

  // -------------------------------------------------------------- text

  function TrimLeft(s: string): (t: string)
    ensures t == "" || !Cron.IsSpace(t[0])
    ensures |t| <= |s| && s[|s| - |t|..] == t
  {
    if s != "" && Cron.IsSpace(s[0]) then TrimLeft(s[1..]) else s
  }

  function TrimRight(s: string): (t: string)
    ensures t == "" || !Cron.IsSpace(t[|t| - 1])
    ensures t <= s
  {
    if s != "" && Cron.IsSpace(s[|s| - 1]) then TrimRight(s[..|s| - 1]) else s
  }

  /** `text.strip()` */
  function Strip(s: string): (t: string)
    ensures t == "" || (!Cron.IsSpace(t[0]) && !Cron.IsSpace(t[|t| - 1]))
  {
    TrimRight(TrimLeft(s))
  }

  lemma TrimmedStays(t: string)
    requires t == "" || (!Cron.IsSpace(t[0]) && !Cron.IsSpace(t[|t| - 1]))
    ensures TrimLeft(t) == t && TrimRight(t) == t
  {
  }

  lemma StripTwice(s: string)
    ensures Strip(Strip(s)) == Strip(s)
  {
    hide TrimLeft, TrimRight;
    TrimmedStays(Strip(s));
  }

  // -------------------------------------------------------------- the nodes

  function Get(config: map<string, Value>, key: string): Value {
    if key in config then config[key] else Null
  }

  /** `str(config.get(key) or "")` */
  function TextOf(config: map<string, Value>, key: string): string {
    if Truthy(Get(config, key)) then Shown(Get(config, key)) else ""
  }

  /** A setting is read as its text, and as nothing when it is missing, null or false. */
  lemma SettingRead(config: map<string, Value>, key: string)
    ensures key !in config || config[key] == Null ==> TextOf(config, key) == ""
    ensures key in config && config[key].Text? ==> TextOf(config, key) == config[key].text
    ensures key in config && config[key].Other? ==> TextOf(config, key) == if config[key].truthy then config[key].shown else ""
  {
  }

  predicate Blank(s: string) { Strip(s) == "" }

  function OfKind(kind: NodeKind): Node -> bool {
    (n: Node) => n.kind == kind
  }

  function NodesOf(w: Canvas, kind: NodeKind): seq<Node> {
    Filter(w.nodes, OfKind(kind))
  }

  function Ids(nodes: seq<Node>): (ids: seq<string>)
    ensures |ids| == |nodes| && forall i | 0 <= i < |nodes| :: ids[i] == nodes[i].id
  {
    seq(|nodes|, i requires 0 <= i < |nodes| => nodes[i].id)
  }

  /** The first occurrences, in order. */
  function FirstMentions<T(==, !new)>(s: seq<T>): (r: seq<T>)
    ensures NoRepeats(r)
    ensures forall x :: x in r <==> x in s
  {
    if s == [] then []
    else
      var front := FirstMentions(s[..|s| - 1]);
      if s[|s| - 1] in front then front else front + [s[|s| - 1]]
  }

  function In<T(==)>(s: seq<T>): T -> bool {
    (x: T) => x in s
  }

  function NotIn<T(==)>(s: seq<T>): T -> bool {
    (x: T) => x !in s
  }

  lemma {:induction false} FirstMentionsConcat<T(!new)>(a: seq<T>, b: seq<T>)
    ensures FirstMentions(a + b) == FirstMentions(a) + Filter(FirstMentions(b), NotIn(a))
  {
    if b == [] {
      assert a + b == a;
    } else {
      var x, front := b[|b| - 1], b[..|b| - 1];
      assert (a + b)[..|a + b| - 1] == a + front;
      FirstMentionsConcat(a, front);
      if x !in FirstMentions(front) {
        assert (FirstMentions(front) + [x])[..|FirstMentions(front)|] == FirstMentions(front);
      }
    }
  }

  lemma {:induction false} FirstMentionsOfNoRepeats<T(!new)>(s: seq<T>)
    requires NoRepeats(s)
    ensures FirstMentions(s) == s
  {
    if s != [] {
      FirstMentionsOfNoRepeats(s[..|s| - 1]);
    }
  }

  /** The last of `nodes` with this id: what a dictionary filled in order holds. */
  function LastWith(nodes: seq<Node>, id: string): (n: Node)
    requires id in Ids(nodes)
    ensures n in nodes && n.id == id
  {
    if nodes[|nodes| - 1].id == id then nodes[|nodes| - 1]
    else
      assert Ids(nodes)[..|nodes| - 1] == Ids(nodes[..|nodes| - 1]);
      LastWith(nodes[..|nodes| - 1], id)
  }

  lemma {:induction false} OnlyOneIsLast(nodes: seq<Node>, i: nat)
    requires NoRepeats(Ids(nodes)) && i < |nodes|
    ensures LastWith(nodes, nodes[i].id) == nodes[i]
  {
    assert nodes[i].id == Ids(nodes)[i];
    if i < |nodes| - 1 {
      assert Ids(nodes)[|nodes| - 1] == nodes[|nodes| - 1].id;
      assert Ids(nodes)[..|nodes| - 1] == Ids(nodes[..|nodes| - 1]);
      OnlyOneIsLast(nodes[..|nodes| - 1], i);
    }
  }

  // -------------------------------------------------------------- the action order

  /** The ids in running order: those the owner arranged, at their first mention, then the others as they were drawn. */
  function RunningOrder(w: Canvas): seq<string> {
    var ids := Ids(NodesOf(w, ActionNode));
    FirstMentions(Filter(w.order, In(ids)) + ids)
  }

  /** `r` is one node for each action id, in running order; of several nodes with one id it is the last. */
  ghost predicate IsArrangement(w: Canvas, r: seq<Node>) {
    && Ids(r) == RunningOrder(w)
    && forall i | 0 <= i < |r| ::
         r[i].id in Ids(NodesOf(w, ActionNode)) && r[i] == LastWith(NodesOf(w, ActionNode), r[i].id)
  }

  function Arrangement(w: Canvas): (r: seq<Node>)
    ensures IsArrangement(w, r)
  {
    var nodes, ids := NodesOf(w, ActionNode), RunningOrder(w);
    assert forall i | 0 <= i < |ids| :: ids[i] in Ids(nodes) by {
      assert forall i | 0 <= i < |ids| :: ids[i] in ids;
    }
    seq(|ids|, i requires 0 <= i < |ids| => LastWith(nodes, ids[i]))
  }

  lemma ArrangementIsUnique(w: Canvas, a: seq<Node>, b: seq<Node>)
    requires IsArrangement(w, a) && IsArrangement(w, b)
    ensures a == b
  {
    forall i | 0 <= i < |a| ensures i < |b| && a[i] == b[i] {
      assert Ids(a)[i] == Ids(b)[i];
    }
  }

  method ById(actions: seq<Node>) returns (byId: map<string, Node>, keys: seq<string>)
    ensures keys == FirstMentions(Ids(actions))
    ensures byId.Keys == set id | id in keys
    ensures forall id | id in Ids(actions) :: byId[id] == LastWith(actions, id)
  {
    byId, keys := map[], [];
    for i := 0 to |actions|
      invariant keys == FirstMentions(Ids(actions[..i]))
      invariant forall id :: id in byId <==> id in keys
      invariant forall id | id in Ids(actions[..i]) :: byId[id] == LastWith(actions[..i], id)
    {
      var n := actions[i];
      assert actions[..i + 1] == actions[..i] + [n];
      assert Ids(actions[..i + 1]) == Ids(actions[..i]) + [n.id];
      assert Ids(actions[..i + 1])[..i] == Ids(actions[..i]);
      if n.id !in byId {
        keys := keys + [n.id];
      }
      byId := byId[n.id := n];
      assert actions[..i + 1][..i] == actions[..i];
    }
    assert actions[..|actions|] == actions;
  }

  ghost predicate Holds(byId: map<string, Node>, nodes: seq<Node>) {
    forall n | n in nodes :: n.id in byId && n == byId[n.id]
  }

  /** The dictionary without the keys taken out of it. */
  ghost predicate LeftOf(left: map<string, Node>, byId: map<string, Node>, taken: seq<string>) {
    (forall id :: id in left <==> id in byId && id !in taken) && forall id | id in left :: left[id] == byId[id]
  }

  lemma TakeOut(left: map<string, Node>, byId: map<string, Node>, taken: seq<string>, id: string)
    requires LeftOf(left, byId, taken) && id in left
    ensures id in byId && id !in taken && left[id] == byId[id] && LeftOf(left - {id}, byId, taken + [id])
  {
  }

  lemma NotLeft(left: map<string, Node>, byId: map<string, Node>, taken: seq<string>, id: string)
    requires LeftOf(left, byId, taken) && id !in left
    ensures id in byId ==> id in taken
  {
  }

  lemma NothingTaken(order: seq<string>, byId: map<string, Node>)
    ensures Ids([]) == FirstMentions(Filter(order[..0], InMap(byId))) == []
    ensures LeftOf(byId, byId, []) && Holds(byId, [])
  {
  }

  lemma HoldsOneMore(byId: map<string, Node>, r: seq<Node>, n: Node)
    requires Holds(byId, r) && n.id in byId && n == byId[n.id]
    ensures Holds(byId, r + [n]) && Ids(r + [n]) == Ids(r) + [n.id]
  {
  }

  /** The nodes `order` mentions, each taken out of the dictionary when it is mentioned first. */
  method TakeOrdered(order: seq<string>, byId: map<string, Node>)
    returns (r: seq<Node>, left: map<string, Node>)
    requires forall id | id in byId :: byId[id].id == id
    ensures Ids(r) == FirstMentions(Filter(order, InMap(byId)))
    ensures LeftOf(left, byId, Ids(r))
    ensures Holds(byId, r)
  {
    hide FirstMentions, Filter, LeftOf, Holds, Ids;
    left, r := byId, [];
    NothingTaken(order, byId);
    for i := 0 to |order|
      invariant Ids(r) == FirstMentions(Filter(order[..i], InMap(byId)))
      invariant LeftOf(left, byId, Ids(r))
      invariant Holds(byId, r)
    {
      var id := order[i];
      NextMention(order, i, InMap(byId));
      if id in left {
        TakeOut(left, byId, Ids(r), id);
        HoldsOneMore(byId, r, left[id]);
        r := r + [left[id]];
        left := left - {id};
      } else {
        NotLeft(left, byId, Ids(r), id);
      }
    }
    assert order[..|order|] == order;
  }

  /** Looking at one more mention adds it if it is wanted and new. */
  lemma NextMention(order: seq<string>, i: nat, wanted: string -> bool)
    requires i < |order|
    ensures var before := FirstMentions(Filter(order[..i], wanted));
            FirstMentions(Filter(order[..i + 1], wanted)) ==
            if wanted(order[i]) && order[i] !in before then before + [order[i]] else before
  {
    hide Filter, FirstMentions;
    FilterNext(order, i, wanted);
    var kept := Filter(order[..i], wanted);
    if wanted(order[i]) {
      FirstMentionsNext(kept, order[i]);
      assert FirstMentions(kept) + [] == FirstMentions(kept);
    } else {
      assert kept + [] == kept;
    }
  }

  lemma FirstMentionsNext<T(!new)>(s: seq<T>, x: T)
    ensures FirstMentions(s + [x]) == FirstMentions(s) + if x in s then [] else [x]
  {
    assert (s + [x])[..|s|] == s;
    assert FirstMentions(s) + [] == FirstMentions(s);
  }

  function InMap(byId: map<string, Node>): string -> bool {
    (id: string) => id in byId
  }

  /** The values still in the dictionary, in the order their keys went in. */
  method Values(keys: seq<string>, byId: map<string, Node>, left: map<string, Node>, ghost taken: seq<string>)
    returns (r: seq<Node>)
    requires forall id | id in byId :: byId[id].id == id
    requires forall id | id in keys :: id in byId
    requires LeftOf(left, byId, taken)
    ensures Ids(r) == Filter(keys, NotIn(taken))
    ensures Holds(byId, r)
  {
    r := [];
    for i := 0 to |keys|
      invariant Ids(r) == Filter(keys[..i], NotIn(taken))
      invariant Holds(byId, r)
    {
      FilterNext(keys, i, NotIn(taken));
      hide Filter, Holds, Ids;
      if keys[i] in left {
        HoldsOneMore(byId, r, left[keys[i]]);
        r := r + [left[keys[i]]];
      }
    }
    assert keys[..|keys|] == keys;
  }

  method Actions(w: Canvas) returns (r: seq<Node>)
    ensures r == Arrangement(w)
  {
    var actions := NodesOf(w, ActionNode);
    var byId, keys := ById(actions);
    var ordered, left := TakeOrdered(w.order, byId);
    var others := Values(keys, byId, left, Ids(ordered));
    r := ordered + others;
    Arranged(w, byId, keys, ordered, others);
    ArrangementIsUnique(w, r, Arrangement(w));
  }

  lemma Arranged(w: Canvas, byId: map<string, Node>, keys: seq<string>, ordered: seq<Node>, others: seq<Node>)
    requires var ids := Ids(NodesOf(w, ActionNode));
             && keys == FirstMentions(ids) && byId.Keys == (set id | id in keys)
             && (forall id | id in ids :: byId[id] == LastWith(NodesOf(w, ActionNode), id))
    requires Ids(ordered) == FirstMentions(Filter(w.order, InMap(byId))) && Ids(others) == Filter(keys, NotIn(Ids(ordered)))
    requires Holds(byId, ordered) && Holds(byId, others)
    ensures IsArrangement(w, ordered + others)
  {
    hide NodesOf, LastWith, FirstMentions, Filter, Ids;
    var ids := Ids(NodesOf(w, ActionNode));
    var r := ordered + others;
    assert Ids(r) == RunningOrder(w) by {
      hide Holds;
      var chosen := Filter(w.order, In(ids));
      SameFilter(w.order, InMap(byId), In(ids));
      SameFilter(keys, NotIn(Ids(ordered)), NotIn(chosen));
      FirstMentionsConcat(chosen, ids);
      assert Ids(r) == Ids(ordered) + Ids(others);
    }
    forall i | 0 <= i < |r| ensures r[i].id in ids && r[i] == LastWith(NodesOf(w, ActionNode), r[i].id) {
      assert r[i] in ordered || r[i] in others;
    }
  }

  lemma NoRepeatedIds(nodes: seq<Node>)
    requires NoRepeats(Ids(nodes))
    ensures NoRepeats(nodes)
  {
    forall i, j | 0 <= i < j < |nodes| ensures nodes[i] != nodes[j] {
      assert Ids(nodes)[i] != Ids(nodes)[j];
    }
  }

  /** Whatever `order` says (repeats, unknown ids, missing ids), no action node vanishes and none runs twice, exactly when
      no two action nodes share an id. */
  lemma ActionsArePermutedIffIdsAreDistinct(w: Canvas)
    ensures multiset(Arrangement(w)) == multiset(NodesOf(w, ActionNode)) <==> NoRepeats(Ids(NodesOf(w, ActionNode)))
  {
    var nodes, r := NodesOf(w, ActionNode), Arrangement(w);
    NoRepeatedIds(r);
    if NoRepeats(Ids(nodes)) {
      NoRepeatedIds(nodes);
      forall n ensures multiset(r)[n] == multiset(nodes)[n] {
        NoRepeatsCount(r, n);
        NoRepeatsCount(nodes, n);
        SameNodes(w, r, n);
      }
      assert multiset(r) == multiset(nodes);
    } else if multiset(r) == multiset(nodes) {
      var i, j :| 0 <= i < j < |nodes| && Ids(nodes)[i] == Ids(nodes)[j];
      SameIdSameNode(r, nodes, i, j);
      NoRepeatsCount(r, nodes[i]);
      TwoPlaces(nodes, i, j);
      assert false;
    }
  }

  lemma BothDrawn(w: Canvas, a: Node, b: Node)
    requires w.nodes == [a, b] && a.kind == ActionNode && b.kind == ActionNode
    ensures NodesOf(w, ActionNode) == [a, b]
  {
    FilterEverything(w.nodes, OfKind(ActionNode));
  }

  lemma LastArranged(w: Canvas, a: Node, b: Node)
    requires NodesOf(w, ActionNode) == [a, b] && RunningOrder(w) == [b.id]
    ensures IsArrangement(w, [b])
  {
    LastOfTwo(a, b);
    hide LastWith, NodesOf, RunningOrder, Filter;
    assert Ids([b]) == [b.id];
  }

  /** Two action nodes under one id: the first is never run. */
  lemma FirstNamesakeVanishes(w: Canvas, a: Node, b: Node)
    requires w.nodes == [a, b] && a.kind == ActionNode && b.kind == ActionNode && a.id == b.id && w.order == []
    ensures Arrangement(w) == [b]
  {
    hide *;
    BothDrawn(w, a, b);
    OrderOfNamesakes(w, a, b);
    LastArranged(w, a, b);
    ArrangementIsUnique(w, Arrangement(w), [b]);
  }

  lemma OrderOfNamesakes(w: Canvas, a: Node, b: Node)
    requires NodesOf(w, ActionNode) == [a, b] && a.id == b.id && w.order == []
    ensures RunningOrder(w) == [b.id]
  {
    var ids := Ids([a, b]);
    assert ids == [b.id, b.id];
    OnlyMention(b.id);
    assert Filter(w.order, In(ids)) + ids == ids;
    hide FirstMentions;
  }

  lemma LastOfTwo(a: Node, b: Node)
    ensures b.id in Ids([a, b]) && LastWith([a, b], b.id) == b
  {
    assert Ids([a, b])[1] == b.id;
  }

  lemma OnlyMention(id: string)
    ensures FirstMentions([id, id]) == [id]
  {
    var none, one := ([id])[..0], [id];
    assert FirstMentions(none) == [];
    assert FirstMentions(one) == [id];
    MentionedAgain(one, id);
    assert one + [id] == [id, id];
  }

  lemma MentionedAgain<T(!new)>(s: seq<T>, x: T)
    requires x in s
    ensures FirstMentions(s + [x]) == FirstMentions(s)
  {
    FirstMentionsNext(s, x);
  }

  lemma SameIdSameNode(r: seq<Node>, nodes: seq<Node>, i: nat, j: nat)
    requires NoRepeats(Ids(r)) && multiset(r) == multiset(nodes)
    requires i < |nodes| && j < |nodes| && nodes[i].id == nodes[j].id
    ensures nodes[i] == nodes[j]
  {
    assert nodes[i] in multiset(nodes) && nodes[j] in multiset(nodes);
    assert nodes[i] in multiset(r) && nodes[j] in multiset(r);
    var p :| 0 <= p < |r| && r[p] == nodes[i];
    var q :| 0 <= q < |r| && r[q] == nodes[j];
    assert Ids(r)[p] == Ids(r)[q];
  }

  lemma SameNodes(w: Canvas, r: seq<Node>, n: Node)
    requires IsArrangement(w, r) && NoRepeats(Ids(NodesOf(w, ActionNode)))
    ensures n in r <==> n in NodesOf(w, ActionNode)
  {
    var nodes := NodesOf(w, ActionNode);
    if n in nodes {
      var i :| 0 <= i < |nodes| && nodes[i] == n;
      assert n.id == Ids(nodes)[i];
      assert n.id in RunningOrder(w);
      var k :| 0 <= k < |r| && Ids(r)[k] == n.id;
      OnlyOneIsLast(nodes, i);
    }
  }

  lemma TwoPlaces<T>(s: seq<T>, i: nat, j: nat)
    requires i < j < |s| && s[i] == s[j]
    ensures multiset(s)[s[i]] >= 2
  {
    assert s == (s[..i + 1] + s[i + 1..]) && s[i] in s[..i + 1];
    assert s[i + 1..][j - i - 1] == s[i] && s[i] in s[i + 1..];
    assert s[i] in multiset(s[..i + 1]) && s[i] in multiset(s[i + 1..]);
  }

  // -------------------------------------------------------------- what is wrong with a canvas

  const KINDS_OF_TRIGGER: set<string> := {"event", "schedule", "manual", "state_change"}
  const OPERATORS: set<string> := {"eq", "ne", "gt", "lt", "contains", "matches", "in"}
  const KINDS_OF_ACTION: set<string> := {"notify", "task", "tool", "obsidian_write"}

  ghost predicate Readable(expression: string) {
    exists s :: Cron.Reads(expression, s)
  }

  /** What is wrong with one node; `numeric` says which values `float` accepts. */
  ghost predicate NodeWrong(n: Node, fault: Fault, numeric: Value -> bool) {
    match n.kind
    case TriggerNode =>
      (match fault
       case UnknownTrigger => n.subkind !in KINDS_OF_TRIGGER
       case NoRunner => n.subkind == "state_change"
       case BadCron => n.subkind == "schedule" && !Readable(TextOf(n.config, "cron"))
       case NoEventKind => n.subkind == "event" && Blank(TextOf(n.config, "event_kind"))
       case _ => false)
    case ConditionNode =>
      (match fault
       case UnknownOperator => n.subkind !in OPERATORS
       case NoField => Blank(TextOf(n.config, "field"))
       case NotANumber => n.subkind in {"gt", "lt"} && !numeric(Get(n.config, "value"))
       case NotAList => n.subkind == "in" && !IsList(Get(n.config, "value"))
       case _ => false)
    case ActionNode =>
      (match fault
       case UnknownAction => n.subkind !in KINDS_OF_ACTION
       case NoToolName => n.subkind == "tool" && Blank(TextOf(n.config, "name"))
       case NoTitle => n.subkind == "notify" && Blank(TextOf(n.config, "title"))
       case _ => false)
  }

  /** What is wrong with the canvas as a whole. */
  ghost predicate WholeWrong(w: Canvas, fault: Fault) {
    match fault
    case NoName => Blank(w.name)
    case NoTrigger => |NodesOf(w, TriggerNode)| == 0
    case ManyTriggers => |NodesOf(w, TriggerNode)| > 1
    case NoAction => Arrangement(w) == []
    case FollowUpOutside => w.followUpFrom.Some? && !(0 < w.followUpFrom.value <= |Arrangement(w)|)
    case _ => false
  }

  /** Some node carries this problem. */
  ghost predicate Blamed(nodes: seq<Node>, p: Problem, numeric: Value -> bool) {
    exists n | n in nodes :: n.id == p.node && NodeWrong(n, p.fault, numeric)
  }

  ghost predicate Wrong(w: Canvas, numeric: Value -> bool, p: Problem) {
    || (p.node == "" && WholeWrong(w, p.fault))
    || Blamed(NodesOf(w, TriggerNode) + NodesOf(w, ConditionNode) + Arrangement(w), p, numeric)
  }

  /** Nothing is wrong that would stop the rule from running. */
  ghost predicate Runnable(w: Canvas, numeric: Value -> bool) {
    forall p | IsError(p) :: !Wrong(w, numeric, p)
  }

  method TriggerProblems(n: Node, ghost numeric: Value -> bool) returns (problems: seq<Problem>)
    requires n.kind == TriggerNode
    ensures forall p :: p in problems <==> p.node == n.id && NodeWrong(n, p.fault, numeric)
  {
    hide Blank, TextOf;
    if n.subkind !in KINDS_OF_TRIGGER {
      return [Problem(n.id, UnknownTrigger)];
    }
    if n.subkind == "state_change" {
      return [Problem(n.id, NoRunner)];
    }
    if n.subkind == "schedule" {
      var parsed := Cron.Parse(TextOf(n.config, "cron"));
      if parsed.Err? {
        return [Problem(n.id, BadCron)];
      }
      assert Cron.Reads(TextOf(n.config, "cron"), parsed.value);
    }
    if n.subkind == "event" && Blank(TextOf(n.config, "event_kind")) {
      return [Problem(n.id, NoEventKind)];
    }
    return [];
  }

  method ConditionProblems(n: Node, numeric: Value -> bool) returns (problems: seq<Problem>)
    requires n.kind == ConditionNode
    ensures forall p :: p in problems <==> p.node == n.id && NodeWrong(n, p.fault, numeric)
  {
    hide Blank, TextOf;
    var value := Get(n.config, "value");
    problems := [];
    if n.subkind !in OPERATORS {
      problems := problems + [Problem(n.id, UnknownOperator)];
    }
    if Blank(TextOf(n.config, "field")) {
      problems := problems + [Problem(n.id, NoField)];
    }
    if n.subkind in {"gt", "lt"} && !numeric(value) {
      problems := problems + [Problem(n.id, NotANumber)];
    }
    if n.subkind == "in" && !IsList(value) {
      problems := problems + [Problem(n.id, NotAList)];
    }
  }

  method ActionProblems(n: Node, ghost numeric: Value -> bool) returns (problems: seq<Problem>)
    requires n.kind == ActionNode
    ensures forall p :: p in problems <==> p.node == n.id && NodeWrong(n, p.fault, numeric)
  {
    hide Blank, TextOf;
    if n.subkind !in KINDS_OF_ACTION {
      return [Problem(n.id, UnknownAction)];
    }
    if n.subkind == "tool" && Blank(TextOf(n.config, "name")) {
      return [Problem(n.id, NoToolName)];
    }
    if n.subkind == "notify" && Blank(TextOf(n.config, "title")) {
      return [Problem(n.id, NoTitle)];
    }
    return [];
  }

  method AllNodeProblems(nodes: seq<Node>, numeric: Value -> bool) returns (problems: seq<Problem>)
    ensures forall p :: p in problems <==> Blamed(nodes, p, numeric)
  {
    hide NodeWrong;
    problems := [];
    for i := 0 to |nodes|
      invariant forall p :: p in problems <==> Blamed(nodes[..i], p, numeric)
    {
      var more;
      match nodes[i].kind {
        case TriggerNode => more := TriggerProblems(nodes[i], numeric);
        case ConditionNode => more := ConditionProblems(nodes[i], numeric);
        case ActionNode => more := ActionProblems(nodes[i], numeric);
      }
      assert nodes[..i + 1] == nodes[..i] + [nodes[i]];
      forall p: Problem ensures p in problems + more <==> Blamed(nodes[..i + 1], p, numeric) {
        assert p in problems + more <==> p in problems || p in more;
        assert forall n :: n in nodes[..i + 1] <==> n in nodes[..i] || n == nodes[i];
      }
      problems := problems + more;
    }
    assert nodes[..|nodes|] == nodes;
  }

  method OneProblem(wrong: bool, fault: Fault) returns (problems: seq<Problem>)
    ensures forall p :: p in problems <==> wrong && p == Problem("", fault)
  {
    problems := if wrong then [Problem("", fault)] else [];
  }

  lemma WholeFaults(w: Canvas, fault: Fault)
    ensures WholeWrong(w, fault) <==>
            || (Blank(w.name) && fault == NoName)
            || (|NodesOf(w, TriggerNode)| != 1
                && fault == if NodesOf(w, TriggerNode) == [] then NoTrigger else ManyTriggers)
            || (Arrangement(w) == [] && fault == NoAction)
            || (w.followUpFrom.Some? && !(0 < w.followUpFrom.value <= |Arrangement(w)|) && fault == FollowUpOutside)
  {
    hide NodesOf, Blank, Arrangement, IsArrangement;
  }

  /** Every problem there is, each with the node that causes it, and nothing else. */
  method Validate(w: Canvas, numeric: Value -> bool) returns (problems: seq<Problem>)
    ensures forall p :: p in problems <==> Wrong(w, numeric, p)
  {
    hide Blamed, NodeWrong, Arrangement, IsArrangement, WholeWrong, NodesOf;
    var actions := Actions(w);
    var triggers, conditions := NodesOf(w, TriggerNode), NodesOf(w, ConditionNode);
    var noName := OneProblem(Blank(w.name), NoName);
    var triggerCount := OneProblem(|triggers| != 1, if triggers == [] then NoTrigger else ManyTriggers);
    var ofTriggers := AllNodeProblems(triggers, numeric);
    var ofConditions := AllNodeProblems(conditions, numeric);
    var noAction := OneProblem(actions == [], NoAction);
    var ofActions := AllNodeProblems(actions, numeric);
    var outside := OneProblem(
      w.followUpFrom.Some? && !(0 < w.followUpFrom.value <= |actions|), FollowUpOutside);
    problems := noName + triggerCount + ofTriggers + ofConditions + noAction + ofActions + outside;
    forall p: Problem ensures p in problems <==> Wrong(w, numeric, p) {
      WholeFaults(w, p.fault);
      Among(noName, triggerCount, ofTriggers, ofConditions, noAction, ofActions, outside, p);
      EitherList(triggers, conditions, actions, numeric, p);
    }
  }

  lemma Among<T>(a: seq<T>, b: seq<T>, c: seq<T>, d: seq<T>, e: seq<T>, f: seq<T>, g: seq<T>, x: T)
    ensures x in a + b + c + d + e + f + g <==>
            x in a || x in b || x in c || x in d || x in e || x in f || x in g
  {
  }

  lemma EitherList(a: seq<Node>, b: seq<Node>, c: seq<Node>, numeric: Value -> bool, p: Problem)
    ensures Blamed(a + b + c, p, numeric) <==> Blamed(a, p, numeric) || Blamed(b, p, numeric) || Blamed(c, p, numeric)
  {
    hide NodeWrong;
    assert forall n :: n in a + b + c <==> n in a || n in b || n in c;
  }
}
