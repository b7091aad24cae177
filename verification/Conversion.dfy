/** From canvas to rule and from rule to canvas. */
module Conversion {
  import opened Common
  import opened Rules
  import opened Workflow
  import Cron

  // -------------------------------------------------------------- the rule a canvas means

  function TriggerOf(n: Node): Trigger {
    if n.subkind == "event" then
      Trigger(n.subkind, if Truthy(Get(n.config, "event_kind")) then Shown(Get(n.config, "event_kind")) else "*", None, None)
    else if n.subkind == "schedule" then Trigger(n.subkind, "*", Some(Shown(Get(n.config, "cron"))), None)
    else if n.subkind == "state_change" then Trigger(n.subkind, "*", None, Some(TextOf(n.config, "field")))
    else Trigger(n.subkind, "*", None, None)
  }

  function ConditionOf(n: Node): Condition {
    Condition(Shown(Get(n.config, "field")), n.subkind, Get(n.config, "value"))
  }

  /** `name` is taken out of the configuration; the rest are the arguments. */
  function ActionOf(n: Node): Action {
    Action(n.subkind, if "name" in n.config then Shown(n.config["name"]) else "", n.config - {"name"}, None)
  }

  function ConditionsOf(nodes: seq<Node>): (r: seq<Condition>)
    ensures |r| == |nodes|
  {
    seq(|nodes|, i requires 0 <= i < |nodes| => ConditionOf(nodes[i]))
  }

  function ActionsOf(nodes: seq<Node>): (r: seq<Action>)
    ensures |r| == |nodes|
  {
    seq(|nodes|, i requires 0 <= i < |nodes| => ActionOf(nodes[i]))
  }

  predicate Splits(w: Canvas) {
    w.followUpFrom.Some? ==> 0 < w.followUpFrom.value <= |Arrangement(w)|
  }

  function SplitAt(w: Canvas): (n: nat)
    requires Splits(w)
    ensures n <= |Arrangement(w)|
  {
    if w.followUpFrom.Some? then w.followUpFrom.value else |Arrangement(w)|
  }

  function Meaning(w: Canvas, newId: Id): Automation
    requires NodesOf(w, TriggerNode) != [] && Splits(w)
  {
    Automation(
      if w.automationId.Some? then w.automationId.value else newId,
      Strip(w.name),
      TriggerOf(NodesOf(w, TriggerNode)[0]),
      ConditionsOf(NodesOf(w, ConditionNode)),
      ActionsOf(Arrangement(w)[..SplitAt(w)]),
      ActionsOf(Arrangement(w)[SplitAt(w)..]),
      w.enabled, NORMAL_LEVEL, w.budget, false, w.priority, None, 0)
  }

  lemma RunnableSplits(w: Canvas, numeric: Value -> bool)
    requires Runnable(w, numeric)
    ensures |NodesOf(w, TriggerNode)| == 1 && Splits(w) && Arrangement(w) != [] && !Blank(w.name)
  {
    hide NodesOf, Arrangement, IsArrangement, Blank, NodeWrong;
    assert forall fault: Fault | !fault.NoTitle? :: !WholeWrong(w, fault) by {
      forall fault: Fault | !fault.NoTitle? ensures !WholeWrong(w, fault) {
        assert !Wrong(w, numeric, Problem("", fault));
      }
    }
    assert !WholeWrong(w, NoTrigger) && !WholeWrong(w, ManyTriggers) && !WholeWrong(w, FollowUpOutside);
    assert !WholeWrong(w, NoAction) && !WholeWrong(w, NoName);
  }

  lemma ActionsInTwo(nodes: seq<Node>, at: nat)
    requires at <= |nodes|
    ensures ActionsOf(nodes[..at]) + ActionsOf(nodes[at..]) == ActionsOf(nodes)
  {
  }

  /** A canvas is refused exactly when something is wrong with it, and then with every error. */
  method ToAutomation(w: Canvas, newId: Id, numeric: Value -> bool) returns (r: Result<Automation, seq<Problem>>)
    ensures r.Ok? <==> Runnable(w, numeric)
    ensures r.Err? ==> r.error != [] && forall p :: p in r.error <==> IsError(p) && Wrong(w, numeric, p)
    ensures r.Ok? ==> NodesOf(w, TriggerNode) != [] && Splits(w) && r.value == Meaning(w, newId)
    ensures r.Ok? ==> r.value.actions + r.value.followUps == ActionsOf(Arrangement(w))
  {
    hide Wrong, NodesOf, Arrangement, IsArrangement, TriggerOf, ConditionsOf, ActionsOf, Strip;
    var problems := Validate(w, numeric);
    var errors := Filter(problems, IsError);
    if errors != [] {
      assert errors[0] in errors;
      return Err(errors);
    }
    assert Runnable(w, numeric) by {
      forall p | IsError(p) ensures !Wrong(w, numeric, p) {
        assert p !in errors;
      }
    }
    RunnableSplits(w, numeric);
    var triggers := NodesOf(w, TriggerNode);
    var actions := Actions(w);
    var split := if w.followUpFrom.Some? then w.followUpFrom.value else |actions|;
    var automation := Automation(
      if w.automationId.Some? then w.automationId.value else newId,
      Strip(w.name),
      TriggerOf(triggers[0]),
      ConditionsOf(NodesOf(w, ConditionNode)),
      ActionsOf(actions[..split]),
      ActionsOf(actions[split..]),
      w.enabled, NORMAL_LEVEL, w.budget, false, w.priority, None, 0);
    ActionsInTwo(actions, split);
    return Ok(automation);
  }

  // -------------------------------------------------------------- the canvas of a rule

  function TriggerConfig(t: Trigger): map<string, Value> {
    if t.kind == "event" then map["event_kind" := Text(t.eventKind)]
    else if t.kind == "schedule" then map["cron" := Text(if t.cron.Some? then t.cron.value else "")]
    else if t.kind == "state_change" then map["field" := Text(if t.field.Some? then t.field.value else "")]
    else map[]
  }

  function NodeOfTrigger(t: Trigger): Node {
    Node("trigger", TriggerNode, t.kind, TriggerConfig(t))
  }

  function NodeOfCondition(c: Condition, i: nat): Node {
    Node("condition-" + Decimal(i), ConditionNode, c.op, map["field" := Text(c.field), "value" := c.value])
  }

  function ActionId(i: nat): string { "action-" + Decimal(i) }

  /** An argument called `name` covers the action's own name. */
  function ActionConfig(a: Action): map<string, Value> {
    map["name" := Text(a.name)] + a.args
  }

  function NodeOfAction(a: Action, i: nat): Node {
    Node(ActionId(i), ActionNode, a.kind, ActionConfig(a))
  }

  function NodesOfConditions(conditions: seq<Condition>): (r: seq<Node>)
    ensures |r| == |conditions|
  {
    seq(|conditions|, i requires 0 <= i < |conditions| => NodeOfCondition(conditions[i], i))
  }

  function NodesOfActions(actions: seq<Action>): (r: seq<Node>)
    ensures |r| == |actions|
  {
    seq(|actions|, i requires 0 <= i < |actions| => NodeOfAction(actions[i], i))
  }

  function CanvasOf(a: Automation): Canvas {
    var actions := NodesOfActions(a.actions + a.followUps);
    Canvas(
      a.name, [NodeOfTrigger(a.trigger)] + NodesOfConditions(a.conditions) + actions, Ids(actions),
      if a.followUps != [] then Some(|a.actions|) else None, a.enabled, Some(a.id), a.priority, a.budget)
  }

  method FromAutomation(a: Automation) returns (w: Canvas)
    ensures w == CanvasOf(a)
  {
    hide NodeOfTrigger, NodeOfCondition, TriggerConfig, ActionConfig, Decimal;
    var trigger := NodeOfTrigger(a.trigger);
    var conditions: seq<Node> := [];
    for i := 0 to |a.conditions|
      invariant conditions == NodesOfConditions(a.conditions)[..i]
    {
      conditions := conditions + [NodeOfCondition(a.conditions[i], i)];
    }
    var every := a.actions + a.followUps;
    var actions: seq<Node> := [];
    var order: seq<string> := [];
    for i := 0 to |every|
      invariant actions == NodesOfActions(every)[..i] && order == Ids(actions)
    {
      actions := actions + [NodeOfAction(every[i], i)];
      order := order + [ActionId(i)];
    }
    w := Canvas(
      a.name, [trigger] + conditions + actions, order, if a.followUps != [] then Some(|a.actions|) else None,
      a.enabled, Some(a.id), a.priority, a.budget);
  }

  lemma KindsApart(a: Automation, kind: NodeKind)
    ensures NodesOf(CanvasOf(a), kind) ==
            match kind
            case TriggerNode => [NodeOfTrigger(a.trigger)]
            case ConditionNode => NodesOfConditions(a.conditions)
            case ActionNode => NodesOfActions(a.actions + a.followUps)
  {
    hide Filter;
    var t, c, n := [NodeOfTrigger(a.trigger)], NodesOfConditions(a.conditions), NodesOfActions(a.actions + a.followUps);
    FilterConcat(t + c, n, OfKind(kind));
    FilterConcat(t, c, OfKind(kind));
    if kind == TriggerNode { FilterEverything(t, OfKind(kind)); } else { FilterNothing(t, OfKind(kind)); }
    if kind == ConditionNode { FilterEverything(c, OfKind(kind)); } else { FilterNothing(c, OfKind(kind)); }
    if kind == ActionNode { FilterEverything(n, OfKind(kind)); } else { FilterNothing(n, OfKind(kind)); }
  }

  lemma ActionIdsAreDistinct(actions: seq<Action>)
    ensures NoRepeats(Ids(NodesOfActions(actions)))
  {
    forall i, j | 0 <= i < j < |actions| ensures ActionId(i) != ActionId(j) {
      if ActionId(i) == ActionId(j) {
        assert Decimal(i) == ActionId(i)[7..] && Decimal(j) == ActionId(j)[7..];
        DecimalIsInjective(i, j);
      }
    }
  }

  /** On a canvas whose order lists every action once, the actions run as drawn. */
  lemma DrawnOrder(w: Canvas)
    requires NoRepeats(Ids(NodesOf(w, ActionNode))) && w.order == Ids(NodesOf(w, ActionNode))
    ensures Arrangement(w) == NodesOf(w, ActionNode)
  {
    hide NodesOf, Arrangement, FirstMentions, Filter;
    var nodes := NodesOf(w, ActionNode);
    var ids := Ids(nodes);
    FilterEverything(w.order, In(ids));
    FirstMentionsOfNoRepeats(ids);
    FirstMentionsConcat(ids, ids);
    FilterNothing(ids, NotIn(ids));
    assert ids + [] == ids;
    forall i | 0 <= i < |nodes| ensures nodes[i].id in ids && nodes[i] == LastWith(nodes, nodes[i].id) {
      assert nodes[i].id == ids[i];
      OnlyOneIsLast(nodes, i);
    }
    ArrangementIsUnique(w, Arrangement(w), nodes);
  }

  lemma CanvasRunsAsListed(a: Automation)
    ensures Arrangement(CanvasOf(a)) == NodesOfActions(a.actions + a.followUps)
  {
    KindsApart(a, ActionNode);
    ActionIdsAreDistinct(a.actions + a.followUps);
    DrawnOrder(CanvasOf(a));
  }

  // -------------------------------------------------------------- which rules the builder can run

  ghost predicate TriggerRuns(t: Trigger) {
    || t.kind == "manual"
    || (t.kind == "event" && !Blank(t.eventKind))
    || (t.kind == "schedule" && t.cron.Some? && Readable(t.cron.value))
  }

  predicate ConditionRuns(c: Condition, numeric: Value -> bool) {
    && c.op in OPERATORS && !Blank(c.field)
    && (c.op in {"gt", "lt"} ==> numeric(c.value)) && (c.op == "in" ==> IsList(c.value))
  }

  predicate ActionRuns(a: Action) {
    && a.kind in KINDS_OF_ACTION
    && (a.kind == "tool" ==> !Blank(TextOf(ActionConfig(a), "name")))
  }

  ghost predicate Runs(a: Automation, numeric: Value -> bool) {
    && !Blank(a.name) && TriggerRuns(a.trigger)
    && (forall i | 0 <= i < |a.conditions| :: ConditionRuns(a.conditions[i], numeric))
    && (forall i | 0 <= i < |a.actions + a.followUps| :: ActionRuns((a.actions + a.followUps)[i]))
    && a.actions != []
  }

  ghost predicate NodeFine(n: Node, numeric: Value -> bool) {
    forall fault: Fault | !fault.NoTitle? :: !NodeWrong(n, fault, numeric)
  }

  lemma NothingReadable()
    ensures !Readable("")
  {
    assert Cron.Words("") == [];
  }

  lemma TriggerFine(t: Trigger, numeric: Value -> bool)
    ensures NodeFine(NodeOfTrigger(t), numeric) <==> TriggerRuns(t)
  {
    NothingReadable();
    hide Blank, Readable;
    var n := NodeOfTrigger(t);
    assert NodeFine(n, numeric) ==>
        !NodeWrong(n, UnknownTrigger, numeric) && !NodeWrong(n, NoRunner, numeric) && !NodeWrong(n, BadCron, numeric)
        && !NodeWrong(n, NoEventKind, numeric);
  }

  lemma FineCondition(n: Node, numeric: Value -> bool)
    requires n.kind == ConditionNode
    ensures NodeFine(n, numeric) <==>
            && n.subkind in OPERATORS && !Blank(TextOf(n.config, "field"))
            && (n.subkind in {"gt", "lt"} ==> numeric(Get(n.config, "value")))
            && (n.subkind == "in" ==> IsList(Get(n.config, "value")))
  {
    hide Blank, TextOf, Get;
    assert NodeFine(n, numeric) ==>
        !NodeWrong(n, UnknownOperator, numeric) && !NodeWrong(n, NoField, numeric) && !NodeWrong(n, NotANumber, numeric)
        && !NodeWrong(n, NotAList, numeric);
  }

  lemma ConditionFine(c: Condition, i: nat, numeric: Value -> bool)
    ensures NodeFine(NodeOfCondition(c, i), numeric) <==> ConditionRuns(c, numeric)
  {
    FineCondition(NodeOfCondition(c, i), numeric);
    hide Blank, NodeFine;
  }

  lemma FineAction(n: Node, numeric: Value -> bool)
    requires n.kind == ActionNode
    ensures NodeFine(n, numeric) <==>
            n.subkind in KINDS_OF_ACTION && (n.subkind == "tool" ==> !Blank(TextOf(n.config, "name")))
  {
    hide Blank, TextOf;
    assert NodeFine(n, numeric) ==> !NodeWrong(n, UnknownAction, numeric) && !NodeWrong(n, NoToolName, numeric);
  }

  lemma ActionFine(a: Action, i: nat, numeric: Value -> bool)
    ensures NodeFine(NodeOfAction(a, i), numeric) <==> ActionRuns(a)
  {
    FineAction(NodeOfAction(a, i), numeric);
    hide NodeFine, Blank, TextOf, ActionConfig;
  }

  /** The kinds there are: a condition whose field is named is refused for its operator alone unless it is one of seven, two
      of which want a number and one a list. */
  lemma OperatorsKnown(c: Condition, numeric: Value -> bool)
    requires !Blank(c.field)
    ensures ConditionRuns(c, numeric) <==>
              || c.op == "eq" || c.op == "ne" || c.op == "contains" || c.op == "matches"
              || ((c.op == "gt" || c.op == "lt") && numeric(c.value)) || (c.op == "in" && c.value.Other? && c.value.list)
  {
    hide Blank;
  }

  /** A trigger runs when it is by hand, by an event of some kind, or by a readable schedule; nobody watches for changes of
      state. */
  lemma TriggersKnown(t: Trigger)
    ensures TriggerRuns(t) <==>
              || t.kind == "manual" || (t.kind == "event" && !Blank(t.eventKind))
              || (t.kind == "schedule" && t.cron.Some? && exists s :: Cron.Reads(t.cron.value, s))
  {
    hide Blank, Cron.Reads;
  }

  /** An action runs when it notifies, makes a task, writes a note, or calls a tool that is named, by the action or by an
      argument. */
  lemma ActionsKnown(a: Action)
    ensures ActionRuns(a) <==>
              || a.kind == "notify" || a.kind == "task" || a.kind == "obsidian_write"
              || (a.kind == "tool" && !Blank(if "name" in a.args then TextOf(a.args, "name") else a.name))
  {
    assert Truthy(Get(ActionConfig(a), "name")) ==> TextOf(ActionConfig(a), "name") == Shown(ActionConfig(a)["name"]);
    if "name" !in a.args {
      NameRead(a);
    }
    hide Blank;
  }

  /** A canvas runs when its name, trigger, actions and follow-up point are in order and every node is fine. */
  lemma RunnableByParts(w: Canvas, numeric: Value -> bool)
    ensures Runnable(w, numeric) <==>
            && !Blank(w.name) && |NodesOf(w, TriggerNode)| == 1 && Arrangement(w) != [] && Splits(w)
            && forall n | n in NodesOf(w, TriggerNode) + NodesOf(w, ConditionNode) + Arrangement(w) ::
                 NodeFine(n, numeric)
  {
    hide NodesOf, Arrangement, IsArrangement, Blank, NodeWrong;
    var nodes := NodesOf(w, TriggerNode) + NodesOf(w, ConditionNode) + Arrangement(w);
    if Runnable(w, numeric) {
      RunnableSplits(w, numeric);
      forall n, fault: Fault | n in nodes && !fault.NoTitle? ensures !NodeWrong(n, fault, numeric) {
        assert !Wrong(w, numeric, Problem(n.id, fault));
      }
    }
  }

  /** The builder accepts a rule it opens exactly when the engine could run every part of it. */
  lemma OpensRunnable(a: Automation, numeric: Value -> bool)
    ensures Runnable(CanvasOf(a), numeric) <==> Runs(a, numeric)
  {
    hide NodesOf, Arrangement, IsArrangement, Blank, NodeFine, TriggerRuns, ConditionRuns, ActionRuns, Runnable;
    var w, every := CanvasOf(a), a.actions + a.followUps;
    RunnableByParts(w, numeric);
    KindsApart(a, TriggerNode);
    KindsApart(a, ConditionNode);
    CanvasRunsAsListed(a);
    var t, c, n := NodeOfTrigger(a.trigger), NodesOfConditions(a.conditions), NodesOfActions(every);
    TriggerFine(a.trigger, numeric);
    forall i | 0 <= i < |c| ensures NodeFine(c[i], numeric) <==> ConditionRuns(a.conditions[i], numeric) {
      ConditionFine(a.conditions[i], i, numeric);
    }
    forall i | 0 <= i < |n| ensures NodeFine(n[i], numeric) <==> ActionRuns(every[i]) {
      ActionFine(every[i], i, numeric);
    }
    InParts([t], c, n);
  }

  lemma InParts<T>(a: seq<T>, b: seq<T>, c: seq<T>)
    ensures forall x :: x in a + b + c <==> x in a || x in b || x in c
  {
  }

  // -------------------------------------------------------------- there and back

  predicate CarriableTrigger(t: Trigger) {
    && t.field == None && (t.kind == "event" || t.eventKind == "*") && (t.kind == "schedule" || t.cron == None)
  }

  predicate CarriableAction(a: Action) {
    a.deviceHint == None && "name" !in a.args
  }

  /** What the canvas has room for: a trimmed name, no trigger field its kind does not use, no device hint, no argument
      called `name`. */
  predicate Drawable(a: Automation) {
    && Strip(a.name) == a.name && CarriableTrigger(a.trigger)
    && (forall i | 0 <= i < |a.actions| :: CarriableAction(a.actions[i]))
    && (forall i | 0 <= i < |a.followUps| :: CarriableAction(a.followUps[i]))
  }

  /** The rule with the values a new rule starts with where the canvas shows nothing: level, origin and run history. */
  function AsNew(a: Automation): Automation {
    a.(proactivityMin := 2, suggested := false, lastRunAt := None, runCount := 0)
  }

  predicate Carriable(a: Automation) {
    Drawable(a) && AsNew(a) == a
  }

  lemma BlankMeansNothing(s: string)
    requires s == ""
    ensures Blank(s)
  {
  }

  lemma EventTrip(t: Trigger)
    requires t.kind == "event" && t.eventKind != ""
    ensures TriggerOf(NodeOfTrigger(t)) == Trigger("event", t.eventKind, None, None)
  {
  }

  lemma ScheduleTrip(t: Trigger)
    requires t.kind == "schedule" && t.cron.Some?
    ensures TriggerOf(NodeOfTrigger(t)) == Trigger("schedule", "*", t.cron, None)
  {
  }

  /** The builder refuses to save a rule that waits for a state to change, but it draws one with the state it names. */
  lemma StateTrip(t: Trigger)
    requires t.kind == "state_change"
    ensures TriggerOf(NodeOfTrigger(t)) == Trigger("state_change", "*", None, Some(if t.field.Some? then t.field.value else ""))
  {
  }

  lemma TriggerTrip(t: Trigger)
    requires TriggerRuns(t)
    ensures TriggerOf(NodeOfTrigger(t)) == t <==> CarriableTrigger(t)
  {
    if t.kind == "event" {
      if t.eventKind == "" {
        BlankMeansNothing(t.eventKind);
      }
      EventTrip(t);
    } else if t.kind == "schedule" {
      ScheduleTrip(t);
    }
  }

  lemma ConditionTrip(c: Condition, i: nat)
    ensures ConditionOf(NodeOfCondition(c, i)) == c
  {
  }

  lemma ActionTrip(a: Action, i: nat)
    ensures ActionOf(NodeOfAction(a, i)) == a <==> CarriableAction(a)
  {
    assert "name" !in ActionOf(NodeOfAction(a, i)).args;
    if CarriableAction(a) {
      assert ActionConfig(a) - {"name"} == a.args;
    }
  }

  lemma ConditionsTrip(conditions: seq<Condition>)
    ensures ConditionsOf(NodesOfConditions(conditions)) == conditions
  {
    forall i | 0 <= i < |conditions| ensures ConditionsOf(NodesOfConditions(conditions))[i] == conditions[i] {
      ConditionTrip(conditions[i], i);
    }
  }

  /** Opened and saved, the actions come back in their two lists, each as one action's node reads. */
  lemma SplitTrip(a: Automation)
    requires a.actions != []
    ensures var w := CanvasOf(a);
            && Splits(w) && SplitAt(w) == |a.actions|
            && (forall i | 0 <= i < |a.actions| ::
                  ActionsOf(Arrangement(w)[..SplitAt(w)])[i] == ActionOf(NodeOfAction(a.actions[i], i)))
            && |Arrangement(w)| == |a.actions| + |a.followUps|
            && (forall i | 0 <= i < |a.followUps| ::
                  ActionsOf(Arrangement(w)[SplitAt(w)..])[i] ==
                  ActionOf(NodeOfAction(a.followUps[i], |a.actions| + i)))
  {
    var every := a.actions + a.followUps;
    CanvasRunsAsListed(a);
    hide Arrangement, IsArrangement, NodesOf, NodeOfAction, ActionOf;
    NodesInTwo(every, |a.actions|);
    forall i | 0 <= i < |a.actions| ensures every[i] == a.actions[i] {
    }
    forall i | 0 <= i < |a.followUps| ensures every[|a.actions| + i] == a.followUps[i] {
    }
  }

  lemma NodesInTwo(actions: seq<Action>, at: nat)
    requires at <= |actions|
    ensures var nodes := NodesOfActions(actions);
            && (forall i | 0 <= i < at :: ActionsOf(nodes[..at])[i] == ActionOf(NodeOfAction(actions[i], i)))
            && (forall i | 0 <= i < |actions| - at ::
                  ActionsOf(nodes[at..])[i] == ActionOf(NodeOfAction(actions[at + i], at + i)))
  {
    hide NodeOfAction, ActionOf;
  }

  lemma ActionsTrip(before: seq<Action>, after: seq<Action>, start: nat)
    requires |after| == |before|
    requires forall i | 0 <= i < |before| :: after[i] == ActionOf(NodeOfAction(before[i], start + i))
    ensures after == before <==> forall i | 0 <= i < |before| :: CarriableAction(before[i])
  {
    forall i | 0 <= i < |before| ensures after[i] == before[i] <==> CarriableAction(before[i]) {
      ActionTrip(before[i], start + i);
    }
  }

  /** Whatever its level, origin and history, a rule the builder accepts comes back with everything else unchanged exactly
      when it asks for nothing the canvas cannot hold. */
  lemma RoundTripRestores(a: Automation, newId: Id, numeric: Value -> bool)
    requires Runs(a, numeric)
    ensures Runnable(CanvasOf(a), numeric)
    ensures NodesOf(CanvasOf(a), TriggerNode) != [] && Splits(CanvasOf(a))
    ensures Meaning(CanvasOf(a), newId) == AsNew(a) <==> Drawable(a)
    ensures AsNew(Meaning(CanvasOf(a), newId)) == Meaning(CanvasOf(a), newId)
  {
    hide Arrangement, IsArrangement, NodesOf, Strip, Runnable, ActionsOf, TriggerOf, CarriableTrigger, CarriableAction,
      CanvasOf, Meaning, TriggerRuns, SplitAt, Splits, NodeOfTrigger, NodeOfAction, ActionOf, ActionRuns, ConditionRuns,
      Blank;
    OpensRunnable(a, numeric);
    ReadsBack(a, newId);
    TriggerTrip(a.trigger);
    var w := CanvasOf(a);
    ActionsTrip(a.actions, ActionsOf(Arrangement(w)[..SplitAt(w)]), 0);
    ActionsTrip(a.followUps, ActionsOf(Arrangement(w)[SplitAt(w)..]), |a.actions|);
  }

  /** The round trip is promised for every rule. A rule the builder accepts comes back unchanged exactly when it is also
      as a new rule is where the canvas shows nothing. */
  lemma RoundTripIffCarriable(a: Automation, newId: Id, numeric: Value -> bool)
    requires Runs(a, numeric)
    ensures Runnable(CanvasOf(a), numeric)
    ensures NodesOf(CanvasOf(a), TriggerNode) != [] && Splits(CanvasOf(a))
    ensures Meaning(CanvasOf(a), newId) == a <==> Carriable(a)
  {
    hide Runnable, Splits, NodesOf, CanvasOf, Meaning, Drawable, Runs;
    RoundTripRestores(a, newId, numeric);
  }

  /** A rule that notifies, and asks for one machine to do it. */
  const HINTED := Automation(
    0, "n", Trigger("manual", "*", None, None), [], [Action("notify", "", map[], Some("desk"))], [],
    true, NORMAL_LEVEL, Budget(0.0, 0, 0), false, Normal, None, 0)

  /** Opened and saved it is another rule: the canvas holds no device hint. */
  lemma HintIsLost(newId: Id, numeric: Value -> bool)
    ensures Runnable(CanvasOf(HINTED), numeric) && Splits(CanvasOf(HINTED))
    ensures NodesOf(CanvasOf(HINTED), TriggerNode) != [] && Meaning(CanvasOf(HINTED), newId) != HINTED
  {
    TrimmedStays("n");
    hide Arrangement, NodesOf, Runnable, CanvasOf, Meaning, Splits;
    assert HINTED.actions + HINTED.followUps == HINTED.actions;
    assert !CarriableAction(HINTED.actions[0]);
    RoundTripIffCarriable(HINTED, newId, numeric);
  }

  /** What the canvas of a rule means, part by part. */
  lemma ReadsBack(a: Automation, newId: Id)
    requires a.actions != []
    ensures var w := CanvasOf(a);
            && NodesOf(w, TriggerNode) != [] && Splits(w)
            && var m := Meaning(w, newId);
            && m.id == a.id && m.name == Strip(a.name) && m.trigger == TriggerOf(NodeOfTrigger(a.trigger))
            && m.conditions == a.conditions && m.enabled == a.enabled && m.budget == a.budget && m.priority == a.priority
            && m.proactivityMin == 2 && !m.suggested && m.lastRunAt == None && m.runCount == 0
            && m.actions == ActionsOf(Arrangement(w)[..SplitAt(w)])
            && m.followUps == ActionsOf(Arrangement(w)[SplitAt(w)..])
            && |m.actions| == |a.actions| && |m.followUps| == |a.followUps|
            && (forall i | 0 <= i < |a.actions| :: m.actions[i] == ActionOf(NodeOfAction(a.actions[i], i)))
            && (forall i | 0 <= i < |a.followUps| ::
                  m.followUps[i] == ActionOf(NodeOfAction(a.followUps[i], |a.actions| + i)))
  {
    hide Arrangement, IsArrangement, NodesOf, Strip, ActionOf, NodeOfAction, ConditionsOf, TriggerOf, NodeOfTrigger;
    KindsApart(a, TriggerNode);
    KindsApart(a, ConditionNode);
    SplitTrip(a);
    ConditionsTrip(a.conditions);
  }

  // -------------------------------------------------------------- what the builder saved

  lemma NodeFineOf(w: Canvas, n: Node, numeric: Value -> bool)
    requires Runnable(w, numeric)
    requires n in NodesOf(w, TriggerNode) || n in NodesOf(w, ConditionNode) || n in Arrangement(w)
    ensures NodeFine(n, numeric)
  {
    hide NodesOf, Arrangement, IsArrangement, NodeFine, Runnable;
    RunnableByParts(w, numeric);
    InParts(NodesOf(w, TriggerNode), NodesOf(w, ConditionNode), Arrangement(w));
  }

  lemma SavedTrigger(n: Node, numeric: Value -> bool)
    requires n.kind == TriggerNode && NodeFine(n, numeric)
    ensures TriggerRuns(TriggerOf(n)) && CarriableTrigger(TriggerOf(n))
  {
    NothingReadable();
    hide Readable;
    assert !NodeWrong(n, UnknownTrigger, numeric) && !NodeWrong(n, NoRunner, numeric);
    assert !NodeWrong(n, BadCron, numeric) && !NodeWrong(n, NoEventKind, numeric);
  }

  lemma SavedCondition(n: Node, numeric: Value -> bool)
    requires n.kind == ConditionNode && NodeFine(n, numeric)
    ensures ConditionRuns(ConditionOf(n), numeric)
  {
    FineCondition(n, numeric);
    hide NodeFine;
  }

  lemma SavedAction(n: Node, numeric: Value -> bool)
    requires n.kind == ActionNode && NodeFine(n, numeric)
    ensures ActionRuns(ActionOf(n)) && CarriableAction(ActionOf(n))
  {
    FineAction(n, numeric);
    NameRead(ActionOf(n));
    assert Blank("");
    hide NodeFine, Blank, ActionConfig;
  }

  lemma NameRead(a: Action)
    requires "name" !in a.args
    ensures TextOf(ActionConfig(a), "name") == a.name
  {
    assert ActionConfig(a)["name"] == Text(a.name);
  }

  lemma SavedActions(w: Canvas, numeric: Value -> bool)
    requires Runnable(w, numeric)
    ensures forall i | 0 <= i < |Arrangement(w)| ::
              ActionRuns(ActionOf(Arrangement(w)[i])) && CarriableAction(ActionOf(Arrangement(w)[i]))
  {
    var r := Arrangement(w);
    forall i | 0 <= i < |r| ensures ActionRuns(ActionOf(r[i])) && CarriableAction(ActionOf(r[i])) {
      hide Runnable, NodeFine, Arrangement, ActionRuns, CarriableAction;
      assert r[i] in NodesOf(w, ActionNode);
      NodeFineOf(w, r[i], numeric);
      SavedAction(r[i], numeric);
    }
  }

  lemma SavedConditions(w: Canvas, numeric: Value -> bool)
    requires Runnable(w, numeric)
    ensures forall i | 0 <= i < |NodesOf(w, ConditionNode)| ::
              ConditionRuns(ConditionOf(NodesOf(w, ConditionNode)[i]), numeric)
  {
    var c := NodesOf(w, ConditionNode);
    forall i | 0 <= i < |c| ensures ConditionRuns(ConditionOf(c[i]), numeric) {
      hide Runnable, NodeFine, Arrangement, ConditionRuns;
      assert c[i] in c;
      NodeFineOf(w, c[i], numeric);
      SavedCondition(c[i], numeric);
    }
  }

  /** What the builder saves it can open and save again, and every later trip changes nothing. */
  lemma OneTripSettles(w: Canvas, newId: Id, laterId: Id, numeric: Value -> bool)
    requires Runnable(w, numeric)
    ensures NodesOf(w, TriggerNode) != [] && Splits(w)
    ensures var a := Meaning(w, newId);
            && Runs(a, numeric) && Runnable(CanvasOf(a), numeric) && NodesOf(CanvasOf(a), TriggerNode) != [] && Splits(CanvasOf(a))
            && Meaning(CanvasOf(a), laterId) == a
  {
    hide NodesOf, Arrangement, IsArrangement, Runnable, NodeFine, ActionRuns, ConditionRuns, TriggerRuns, ActionOf,
      ConditionOf, TriggerOf, CarriableAction, CarriableTrigger, Blank, Strip;
    RunnableSplits(w, numeric);
    var a := Meaning(w, newId);
    SavedName(w);
    OneTrigger(w, numeric);
    SavedConditions(w, numeric);
    SavedActions(w, numeric);
    assert a.actions + a.followUps == ActionsOf(Arrangement(w));
    RoundTripIffCarriable(a, laterId, numeric);
  }

  lemma SavedName(w: Canvas)
    ensures Strip(Strip(w.name)) == Strip(w.name)
    ensures Blank(Strip(w.name)) <==> Blank(w.name)
  {
    StripTwice(w.name);
  }

  lemma OneTrigger(w: Canvas, numeric: Value -> bool)
    requires Runnable(w, numeric) && NodesOf(w, TriggerNode) != []
    ensures var t := TriggerOf(NodesOf(w, TriggerNode)[0]);
            TriggerRuns(t) && CarriableTrigger(t)
  {
    var n := NodesOf(w, TriggerNode)[0];
    assert n in NodesOf(w, TriggerNode);
    NodeFineOf(w, n, numeric);
    SavedTrigger(n, numeric);
  }
}
