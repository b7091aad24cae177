/** Automation rules: WHEN a trigger IF conditions DO actions THEN follow-ups. */
module Rules {
  import opened Common

  type Id = nat

  /** A value of any type, by what the rules ask of it: its text, its truth, whether it is a list; `tag` keeps different
      values apart. */
  datatype Value =
    | Null
    | Text(text: string)
    | Other(tag: int, shown: string, truthy: bool, list: bool)

  function Shown(v: Value): string {
    match v case Null => "None" case Text(t) => t case Other(_, shown, _, _) => shown
  }

  predicate Truthy(v: Value) {
    match v case Null => false case Text(t) => t != "" case Other(_, _, truthy, _) => truthy
  }

  predicate IsList(v: Value) {
    v.Other? && v.list
  }

  datatype Trigger = Trigger(kind: string, eventKind: string, cron: Option<string>, field: Option<string>)

  datatype Condition = Condition(field: string, op: string, value: Value)

  datatype Action = Action(kind: string, name: string, args: map<string, Value>, deviceHint: Option<string>)

  datatype Priority = Critical | Important | Normal | Low

  datatype Budget = Budget(usd: real, seconds: int, toolCalls: int)

  /** How readily Thursday speaks up: 0 is off, 3 is high. */
  type Level = n: nat | n <= 3

  const NORMAL_LEVEL: Level := 2

  datatype Automation = Automation(
    id: Id, name: string, trigger: Trigger, conditions: seq<Condition>, actions: seq<Action>, followUps: seq<Action>,
    enabled: bool, proactivityMin: Level, budget: Budget, suggested: bool, priority: Priority,
    lastRunAt: Option<int>, runCount: nat)
}
