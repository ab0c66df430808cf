/** Fan-out of one event over the automation triggers: one action row for every action of every
    matching trigger. */
module Automation {
  import opened JsText
  import opened Options

  datatype Rule = Rule(field: string, op: string, value: Option<string>)

  datatype Action = Action(kind: string, params: string)

  /** rules and actions are absent when the stored JSON has none. */
  datatype Trigger = Trigger(id: nat, eventType: string, isActive: bool, createdAt: int,
                             rules: Option<seq<Rule>>, actions: Option<seq<Action>>)

  /** A field of the customer, as String() renders it; null and undefined are absent. */
  type Customer = map<string, string>

  datatype ActionRow = ActionRow(
    tenant: string, trigger: nat, index: nat, kind: string, params: string, context: string)

  // ---------------------------------------------------------------- conditions

  ghost predicate Passes(rule: Rule, customer: Customer) {
    var field := if rule.field in customer then customer[rule.field] else "";
    var value := rule.value.GetOr("");
    match rule.op
    case "equals" => field == value
    case "not_equals" => field != value
    case "contains" => Occurs(field, value)
    case "starts_with" => value <= field
    case "is_empty" => Blank(field)
    case "is_not_empty" => !Blank(field)
    case _ => true  // an unknown operator never excludes
  }

  ghost predicate Matches(rules: seq<Rule>, customer: Customer) {
    forall i :: 0 <= i < |rules| ==> Passes(rules[i], customer)
  }

  /** The switch on the operator. */
  function FailsRule(rule: Rule, customer: Customer): (b: bool)
    ensures b <==> !Passes(rule, customer)
  {
    var field := if rule.field in customer then customer[rule.field] else "";
    var value := rule.value.GetOr("");
    TrimIsEmptyIffBlank(field);
    match rule.op
    case "equals" => field != value
    case "not_equals" => field == value
    case "contains" => !Includes(field, value)
    case "starts_with" => !(value <= field)
    case "is_empty" => Trim(field) != ""
    case "is_not_empty" => Trim(field) == ""
    case _ => false
  }

  method EvaluateConditions(conditions: Option<seq<Rule>>, customer: Customer) returns (b: bool)
    ensures b <==> Matches(conditions.GetOr([]), customer)
  {
    var rules := conditions.GetOr([]);
    if |rules| == 0 {
      return true;
    }
    for i := 0 to |rules|
      invariant Matches(rules[..i], customer)
    {
      if FailsRule(rules[i], customer) {
        return false;
      }
      assert rules[..i + 1] == rules[..i] + [rules[i]];
    }
    assert rules[..|rules|] == rules;
    return true;
  }

  // ---------------------------------------------------------------- fan-out

  ghost predicate Fires(t: Trigger, customer: Customer) {
    Matches(t.rules.GetOr([]), customer)
  }

  function ActionsOf(t: Trigger): seq<Action> {
    t.actions.GetOr([])
  }

  /** How many rows the first n triggers yield. */
  ghost function RowsBefore(ts: seq<Trigger>, customer: Customer, n: nat): nat
    requires n <= |ts|
  {
    if n == 0 then 0
    else RowsBefore(ts, customer, n - 1) + if Fires(ts[n - 1], customer) then |ActionsOf(ts[n - 1])| else 0
  }

  function RowFor(tenant: string, t: Trigger, j: nat, context: string): ActionRow
    requires j < |ActionsOf(t)|
  {
    ActionRow(tenant, t.id, j, ActionsOf(t)[j].kind, ActionsOf(t)[j].params, context)
  }

  /** The row of action j of trigger i is where all earlier rows leave off. */
  ghost predicate Placed(rows: seq<ActionRow>, ts: seq<Trigger>, tenant: string, customer: Customer,
                         context: string, i: nat, j: nat)
    requires i < |ts| && j < |ActionsOf(ts[i])|
  {
    && RowsBefore(ts, customer, i) + j < |rows|
    && rows[RowsBefore(ts, customer, i) + j] == RowFor(tenant, ts[i], j, context)
  }

  ghost predicate PlacedUpTo(rows: seq<ActionRow>, ts: seq<Trigger>, tenant: string, customer: Customer,
                             context: string, n: nat)
    requires n <= |ts|
  {
    forall i, j :: 0 <= i < n && 0 <= j < |ActionsOf(ts[i])| && Fires(ts[i], customer) ==>
      Placed(rows, ts, tenant, customer, context, i, j)
  }

  /** The rows are those of the firing triggers, trigger by trigger and action by action. */
  ghost predicate IsFanOut(rows: seq<ActionRow>, ts: seq<Trigger>, tenant: string, customer: Customer,
                           context: string) {
    && |rows| == RowsBefore(ts, customer, |ts|)
    && PlacedUpTo(rows, ts, tenant, customer, context, |ts|)
  }

  /** What the query may return: the active triggers of the event type, oldest first, ties in any order. */
  ghost predicate Selected(table: set<Trigger>, eventType: string, ts: seq<Trigger>) {
    && (forall t :: t in ts <==> t in table && t.isActive && t.eventType == eventType)
    && (forall i, j :: 0 <= i < j < |ts| ==> ts[i] != ts[j] && ts[i].createdAt <= ts[j].createdAt)
  }

  /** ts is the result of the trigger query; rows is what the single INSERT receives. */
  method FireTriggerEvents(ts: seq<Trigger>, tenant: string, customer: Customer, context: string)
    returns (rows: seq<ActionRow>)
    ensures IsFanOut(rows, ts, tenant, customer, context)
  {
    rows := [];
    for n := 0 to |ts|
      invariant |rows| == RowsBefore(ts, customer, n)
      invariant PlacedUpTo(rows, ts, tenant, customer, context, n)
    {
      var matches := EvaluateConditions(ts[n].rules, customer);
      var actions := ActionsOf(ts[n]);
      if matches && |actions| > 0 {
        for k := 0 to |actions|
          invariant |rows| == RowsBefore(ts, customer, n) + k
          invariant PlacedUpTo(rows, ts, tenant, customer, context, n)
          invariant forall j :: 0 <= j < k ==> Placed(rows, ts, tenant, customer, context, n, j)
        {
          ghost var before := rows;
          rows := rows + [ActionRow(tenant, ts[n].id, k, actions[k].kind, actions[k].params, context)];
          AppendKeepsPlaced(before, rows, ts, tenant, customer, context, n);
          forall j | 0 <= j <= k ensures Placed(rows, ts, tenant, customer, context, n, j) {
            assert j < k ==> Placed(before, ts, tenant, customer, context, n, j);
          }
        }
      }
    }
  }

  lemma AppendKeepsPlaced(before: seq<ActionRow>, rows: seq<ActionRow>, ts: seq<Trigger>, tenant: string,
                          customer: Customer, context: string, n: nat)
    requires before <= rows && n <= |ts| && PlacedUpTo(before, ts, tenant, customer, context, n)
    ensures PlacedUpTo(rows, ts, tenant, customer, context, n)
  {
    forall i, j | 0 <= i < n && 0 <= j < |ActionsOf(ts[i])| && Fires(ts[i], customer)
      ensures Placed(rows, ts, tenant, customer, context, i, j)
    {
      assert Placed(before, ts, tenant, customer, context, i, j);
    }
  }

  /** Every row belongs to a firing trigger and one of its actions... */
  lemma {:induction false} RowComesFrom(ts: seq<Trigger>, customer: Customer, k: nat, n: nat) returns (i: nat, j: nat)
    requires n <= |ts| && k < RowsBefore(ts, customer, n)
    ensures i < n && Fires(ts[i], customer) && j < |ActionsOf(ts[i])|
    ensures k == RowsBefore(ts, customer, i) + j
    decreases n
  {
    if k < RowsBefore(ts, customer, n - 1) {
      i, j := RowComesFrom(ts, customer, k, n - 1);
    } else {
      i, j := n - 1, k - RowsBefore(ts, customer, n - 1);
    }
  }

  /** Action index of the active trigger with id t is one that this event fires. */
  ghost predicate ShouldRun(table: set<Trigger>, eventType: string, customer: Customer, t: nat, index: nat) {
    exists trigger :: trigger in table && trigger.id == t && trigger.isActive && trigger.eventType == eventType
                      && Fires(trigger, customer) && index < |ActionsOf(trigger)|
  }

  /** Row k is for action index of the trigger with id t. */
  predicate IsRowOf(rows: seq<ActionRow>, k: int, t: nat, index: nat) {
    0 <= k < |rows| && rows[k].trigger == t && rows[k].index == index
  }

  /** ...and to no other: a completed fire yields one row per active matching trigger and action
      index, and nothing else. */
  lemma OneRowEach(table: set<Trigger>, eventType: string, ts: seq<Trigger>, rows: seq<ActionRow>,
                   tenant: string, customer: Customer, context: string, t: nat, index: nat)
    requires IsKeyed(table) && Selected(table, eventType, ts)
    requires IsFanOut(rows, ts, tenant, customer, context)
    ensures ShouldRun(table, eventType, customer, t, index) <==> exists k :: IsRowOf(rows, k, t, index)
    ensures forall k, m :: IsRowOf(rows, k, t, index) && IsRowOf(rows, m, t, index) ==> k == m
  {
    KeyedSelection(table, eventType, ts);
    if ShouldRun(table, eventType, customer, t, index) {
      var trigger :| trigger in table && trigger.id == t && trigger.isActive && trigger.eventType == eventType
                     && Fires(trigger, customer) && index < |ActionsOf(trigger)|;
      var i :| 0 <= i < |ts| && ts[i] == trigger;
      assert Placed(rows, ts, tenant, customer, context, i, index);
      assert IsRowOf(rows, RowsBefore(ts, customer, i) + index, t, index);
    }
    forall k, m | IsRowOf(rows, k, t, index) && IsRowOf(rows, m, t, index) ensures k == m {
      var _ := RowHasOnePlace(rows, ts, tenant, customer, context, k, m);
    }
    if k :| IsRowOf(rows, k, t, index) {
      var i := RowHasOnePlace(rows, ts, tenant, customer, context, k, k);
      assert ts[i] in table;
    }
  }

  /** The id is the primary key. */
  ghost predicate IsKeyed(table: set<Trigger>) {
    forall a, b :: a in table && b in table && a.id == b.id ==> a == b
  }

  ghost predicate DistinctIds(ts: seq<Trigger>) {
    forall a, b :: 0 <= a < b < |ts| ==> ts[a].id != ts[b].id
  }

  lemma KeyedSelection(table: set<Trigger>, eventType: string, ts: seq<Trigger>)
    requires IsKeyed(table) && Selected(table, eventType, ts)
    ensures DistinctIds(ts)
  {
  }

  lemma RowHasOnePlace(rows: seq<ActionRow>, ts: seq<Trigger>, tenant: string, customer: Customer, context: string,
                       k: nat, m: nat) returns (i: nat)
    requires IsFanOut(rows, ts, tenant, customer, context) && DistinctIds(ts)
    requires k < |rows| && IsRowOf(rows, m, rows[k].trigger, rows[k].index)
    ensures k == m && i < |ts| && ts[i].id == rows[k].trigger
    ensures Fires(ts[i], customer) && rows[k].index < |ActionsOf(ts[i])|
  {
    var j, i', j';
    i, j := RowComesFrom(ts, customer, k, |ts|);
    assert Placed(rows, ts, tenant, customer, context, i, j);
    i', j' := RowComesFrom(ts, customer, m, |ts|);
    assert Placed(rows, ts, tenant, customer, context, i', j');
  }

  /** A trigger with rules added, in whatever order. */
  predicate Stricter(t: Trigger, t': Trigger) {
    && t' == t.(rules := t'.rules)
    && forall r :: r in t.rules.GetOr([]) ==> r in t'.rules.GetOr([])
  }

  /** Adding rules never adds rows. */
  lemma MoreRulesFewerRows(rows: seq<ActionRow>, rows': seq<ActionRow>, ts: seq<Trigger>, ts': seq<Trigger>,
                           tenant: string, customer: Customer, context: string)
    requires |ts| == |ts'| && forall i :: 0 <= i < |ts| ==> Stricter(ts[i], ts'[i])
    requires IsFanOut(rows, ts, tenant, customer, context) && IsFanOut(rows', ts', tenant, customer, context)
    ensures forall k :: 0 <= k < |rows'| ==> rows'[k] in rows
    ensures |rows'| <= |rows|
  {
    forall k | 0 <= k < |rows'| ensures rows'[k] in rows {
      var i, j := RowComesFrom(ts', customer, k, |ts'|);
      StricterFires(ts[i], ts'[i], customer);
      assert Placed(rows', ts', tenant, customer, context, i, j);
      assert Placed(rows, ts, tenant, customer, context, i, j);
      assert rows[RowsBefore(ts, customer, i) + j] == rows'[k];
    }
    FewerRowsBefore(ts, ts', customer, |ts|);
  }

  lemma StricterFires(t: Trigger, t': Trigger, customer: Customer)
    requires Stricter(t, t') && Fires(t', customer)
    ensures Fires(t, customer)
  {
    var rules, rules' := t.rules.GetOr([]), t'.rules.GetOr([]);
    forall i | 0 <= i < |rules| ensures Passes(rules[i], customer) {
      assert rules[i] in rules';
    }
  }

  lemma {:induction false} FewerRowsBefore(ts: seq<Trigger>, ts': seq<Trigger>, customer: Customer, n: nat)
    requires |ts| == |ts'| && n <= |ts| && forall i :: 0 <= i < |ts| ==> Stricter(ts[i], ts'[i])
    ensures RowsBefore(ts', customer, n) <= RowsBefore(ts, customer, n)
    decreases n
  {
    if n > 0 {
      FewerRowsBefore(ts, ts', customer, n - 1);
      if Fires(ts'[n - 1], customer) {
        StricterFires(ts[n - 1], ts'[n - 1], customer);
      }
    }
  }
}
