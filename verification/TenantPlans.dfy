/** Plugins of one tenant: the toggle guard, the tier defaults and the plugin delta of a tier
    change, and when each of them keeps the enabled set closed under dependencies. */
module TenantPlans {
  import opened Options
  import opened PluginGraph

  datatype Tier = Basic | Premium | Enterprise | Vip

  datatype Status = Provisioning | Active | Migrating | GracePeriod | Suspended | Offboarding | Offboarded

  const BUILT_IN: Graph := map[
    "customer-data" := [],
    "customer-care" := ["customer-data"],
    "analytics" := [],
    "automation" := ["customer-data", "analytics"],
    "marketing" := ["customer-data"]
  ]

  function Defaults(t: Tier): set<string> {
    match t
    case Basic => {"customer-data"}
    case Premium => {"customer-data", "customer-care", "analytics"}
    case Enterprise => {"customer-data", "customer-care", "analytics", "marketing"}
    case Vip => {"customer-data", "customer-care", "analytics", "marketing", "automation"}
  }

  function Rank(t: Tier): nat {
    match t case Basic => 0 case Premium => 1 case Enterprise => 2 case Vip => 3
  }

  function ParsePlan(plan: string): Option<Tier> {
    if plan == "basic" then Some(Basic)
    else if plan == "premium" then Some(Premium)
    else if plan == "enterprise" then Some(Enterprise)
    else if plan == "vip" then Some(Vip)
    else None
  }

  function NameOf(t: Tier): string {
    match t case Basic => "basic" case Premium => "premium" case Enterprise => "enterprise" case Vip => "vip"
  }

  /** Every enabled registered plugin has all its dependencies enabled. */
  ghost predicate Closed(g: Graph, enabled: set<string>) {
    forall p, d :: p in enabled && p in g && d in g[p] ==> d in enabled
  }

  // ---------------------------------------------------------------- toggles

  /** On a closed set a call is accepted exactly when what it leaves is closed; a plugin that depends
      on itself can, besides, not be switched at all. */
  lemma AcceptedIffClosed(g: Graph, enabled: set<string>, t: Toggle)
    requires Closed(g, enabled) && t.plugin in g
    ensures (Accepts(g, enabled, t) <==>
               Closed(g, Toggled(enabled, t)) && (t.plugin in g[t.plugin] ==> (t.plugin in enabled <==> t.on)))
  {
  }

  lemma ToggleStaysClosed(g: Graph, enabled: set<string>, t: Toggle)
    requires Closed(g, enabled) && Accepts(g, enabled, t)
    ensures Closed(g, Toggled(enabled, t))
  {
  }

  lemma {:induction false} ToggleRunsStayClosed(g: Graph, enabled: set<string>, run: seq<Toggle>)
    requires Closed(g, enabled) && AcceptedRun(g, enabled, run)
    ensures Closed(g, After(enabled, run))
    decreases |run|
  {
    if run != [] {
      ToggleRunsStayClosed(g, enabled, run[..|run| - 1]);
    }
  }

  // ---------------------------------------------------------------- tier changes

  function ToEnable(was: Tier, to: Tier): set<string> { Defaults(to) - Defaults(was) }

  function ToDisable(was: Tier, to: Tier): set<string> { Defaults(was) - Defaults(to) }

  /** The enabled set after the plugin delta of a tier change. */
  function AfterTierChange(enabled: set<string>, was: Tier, to: Tier): set<string> {
    enabled + ToEnable(was, to) - ToDisable(was, to)
  }

  lemma DefaultsClosed(t: Tier)
    ensures Closed(BUILT_IN, Defaults(t))
  {
  }

  lemma DefaultsToDefaults(was: Tier, to: Tier)
    ensures AfterTierChange(Defaults(was), was, to) == Defaults(to)
  {
  }

  /** What a closed enabled set must look like for a tier change to keep it closed: an upgrade
      switches on plugins whose dependencies it takes for granted, and a downgrade to basic
      switches analytics off under an automation plugin it does not know about. */
  predicate TierChangeIsSafe(enabled: set<string>, was: Tier, to: Tier) {
    && (Rank(to) > Rank(was) ==> "customer-data" in enabled)
    && (to == Vip && (was == Premium || was == Enterprise) ==> "analytics" in enabled)
    && (to == Basic && (was == Premium || was == Enterprise) ==> "automation" !in enabled)
  }

  lemma TierChangeClosedIff(enabled: set<string>, was: Tier, to: Tier)
    requires Closed(BUILT_IN, enabled)
    ensures Closed(BUILT_IN, AfterTierChange(enabled, was, to)) <==> TierChangeIsSafe(enabled, was, to)
  {
    var after := AfterTierChange(enabled, was, to);
    BuiltInClosed(enabled);
    BuiltInClosed(after);
  }

  /** Closure over the built-in manifests, edge by edge. */
  lemma BuiltInClosed(enabled: set<string>)
    ensures Closed(BUILT_IN, enabled) <==>
              && ("customer-care" in enabled ==> "customer-data" in enabled)
              && ("marketing" in enabled ==> "customer-data" in enabled)
              && ("automation" in enabled ==> "customer-data" in enabled && "analytics" in enabled)
  {
  }

  /** A premium tenant that enabled automation by hand loses analytics, but not automation, when
      it moves to basic. */
  lemma DowngradeCanBreakClosure()
    ensures var e := Defaults(Premium) + {"automation"};
            && Accepts(BUILT_IN, Defaults(Premium), Toggle("automation", true))
            && Closed(BUILT_IN, e)
            && !Closed(BUILT_IN, AfterTierChange(e, Premium, Basic))
  {
    var e := Defaults(Premium) + {"automation"};
    BuiltInClosed(e);
    TierChangeClosedIff(e, Premium, Basic);
  }

  /** A failed vip migration puts the tier back and leaves the plugins of vip enabled; from there a
      move is safe unless it is to basic. */
  lemma SafeAfterRollback(enabled: set<string>, was: Tier, to: Tier)
    requires Closed(BUILT_IN, enabled) && was != Vip && TierChangeIsSafe(enabled, was, Vip)
    ensures var e := AfterTierChange(enabled, was, Vip);
            && Closed(BUILT_IN, e)
            && (TierChangeIsSafe(e, was, to) <==> !(to == Basic && (was == Premium || was == Enterprise)))
  {
    TierChangeClosedIff(enabled, was, Vip);
    assert "automation" in ToEnable(was, Vip) && "customer-data" !in ToDisable(was, Vip);
    assert "analytics" !in ToDisable(was, Vip) && (was == Basic ==> "analytics" in ToEnable(was, Vip));
  }

  // ---------------------------------------------------------------- administration runs

  /** RollBack: a vip migration that started from tier to fails. */
  datatype AdminOp = DoToggle(t: Toggle) | ChangeTier(to: Tier) | RollBack(to: Tier) | Offboard

  datatype Plan = Plan(tier: Tier, enabled: set<string>)

  ghost predicate AdminAccepts(s: Plan, op: AdminOp) {
    match op
    case DoToggle(t) => Accepts(BUILT_IN, s.enabled, t)
    case ChangeTier(to) => TierChangeIsSafe(s.enabled, s.tier, to)
    case RollBack(_) => true
    case Offboard => true
  }

  function AdminStep(s: Plan, op: AdminOp): Plan {
    match op
    case DoToggle(t) => s.(enabled := Toggled(s.enabled, t))
    case ChangeTier(to) => Plan(to, AfterTierChange(s.enabled, s.tier, to))
    case RollBack(to) => s.(tier := to)
    case Offboard => s.(enabled := {})
  }

  /** From provisioning on, every run of accepted toggles, safe tier changes, failed migrations and
      offboardings keeps the enabled set closed at every step. */
  lemma {:induction false} AdminRunsStayClosed(start: Tier, states: seq<Plan>, ops: seq<AdminOp>)
    requires |states| == |ops| + 1 && states[0] == Plan(start, Defaults(start))
    requires forall i :: 0 <= i < |ops| ==>
               AdminAccepts(states[i], ops[i]) && states[i + 1] == AdminStep(states[i], ops[i])
    ensures forall i :: 0 <= i < |states| ==> Closed(BUILT_IN, states[i].enabled)
    decreases |ops|
  {
    if ops == [] {
      DefaultsClosed(start);
    } else {
      var n := |ops| - 1;
      AdminRunsStayClosed(start, states[..n + 1], ops[..n]);
      assert states[..n + 1][n] == states[n];
      if ops[n].ChangeTier? {
        TierChangeClosedIff(states[n].enabled, states[n].tier, ops[n].to);
      }
      forall i | 0 <= i < |states| ensures Closed(BUILT_IN, states[i].enabled) {
        if i <= n {
          assert states[..n + 1][i] == states[i];
        }
      }
    }
  }

  /** The downgrade preview: what it lists is exactly what confirming it takes away. */
  lemma PreviewIsExact(enabled: set<string>, was: Tier, to: Tier)
    requires Rank(to) < Rank(was)
    ensures AfterTierChange(enabled, was, to) == enabled - ToDisable(was, to)
    ensures ToDisable(was, to) != {}
  {
    assert ToEnable(was, to) == {};
    assert "analytics" in Defaults(Premium) && "marketing" in Defaults(Enterprise) && "automation" in Defaults(Vip);
  }

  // ---------------------------------------------------------------- the service

  datatype PluginRow = PluginRow(enabled: bool, initialized: bool)

  datatype Job =
    | PluginInit(plugin: string)
    | VipMigrate(currentTier: Tier)
    | VipDecommission(newTier: Tier)

  datatype ToggleOutcome =
    | ToggleDone(initializing: bool)
    | UnknownPlugin
    | DependencyError(missing: seq<string>, blocking: seq<string>)

  datatype UpdateOutcome = Updated | Unchanged | InvalidPlan

  function EnabledIn(rows: map<string, PluginRow>): (s: set<string>)
    ensures forall p :: p in s <==> p in rows && rows[p].enabled
  {
    set p | p in rows && rows[p].enabled
  }

  /** The tenants row of one tenant with its tenant_plugins rows, and the jobs queued for it. */
  class Tenant {
    const deps: PluginDependencyService
    var tier: Tier
    var status: Status
    var isActive: bool
    var name: string
    var rows: map<string, PluginRow>
    var jobs: seq<Job>

    ghost predicate Valid() {
      deps.Valid() && deps.index == BUILT_IN
    }

    ghost function Enabled(): set<string>
      reads this
    {
      EnabledIn(rows)
    }

    /** What an administration run is about. */
    ghost function CurrentPlan(): Plan
      reads this
    {
      Plan(tier, Enabled())
    }

    /** Provisioning: the tier defaults are inserted one by one, then the tenant is activated. */
    constructor (deps: PluginDependencyService, name: string, plan: Tier, defaults: seq<string>)
      requires deps.Valid() && deps.index == BUILT_IN
      requires forall p :: p in defaults <==> p in Defaults(plan)
      ensures Valid()
      ensures tier == plan && status == Active && isActive && this.name == name && jobs == []
      ensures CurrentPlan() == Plan(plan, Defaults(plan)) && Closed(BUILT_IN, Enabled())
      ensures rows.Keys == Defaults(plan) && forall p :: p in rows ==> !rows[p].initialized
    {
      this.deps := deps;
      this.name, this.tier, this.status, this.isActive := name, plan, Provisioning, true;
      this.rows, this.jobs := map[], [];
      new;
      for i := 0 to |defaults|
        modifies `rows
        invariant forall p :: p in rows <==> p in defaults[..i]
        invariant forall p :: p in rows ==> rows[p].enabled && !rows[p].initialized
      {
        if defaults[i] !in rows {
          rows := rows[defaults[i] := PluginRow(true, false)];
        }
        assert defaults[..i + 1] == defaults[..i] + [defaults[i]];
      }
      assert defaults[..|defaults|] == defaults;
      status := Active;
      DefaultsClosed(plan);
      assert forall p :: p in Enabled() <==> p in defaults;
    }

    method TogglePlugin(plugin: string, on: bool) returns (r: ToggleOutcome)
      requires Valid()
      modifies `rows, `jobs
      ensures r.ToggleDone? <==> Accepts(BUILT_IN, old(Enabled()), Toggle(plugin, on))
      ensures r.ToggleDone? ==> Enabled() == Toggled(old(Enabled()), Toggle(plugin, on))
      ensures r.ToggleDone? ==> CurrentPlan() == AdminStep(old(CurrentPlan()), DoToggle(Toggle(plugin, on)))
      ensures (r.ToggleDone? ==>
                 && plugin in rows
                 && rows[plugin] == PluginRow(on, plugin in old(rows) && old(rows)[plugin].initialized))
      ensures forall p :: p != plugin ==> (p in rows <==> p in old(rows)) && (p in rows ==> rows[p] == old(rows)[p])
      ensures r.ToggleDone? ==> r.initializing == (on && (plugin in old(rows) ==> !old(rows)[plugin].initialized))
      ensures jobs == old(jobs) + if r.ToggleDone? && r.initializing then [PluginInit(plugin)] else []
      ensures !r.ToggleDone? ==> rows == old(rows)
      ensures r.UnknownPlugin? <==> plugin !in BUILT_IN
      ensures r.DependencyError? ==>
                && (forall d :: d in r.missing <==> on && d in BUILT_IN[plugin] && d !in old(Enabled()))
                && (forall q :: q in r.blocking <==>
                      !on && q in BUILT_IN && plugin in BUILT_IN[q] && q in old(Enabled()))
      ensures Closed(BUILT_IN, old(Enabled())) ==> Closed(BUILT_IN, Enabled())
    {
      hide Closed, Defaults, AfterTierChange, Accepts, Toggled;
      if plugin !in BUILT_IN {
        NotAccepted(BUILT_IN, EnabledIn(rows), plugin, on);
        return UnknownPlugin;
      }
      var enabled := EnabledIn(rows);
      if on {
        var missing := deps.GetMissingDeps(plugin, enabled);
        MissingRefuses(BUILT_IN, enabled, plugin, missing);
        if missing != [] {
          return DependencyError(missing, []);
        }
        var first := plugin in rows ==> !rows[plugin].initialized;
        rows := rows[plugin := PluginRow(true, plugin in rows && rows[plugin].initialized)];
        if first {
          jobs := jobs + [PluginInit(plugin)];
        }
        r := ToggleDone(first);
      } else {
        var blocking := deps.GetBlockingDependents(plugin, enabled);
        BlockingRefuses(BUILT_IN, enabled, plugin, blocking);
        if blocking != [] {
          return DependencyError([], blocking);
        }
        rows := rows[plugin := PluginRow(false, plugin in rows && rows[plugin].initialized)];
        r := ToggleDone(false);
      }
      RowToggled(old(rows), plugin, rows[plugin]);
      if Closed(BUILT_IN, enabled) {
        ToggleStaysClosed(BUILT_IN, enabled, Toggle(plugin, on));
      }
    }

    /** An empty plan or name counts as not given.  A move to or from vip gates the tenant and
        queues the matching processor; it overrides a status given in the same call. */
    method Update(newName: string, newStatus: Option<Status>, plan: string) returns (r: UpdateOutcome)
      requires Valid()
      modifies `tier, `status, `isActive, `name, `rows, `jobs
      ensures r == InvalidPlan <==> plan !in {"", "basic", "premium", "enterprise", "vip"}
      ensures r == Updated && plan != "" ==> CurrentPlan() == AdminStep(old(CurrentPlan()), ChangeTier(tier))
      ensures r == Unchanged <==> plan == "" && newName == "" && newStatus == None
      ensures r != Updated ==>
                && tier == old(tier) && status == old(status) && isActive == old(isActive)
                && name == old(name) && rows == old(rows) && jobs == old(jobs)
      ensures r == Updated ==>
                && (if plan == "" then tier == old(tier) else plan == NameOf(tier))
                && (forall p :: p in old(rows) ==> p in rows && rows[p].initialized == old(rows)[p].initialized)
                && (forall p :: p in rows && p !in old(rows) ==> !rows[p].initialized)
                && name == (if newName == "" then old(name) else newName)
                && Enabled() == AfterTierChange(old(Enabled()), old(tier), tier)
                && ((old(tier) == Vip) != (tier == Vip) ==>
                      && status == Migrating && !isActive
                      && jobs == old(jobs) + [if tier == Vip then VipMigrate(old(tier)) else VipDecommission(tier)])
                && ((old(tier) == Vip) == (tier == Vip) ==>
                      && jobs == old(jobs)
                      && match newStatus
                         case None => status == old(status) && isActive == old(isActive)
                         case Some(s) => status == s && isActive == (s == Active))
    {
      hide Defaults, Closed, AfterTierChange, ParsePlan, NameOf;
      NoDelta(Enabled(), tier);
      PlanNames(plan);
      if plan != "" && ParsePlan(plan) == None {
        return InvalidPlan;
      }
      var currentTier := tier;
      var isVipUpgrade := plan == "vip" && currentTier != Vip;
      var isVipDowngrade := plan != "" && plan != "vip" && currentTier == Vip;
      if plan == "" && newName == "" && newStatus == None {
        return Unchanged;
      }
      if newName != "" {
        name := newName;
      }
      if plan != "" {
        tier := ParsePlan(plan).value;
      }
      if isVipUpgrade || isVipDowngrade {
        status, isActive := Migrating, false;
      } else if newStatus != None {
        status, isActive := newStatus.value, newStatus.value == Active;
      }
      if plan != "" && tier != currentTier {
        rows := WithDelta(rows, currentTier, tier);
      }
      if isVipUpgrade {
        jobs := jobs + [VipMigrate(currentTier)];
      }
      if isVipDowngrade {
        jobs := jobs + [VipDecommission(tier)];
      }
      r := Updated;
    }

    /** What a failed vip migration does to the tenant: its status and tier are restored, its plugins
        are not. */
    method RollBackMigration(currentTier: Tier)
      modifies `tier, `status
      ensures tier == currentTier && status == Active
      ensures CurrentPlan() == AdminStep(old(CurrentPlan()), RollBack(currentTier))
    {
      status, tier := Active, currentTier;
    }

    method OffboardTenant()
      requires Valid()
      modifies `status, `isActive, `rows
      ensures status == Offboarded && !isActive
      ensures rows.Keys == old(rows).Keys && Enabled() == {} && Closed(BUILT_IN, Enabled())
      ensures CurrentPlan() == AdminStep(old(CurrentPlan()), Offboard)
      ensures forall p :: p in rows ==> rows[p].initialized == old(rows)[p].initialized
    {
      status, isActive := Offboarding, false;
      rows := map p | p in rows :: rows[p].(enabled := false);
      status := Offboarded;
    }
  }

  lemma NotAccepted(g: Graph, enabled: set<string>, plugin: string, on: bool)
    requires plugin !in g
    ensures !Accepts(g, enabled, Toggle(plugin, on))
  {
  }

  lemma MissingRefuses(g: Graph, enabled: set<string>, plugin: string, missing: seq<string>)
    requires plugin in g && forall d :: d in missing <==> d in g[plugin] && d !in enabled
    ensures missing == [] <==> Accepts(g, enabled, Toggle(plugin, true))
  {
    if missing != [] {
      assert missing[0] in missing;
    }
  }

  lemma BlockingRefuses(g: Graph, enabled: set<string>, plugin: string, blocking: seq<string>)
    requires plugin in g && forall q :: q in blocking <==> q in g && plugin in g[q] && q in enabled
    ensures blocking == [] <==> Accepts(g, enabled, Toggle(plugin, false))
  {
    if blocking != [] {
      assert blocking[0] in blocking;
    }
  }

  lemma RowToggled(rows: map<string, PluginRow>, plugin: string, row: PluginRow)
    ensures EnabledIn(rows[plugin := row]) == Toggled(EnabledIn(rows), Toggle(plugin, row.enabled))
  {
  }

  /** So a premium tenant whose move to vip fails and that then moves to basic has automation without
      analytics, with no toggle by hand. */
  method FailedVipBreaksClosure(deps: PluginDependencyService, defaults: seq<string>) returns (t: Tenant)
    requires deps.Valid() && deps.index == BUILT_IN
    requires forall p :: p in defaults <==> p in Defaults(Premium)
    ensures t.tier == Basic && "automation" in t.Enabled() && !Closed(BUILT_IN, t.Enabled())
  {
    hide Defaults, Closed, AfterTierChange, ParsePlan, Accepts, Toggled;
    PremiumFails();
    t := new Tenant(deps, "t", Premium, defaults);
    PlanNames("vip");
    PlanNames("basic");
    var _ := t.Update("", None, "vip");
    t.RollBackMigration(Premium);
    var _ := t.Update("", None, "basic");
  }

  lemma PremiumFails()
    ensures var vip := AfterTierChange(Defaults(Premium), Premium, Vip);
            var basic := AfterTierChange(vip, Premium, Basic);
            "automation" in basic && !Closed(BUILT_IN, basic)
  {
    DefaultsClosed(Premium);
    SafeAfterRollback(Defaults(Premium), Premium, Basic);
    var vip := AfterTierChange(Defaults(Premium), Premium, Vip);
    TierChangeClosedIff(vip, Premium, Basic);
    BuiltInClosed(AfterTierChange(vip, Premium, Basic));
  }

  lemma PlanNames(plan: string)
    ensures ParsePlan(plan) == None <==> plan !in {"basic", "premium", "enterprise", "vip"}
    ensures ParsePlan(plan).Some? ==> plan == NameOf(ParsePlan(plan).value)
    ensures ParsePlan(plan) == Some(Vip) <==> plan == "vip"
    ensures ParsePlan("") == None
  {
  }

  /** The two statements of a tier change. */
  function WithDelta(rows: map<string, PluginRow>, was: Tier, to: Tier): (r: map<string, PluginRow>)
    ensures EnabledIn(r) == AfterTierChange(EnabledIn(rows), was, to)
    ensures forall p :: p in rows ==> p in r && r[p].initialized == rows[p].initialized
    ensures forall p :: p in r && p !in rows ==> !r[p].initialized
  {
    ClearEnabled(SetEnabled(rows, ToEnable(was, to)), ToDisable(was, to))
  }

  lemma NoDelta(enabled: set<string>, t: Tier)
    ensures AfterTierChange(enabled, t, t) == enabled
  {
  }

  /** INSERT ... ON CONFLICT DO UPDATE SET is_enabled = true. */
  function SetEnabled(rows: map<string, PluginRow>, names: set<string>): (r: map<string, PluginRow>)
    ensures EnabledIn(r) == EnabledIn(rows) + names
    ensures forall p :: p in r ==> r[p].initialized == (p in rows && rows[p].initialized)
    ensures r.Keys == rows.Keys + names
  {
    var r := map p | p in rows.Keys + names ::
               if p in names then PluginRow(true, p in rows && rows[p].initialized) else rows[p];
    assert EnabledIn(r) == EnabledIn(rows) + names;
    r
  }

  /** UPDATE ... SET is_enabled = false WHERE plugin_name = ANY(names). */
  function ClearEnabled(rows: map<string, PluginRow>, names: set<string>): (r: map<string, PluginRow>)
    ensures EnabledIn(r) == EnabledIn(rows) - names
    ensures r.Keys == rows.Keys && forall p :: p in r ==> r[p].initialized == rows[p].initialized
  {
    map p | p in rows :: if p in names then rows[p].(enabled := false) else rows[p]
  }
}
