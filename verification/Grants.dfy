/** An agent's grant: what a scope lets a tool call do, when one version of an agent
    is wider than another, and who may edit it. */
module Grants {
  import opened Wrappers
  import opened Workflows

  // ---------------------------------------------------------------- calls and scopes

  datatype Value = Text(text: string) | Rate(rate: real) | Endless | Dict(fields: map<string, Value>) | Other

  type Args = map<string, Value>

  /** The tool registry, how strings read as numbers, and the operator's load cap
      for heartbeats (0 is none). */
  datatype Platform = Platform(tiers: map<string, Tier>, parse: string -> Option<Value>, loadCap: nat)

  datatype Scope = Scope(
    allow: set<string>,
    mode: Mode,
    projects: set<string>,
    environments: set<string>,
    loadCap: nat)

  const PROJECT_KEYS: seq<string> := ["project_id", "project"]
  const ENVIRONMENT_KEYS: seq<string> := ["environment", "environment_name", "env"]
  const NESTED: seq<string> := ["spec", "target", "extra"]

  /** Non-empty strings under the given keys of one dictionary. */
  function Named(args: Args, keys: seq<string>): seq<string> {
    if keys == [] then []
    else
      (if keys[0] in args && args[keys[0]].Text? && args[keys[0]].text != "" then [args[keys[0]].text] else [])
      + Named(args, keys[1..])
  }

  function Inner(args: Args, name: string): Args {
    if name in args && args[name].Dict? then args[name].fields else map[]
  }

  /** The projects or environments a call names, top level or one level down. */
  function ScopeValues(args: Args, keys: seq<string>): seq<string> {
    Named(args, keys) + Named(Inner(args, NESTED[0]), keys) + Named(Inner(args, NESTED[1]), keys)
    + Named(Inner(args, NESTED[2]), keys)
  }

  /** The first value outside `allowed`, unless everything is allowed. */
  function Outside(values: seq<string>, allowed: set<string>): Option<string> {
    if "*" in allowed || values == [] then None
    else if values[0] !in allowed then Some(values[0])
    else Outside(values[1..], allowed)
  }

  datatype Refusal = ProjectOutside(name: string) | EnvironmentOutside(name: string) | GlobalWrite | LoadTooHigh

  function CheckWriteScope(scope: Scope, tier: Tier, args: Args): Option<Refusal> {
    if tier == Read then None
    else
      var projects := ScopeValues(args, PROJECT_KEYS);
      var environments := ScopeValues(args, ENVIRONMENT_KEYS);
      var badProject := Outside(projects, scope.projects);
      var badEnvironment := Outside(environments, scope.environments);
      if badProject.Some? then Some(ProjectOutside(badProject.value))
      else if badEnvironment.Some? then Some(EnvironmentOutside(badEnvironment.value))
      else if projects == [] && environments == [] && "*" !in scope.projects then Some(GlobalWrite)
      else None
  }

  const LOAD_TOOL := "start_load_run"
  const RATE_KEYS: seq<string> := ["target_tps", "end_tps", "spike_tps", "start_tps", "base_tps"]

  /** The highest rate under the given keys; None is unbounded. */
  function PeakOf(platform: Platform, holder: Args, keys: seq<string>, peak: Option<real>): Option<real> {
    if keys == [] || peak.None? then peak
    else
      var raw := if keys[0] in holder then Some(holder[keys[0]]) else None;
      var v := if raw.Some? && raw.value.Text? then platform.parse(raw.value.text) else raw;
      var next :=
        if v.Some? && v.value.Endless? then None
        else if v.Some? && v.value.Rate? && v.value.rate > peak.value then Some(v.value.rate)
        else peak;
      PeakOf(platform, holder, keys[1..], next)
  }

  function RequestedTps(platform: Platform, args: Args): Option<real> {
    PeakOf(platform, Inner(args, "extra"), RATE_KEYS, PeakOf(platform, args, RATE_KEYS, Some(0.0)))
  }

  predicate OverCap(platform: Platform, scope: Scope, name: string, args: Args) {
    name == LOAD_TOOL && scope.loadCap != 0 &&
    (RequestedTps(platform, args).None? || RequestedTps(platform, args).value > scope.loadCap as real)
  }

  predicate TierOpen(mode: Mode, tier: Tier) {
    mode == Full || tier == Read
  }

  /** The calls whose handler a scoped dispatch invokes. */
  predicate Runs(platform: Platform, scope: Scope, name: string, args: Args) {
    && name in scope.allow && name in platform.tiers
    && TierOpen(scope.mode, platform.tiers[name])
    && CheckWriteScope(scope, platform.tiers[name], args).None?
    && !OverCap(platform, scope, name, args)
  }

  // ---------------------------------------------------------------- agents and widening

  datatype Agent = Agent(
    tools: set<string>,
    mode: Mode,
    projects: set<string>,
    environments: set<string>,
    invoke: seq<string>,
    edit: seq<string>,
    triggers: set<string>,
    dailyTokens: Option<nat>,
    maxTokens: nat,
    maxSteps: nat)

  function ScopeFor(platform: Platform, a: Agent): Scope {
    Scope(a.tools, a.mode, a.projects, a.environments, platform.loadCap)
  }

  datatype Widening =
    | ModeRises
    | ToolsAdded(tools: set<string>)
    | ProjectsGrow
    | EnvironmentsGrow
    | RbacChanges
    | TriggersAdded(kinds: set<string>)
    | BudgetGrows
    | LimitsGrow

  function Budget(b: Option<nat>): nat {
    if b.None? then 0 else b.value
  }

  predicate ListGrows(before: set<string>, after: set<string>) {
    "*" !in before && ("*" in after || !(after <= before))
  }

  predicate BudgetWidens(p: Option<nat>, n: Option<nat>) {
    Budget(n) > Budget(p) || (Budget(p) != 0 && Budget(n) == 0)
  }

  /** No part of the grant is larger: mode, tools, write scope, roles, unattended
      wakes, budget and limits. */
  predicate NotWider(p: Agent, n: Agent) {
    && ModeRank(n.mode) <= ModeRank(p.mode)
    && n.tools <= p.tools
    && ("*" in p.projects || n.projects <= p.projects)
    && ("*" in p.environments || n.environments <= p.environments)
    && n.invoke == p.invoke && n.edit == p.edit
    && n.triggers <= p.triggers
    && !BudgetWidens(p.dailyTokens, n.dailyTokens)
    && n.maxTokens <= p.maxTokens && n.maxSteps <= p.maxSteps
  }

  /** How `n` grows the grant of `p`; empty exactly when it does not. */
  method Widens(p: Agent, n: Agent) returns (reasons: seq<Widening>)
    ensures reasons == [] <==> NotWider(p, n)
  {
    reasons := [];
    if ModeRank(n.mode) > ModeRank(p.mode) {
      reasons := reasons + [ModeRises];
    }
    var added := n.tools - p.tools;
    if added != {} {
      reasons := reasons + [ToolsAdded(added)];
    }
    if ListGrows(p.projects, n.projects) {
      reasons := reasons + [ProjectsGrow];
    }
    if ListGrows(p.environments, n.environments) {
      reasons := reasons + [EnvironmentsGrow];
    }
    if n.invoke != p.invoke || n.edit != p.edit {
      reasons := reasons + [RbacChanges];
    }
    var kinds := n.triggers - p.triggers;
    if kinds != {} {
      reasons := reasons + [TriggersAdded(kinds)];
    }
    if BudgetWidens(p.dailyTokens, n.dailyTokens) {
      reasons := reasons + [BudgetGrows];
    }
    if n.maxTokens > p.maxTokens || n.maxSteps > p.maxSteps {
      reasons := reasons + [LimitsGrow];
    }
    DifferenceEmpty(n.tools, p.tools);
    DifferenceEmpty(n.triggers, p.triggers);
  }

  lemma DifferenceEmpty(a: set<string>, b: set<string>)
    ensures a - b == {} <==> a <= b
  {
    if a - b == {} {
      forall x | x in a
        ensures x in b
      {
        assert x !in a - b;
      }
    }
  }

  // ---------------------------------------------------------------- not wider is a refinement

  /** What is inside a smaller list is inside a larger one. */
  lemma {:induction false} OutsideShrinks(values: seq<string>, small: set<string>, large: set<string>)
    requires "*" in large || small <= large
    requires Outside(values, small).None?
    ensures Outside(values, large).None?
  {
    if values != [] && "*" !in small && "*" !in large {
      OutsideShrinks(values[1..], small, large);
    }
  }

  /** Publishing a version that is not wider only takes calls away: whatever the
      new version may run, with any arguments, the old one could. */
  lemma NotWiderRefines(platform: Platform, p: Agent, n: Agent, name: string, args: Args)
    requires NotWider(p, n) && Runs(platform, ScopeFor(platform, n), name, args)
    ensures Runs(platform, ScopeFor(platform, p), name, args)
  {
    if platform.tiers[name] != Read {
      OutsideShrinks(ScopeValues(args, PROJECT_KEYS), n.projects, p.projects);
      OutsideShrinks(ScopeValues(args, ENVIRONMENT_KEYS), n.environments, p.environments);
    }
  }

  /** Not being wider chains. */
  lemma NotWiderChains(p: Agent, q: Agent, n: Agent)
    requires NotWider(p, q) && NotWider(q, n)
    ensures NotWider(p, n)
  {
  }

  /** So the calls a version may run are among those of any version it is not wider than. */
  predicate RunsNoMore(platform: Platform, p: Agent, n: Agent, name: string, args: Args) {
    Runs(platform, ScopeFor(platform, n), name, args) ==> Runs(platform, ScopeFor(platform, p), name, args)
  }

  // ---------------------------------------------------------------- who may publish

  /** A caller: its roles, and whether it carries a dev, static or service mark. */
  datatype Caller = Caller(roles: set<string>, trusted: bool)

  predicate IsAdmin(admins: set<string>, c: Caller) {
    c.trusted || c.roles * admins != {}
  }

  function Members(roles: seq<string>): set<string> {
    set r | r in roles
  }

  /** Editors are the admins and whoever the active version names. */
  predicate MayEdit(admins: set<string>, active: Option<Agent>, c: Caller) {
    c.trusted || c.roles * (admins + if active.Some? then Members(active.value.edit) else {}) != {}
  }

  /** Without an active version only admins are editors. */
  lemma OnlyAdminsFirst(admins: set<string>, c: Caller)
    ensures MayEdit(admins, None, c) <==> IsAdmin(admins, c)
  {
    assert admins + {} == admins;
  }
}
