/** Go/No-Go: a finished run against an explicit policy. */
module ReleaseGates {
  import opened Wrappers

  // ---------------------------------------------------------------- runs, packs, policies

  /** A missing status is None. */
  datatype StepRow = StepRow(id: string, status: Option<string>)

  datatype ScenarioRow = ScenarioRow(
    name: Option<string>,
    id: Option<string>,
    status: Option<string>,
    priority: Option<string>,
    steps: seq<StepRow>)

  datatype Detail = Detail(scenarios: seq<ScenarioRow>, environment: Option<string>)

  datatype PackCase = PackCase(scenario: Option<string>, id: Option<string>, priority: Option<string>)

  /** `blank` is an empty pack document, which scores like no pack at all. */
  datatype Pack = Pack(blank: bool, cases: seq<PackCase>)

  datatype Tier = Tier(priority: string, threshold: real)

  datatype Policy = Policy(
    tiers: seq<Tier>,
    requireCoverage: bool,
    forbidNotRun: bool,
    maxRegressions: int,
    environments: Option<set<string>>)

  const TIER_ALL := "all"
  const SKIPS: set<string> := {"not_run", "blocked", "pending"}

  datatype Case = Case(status: Option<string>, priority: Option<string>)

  predicate Passed(c: Case) {
    c.status == Some("passed")
  }

  // ---------------------------------------------------------------- scoring

  /** Scenario status by name; of two scenarios with one name the later wins. */
  function ByName(scenarios: seq<ScenarioRow>): map<Option<string>, Option<string>> {
    if scenarios == [] then map[]
    else
      var last := scenarios[|scenarios| - 1];
      ByName(scenarios[..|scenarios| - 1])[last.name := last.status]
  }

  function Truthy(s: Option<string>, other: Option<string>): Option<string> {
    if s.Some? && s.value != "" then s else other
  }

  function ScoreCase(byName: map<Option<string>, Option<string>>, c: PackCase): Case {
    var name := Truthy(c.scenario, c.id);
    Case(if name in byName then byName[name] else Some("not_run"), c.priority)
  }

  /** Pack cases if there is a pack, else one case per scenario. */
  function Cases(d: Detail, pack: Option<Pack>): seq<Case> {
    if pack.Some? && !pack.value.blank then
      seq(|pack.value.cases|, i requires 0 <= i < |pack.value.cases| => ScoreCase(ByName(d.scenarios), pack.value.cases[i]))
    else
      seq(|d.scenarios|, i requires 0 <= i < |d.scenarios| =>
        Case(if d.scenarios[i].status.None? then Some("not_run") else d.scenarios[i].status, d.scenarios[i].priority))
  }

  datatype StepKey = StepKey(scenario: string, step: string)

  function ScenarioLabel(sc: ScenarioRow): string {
    var l := Truthy(Truthy(sc.name, sc.id), Some("?"));
    if l.Some? then l.value else "?"
  }

  function StepStatus(st: StepRow): string {
    if st.status.Some? then st.status.value else "?"
  }

  function IndexOf(scenario: string, steps: seq<StepRow>, into: map<StepKey, string>): map<StepKey, string> {
    if steps == [] then into
    else
      var last := steps[|steps| - 1];
      IndexOf(scenario, steps[..|steps| - 1], into)[StepKey(scenario, last.id) := StepStatus(last)]
  }

  /** Step status by scenario and step; later rows win. */
  function IndexSteps(scenarios: seq<ScenarioRow>): map<StepKey, string> {
    if scenarios == [] then map[]
    else
      var last := scenarios[|scenarios| - 1];
      IndexOf(ScenarioLabel(last), last.steps, IndexSteps(scenarios[..|scenarios| - 1]))
  }

  /** Steps that passed in the baseline, are in this run, and do not pass in it. */
  function Regressed(now: map<StepKey, string>, base: map<StepKey, string>): set<StepKey> {
    set k | k in base && base[k] == "passed" && k in now && now[k] != "passed"
  }

  predicate Skipped(s: Option<string>) {
    s.Some? && s.value in SKIPS
  }

  predicate NoSkips(d: Detail) {
    forall i :: 0 <= i < |d.scenarios| ==>
      && !Skipped(d.scenarios[i].status)
      && forall j :: 0 <= j < |d.scenarios[i].steps| ==> !Skipped(d.scenarios[i].steps[j].status)
  }

  predicate InTier(t: Tier, c: Case) {
    t.priority == TIER_ALL || c.priority == Some(t.priority)
  }

  /** How many of the tier's cases there are, and how many of them passed. */
  function Relevant(t: Tier, cases: seq<Case>): nat {
    if cases == [] then 0
    else Relevant(t, cases[..|cases| - 1]) + if InTier(t, cases[|cases| - 1]) then 1 else 0
  }

  function PassedIn(t: Tier, cases: seq<Case>): nat {
    if cases == [] then 0
    else
      PassedIn(t, cases[..|cases| - 1]) +
      if InTier(t, cases[|cases| - 1]) && Passed(cases[|cases| - 1]) then 1 else 0
  }

  predicate TierHolds(t: Tier, cases: seq<Case>) {
    var n := Relevant(t, cases);
    n == 0 || PassedIn(t, cases) as real / n as real * 100.0 >= t.threshold
  }

  predicate Covered(cases: seq<Case>) {
    forall i :: 0 <= i < |cases| ==> cases[i].status != Some("not_run")
  }

  /** GO: every applicable gate holds. */
  predicate Go(d: Detail, p: Policy, pack: Option<Pack>, baseline: Option<Detail>) {
    var cases := Cases(d, pack);
    && (forall i :: 0 <= i < |p.tiers| ==> TierHolds(p.tiers[i], cases))
    && (p.requireCoverage && pack.Some? ==> Covered(cases))
    && (p.forbidNotRun ==> NoSkips(d))
    && (baseline.Some? ==> |Regressed(IndexSteps(d.scenarios), IndexSteps(baseline.value.scenarios))| <= p.maxRegressions)
    && (p.environments.Some? ==> d.environment.Some? && d.environment.value in p.environments.value)
  }

  // ---------------------------------------------------------------- better outcomes never block

  predicate Better(s: Option<string>, s': Option<string>) {
    s' == s || s' == Some("passed")
  }

  /** The same run with any of its scenario and step outcomes turned into passes. */
  predicate Improves(d: Detail, d': Detail) {
    && d'.environment == d.environment && |d'.scenarios| == |d.scenarios|
    && forall i :: 0 <= i < |d.scenarios| ==> ScenarioImproves(d.scenarios[i], d'.scenarios[i])
  }

  predicate ScenarioImproves(sc: ScenarioRow, sc': ScenarioRow) {
    && sc'.name == sc.name && sc'.id == sc.id && sc'.priority == sc.priority
    && Better(sc.status, sc'.status) && |sc'.steps| == |sc.steps|
    && forall j :: 0 <= j < |sc.steps| ==>
         sc'.steps[j].id == sc.steps[j].id && Better(sc.steps[j].status, sc'.steps[j].status)
  }

  lemma {:induction false} ByNameImproves(a: seq<ScenarioRow>, b: seq<ScenarioRow>)
    requires |a| == |b| && forall i :: 0 <= i < |a| ==> ScenarioImproves(a[i], b[i])
    ensures ByName(a).Keys == ByName(b).Keys
    ensures forall n :: n in ByName(a) ==> Better(ByName(a)[n], ByName(b)[n])
  {
    if a != [] {
      ByNameImproves(a[..|a| - 1], b[..|b| - 1]);
      assert ScenarioImproves(a[|a| - 1], b[|b| - 1]);
    }
  }

  predicate StepsImprove(m: map<StepKey, string>, m': map<StepKey, string>) {
    m'.Keys == m.Keys && forall k :: k in m ==> m'[k] == m[k] || m'[k] == "passed"
  }

  lemma {:induction false} IndexOfImproves(scenario: string, a: seq<StepRow>, b: seq<StepRow>, m: map<StepKey, string>, m': map<StepKey, string>)
    requires |a| == |b| && StepsImprove(m, m')
    requires forall j :: 0 <= j < |a| ==> b[j].id == a[j].id && Better(a[j].status, b[j].status)
    ensures StepsImprove(IndexOf(scenario, a, m), IndexOf(scenario, b, m'))
  {
    if a != [] {
      IndexOfImproves(scenario, a[..|a| - 1], b[..|b| - 1], m, m');
    }
  }

  lemma {:induction false} IndexImproves(a: seq<ScenarioRow>, b: seq<ScenarioRow>)
    requires |a| == |b| && forall i :: 0 <= i < |a| ==> ScenarioImproves(a[i], b[i])
    ensures StepsImprove(IndexSteps(a), IndexSteps(b))
  {
    if a != [] {
      var k := |a| - 1;
      IndexImproves(a[..k], b[..k]);
      assert ScenarioImproves(a[k], b[k]);
      IndexOfImproves(ScenarioLabel(a[k]), a[k].steps, b[k].steps, IndexSteps(a[..k]), IndexSteps(b[..k]));
    }
  }

  /** Case by case: same priority, and a pass stays or becomes a pass. */
  predicate CasesImprove(cs: seq<Case>, cs': seq<Case>) {
    |cs'| == |cs| && forall i :: 0 <= i < |cs| ==> cs'[i].priority == cs[i].priority && Better(cs[i].status, cs'[i].status)
  }

  lemma CasesOfImproved(d: Detail, d': Detail, pack: Option<Pack>)
    requires Improves(d, d')
    ensures CasesImprove(Cases(d, pack), Cases(d', pack))
  {
    ByNameImproves(d.scenarios, d'.scenarios);
    forall i | 0 <= i < |Cases(d, pack)|
      ensures Cases(d', pack)[i].priority == Cases(d, pack)[i].priority
      ensures Better(Cases(d, pack)[i].status, Cases(d', pack)[i].status)
    {
      if !(pack.Some? && !pack.value.blank) {
        assert ScenarioImproves(d.scenarios[i], d'.scenarios[i]);
      }
    }
  }

  lemma {:induction false} CountsImprove(t: Tier, cs: seq<Case>, cs': seq<Case>)
    requires CasesImprove(cs, cs')
    ensures Relevant(t, cs') == Relevant(t, cs) && PassedIn(t, cs') >= PassedIn(t, cs)
  {
    if cs != [] {
      CountsImprove(t, cs[..|cs| - 1], cs'[..|cs'| - 1]);
    }
  }

  lemma Percent(a: nat, b: nat, n: nat)
    requires a <= b && n > 0
    ensures a as real / n as real * 100.0 <= b as real / n as real * 100.0
  {
  }

  lemma FewerRegressions(now: map<StepKey, string>, now': map<StepKey, string>, base: map<StepKey, string>)
    requires StepsImprove(now, now')
    ensures |Regressed(now', base)| <= |Regressed(now, base)|
  {
    SubsetSize(Regressed(now', base), Regressed(now, base));
  }

  lemma SubsetSize<T>(a: set<T>, b: set<T>)
    requires a <= b
    ensures |a| <= |b|
  {
    assert b == a + (b - a);
  }

  /** Turning outcomes into passes never turns GO into NO_GO, duplicates and all. */
  lemma PassesNeverBlock(d: Detail, d': Detail, p: Policy, pack: Option<Pack>, baseline: Option<Detail>)
    requires Improves(d, d') && Go(d, p, pack, baseline)
    ensures Go(d', p, pack, baseline)
  {
    var cases, cases' := Cases(d, pack), Cases(d', pack);
    CasesOfImproved(d, d', pack);
    forall i | 0 <= i < |p.tiers|
      ensures TierHolds(p.tiers[i], cases')
    {
      assert TierHolds(p.tiers[i], cases);
      CountsImprove(p.tiers[i], cases, cases');
      if Relevant(p.tiers[i], cases) > 0 {
        Percent(PassedIn(p.tiers[i], cases), PassedIn(p.tiers[i], cases'), Relevant(p.tiers[i], cases));
      }
    }
    IndexImproves(d.scenarios, d'.scenarios);
    if baseline.Some? {
      FewerRegressions(IndexSteps(d.scenarios), IndexSteps(d'.scenarios), IndexSteps(baseline.value.scenarios));
    }
    if p.forbidNotRun {
      SkipsImprove(d, d');
    }
  }

  lemma SkipsImprove(d: Detail, d': Detail)
    requires Improves(d, d') && NoSkips(d)
    ensures NoSkips(d')
  {
    forall i | 0 <= i < |d'.scenarios|
      ensures !Skipped(d'.scenarios[i].status)
      ensures forall j :: 0 <= j < |d'.scenarios[i].steps| ==> !Skipped(d'.scenarios[i].steps[j].status)
    {
      assert ScenarioImproves(d.scenarios[i], d'.scenarios[i]);
    }
  }

  // ---------------------------------------------------------------- tighter policies never unblock

  /** Every demand of `p` is a demand of `q`, at least as strict. */
  predicate Tighter(p: Policy, q: Policy) {
    && (forall i :: 0 <= i < |p.tiers| ==> Demands(q.tiers, p.tiers[i]))
    && (p.requireCoverage ==> q.requireCoverage) && (p.forbidNotRun ==> q.forbidNotRun)
    && q.maxRegressions <= p.maxRegressions
    && (p.environments.Some? ==> q.environments.Some? && q.environments.value <= p.environments.value)
  }

  predicate Demands(tiers: seq<Tier>, t: Tier) {
    exists j :: 0 <= j < |tiers| && tiers[j].priority == t.priority && t.threshold <= tiers[j].threshold
  }

  lemma {:induction false} SameTier(t: Tier, u: Tier, cases: seq<Case>)
    requires t.priority == u.priority
    ensures Relevant(t, cases) == Relevant(u, cases) && PassedIn(t, cases) == PassedIn(u, cases)
  {
    if cases != [] {
      SameTier(t, u, cases[..|cases| - 1]);
    }
  }

  /** What passes a tighter policy passes the looser one. */
  lemma TighteningNeverUnblocks(d: Detail, p: Policy, q: Policy, pack: Option<Pack>, baseline: Option<Detail>)
    requires Tighter(p, q) && Go(d, q, pack, baseline)
    ensures Go(d, p, pack, baseline)
  {
    var cases := Cases(d, pack);
    forall i | 0 <= i < |p.tiers|
      ensures TierHolds(p.tiers[i], cases)
    {
      var j :| 0 <= j < |q.tiers| && q.tiers[j].priority == p.tiers[i].priority && p.tiers[i].threshold <= q.tiers[j].threshold;
      assert TierHolds(q.tiers[j], cases);
      SameTier(p.tiers[i], q.tiers[j], cases);
    }
  }

  // ---------------------------------------------------------------- the evaluator

  datatype GateId = TierGate(priority: string) | Coverage | NoSilentSkips | Regressions | Environment

  datatype Gate = Gate(id: GateId, ok: bool)

  method CountTier(t: Tier, cases: seq<Case>) returns (relevant: nat, passed: nat)
    ensures relevant == Relevant(t, cases) && passed == PassedIn(t, cases)
  {
    relevant, passed := 0, 0;
    var i := 0;
    while i < |cases|
      invariant 0 <= i <= |cases|
      invariant relevant == Relevant(t, cases[..i]) && passed == PassedIn(t, cases[..i])
    {
      assert cases[..i + 1][..i] == cases[..i];
      if InTier(t, cases[i]) {
        relevant := relevant + 1;
        if Passed(cases[i]) {
          passed := passed + 1;
        }
      }
      i := i + 1;
    }
    assert cases[..|cases|] == cases;
  }

  predicate AllOk(gates: seq<Gate>) {
    forall i :: 0 <= i < |gates| ==> gates[i].ok
  }

  method TierGates(tiers: seq<Tier>, cases: seq<Case>) returns (gates: seq<Gate>)
    ensures |gates| == |tiers|
    ensures forall i :: 0 <= i < |tiers| ==> gates[i] == Gate(TierGate(tiers[i].priority), TierHolds(tiers[i], cases))
  {
    gates := [];
    var i := 0;
    while i < |tiers|
      invariant 0 <= i <= |tiers| && |gates| == i
      invariant forall j :: 0 <= j < i ==> gates[j] == Gate(TierGate(tiers[j].priority), TierHolds(tiers[j], cases))
    {
      var relevant, passed := CountTier(tiers[i], cases);
      var ok := relevant == 0 || passed as real / relevant as real * 100.0 >= tiers[i].threshold;
      gates := gates + [Gate(TierGate(tiers[i].priority), ok)];
      i := i + 1;
    }
  }

  /** Which gates apply, in report order: one per tier, then the optional ones. */
  function Applicable(p: Policy, pack: Option<Pack>, baseline: Option<Detail>): seq<GateId> {
    seq(|p.tiers|, i requires 0 <= i < |p.tiers| => TierGate(p.tiers[i].priority)) + Optional(p, pack, baseline)
  }

  function Optional(p: Policy, pack: Option<Pack>, baseline: Option<Detail>): seq<GateId> {
    (if p.requireCoverage && pack.Some? then [Coverage] else [])
    + (if p.forbidNotRun then [NoSilentSkips] else [])
    + (if baseline.Some? then [Regressions] else [])
    + (if p.environments.Some? then [Environment] else [])
  }

  function IdsOf(gates: seq<Gate>): seq<GateId> {
    seq(|gates|, i requires 0 <= i < |gates| => gates[i].id)
  }

  /** The applicable gates in order, and GO exactly when all of them hold. */
  method EvaluateGates(d: Detail, p: Policy, pack: Option<Pack>, baseline: Option<Detail>)
      returns (go: bool, gates: seq<Gate>)
    ensures go <==> AllOk(gates)
    ensures go <==> Go(d, p, pack, baseline)
    ensures IdsOf(gates) == Applicable(p, pack, baseline)
  {
    var cases := Cases(d, pack);
    var tiers := TierGates(p.tiers, cases);
    assert AllOk(tiers) <==> forall i :: 0 <= i < |p.tiers| ==> TierHolds(p.tiers[i], cases);
    var optional := OptionalGates(d, p, pack, baseline);
    BothOk(tiers, optional);
    gates := tiers + optional;
    go := AllOk(gates);
  }

  method OptionalGates(d: Detail, p: Policy, pack: Option<Pack>, baseline: Option<Detail>) returns (gates: seq<Gate>)
    ensures AllOk(gates) <==> Go(d, p.(tiers := []), pack, baseline)
    ensures IdsOf(gates) == Optional(p, pack, baseline)
  {
    gates := [];
    if p.requireCoverage && pack.Some? {
      gates := AddGate(gates, Gate(Coverage, Covered(Cases(d, pack))));
    }
    if p.forbidNotRun {
      gates := AddGate(gates, Gate(NoSilentSkips, NoSkips(d)));
    }
    if baseline.Some? {
      var regressed := Regressed(IndexSteps(d.scenarios), IndexSteps(baseline.value.scenarios));
      gates := AddGate(gates, Gate(Regressions, |regressed| <= p.maxRegressions));
    }
    if p.environments.Some? {
      gates := AddGate(gates, Gate(Environment, d.environment.Some? && d.environment.value in p.environments.value));
    }
  }

  function AddGate(gates: seq<Gate>, g: Gate): (r: seq<Gate>)
    ensures AllOk(r) <==> AllOk(gates) && g.ok
    ensures IdsOf(r) == IdsOf(gates) + [g.id]
  {
    BothOk(gates, [g]);
    assert [g][0] == g && (AllOk([g]) <==> g.ok);
    gates + [g]
  }

  lemma BothOk(a: seq<Gate>, b: seq<Gate>)
    ensures AllOk(a + b) <==> AllOk(a) && AllOk(b)
    ensures IdsOf(a + b) == IdsOf(a) + IdsOf(b)
  {
    forall i | 0 <= i < |b|
      ensures (a + b)[|a| + i] == b[i]
    {
    }
    assert forall i :: 0 <= i < |a| ==> (a + b)[i] == a[i];
  }
}
