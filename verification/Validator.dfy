/** Publish-time validation of workflow specifications. */
module Validator {
  import opened Wrappers
  import opened Graphs
  import opened Workflows
  import opened Kahn
  import opened GateWalk
  import opened Texts
  import opened Findings

  /** The registry as the validator sees it: tool tiers, and the mode of the agent
      version a reference resolves to. */
  datatype Registry = Registry(tools: map<string, Tier>, agents: map<string, Mode>)

  // ---------------------------------------------------------------- what a publishable workflow is

  predicate ReviewOk(spec: Spec, n: Node) {
    n.reviews.Some? && n.reviews.value != "" ==>
      HasKind(spec, n.reviews.value, AgentTask) &&
      var target := NodeNamed(spec.nodes, n.reviews.value).value;
      target.agent == "" || RefName(target.agent) != RefName(n.agent)
  }

  predicate NodeOk(spec: Spec, reg: Registry, n: Node) {
    && (n.kind == Tool ==> n.tool in reg.tools)
    && (n.kind == AgentTask ==>
          && n.agent in reg.agents
          && (n.mode.Some? ==> ModeRank(n.mode.value) <= ModeRank(reg.agents[n.agent]))
          && ReviewOk(spec, n))
  }

  predicate GuardOk(spec: Spec, e: Edge) {
    e.guard.Some? && NodeNamed(spec.nodes, e.src).Some? ==>
      match NodeNamed(spec.nodes, e.src).value.kind
      case Condition => Lower(e.guard.value) in {"true", "false"}
      case Approval => Lower(e.guard.value) in {"approved", "rejected"}
      case _ => false
  }

  /** Writes outside mock: a write/execute tool call, or a full-mode task. */
  predicate NeedsGate(reg: Registry, n: Node) {
    && !IsMock(n.environment)
    && (n.kind == Tool ==> n.tool in reg.tools && reg.tools[n.tool] != Read)
    && (n.kind == AgentTask ==>
          n.agent in reg.agents && (if n.mode.Some? then n.mode.value else reg.agents[n.agent]) == Full)
    && (n.kind == Tool || n.kind == AgentTask)
  }

  ghost predicate Gated(spec: Spec, id: Id) {
    EveryPathGated(spec.edges, ApprovedEdges(spec), id)
  }

  ghost predicate Publishable(spec: Spec, reg: Registry) {
    && WellFormed(spec)
    && (forall n :: n in spec.nodes ==> NodeOk(spec, reg, n))
    && (forall e :: e in spec.edges ==> GuardOk(spec, e))
    && (forall n :: n in spec.nodes && NeedsGate(reg, n) ==> Gated(spec, n.id))
  }

  // ---------------------------------------------------------------- the checks, in the order they run

  /** Edges reference real nodes; adjacency and in-degrees on the way. */
  method CheckEdges(ids: set<Id>, edges: seq<Edge>)
      returns (problems: seq<Problem>, out: map<Id, seq<Id>>, indeg: map<Id, nat>)
    requires END !in ids
    ensures problems == [] <==> EdgesKnown(ids, edges)
    ensures forall p :: p in problems ==> p.UnknownSource? || p.UnknownTarget?
    ensures problems == [] ==> Counted(ids, edges, out, indeg)
  {
    problems := [];
    out := map n | n in ids :: [];
    indeg := map n | n in ids :: 0;
    var i := 0;
    while i < |edges|
      invariant 0 <= i <= |edges|
      invariant out.Keys == ids && indeg.Keys == ids
      invariant problems == [] <==> EdgesKnown(ids, edges[..i])
      invariant forall p :: p in problems ==> p.UnknownSource? || p.UnknownTarget?
      invariant problems == [] ==> Counted(ids, edges[..i], out, indeg)
    {
      OneMoreEdge(ids, edges, i);
      var found;
      found, out, indeg := CheckEdge(ids, edges, i, out, indeg);
      problems := problems + found;
      i := i + 1;
    }
    assert edges[..|edges|] == edges;
  }

  /** One edge: a finding, or one more target and one more incoming edge. */
  method CheckEdge(ids: set<Id>, edges: seq<Edge>, i: nat, out0: map<Id, seq<Id>>, indeg0: map<Id, nat>)
      returns (found: seq<Problem>, out: map<Id, seq<Id>>, indeg: map<Id, nat>)
    requires i < |edges| && END !in ids && out0.Keys == ids && indeg0.Keys == ids
    ensures found == [] <==> edges[i].src in ids && (edges[i].dst == END || edges[i].dst in ids)
    ensures forall p :: p in found ==> p.UnknownSource? || p.UnknownTarget?
    ensures out.Keys == ids && indeg.Keys == ids
    ensures found == [] && Counted(ids, edges[..i], out0, indeg0) ==> Counted(ids, edges[..i + 1], out, indeg)
  {
    var e := edges[i];
    found, out, indeg := [], out0, indeg0;
    if e.src !in ids {
      found := [UnknownSource(e)];
    } else if e.dst != END && e.dst !in ids {
      found := [UnknownTarget(e)];
    } else {
      if Counted(ids, edges[..i], out0, indeg0) {
        CountsOne(ids, edges, i, out0, indeg0);
      }
      out := out[e.src := out[e.src] + [e.dst]];
      if e.dst != END {
        indeg := indeg[e.dst := indeg[e.dst] + 1];
      }
    }
  }

  lemma OneMoreEdge(ids: set<Id>, edges: seq<Edge>, i: nat)
    requires i < |edges|
    ensures EdgesKnown(ids, edges[..i + 1]) <==>
              EdgesKnown(ids, edges[..i]) && edges[i].src in ids && (edges[i].dst == END || edges[i].dst in ids)
  {
    assert edges[..i + 1] == edges[..i] + [edges[i]];
  }

  /** Counting one more known edge. */
  lemma CountsOne(ids: set<Id>, edges: seq<Edge>, i: nat, out: map<Id, seq<Id>>, indeg: map<Id, nat>)
    requires i < |edges| && END !in ids && Counted(ids, edges[..i], out, indeg)
    requires edges[i].src in ids && (edges[i].dst == END || edges[i].dst in ids)
    ensures var e := edges[i];
            Counted(ids, edges[..i + 1], out[e.src := out[e.src] + [e.dst]],
                    if e.dst != END then indeg[e.dst := indeg[e.dst] + 1] else indeg)
  {
    assert edges[..i + 1][..i] == edges[..i];
  }

  method Roots(ids: seq<Id>, indeg: map<Id, nat>) returns (roots: seq<Id>)
    requires indeg.Keys == Elements(ids) && Distinct(ids)
    ensures Ready(Elements(ids), {}, indeg, roots)
  {
    roots := [];
    var i := 0;
    while i < |ids|
      invariant 0 <= i <= |ids|
      invariant forall m :: m in roots <==> m in ids[..i] && indeg[m] == 0
      invariant forall j, k :: 0 <= j < k < |roots| ==> roots[j] != roots[k]
    {
      if indeg[ids[i]] == 0 {
        roots := roots + [ids[i]];
      }
      i := i + 1;
    }
    assert ids[..|ids|] == ids;
  }

  // ---------------------------------------------------------------- findings about nodes and labels

  function ReviewFindings(spec: Spec, n: Node): seq<Problem> {
    if n.reviews.None? || n.reviews.value == "" then []
    else
      var target := NodeNamed(spec.nodes, n.reviews.value);
      if target.None? || target.value.kind != AgentTask then [ReviewsUnknown(n.id, n.reviews.value)]
      else if target.value.agent != "" && RefName(target.value.agent) == RefName(n.agent)
      then [ReviewsItself(n.id, n.agent, n.reviews.value)] else []
  }

  /** What there is to say about one node. */
  function NodeFindings(spec: Spec, reg: Registry, n: Node): (r: seq<Problem>)
    ensures r == [] <==> NodeOk(spec, reg, n)
    ensures forall p :: p in r ==> !p.Cyclic? && !p.Ungated?
  {
    match n.kind
    case Tool => if n.tool in reg.tools then [] else [UnknownTool(n.id, n.tool)]
    case AgentTask =>
      if n.agent !in reg.agents then [Unresolved(n.id, n.agent)]
      else
        (if n.mode.Some? && ModeRank(n.mode.value) > ModeRank(reg.agents[n.agent])
         then [Escalates(n.id, n.mode.value, n.agent, reg.agents[n.agent])] else [])
        + ReviewFindings(spec, n)
    case _ => []
  }

  function AllNodeFindings(spec: Spec, reg: Registry, nodes: seq<Node>): (r: seq<Problem>)
    ensures r == [] <==> forall n :: n in nodes ==> NodeOk(spec, reg, n)
    ensures forall p :: p in r ==> !p.Cyclic? && !p.Ungated?
  {
    if nodes == [] then []
    else AllNodeFindings(spec, reg, nodes[..|nodes| - 1]) + NodeFindings(spec, reg, nodes[|nodes| - 1])
  }

  method CheckNodes(spec: Spec, reg: Registry) returns (problems: seq<Problem>)
    ensures problems == AllNodeFindings(spec, reg, spec.nodes)
    ensures problems == [] <==> forall n :: n in spec.nodes ==> NodeOk(spec, reg, n)
  {
    problems := [];
    var i := 0;
    while i < |spec.nodes|
      invariant 0 <= i <= |spec.nodes|
      invariant problems == AllNodeFindings(spec, reg, spec.nodes[..i])
    {
      var n := spec.nodes[i];
      assert spec.nodes[..i + 1][..i] == spec.nodes[..i];
      var found := CheckNode(spec, reg, n);
      problems := problems + found;
      i := i + 1;
    }
    assert spec.nodes[..|spec.nodes|] == spec.nodes;
  }

  method CheckNode(spec: Spec, reg: Registry, n: Node) returns (problems: seq<Problem>)
    ensures problems == NodeFindings(spec, reg, n)
  {
    problems := [];
    if n.kind == Tool {
      if n.tool !in reg.tools {
        problems := problems + [UnknownTool(n.id, n.tool)];
      }
      return;
    }
    if n.kind != AgentTask {
      return;
    }
    if n.agent !in reg.agents {
      problems := problems + [Unresolved(n.id, n.agent)];
      return;
    }
    if n.mode.Some? && ModeRank(n.mode.value) > ModeRank(reg.agents[n.agent]) {
      problems := problems + [Escalates(n.id, n.mode.value, n.agent, reg.agents[n.agent])];
    }
    if n.reviews.Some? && n.reviews.value != "" {
      var target := NodeNamed(spec.nodes, n.reviews.value);
      if target.None? || target.value.kind != AgentTask {
        problems := problems + [ReviewsUnknown(n.id, n.reviews.value)];
      } else if target.value.agent != "" && RefName(target.value.agent) == RefName(n.agent) {
        problems := problems + [ReviewsItself(n.id, n.agent, n.reviews.value)];
      }
    }
  }

  /** A label its source cannot branch on. */
  function GuardFindings(spec: Spec, e: Edge): (r: seq<Problem>)
    ensures r == [] <==> GuardOk(spec, e)
    ensures forall p :: p in r ==> p.BadGuard?
  {
    if GuardOk(spec, e) then [] else [BadGuard(e, NodeNamed(spec.nodes, e.src).value.kind)]
  }

  function AllGuardFindings(spec: Spec, edges: seq<Edge>): (r: seq<Problem>)
    ensures r == [] <==> forall e :: e in edges ==> GuardOk(spec, e)
    ensures forall p :: p in r ==> p.BadGuard?
  {
    if edges == [] then []
    else AllGuardFindings(spec, edges[..|edges| - 1]) + GuardFindings(spec, edges[|edges| - 1])
  }

  method CheckGuards(spec: Spec) returns (problems: seq<Problem>)
    ensures problems == AllGuardFindings(spec, spec.edges)
    ensures problems == [] <==> forall e :: e in spec.edges ==> GuardOk(spec, e)
  {
    problems := [];
    var i := 0;
    while i < |spec.edges|
      invariant 0 <= i <= |spec.edges|
      invariant problems == AllGuardFindings(spec, spec.edges[..i])
    {
      var e := spec.edges[i];
      assert spec.edges[..i + 1][..i] == spec.edges[..i];
      var found := CheckGuard(spec, e);
      problems := problems + found;
      i := i + 1;
    }
    assert spec.edges[..|spec.edges|] == spec.edges;
  }

  method CheckGuard(spec: Spec, e: Edge) returns (problems: seq<Problem>)
    ensures problems == GuardFindings(spec, e)
  {
    problems := [];
    var src := NodeNamed(spec.nodes, e.src);
    if src.Some? && e.guard.Some? {
      var routed := Lower(e.guard.value);
      if src.value.kind == Condition && routed !in {"true", "false"} {
        problems := [BadGuard(e, src.value.kind)];
      } else if src.value.kind == Approval && routed !in {"approved", "rejected"} {
        problems := [BadGuard(e, src.value.kind)];
      } else if src.value.kind !in {Condition, Approval} {
        problems := [BadGuard(e, src.value.kind)];
      }
    }
  }

  /** Everything found before the gate check of a well-formed workflow. */
  function Earlier(spec: Spec, reg: Registry): seq<Problem> {
    AllNodeFindings(spec, reg, spec.nodes) + AllGuardFindings(spec, spec.edges)
  }

  /** No report says "cycle", in its own words or in a name it carries. */
  predicate CycleFree(problems: seq<Problem>) {
    forall p :: p in problems ==> !Mentions(p)
  }

  /** The guard of the gate check reads the texts of the reports. */
  method AnyCycle(problems: seq<Problem>) returns (any: bool)
    ensures any <==> !CycleFree(problems)
  {
    any := false;
    var i := 0;
    while i < |problems| && !any
      invariant 0 <= i <= |problems|
      invariant any <==> !CycleFree(problems[..i])
    {
      OneMoreReport(problems, i);
      any := Contains(TextOf(problems[i]), CYCLE);
      i := i + 1;
    }
    assert !any ==> problems[..i] == problems;
    assert forall p :: p in problems[..i] ==> p in problems;
  }

  lemma OneMoreReport(problems: seq<Problem>, i: nat)
    requires i < |problems| && CycleFree(problems[..i])
    ensures CycleFree(problems[..i + 1]) <==> !Contains(TextOf(problems[i]), CYCLE)
  {
    TextMentions(problems[i]);
    assert problems[..i + 1] == problems[..i] + [problems[i]];
    assert forall p :: p in problems[..i + 1] <==> p in problems[..i] || p == problems[i];
  }

  /** Ask one walker, with one memo table, about each node in turn. */
  method AskAll(walker: GateWalker, ids: seq<Id>) returns (gated: map<Id, bool>)
    requires walker.Valid() && Elements(ids) <= walker.ids
    modifies walker
    ensures gated.Keys == Elements(ids)
    ensures forall id :: id in gated ==> walker.Answers(id, gated[id])
  {
    gated := map[];
    var i := 0;
    while i < |ids|
      invariant 0 <= i <= |ids|
      invariant walker.Valid()
      invariant gated.Keys == Elements(ids[..i])
      invariant forall id :: id in gated ==> walker.Answers(id, gated[id])
    {
      assert ids[i] in Elements(ids);
      var ok := walker.Walk(ids[i], {});
      gated := gated[ids[i] := ok];
      assert ids[..i + 1] == ids[..i] + [ids[i]];
      i := i + 1;
    }
    assert ids[..|ids|] == ids;
  }

  /** Per node: does every path that can reach it cross an approved edge? */
  method ApprovalGated(spec: Spec, ids: seq<Id>) returns (gated: map<Id, bool>)
    requires Shaped(spec) && Elements(ids) == IdSet(spec)
    ensures gated.Keys == IdSet(spec)
    ensures WellFormed(spec) ==> forall id :: id in gated ==> gated[id] == Gated(spec, id)
  {
    var preds := Predecessors(IdSet(spec), spec.edges);
    var walker := new GateWalker(IdSet(spec), spec.edges, ApprovedEdges(spec), preds);
    gated := AskAll(walker, ids);
    forall id | id in gated && WellFormed(spec)
      ensures gated[id] == Gated(spec, id)
    {
      assert walker.Answers(id, gated[id]);
    }
  }

  /** One finding per ungated write, in node order. */
  ghost function UngatedProblems(spec: Spec, reg: Registry, nodes: seq<Node>): (r: seq<Problem>)
    ensures forall p :: p in r ==> p.Ungated?
    ensures r == [] <==> forall n :: n in nodes && NeedsGate(reg, n) ==> Gated(spec, n.id)
  {
    if nodes == [] then []
    else
      var n := nodes[|nodes| - 1];
      UngatedProblems(spec, reg, nodes[..|nodes| - 1]) +
      if NeedsGate(reg, n) && !Gated(spec, n.id) then [Ungated(n.id)] else []
  }

  /** Full mode outside mock must be gated on every path; `exact` says the given
      answers are the right ones. */
  method CheckGates(spec: Spec, reg: Registry, gated: map<Id, bool>, ghost exact: bool) returns (problems: seq<Problem>)
    requires gated.Keys == IdSet(spec)
    requires exact ==> forall id :: id in gated ==> gated[id] == Gated(spec, id)
    ensures forall p :: p in problems ==> p.Ungated?
    ensures exact ==> problems == UngatedProblems(spec, reg, spec.nodes)
  {
    problems := [];
    var i := 0;
    while i < |spec.nodes|
      invariant 0 <= i <= |spec.nodes|
      invariant forall p :: p in problems ==> p.Ungated?
      invariant exact ==> problems == UngatedProblems(spec, reg, spec.nodes[..i])
    {
      var n := spec.nodes[i];
      assert n in spec.nodes;
      assert spec.nodes[..i + 1][..i] == spec.nodes[..i];
      if NeedsGate(reg, n) && !gated[n.id] {
        problems := problems + [Ungated(n.id)];
      }
      i := i + 1;
    }
    assert spec.nodes[..|spec.nodes|] == spec.nodes;
  }

  /** The ids that occur more than once, in the order of their first repetition. */
  function Repeated(ids: seq<Id>): (r: seq<Id>)
    ensures forall id :: id in r ==> exists j, k :: 0 <= j < k < |ids| && ids[j] == id && ids[k] == id
    ensures forall j, k :: 0 <= j < k < |ids| && ids[j] == ids[k] ==> ids[j] in r
  {
    if ids == [] then []
    else
      var k := |ids| - 1;
      var before := Repeated(ids[..k]);
      if ids[k] in ids[..k] && ids[k] !in before then before + [ids[k]] else before
  }

  /** Distinct ids, known edges, no cycle. */
  method CheckShape(spec: Spec, ids: seq<Id>) returns (problems: seq<Problem>)
    requires Shaped(spec) && ids == Ids(spec.nodes) && Elements(ids) == IdSet(spec)
    ensures problems == [] <==> WellFormed(spec)
    ensures Cyclic in problems <==>
              UniqueIds(spec.nodes) && EdgesKnown(IdSet(spec), spec.edges) && HasCycle(spec.edges)
    ensures forall p :: p in problems ==> !p.Ungated?
  {
    DistinctSize(ids);
    assert UniqueIds(spec.nodes) <==> Distinct(ids);
    problems := if |Elements(ids)| != |ids| then [DuplicateIds(Repeated(ids))] else [];
    var edgeProblems, out, indeg := CheckEdges(Elements(ids), spec.edges);
    problems := problems + edgeProblems;
    assert Cyclic !in problems;
    if problems == [] {
      assert edgeProblems == [];
      var roots := Roots(ids, indeg);
      var cyclic := FindCycle(Elements(ids), |ids|, spec.edges, out, indeg, roots);
      if cyclic {
        problems := [Cyclic];
      }
    } else {
      assert |Elements(ids)| != |ids| || edgeProblems != [];
    }
  }

  /** The publish gate: no problems exactly when the workflow is publishable, and a
      cycle reported exactly when distinct, known nodes form one. On a well-formed
      graph the reports end with one finding for each ungated write, in node order,
      exactly when no earlier report says "cycle". */
  method ValidateWorkflow(spec: Spec, reg: Registry) returns (problems: seq<Problem>)
    requires Shaped(spec)
    ensures problems == [] <==> Publishable(spec, reg)
    ensures Cyclic in problems <==>
              UniqueIds(spec.nodes) && EdgesKnown(IdSet(spec), spec.edges) && HasCycle(spec.edges)
    ensures WellFormed(spec) ==>
              problems == Earlier(spec, reg) +
                if CycleFree(Earlier(spec, reg)) then UngatedProblems(spec, reg, spec.nodes) else []
  {
    problems := CheckBeforeGates(spec, reg);
    var cycle := AnyCycle(problems);
    if !cycle {
      IdsAreElements(spec);
      var gated := ApprovalGated(spec, Ids(spec.nodes));
      var gateProblems := CheckGates(spec, reg, gated, WellFormed(spec));
      problems := problems + gateProblems;
    }
  }

  /** Shape, nodes and labels. */
  method CheckBeforeGates(spec: Spec, reg: Registry) returns (problems: seq<Problem>)
    requires Shaped(spec)
    ensures problems == [] <==>
              && WellFormed(spec)
              && (forall n :: n in spec.nodes ==> NodeOk(spec, reg, n))
              && (forall e :: e in spec.edges ==> GuardOk(spec, e))
    ensures Cyclic in problems <==>
              UniqueIds(spec.nodes) && EdgesKnown(IdSet(spec), spec.edges) && HasCycle(spec.edges)
    ensures WellFormed(spec) ==> problems == Earlier(spec, reg)
  {
    IdsAreElements(spec);
    var shapeProblems := CheckShape(spec, Ids(spec.nodes));
    var nodeProblems := CheckNodes(spec, reg);
    var guardProblems := CheckGuards(spec);
    problems := shapeProblems + (nodeProblems + guardProblems);
    assert Cyclic !in nodeProblems && Cyclic !in guardProblems;
  }

  lemma IdsAreElements(spec: Spec)
    ensures Elements(Ids(spec.nodes)) == IdSet(spec)
  {
    forall n | n in spec.nodes
      ensures n.id in Ids(spec.nodes)
    {
      var k :| 0 <= k < |spec.nodes| && spec.nodes[k] == n;
      assert Ids(spec.nodes)[k] == n.id;
    }
  }

  // ---------------------------------------------------------------- a write the gate check misses

  const RECYCLE: Spec := Spec([Node("recycle", Tool, "", None, None, None, "nope"),
                               Node("w", Tool, "", None, None, None, "put")], [])
  const WRITER: Registry := Registry(map["put" := Write], map[])

  lemma RecycleIsWellFormed()
    ensures WellFormed(RECYCLE) && Shaped(RECYCLE)
    ensures NeedsGate(WRITER, RECYCLE.nodes[1]) && !Gated(RECYCLE, "w")
  {
    assert "recycle"[0] != "end"[0] && "w"[0] != "end"[0] && "recycle"[0] != "w"[0];
    RankedHasNoCycle([], n => 0);
    assert StartChain(RECYCLE.edges, [], "w");
    assert !Crosses([], ApprovedEdges(RECYCLE));
  }

  lemma RecycleFindings()
    ensures Earlier(RECYCLE, WRITER) == [UnknownTool("recycle", "nope")] && !CycleFree(Earlier(RECYCLE, WRITER))
  {
    var nodes := RECYCLE.nodes;
    assert nodes[..1] == [nodes[0]] && [nodes[0]][..0] == [];
    assert "nope"[0] != "put"[0];
    assert AllNodeFindings(RECYCLE, WRITER, [nodes[0]]) == NodeFindings(RECYCLE, WRITER, nodes[0]);
    assert AllNodeFindings(RECYCLE, WRITER, nodes) == NodeFindings(RECYCLE, WRITER, nodes[0]) + NodeFindings(RECYCLE, WRITER, nodes[1]);
    assert OccursAt("recycle", CYCLE, 2);
    assert Contains("recycle", CYCLE);
    var p := UnknownTool("recycle", "nope");
    assert "recycle" in NamesIn(p) && Mentions(p) && p in [p];
  }

  /** A node called "recycle" with an unknown tool hides an ungated write. */
  method RecycleHidesTheWrite() returns (problems: seq<Problem>)
    ensures WellFormed(RECYCLE) && NeedsGate(WRITER, RECYCLE.nodes[1]) && !Gated(RECYCLE, "w")
    ensures problems == [UnknownTool("recycle", "nope")]
  {
    RecycleIsWellFormed();
    RecycleFindings();
    problems := ValidateWorkflow(RECYCLE, WRITER);
  }
}
