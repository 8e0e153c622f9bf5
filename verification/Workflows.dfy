/** Workflow specifications: typed nodes joined by labelled edges. */
module Workflows {
  import opened Wrappers
  import opened Graphs

  /** The reserved target of edges that leave the workflow. */
  const END: Id := "end"

  datatype Kind = AgentTask | Tool | Condition | Approval | Parallel | Join

  datatype Mode = Advisor | Plan | Full

  function ModeRank(m: Mode): nat {
    match m
    case Advisor => 0
    case Plan => 1
    case Full => 2
  }

  datatype Tier = Read | Write | Execute

  datatype Node = Node(
    id: Id,
    kind: Kind,
    agent: string,
    mode: Option<Mode>,
    environment: Option<string>,
    reviews: Option<Id>,
    tool: string)

  datatype Spec = Spec(nodes: seq<Node>, edges: seq<Edge>)

  /** Environments whose writes need no human gate. */
  const MOCK_ENVIRONMENTS: set<string> := {"mock"}

  predicate IsMock(environment: Option<string>) {
    environment.Some? && environment.value in MOCK_ENVIRONMENTS
  }

  function Ids(nodes: seq<Node>): (ids: seq<Id>)
    ensures |ids| == |nodes| && forall i :: 0 <= i < |nodes| ==> ids[i] == nodes[i].id
  {
    seq(|nodes|, i requires 0 <= i < |nodes| => nodes[i].id)
  }

  function IdSet(spec: Spec): set<Id> {
    set n | n in spec.nodes :: n.id
  }

  predicate UniqueIds(nodes: seq<Node>) {
    forall i, j :: 0 <= i < j < |nodes| ==> nodes[i].id != nodes[j].id
  }

  /** Last node with the given id, as a dictionary built from the list holds. */
  function NodeNamed(nodes: seq<Node>, id: Id): (r: Option<Node>)
    ensures r.Some? ==> r.value in nodes && r.value.id == id
    ensures r.None? ==> forall n :: n in nodes ==> n.id != id
    ensures forall n :: n in nodes && n.id == id && UniqueIds(nodes) ==> r == Some(n)
  {
    if nodes == [] then None
    else
      var last := nodes[|nodes| - 1];
      if last.id == id then Some(last) else NodeNamed(nodes[..|nodes| - 1], id)
  }

  predicate HasKind(spec: Spec, id: Id, kind: Kind) {
    var n := NodeNamed(spec.nodes, id);
    n.Some? && n.value.kind == kind
  }

  predicate EdgesKnown(ids: set<Id>, edges: seq<Edge>) {
    forall e :: e in edges ==> e.src in ids && (e.dst == END || e.dst in ids)
  }

  /** What the field-level model checks: the reserved name is not a node. */
  predicate Shaped(spec: Spec) {
    END !in IdSet(spec)
  }

  /** Distinct nodes, edges between them (or to the end), no cycle. */
  ghost predicate WellFormed(spec: Spec) {
    && Shaped(spec)
    && UniqueIds(spec.nodes)
    && EdgesKnown(IdSet(spec), spec.edges)
    && !HasCycle(spec.edges)
  }

  // ---------------------------------------------------------------- labels

  /** Lower-casing of ASCII letters. */
  function Lower(s: string): (r: string)
    ensures |r| == |s|
  {
    if s == "" then ""
    else [if 'A' <= s[0] <= 'Z' then s[0] + ' ' else s[0]] + Lower(s[1..])
  }

  /** The label an edge routes on; an absent or empty one stands for `default`. */
  function Guard(e: Edge, default: string): string {
    if e.guard.None? || e.guard.value == "" then Lower(default) else Lower(e.guard.value)
  }

  /** The edges on which an approval node lets an `approved` decision through. */
  function ApprovedEdges(spec: Spec): set<Edge> {
    set e | e in spec.edges && HasKind(spec, e.src, Approval) && Guard(e, "approved") == "approved"
  }
}
