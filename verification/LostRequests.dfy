/** The one way a run can rewrite a recorded decision: saves that raise, in a process
    that lives on, lose two approval requests of one node, and both lost rows are
    decided. When a decision rewrites the record, and a run in which it happens. */
module LostRequests {
  import opened Wrappers
  import opened Graphs
  import opened Workflows
  import opened Machine
  import opened Invariants
  import opened Steps
  import opened Basics
  import opened RunTheorems
  import opened Service

  // ---------------------------------------------------------------- one decision

  /** A decision lands on a done node exactly when that node names no approval. */
  lemma OverwritesUnnamed(spec: Spec, m: Machine, ap: string)
    requires BasicInv(spec, m) && m.mem.None? && OpenRow(m, ap)
    ensures Overwrites(m, ap) <==>
            Active(m.row.status) && StatusOf(m.row.nodes, m.approvals[ap].node) == Done &&
            ApprovalOf(m.row.nodes, m.approvals[ap].node).None?
  {
    var n := m.approvals[ap].node;
    if n in m.row.nodes.states {
      assert NameOk(spec, m.row.nodes, m.approvals, n);
    }
  }

  /** A decision keeps what is on record exactly unless the run is active and its node
      is done, names no approval, and was decided otherwise. */
  lemma DecisionKeepsHistory(spec: Spec, rank: Id -> nat, m: Machine, ap: string, decision: string)
    requires Ranked(spec.edges, rank) && EdgesKnown(IdSet(spec), spec.edges) && MachineInv(spec, rank, m) && BasicInv(spec, m)
    requires m.mem.None? && OpenRow(m, ap) && decision in DECISIONS
    ensures var n := m.approvals[ap].node;
            Keeps(m.row.nodes, ApplyDecision(spec, m, ap, decision).row.nodes) <==>
            !(Active(m.row.status) && StatusOf(m.row.nodes, n) == Done && ApprovalOf(m.row.nodes, n).None? &&
              ResultOf(m.row.nodes, n) != Some(Decided(decision)))
  {
    var g, g' := m.row.nodes, ApplyDecision(spec, m, ap, decision).row.nodes;
    OverwritesUnnamed(spec, m, ap);
    if Overwrites(m, ap) {
      DoneAgain(g, g', m.approvals[ap].node, Decided(decision));
    } else {
      DecideKeeps(spec, rank, m, ap, decision);
      EvolvesKeeps(spec, g, g');
    }
  }

  lemma DoneAgain(g: Nodes, g': Nodes, n: Id, o: Outcome)
    requires n in g.states && g.states[n].status == Done && g' == WithOutcome(SetStatus(g, n, Done), n, Some(o))
    ensures Keeps(g, g') <==> ResultOf(g, n) == Some(o)
  {
    assert forall k :: k != n ==> StatusOf(g', k) == StatusOf(g, k) && ResultOf(g', k) == ResultOf(g, k);
    assert StatusOf(g, n) == StatusOf(g', n) == Done && ResultOf(g', n) == Some(o);
  }

  // ---------------------------------------------------------------- a run that rewrites a decision

  /** A workflow of a task `u`, an approval `a`, and behind its approved edge `e` a
      write `t`. */
  predicate GatedWrite(spec: Spec, tools: map<string, Tier>, u: Id, a: Id, t: Id, e: Edge) {
    && UniqueIds(spec.nodes) && IdSet(spec) == {u, a, t} && u != a && u != t && a != t
    && HasKind(spec, u, Kind.AgentTask) && HasKind(spec, a, Kind.Approval) && HasKind(spec, t, Kind.Tool)
    && (var n := NodeNamed(spec.nodes, t).value; n.tool in tools && tools[n.tool] != Read && !IsMock(n.environment))
    && spec.edges == [e] && e.src == a && e.dst == t && e.guard == Some("approved")
  }

  const BLANK: NodeState := NodeState(Pending, None, None)

  function Is(s: Status): NodeState {
    NodeState(s, None, None)
  }

  /** The three nodes in the given states. */
  function Three(u: Id, su: NodeState, a: Id, sa: NodeState, t: Id, st: NodeState, results: map<Id, Outcome>): Nodes {
    Nodes(map[u := su, a := sa, t := st], results)
  }

  function Ask(ap: string): World {
    World(None, ap, true, false, true, true, true, None, Coalesced)
  }

  /** The task's agent, in plan mode, is busy with another wake. */
  function Busy(): World {
    World(None, "", true, false, true, true, true, Some(Mode.Plan), Coalesced)
  }

  function Resting(g: Nodes, approvals: map<string, ApprovalRow>, acts: seq<Id>): Machine {
    Machine(Row(RunRunning, g, false), approvals, acts, None)
  }

  function Working(g: Nodes, approvals: map<string, ApprovalRow>, acts: seq<Id>, h: Nodes, started: Option<Id>): Machine {
    Machine(Row(RunRunning, g, false), approvals, acts, Some(Memory(h, started)))
  }

  /** How many saves raised. */
  function Raised(es: seq<Event>): nat {
    if es == [] then 0 else Raised(es[..|es| - 1]) + if es[|es| - 1].Abort? then 1 else 0
  }

  /** A run the program makes without ever dying. */
  ghost predicate Lives(spec: Spec, tools: map<string, Tier>, es: seq<Event>) {
    ProgramRun(spec, tools, es) && forall i :: 0 <= i < |es| ==> !es[i].Crash?
  }

  /** One more event of such a run. */
  lemma Reach(spec: Spec, tools: map<string, Tier>, es: seq<Event>, m: Machine, s: Service, ev: Event, m': Machine)
      returns (fs: seq<Event>)
    requires Run(spec, tools, es) == m && ServiceAfter(spec, tools, es) == s && Lives(spec, tools, es)
    requires !ev.Crash? && Served(m, s, ev) && Next(spec, tools, m, ev) == m'
    ensures fs == es + [ev] && Run(spec, tools, fs) == m' && ServiceAfter(spec, tools, fs) == Serve(spec, m, s, ev)
    ensures Lives(spec, tools, fs) && Raised(fs) == Raised(es) + if ev.Abort? then 1 else 0
  {
    fs := es + [ev];
    assert fs[..|es|] == es;
    forall i | 0 <= i < |fs|
      ensures Served(Run(spec, tools, fs[..i]), ServiceAfter(spec, tools, fs[..i]), fs[i])
    {
      if i < |es| {
        assert fs[..i] == es[..i];
      }
    }
  }

  lemma StillRunning(u: Id, su: NodeState, a: Id, sa: NodeState, t: Id, st: NodeState, results: map<Id, Outcome>)
    requires u != a && u != t && a != t
    requires su.status == Deferred && sa.status in {Pending, Done} && st.status in {Pending, Done}
    ensures RunStatusOf(Three(u, su, a, sa, t, st, results)) == RunRunning
  {
    var g := Three(u, su, a, sa, t, st, results);
    assert u in g.states && g.states[u].status == Deferred;
  }

  /** The task is started, its agent is busy, and the deferral is saved. */
  lemma Defers(spec: Spec, tools: map<string, Tier>, u: Id, a: Id, t: Id, e: Edge, approvals: map<string, ApprovalRow>)
    requires GatedWrite(spec, tools, u, a, t, e)
    ensures var g := Three(u, BLANK, a, BLANK, t, BLANK, map[]);
            var d := Three(u, Is(Deferred), a, BLANK, t, BLANK, map[]);
            && Next(spec, tools, Working(g, approvals, [], g, None), Start(u, Busy())) == Working(g, approvals, [], d, Some(u))
            && Next(spec, tools, Working(g, approvals, [], d, Some(u)), Save) == Working(d, approvals, [], d, None)
  {
    var g := Three(u, BLANK, a, BLANK, t, BLANK, map[]);
    StillRunning(u, Is(Deferred), a, BLANK, t, BLANK, map[]);
    assert Into(spec.edges, u) == [] by { OneEdge(e, u); }
    assert CanStart(spec, g, u);
    DefersEffect(spec, tools, approvals, g, NodeNamed(spec.nodes, u).value);
    assert g.states[u := Is(Deferred)] == map[u := Is(Deferred), a := BLANK, t := BLANK];
  }

  lemma DefersEffect(spec: Spec, tools: map<string, Tier>, approvals: map<string, ApprovalRow>, g: Nodes, n: Node)
    requires n.kind == Kind.AgentTask
    ensures StartEffect(spec, tools, approvals, g, n, BLANK, Busy()) == Effect(Is(Deferred), None, None, false)
  {
  }

  lemma OneEdge(e: Edge, n: Id)
    ensures Into([e], n) == if e.dst == n then [e] else []
  {
    assert [e][..0] == [];
  }

  /** The approval is requested; its row is in the table. */
  lemma Asks(spec: Spec, tools: map<string, Tier>, u: Id, a: Id, t: Id, e: Edge, approvals: map<string, ApprovalRow>, ap: string)
    requires GatedWrite(spec, tools, u, a, t, e) && ap !in approvals
    ensures var d := Three(u, Is(Deferred), a, BLANK, t, BLANK, map[]);
            var w := Three(u, Is(Deferred), a, NodeState(Waiting, None, Some(ap)), t, BLANK, map[]);
            Next(spec, tools, Working(d, approvals, [], d, None), Start(a, Ask(ap))) ==
            Working(d, approvals[ap := ApprovalRow(a, Open)], [], w, Some(a))
  {
    var d := Three(u, Is(Deferred), a, BLANK, t, BLANK, map[]);
    var st := NodeState(Waiting, None, Some(ap));
    assert Into(spec.edges, a) == [] by { OneEdge(e, a); }
    assert CanStart(spec, d, a);
    AsksEffect(spec, tools, approvals, d, NodeNamed(spec.nodes, a).value, ap);
    assert d.states[a := st] == map[u := Is(Deferred), a := st, t := BLANK];
  }

  lemma AsksEffect(spec: Spec, tools: map<string, Tier>, approvals: map<string, ApprovalRow>, g: Nodes, n: Node, ap: string)
    requires n.kind == Kind.Approval && ap !in approvals
    ensures StartEffect(spec, tools, approvals, g, n, BLANK, Ask(ap)) ==
            Effect(NodeState(Waiting, None, Some(ap)), None, Some(ap), false)
  {
  }

  /** An `advance` that defers the task, asks for approval, and whose next save raises. */
  lemma LosesOne(spec: Spec, tools: map<string, Tier>, u: Id, a: Id, t: Id, e: Edge,
                 es: seq<Event>, approvals: map<string, ApprovalRow>, lost: set<Id>, ap: string) returns (fs: seq<Event>)
    requires GatedWrite(spec, tools, u, a, t, e) && ap !in approvals && Lives(spec, tools, es)
    requires Run(spec, tools, es) == Resting(Three(u, BLANK, a, BLANK, t, BLANK, map[]), approvals, [])
    requires ServiceAfter(spec, tools, es) == Service(true, lost)
    ensures Lives(spec, tools, fs) && Raised(fs) == Raised(es) + 1
    ensures Run(spec, tools, fs) ==
            Resting(Three(u, Is(Deferred), a, BLANK, t, BLANK, map[]), approvals[ap := ApprovalRow(a, Open)], [])
    ensures ServiceAfter(spec, tools, fs) == Service(true, lost + {a})
  {
    var g := Three(u, BLANK, a, BLANK, t, BLANK, map[]);
    var d := Three(u, Is(Deferred), a, BLANK, t, BLANK, map[]);
    var w := Three(u, Is(Deferred), a, NodeState(Waiting, None, Some(ap)), t, BLANK, map[]);
    var after := approvals[ap := ApprovalRow(a, Open)];
    Defers(spec, tools, u, a, t, e, approvals);
    Asks(spec, tools, u, a, t, e, approvals, ap);
    Rests(spec, tools, g, approvals, []);
    var begun := Reach(spec, tools, es, Resting(g, approvals, []), Service(true, lost), Begin, Working(g, approvals, [], g, None));
    fs := FourMore(spec, tools, begun, Service(true, lost), a,
                   Start(u, Busy()), Save, Start(a, Ask(ap)),
                   Working(g, approvals, [], g, None), Working(g, approvals, [], d, Some(u)), Working(d, approvals, [], d, None),
                   Working(d, after, [], w, Some(a)), Resting(d, after, []));
  }

  lemma Rests(spec: Spec, tools: map<string, Tier>, g: Nodes, approvals: map<string, ApprovalRow>, acts: seq<Id>)
    ensures Next(spec, tools, Resting(g, approvals, acts), Begin) == Working(g, approvals, acts, g, None)
  {
  }

  /** Two starts with a save in between, the second one asking, and a save that raises. */
  lemma FourMore(spec: Spec, tools: map<string, Tier>, es: seq<Event>, s: Service, a: Id, e1: Event, e2: Event, e3: Event,
                 m0: Machine, m1: Machine, m2: Machine, m3: Machine, m4: Machine) returns (fs: seq<Event>)
    requires Run(spec, tools, es) == m0 && ServiceAfter(spec, tools, es) == s && Lives(spec, tools, es)
    requires e1.Start? && e2.Save? && e3.Start?
    requires Next(spec, tools, m0, e1) == m1 && Next(spec, tools, m1, e2) == m2 && Next(spec, tools, m2, e3) == m3
    requires m3.mem.Some? && m3.mem.value.started == Some(a) && StatusOf(m3.mem.value.nodes, a) == Waiting
    requires m4 == m3.(mem := None)
    ensures fs == es + [e1] + [e2] + [e3] + [Abort] && Lives(spec, tools, fs) && Raised(fs) == Raised(es) + 1
    ensures Run(spec, tools, fs) == m4 && ServiceAfter(spec, tools, fs) == Service(s.up, s.lost + {a})
  {
    var f1 := Reach(spec, tools, es, m0, s, e1, m1);
    var f2 := Reach(spec, tools, f1, m1, s, e2, m2);
    var f3 := Reach(spec, tools, f2, m2, s, e3, m3);
    AskLost(spec, m3, s, a);
    fs := Reach(spec, tools, f3, m3, s, Abort, m4);
  }

  lemma AskLost(spec: Spec, m: Machine, s: Service, a: Id)
    requires m.mem.Some? && m.mem.value.started == Some(a) && StatusOf(m.mem.value.nodes, a) == Waiting
    ensures Serve(spec, m, s, Abort) == Service(s.up, s.lost + {a})
  {
  }

  /** The deferred task is tried again. */
  lemma Retries(spec: Spec, tools: map<string, Tier>, u: Id, a: Id, t: Id, approvals: map<string, ApprovalRow>)
    requires u != a && u != t && a != t
    ensures Next(spec, tools, Resting(Three(u, Is(Deferred), a, BLANK, t, BLANK, map[]), approvals, []), Retry(u)) ==
            Resting(Three(u, BLANK, a, BLANK, t, BLANK, map[]), approvals, [])
  {
    assert map[u := Is(Deferred), a := BLANK, t := BLANK][u := BLANK] == map[u := BLANK, a := BLANK, t := BLANK];
  }

  lemma StartsBlank(spec: Spec, tools: map<string, Tier>, u: Id, a: Id, t: Id)
    requires IdSet(spec) == {u, a, t}
    ensures Run(spec, tools, []) == Resting(Three(u, BLANK, a, BLANK, t, BLANK, map[]), map[], [])
  {
    assert Fresh(spec).states == map[u := BLANK, a := BLANK, t := BLANK];
  }

  lemma BothLost(spec: Spec, tools: map<string, Tier>, u: Id, a: Id, t: Id, e: Edge) returns (es: seq<Event>)
    requires GatedWrite(spec, tools, u, a, t, e)
    ensures Lives(spec, tools, es) && Raised(es) == 2 && ServiceAfter(spec, tools, es) == Service(true, {a})
    ensures Run(spec, tools, es) == Resting(Three(u, Is(Deferred), a, BLANK, t, BLANK, map[]), Table(a, Open), [])
  {
    var one := map["p" := ApprovalRow(a, Open)];
    StartsBlank(spec, tools, u, a, t);
    var f1 := LosesOne(spec, tools, u, a, t, e, [], map[], {}, "p");
    TwoRows(a);
    var f2 := Again(spec, tools, u, a, t, f1, one);
    es := LosesOne(spec, tools, u, a, t, e, f2, one, {a}, "q");
  }

  /** The two lost requests, the first in the given state. */
  function Table(a: Id, first: ApprovalStatus): map<string, ApprovalRow> {
    map["p" := ApprovalRow(a, first), "q" := ApprovalRow(a, Open)]
  }

  lemma TwoRows(a: Id)
    ensures map[]["p" := ApprovalRow(a, Open)] == map["p" := ApprovalRow(a, Open)]
    ensures "q" !in map["p" := ApprovalRow(a, Open)]
    ensures map["p" := ApprovalRow(a, Open)]["q" := ApprovalRow(a, Open)] == Table(a, Open)
    ensures Table(a, Open)["p" := ApprovalRow(a, Closed("approved"))] == Table(a, Closed("approved"))
    ensures {} + {a} == {a} && {a} + {a} == {a}
  {
  }

  lemma Again(spec: Spec, tools: map<string, Tier>, u: Id, a: Id, t: Id, es: seq<Event>, approvals: map<string, ApprovalRow>)
      returns (fs: seq<Event>)
    requires u != a && u != t && a != t && Lives(spec, tools, es) && ServiceAfter(spec, tools, es) == Service(true, {a})
    requires Run(spec, tools, es) == Resting(Three(u, Is(Deferred), a, BLANK, t, BLANK, map[]), approvals, [])
    ensures Lives(spec, tools, fs) && Raised(fs) == Raised(es) && ServiceAfter(spec, tools, fs) == Service(true, {a})
    ensures Run(spec, tools, fs) == Resting(Three(u, BLANK, a, BLANK, t, BLANK, map[]), approvals, [])
  {
    Retries(spec, tools, u, a, t, approvals);
    fs := Reach(spec, tools, es, Resting(Three(u, Is(Deferred), a, BLANK, t, BLANK, map[]), approvals, []), Service(true, {a}), Retry(u),
                Resting(Three(u, BLANK, a, BLANK, t, BLANK, map[]), approvals, []));
  }

  /** A decision on a lost request whose node names none ends that node. */
  lemma DecidesLost(spec: Spec, tools: map<string, Tier>, m: Machine, ap: string, decision: string)
    requires m.mem.None? && Active(m.row.status) && OpenRow(m, ap) && decision in DECISIONS
    requires var n := m.approvals[ap].node; n in m.row.nodes.states && m.row.nodes.states[n].approval.None?
    ensures var n, m' := m.approvals[ap].node, Next(spec, tools, m, Decide(ap, decision));
            && m'.row.nodes == WithOutcome(SetStatus(m.row.nodes, n, Done), n, Some(Decided(decision)))
            && m'.approvals == m.approvals[ap := ApprovalRow(n, Closed(decision))]
            && m'.acts == m.acts && m'.mem.None? && m'.row.cancelRequested == m.row.cancelRequested
            && (decision != "rejected" ==> m'.row.status == m.row.status)
  {
  }

  const YES: Outcome := Decided("approved")

  lemma FirstDecision(spec: Spec, tools: map<string, Tier>, u: Id, a: Id, t: Id, e: Edge) returns (es: seq<Event>)
    requires GatedWrite(spec, tools, u, a, t, e)
    ensures Lives(spec, tools, es) && Raised(es) == 2 && ServiceAfter(spec, tools, es) == Service(true, {a})
    ensures Run(spec, tools, es) ==
            Resting(Three(u, Is(Deferred), a, Is(Done), t, BLANK, map[a := YES]),
                    Table(a, Closed("approved")), [])
  {
    var both := Table(a, Open);
    TwoRows(a);
    var m := Resting(Three(u, Is(Deferred), a, BLANK, t, BLANK, map[]), both, []);
    var after := Table(a, Closed("approved"));
    var f := BothLost(spec, tools, u, a, t, e);
    assert "approved"[0] != "rejected"[0];
    DecidesLost(spec, tools, m, "p", "approved");
    assert m.row.nodes.states[a := Is(Done)] == map[u := Is(Deferred), a := Is(Done), t := BLANK];
    es := Reach(spec, tools, f, m, Service(true, {a}), Decide("p", "approved"),
                Resting(Three(u, Is(Deferred), a, Is(Done), t, BLANK, map[a := YES]), after, []));
  }

  lemma WriteIsGated(spec: Spec, tools: map<string, Tier>, u: Id, a: Id, t: Id, e: Edge)
    requires GatedWrite(spec, tools, u, a, t, e)
    ensures var g := Three(u, Is(Deferred), a, Is(Done), t, BLANK, map[a := YES]);
            ApprovedOnPath(spec, g, t) && CanStart(spec, g, t)
  {
    var g := Three(u, Is(Deferred), a, Is(Done), t, BLANK, map[a := YES]);
    OneEdge(e, t);
    GuardSays(e);
    assert e in Into(spec.edges, t) && Fired(spec, g, e);
    GateStep(spec, g, t);
  }

  lemma GuardSays(e: Edge)
    requires e.guard == Some("approved")
    ensures Guard(e, "") == "approved" && Guard(e, "approved") == "approved"
  {
    assert Lower("approved") == "approved";
  }

  /** The gated write is dispatched and saved, and the `advance` ends. */
  lemma Writes(spec: Spec, tools: map<string, Tier>, u: Id, a: Id, t: Id, e: Edge, approvals: map<string, ApprovalRow>)
    requires GatedWrite(spec, tools, u, a, t, e)
    ensures var g := Three(u, Is(Deferred), a, Is(Done), t, BLANK, map[a := YES]);
            var h := Three(u, Is(Deferred), a, Is(Done), t, Is(Done), map[a := YES, t := Reply(true)]);
            && Next(spec, tools, Working(g, approvals, [], g, None), Start(t, Ask(""))) == Working(g, approvals, [t], h, Some(t))
            && Next(spec, tools, Working(g, approvals, [t], h, Some(t)), Save) == Working(h, approvals, [t], h, None)
            && Next(spec, tools, Working(h, approvals, [t], h, None), Finish) == Resting(h, approvals, [t])
  {
    var g := Three(u, Is(Deferred), a, Is(Done), t, BLANK, map[a := YES]);
    var h := Three(u, Is(Deferred), a, Is(Done), t, Is(Done), map[a := YES, t := Reply(true)]);
    WriteStarts(spec, tools, u, a, t, e, approvals);
    StillRunning(u, Is(Deferred), a, Is(Done), t, Is(Done), map[a := YES, t := Reply(true)]);
    Ends(spec, tools, Working(g, approvals, [t], h, Some(t)));
  }

  /** Save, and with nothing pending the end of the `advance`. */
  lemma Ends(spec: Spec, tools: map<string, Tier>, m: Machine)
    requires m.mem.Some? && m.mem.value.started.Some? && !m.row.cancelRequested && RunStatusOf(m.mem.value.nodes) == RunRunning
    requires forall n :: n in m.mem.value.nodes.states ==> m.mem.value.nodes.states[n].status != Pending
    ensures Next(spec, tools, m, Save) == Working(m.mem.value.nodes, m.approvals, m.acts, m.mem.value.nodes, None)
    ensures Next(spec, tools, Working(m.mem.value.nodes, m.approvals, m.acts, m.mem.value.nodes, None), Finish) ==
            Resting(m.mem.value.nodes, m.approvals, m.acts)
  {
  }

  lemma WriteReady(spec: Spec, tools: map<string, Tier>, u: Id, a: Id, t: Id, e: Edge, approvals: map<string, ApprovalRow>)
    requires GatedWrite(spec, tools, u, a, t, e)
    ensures var g := Three(u, Is(Deferred), a, Is(Done), t, BLANK, map[a := YES]);
            && CanStart(spec, g, t) && NodeNamed(spec.nodes, t).Some? && g.states[t] == BLANK
            && StartEffect(spec, tools, approvals, g, NodeNamed(spec.nodes, t).value, BLANK, Ask("")) ==
               Effect(Is(Done), Some(Reply(true)), None, true)
  {
    WriteIsGated(spec, tools, u, a, t, e);
    WriteEffect(spec, tools, approvals, Three(u, Is(Deferred), a, Is(Done), t, BLANK, map[a := YES]), NodeNamed(spec.nodes, t).value);
  }

  /** A start, given its effect. */
  lemma StartsAs(spec: Spec, tools: map<string, Tier>, m: Machine, n: Id, w: World, eff: Effect)
    requires m.mem.Some? && m.mem.value.started.None? && CanStart(spec, m.mem.value.nodes, n) && NodeNamed(spec.nodes, n).Some?
    requires StartEffect(spec, tools, m.approvals, m.mem.value.nodes, NodeNamed(spec.nodes, n).value, m.mem.value.nodes.states[n], w) == eff
    ensures Next(spec, tools, m, Start(n, w)) ==
            Machine(m.row,
                    if eff.row.Some? then m.approvals[eff.row.value := ApprovalRow(n, Open)] else m.approvals,
                    if eff.act then m.acts + [n] else m.acts,
                    Some(Memory(WithOutcome(Set(m.mem.value.nodes, n, eff.state), n, eff.outcome), Some(n))))
  {
  }

  lemma WriteStarts(spec: Spec, tools: map<string, Tier>, u: Id, a: Id, t: Id, e: Edge, approvals: map<string, ApprovalRow>)
    requires GatedWrite(spec, tools, u, a, t, e)
    ensures var g := Three(u, Is(Deferred), a, Is(Done), t, BLANK, map[a := YES]);
            var h := Three(u, Is(Deferred), a, Is(Done), t, Is(Done), map[a := YES, t := Reply(true)]);
            Next(spec, tools, Working(g, approvals, [], g, None), Start(t, Ask(""))) == Working(g, approvals, [t], h, Some(t))
  {
    var g := Three(u, Is(Deferred), a, Is(Done), t, BLANK, map[a := YES]);
    var h := Three(u, Is(Deferred), a, Is(Done), t, Is(Done), map[a := YES, t := Reply(true)]);
    WriteReady(spec, tools, u, a, t, e, approvals);
    StartsAs(spec, tools, Working(g, approvals, [], g, None), t, Ask(""), Effect(Is(Done), Some(Reply(true)), None, true));
    SetsThree(u, Is(Deferred), a, Is(Done), t, BLANK, Is(Done), map[a := YES], Reply(true));
    assert map[a := YES][t := Reply(true)] == map[a := YES, t := Reply(true)];
    assert [] + [t] == [t];
  }

  lemma SetsThree(u: Id, su: NodeState, a: Id, sa: NodeState, t: Id, st: NodeState, st': NodeState, results: map<Id, Outcome>, o: Outcome)
    requires u != t && a != t
    ensures WithOutcome(Set(Three(u, su, a, sa, t, st, results), t, st'), t, Some(o)) ==
            Three(u, su, a, sa, t, st', results[t := o])
  {
    assert map[u := su, a := sa, t := st][t := st'] == map[u := su, a := sa, t := st'];
  }

  lemma WriteEffect(spec: Spec, tools: map<string, Tier>, approvals: map<string, ApprovalRow>, g: Nodes, n: Node)
    requires n.kind == Kind.Tool && n.tool in tools && tools[n.tool] != Read && !IsMock(n.environment) && ApprovedOnPath(spec, g, n.id)
    ensures StartEffect(spec, tools, approvals, g, n, BLANK, Ask("")) == Effect(Is(Done), Some(Reply(true)), None, true)
  {
  }

  lemma AfterWrite(spec: Spec, tools: map<string, Tier>, u: Id, a: Id, t: Id, e: Edge) returns (es: seq<Event>)
    requires GatedWrite(spec, tools, u, a, t, e)
    ensures Lives(spec, tools, es) && Raised(es) == 2 && ServiceAfter(spec, tools, es) == Service(true, {a})
    ensures Run(spec, tools, es) ==
            Resting(Three(u, Is(Deferred), a, Is(Done), t, Is(Done), map[a := YES, t := Reply(true)]),
                    Table(a, Closed("approved")), [t])
  {
    var approvals := Table(a, Closed("approved"));
    var g := Three(u, Is(Deferred), a, Is(Done), t, BLANK, map[a := YES]);
    var h := Three(u, Is(Deferred), a, Is(Done), t, Is(Done), map[a := YES, t := Reply(true)]);
    var s := Service(true, {a});
    Writes(spec, tools, u, a, t, e, approvals);
    var f0 := FirstDecision(spec, tools, u, a, t, e);
    var f1 := Reach(spec, tools, f0, Resting(g, approvals, []), s, Begin, Working(g, approvals, [], g, None));
    var f2 := Reach(spec, tools, f1, Working(g, approvals, [], g, None), s, Start(t, Ask("")), Working(g, approvals, [t], h, Some(t)));
    var f3 := Reach(spec, tools, f2, Working(g, approvals, [t], h, Some(t)), s, Save, Working(h, approvals, [t], h, None));
    es := Reach(spec, tools, f3, Working(h, approvals, [t], h, None), s, Finish, Resting(h, approvals, [t]));
  }

  lemma RejectedEdgeIsShut(spec: Spec, g: Nodes, e: Edge)
    requires HasKind(spec, e.src, Kind.Approval) && Guard(e, "approved") == "approved"
    requires ResultOf(g, e.src) == Some(Decided("rejected"))
    ensures !Fired(spec, g, e)
  {
    assert "approved"[0] != "rejected"[0];
  }

  lemma UnsupportedIsUngated(spec: Spec, m: Machine, g: Nodes, n: Id)
    requires forall e :: e in Into(spec.edges, n) ==> !Fired(spec, g, e)
    ensures !HumanGated(spec, m, g, n)
  {
    IntoAmong(spec, g, n);
    assert StartChain(FiredEdges(spec, g), [], n);
    assert !PassesHuman(spec, m, []);
  }

  /** The program makes a run in which a write is dispatched behind an approval and
      afterwards is not gated: two saves raised, and the second lost request was
      rejected after the first had been approved. */
  lemma SecondDecisionUngatesWrite(spec: Spec, tools: map<string, Tier>, u: Id, a: Id, t: Id, e: Edge) returns (es: seq<Event>)
    requires GatedWrite(spec, tools, u, a, t, e)
    ensures Lives(spec, tools, es) && Raised(es) == 2
    ensures t in Run(spec, tools, es).acts && !HumanGated(spec, Run(spec, tools, es), Run(spec, tools, es).row.nodes, t)
  {
    var approvals := Table(a, Closed("approved"));
    var m := Resting(Three(u, Is(Deferred), a, Is(Done), t, Is(Done), map[a := YES, t := Reply(true)]), approvals, [t]);
    var f := AfterWrite(spec, tools, u, a, t, e);
    DecidesLost(spec, tools, m, "q", "rejected");
    var m' := Next(spec, tools, m, Decide("q", "rejected"));
    es := Reach(spec, tools, f, m, Service(true, {a}), Decide("q", "rejected"), m');
    GuardSays(e);
    RejectedEdgeIsShut(spec, m'.row.nodes, e);
    OneEdge(e, t);
    UnsupportedIsUngated(spec, m', m'.row.nodes, t);
  }

  /** Such a workflow, and a well-formed one: the task and the approval start it. */
  lemma SuchAWorkflow(spec: Spec, u: Id, a: Id, t: Id, e: Edge)
    requires u != a && u != t && a != t && END !in {u, a, t} && e == Edge(a, t, Some("approved"))
    requires spec == Spec([Node(u, Kind.AgentTask, "scout", None, None, None, ""),
                           Node(a, Kind.Approval, "", None, None, None, ""),
                           Node(t, Kind.Tool, "", None, None, None, "put")], [e])
    ensures WellFormed(spec) && GatedWrite(spec, map["put" := Write], u, a, t, e)
  {
    ThreeNodes(spec.nodes[0], spec.nodes[1], spec.nodes[2]);
    assert IdSet(spec) == {u, a, t};
    RankedHasNoCycle([e], n => if n == t then 1 else 0);
  }

  lemma ThreeNodes(x: Node, y: Node, z: Node)
    requires x.id != y.id && y.id != z.id && x.id != z.id
    ensures UniqueIds([x, y, z])
    ensures NodeNamed([x, y, z], x.id) == Some(x) && NodeNamed([x, y, z], y.id) == Some(y) && NodeNamed([x, y, z], z.id) == Some(z)
  {
    assert x in [x, y, z] && y in [x, y, z] && z in [x, y, z];
  }
}
