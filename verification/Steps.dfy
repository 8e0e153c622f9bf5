/** Every step keeps the invariant of the whole machine: row, approvals, acts and
    the copies of an `advance` in progress. */
module Steps {
  import opened Wrappers
  import opened Graphs
  import opened Workflows
  import opened Machine
  import opened Invariants

  // ---------------------------------------------------------------- the machine's invariant

  /** An open approval belongs to an approval node that was really reached. */
  ghost predicate OpenInv(spec: Spec, rank: Id -> nat, g: Nodes, approvals: map<string, ApprovalRow>)
    requires Ranked(spec.edges, rank)
  {
    forall a :: a in approvals && approvals[a].status == Open ==>
      var n := approvals[a].node;
      n in IdSet(spec) && HasKind(spec, n, Approval) && Supported(spec, g, n) && Settled(spec, rank, g, n)
  }

  /** The approval a node names is its own, and was decided if the node is done. */
  ghost predicate LinksInv(g: Nodes, approvals: map<string, ApprovalRow>) {
    forall n :: n in g.states && g.states[n].approval.Some? ==>
      var a := g.states[n].approval.value;
      a in approvals && approvals[a].node == n && (g.states[n].status == Done ==> approvals[a].status.Closed?)
  }

  ghost predicate DecidedBy(approvals: map<string, ApprovalRow>, n: Id, decision: string) {
    exists a :: a in approvals && approvals[a] == ApprovalRow(n, Closed(decision))
  }

  /** A recorded decision is one that was made on an approval row of that node. */
  ghost predicate ProvenanceInv(g: Nodes, approvals: map<string, ApprovalRow>) {
    forall n :: n in g.results && g.results[n].Decided? ==> DecidedBy(approvals, n, g.results[n].decision)
  }

  ghost predicate ActsInv(spec: Spec, rank: Id -> nat, g: Nodes, acts: seq<Id>)
    requires Ranked(spec.edges, rank)
  {
    forall n :: n in acts ==> ApprovedOnPath(spec, g, n) && Settled(spec, rank, g, n)
  }

  ghost predicate RowInv(spec: Spec, row: Row) {
    Active(row.status) ==>
      forall n :: n in row.nodes.states ==>
        StatusOf(row.nodes, n) != Cancelled && (StatusOf(row.nodes, n) == Failed ==> HasKind(spec, n, AgentTask))
  }

  ghost predicate MemInv(spec: Spec, rank: Id -> nat, m: Machine)
    requires Ranked(spec.edges, rank)
  {
    m.mem.Some? ==>
      var g := m.mem.value.nodes;
      && NodesInv(spec, rank, g) && Evolves(spec, m.row.nodes, g)
      && LinksInv(g, m.approvals) && ProvenanceInv(g, m.approvals)
      && (forall n :: n in g.states ==> g.states[n].status != Cancelled)
      && (m.mem.value.started.None? ==> OnlySkips(spec, rank, m.row.nodes, g))
  }

  ghost predicate MachineInv(spec: Spec, rank: Id -> nat, m: Machine)
    requires Ranked(spec.edges, rank)
  {
    && NodesInv(spec, rank, m.row.nodes)
    && OpenInv(spec, rank, m.row.nodes, m.approvals)
    && LinksInv(m.row.nodes, m.approvals)
    && ProvenanceInv(m.row.nodes, m.approvals)
    && ActsInv(spec, rank, m.row.nodes, m.acts)
    && RowInv(spec, m.row)
    && MemInv(spec, rank, m)
  }

  // ---------------------------------------------------------------- decisions on settled nodes

  /** The one step that can rewrite history: deciding an approval whose node is
      already done. It takes two approval rows that their node does not name. */
  predicate Overwrites(m: Machine, ap: string) {
    DecisionLands(m, ap) && m.row.nodes.states[m.approvals[ap].node].status == Done
  }

  predicate CleanStep(m: Machine, ev: Event) {
    ev.Decide? ==> !Overwrites(m, ev.approval)
  }

  // ---------------------------------------------------------------- generic parts

  /** The row evolves, nothing was opened: open approvals and past acts stay good. */
  lemma RowEvolves(spec: Spec, rank: Id -> nat, g: Nodes, g': Nodes, approvals: map<string, ApprovalRow>, acts: seq<Id>)
    requires Ranked(spec.edges, rank) && EdgesKnown(IdSet(spec), spec.edges)
    requires NodesInv(spec, rank, g) && Evolves(spec, g, g')
    requires OpenInv(spec, rank, g, approvals) && ActsInv(spec, rank, g, acts)
    ensures OpenInv(spec, rank, g', approvals) && ActsInv(spec, rank, g', acts)
  {
    forall a | a in approvals && approvals[a].status == Open
      ensures Supported(spec, g', approvals[a].node) && Settled(spec, rank, g', approvals[a].node)
    {
      SettledStays(spec, rank, g, g', approvals[a].node);
    }
    forall n | n in acts
      ensures ApprovedOnPath(spec, g', n) && Settled(spec, rank, g', n)
    {
      GateStays(spec, rank, g, g', n);
    }
  }

  /** Only the touched nodes need a new proof of their invariant. */
  lemma NodesStay(spec: Spec, rank: Id -> nat, g: Nodes, g': Nodes, touched: set<Id>)
    requires Ranked(spec.edges, rank) && NodesInv(spec, rank, g) && Evolves(spec, g, g')
    requires g'.states.Keys == g.states.Keys && g'.results.Keys <= IdSet(spec)
    requires forall k :: k in g.states && k !in touched ==>
               g'.states[k] == g.states[k] && ResultOf(g', k) == ResultOf(g, k)
    requires forall k :: k in touched && k in g.states ==> NodeInv(spec, rank, g', k)
    ensures NodesInv(spec, rank, g')
  {
    forall k | k in g'.states
      ensures NodeInv(spec, rank, g', k)
    {
      if k !in touched {
        UntouchedNode(spec, rank, g, g', k);
      }
    }
  }

  ghost predicate MayMove(spec: Spec, n: Id, from: NodeState, to: NodeState, o: Option<Outcome>) {
    && (HasRun(to.status) || to.status == Pending)
    && from.status in {Pending, Running, Waiting, Deferred}
    && (to.status == Pending ==> from.status == Deferred && to.approval.None? && o.None?)
    && (from.status in {Running, Waiting} ==> to.status in {Done, Failed})
    && (o.Some? ==> to.status == Done || to.status == Failed)
    && (HasKind(spec, n, Approval) ==>
          && to.status in {Waiting, Done, Failed} && (to.status == Done <==> o.Some?)
          && (o.Some? ==> o.value.Decided?))
    && (HasKind(spec, n, Condition) && to.status == Done ==> o.Some?)
    && (to.approval.Some? ==> HasKind(spec, n, Approval))
    && (to.status in {Running, Deferred} ==> HasKind(spec, n, AgentTask))
  }

  lemma MoveEvolves(spec: Spec, rank: Id -> nat, g: Nodes, n: Id, st: NodeState, o: Option<Outcome>)
    requires n in g.states && MayMove(spec, n, g.states[n], st, o) && Supported(spec, g, n)
    ensures Evolves(spec, g, WithOutcome(Set(g, n, st), n, o))
  {
    var g' := WithOutcome(Set(g, n, st), n, o);
    forall k | k in g.states || k in g'.states
      ensures NodeEvolves(spec, g, g', k)
    {
      assert k != n ==> StatusOf(g', k) == StatusOf(g, k) && ResultOf(g', k) == ResultOf(g, k);
    }
  }

  lemma MovedNode(spec: Spec, rank: Id -> nat, g: Nodes, g': Nodes, n: Id, st: NodeState, o: Option<Outcome>)
    requires Ranked(spec.edges, rank) && NodeInv(spec, rank, g, n)
    requires n in g.states && MayMove(spec, n, g.states[n], st, o)
    requires g' == WithOutcome(Set(g, n, st), n, o)
    requires Supported(spec, g', n) && Settled(spec, rank, g', n)
    ensures NodeInv(spec, rank, g', n)
  {
    assert n !in g.results;
  }

  /** One node moves to a state it has run into: the dictionaries stay good. */
  lemma MoveNode(spec: Spec, rank: Id -> nat, g: Nodes, n: Id, st: NodeState, o: Option<Outcome>)
    requires Ranked(spec.edges, rank) && NodesInv(spec, rank, g)
    requires n in g.states && MayMove(spec, n, g.states[n], st, o)
    requires Supported(spec, g, n) && Settled(spec, rank, g, n)
    ensures Evolves(spec, g, WithOutcome(Set(g, n, st), n, o))
    ensures NodesInv(spec, rank, WithOutcome(Set(g, n, st), n, o))
  {
    var g' := WithOutcome(Set(g, n, st), n, o);
    MoveEvolves(spec, rank, g, n, st, o);
    SettledStays(spec, rank, g, g', n);
    MovedNode(spec, rank, g, g', n, st, o);
    NodesStay(spec, rank, g, g', {n});
  }

  lemma SweptNode(spec: Spec, rank: Id -> nat, g: Nodes, g': Nodes, n: Id, to: Status)
    requires Ranked(spec.edges, rank) && NodeInv(spec, rank, g, n) && n in g.states && n in g'.states
    requires g'.states[n] == g.states[n].(status := to) && ResultOf(g', n) == ResultOf(g, n)
    requires g.states[n].status in {Running, Waiting, Deferred, Pending}
    requires to == Cancelled || (to == Pending && g.states[n].status == Deferred)
    ensures NodeInv(spec, rank, g', n)
  {
  }

  lemma SweepEvolves(spec: Spec, g: Nodes, from: set<Status>, to: Status)
    requires (to == Cancelled && from <= {Running, Waiting, Deferred, Pending}) || (to == Pending && from == {Deferred})
    ensures Evolves(spec, g, Sweep(g, from, to))
  {
  }

  /** Live nodes swept to `cancelled`, or deferred nodes back to `pending`. */
  lemma SweepNodes(spec: Spec, rank: Id -> nat, g: Nodes, from: set<Status>, to: Status)
    requires Ranked(spec.edges, rank) && NodesInv(spec, rank, g)
    requires (to == Cancelled && from <= {Running, Waiting, Deferred, Pending}) || (to == Pending && from == {Deferred})
    ensures Evolves(spec, g, Sweep(g, from, to)) && NodesInv(spec, rank, Sweep(g, from, to))
  {
    var g' := Sweep(g, from, to);
    SweepEvolves(spec, g, from, to);
    var touched := set n | n in g.states && g.states[n].status in from;
    forall k | k in touched
      ensures NodeInv(spec, rank, g', k)
    {
      SweptNode(spec, rank, g, g', k, to);
    }
    NodesStay(spec, rank, g, g', touched);
  }

  lemma Reflexive(spec: Spec, g: Nodes)
    ensures Evolves(spec, g, g)
  {
  }

  // ---------------------------------------------------------------- one lemma per kind of step

  lemma SkippedIsDoomed(spec: Spec, rank: Id -> nat, h: Nodes, n: Id)
    requires Ranked(spec.edges, rank) && CanSkip(spec, h, n)
    ensures Doomed(spec, rank, h, n) && Settled(spec, rank, h, n)
  {
    forall e | e in Into(spec.edges, n)
      ensures (StatusOf(h, e.src) == Done && !Fires(spec, e, h.results)) || Doomed(spec, rank, h, e.src)
    {
      assert !Fired(spec, h, e);
      assert Settling(StatusOf(h, e.src));
    }
  }

  lemma ResolvedIsSettled(spec: Spec, rank: Id -> nat, h: Nodes, n: Id)
    requires Ranked(spec.edges, rank) && Resolved(spec, h, n)
    ensures Settled(spec, rank, h, n)
  {
    forall e | e in Into(spec.edges, n)
      ensures StatusOf(h, e.src) == Done || Doomed(spec, rank, h, e.src)
    {
      assert Settling(StatusOf(h, e.src));
    }
  }

  lemma SkippedNode(spec: Spec, rank: Id -> nat, h: Nodes, h': Nodes, n: Id)
    requires Ranked(spec.edges, rank) && NodeInv(spec, rank, h, n) && CanSkip(spec, h, n)
    requires h' == SetStatus(h, n, Skipped)
    requires !Supported(spec, h', n) && Settled(spec, rank, h', n)
    ensures NodeInv(spec, rank, h', n)
  {
  }

  lemma SkipEvolves(spec: Spec, h: Nodes, n: Id)
    requires n in h.states && h.states[n].status == Pending
    ensures Evolves(spec, h, SetStatus(h, n, Skipped))
  {
  }

  lemma SkipNode(spec: Spec, rank: Id -> nat, h: Nodes, n: Id)
    requires Ranked(spec.edges, rank) && NodesInv(spec, rank, h) && CanSkip(spec, h, n)
    ensures NodesInv(spec, rank, SetStatus(h, n, Skipped))
  {
    var h' := SetStatus(h, n, Skipped);
    SkippedIsDoomed(spec, rank, h, n);
    SkipEvolves(spec, h, n);
    SettledStays(spec, rank, h, h', n);
    SkippedNode(spec, rank, h, h', n);
    NodesStay(spec, rank, h, h', {n});
  }

  lemma SkipKeeps(spec: Spec, rank: Id -> nat, tools: map<string, Tier>, m: Machine, n: Id)
    requires Ranked(spec.edges, rank) && EdgesKnown(IdSet(spec), spec.edges) && MachineInv(spec, rank, m)
    requires m.mem.Some? && m.mem.value.started.None? && CanSkip(spec, m.mem.value.nodes, n)
    ensures MachineInv(spec, rank, Next(spec, tools, m, Skip(n)))
  {
    var g, h := m.row.nodes, m.mem.value.nodes;
    var h' := SetStatus(h, n, Skipped);
    SkipNode(spec, rank, h, n);
    SkippedIsDoomed(spec, rank, h, n);
    MoreSkips(spec, rank, g, h, n);
    SkipsSame(spec, rank, g, h');
    SkipLinks(h, n, m.approvals);
  }

  lemma MoreSkips(spec: Spec, rank: Id -> nat, g: Nodes, h: Nodes, n: Id)
    requires Ranked(spec.edges, rank) && OnlySkips(spec, rank, g, h)
    requires n in h.states && h.states[n].status == Pending && Doomed(spec, rank, h, n)
    ensures OnlySkips(spec, rank, g, SetStatus(h, n, Skipped))
  {
    SkipsSameDoom(spec, rank, g, h, n);
  }

  lemma SkipLinks(h: Nodes, n: Id, approvals: map<string, ApprovalRow>)
    requires n in h.states && LinksInv(h, approvals) && ProvenanceInv(h, approvals)
    ensures LinksInv(SetStatus(h, n, Skipped), approvals) && ProvenanceInv(SetStatus(h, n, Skipped), approvals)
  {
  }

  /** What `_start_node` can leave behind. */
  lemma EffectShape(spec: Spec, tools: map<string, Tier>, approvals: map<string, ApprovalRow>, g: Nodes, n: Node,
                    st: NodeState, w: World)
    requires st.status == Pending && st.approval.None?
    ensures var eff := StartEffect(spec, tools, approvals, g, n, st, w);
            && HasRun(eff.state.status)
            && (eff.outcome.Some? ==> eff.state.status == Done || eff.state.status == Failed)
            && (eff.outcome.Some? ==> !eff.outcome.value.Decided?)
            && (n.kind == Approval ==> eff.state.status in {Waiting, Failed} && eff.outcome.None?)
            && (eff.state.approval == eff.row)
            && (eff.row.Some? ==> n.kind == Approval && eff.state.status == Waiting && eff.row.value !in approvals)
            && (eff.act ==> ApprovedOnPath(spec, g, n.id))
  {
  }

  /** What starting a node leaves, from the node's own point of view. */
  lemma StartedShape(spec: Spec, tools: map<string, Tier>, m: Machine, n: Id, w: World)
    requires m.mem.Some? && n in m.mem.value.nodes.states && NodeNamed(spec.nodes, n).Some?
    requires m.mem.value.nodes.states[n].status == Pending && m.mem.value.nodes.states[n].approval.None?
    ensures var h, m' := m.mem.value.nodes, ApplyStart(spec, tools, m, n, w);
            var h' := m'.mem.value.nodes;
            && (forall k :: k != n ==> StatusOf(h', k) == StatusOf(h, k) && ResultOf(h', k) == ResultOf(h, k))
            && (forall k :: k in h'.results && h'.results[k].Decided? ==> k in h.results && h.results[k] == h'.results[k])
            && n in h'.states && HasRun(h'.states[n].status)
            && h'.states == h.states[n := h'.states[n]]
            && (h'.states[n].approval.Some? ==>
                  && h'.states[n].status == Waiting && h'.states[n].approval.value !in m.approvals
                  && m'.approvals == m.approvals[h'.states[n].approval.value := ApprovalRow(n, Open)])
            && (h'.states[n].approval.None? ==> m'.approvals == m.approvals)
  {
    var h := m.mem.value.nodes;
    EffectShape(spec, tools, m.approvals, h, NodeNamed(spec.nodes, n).value, h.states[n], w);
  }

  lemma StartedNodes(spec: Spec, rank: Id -> nat, tools: map<string, Tier>, m: Machine, n: Id, w: World)
    requires Ranked(spec.edges, rank) && m.mem.Some? && NodesInv(spec, rank, m.mem.value.nodes)
    requires CanStart(spec, m.mem.value.nodes, n) && NodeNamed(spec.nodes, n).Some?
    ensures NodesInv(spec, rank, ApplyStart(spec, tools, m, n, w).mem.value.nodes)
  {
    var h := m.mem.value.nodes;
    assert NodeInv(spec, rank, h, n);
    var node := NodeNamed(spec.nodes, n).value;
    EffectShape(spec, tools, m.approvals, h, node, h.states[n], w);
    var eff := StartEffect(spec, tools, m.approvals, h, node, h.states[n], w);
    ResolvedIsSettled(spec, rank, h, n);
    StartMayMove(spec, tools, m.approvals, h, node, h.states[n], w);
    MoveNode(spec, rank, h, n, eff.state, eff.outcome);
  }

  lemma StartMayMove(spec: Spec, tools: map<string, Tier>, approvals: map<string, ApprovalRow>, g: Nodes, n: Node,
                     st: NodeState, w: World)
    requires st.status == Pending && st.approval.None? && NodeNamed(spec.nodes, n.id) == Some(n)
    ensures var eff := StartEffect(spec, tools, approvals, g, n, st, w);
            MayMove(spec, n.id, st, eff.state, eff.outcome)
  {
  }

  lemma StartKeeps(spec: Spec, rank: Id -> nat, tools: map<string, Tier>, m: Machine, n: Id, w: World)
    requires Ranked(spec.edges, rank) && EdgesKnown(IdSet(spec), spec.edges) && MachineInv(spec, rank, m)
    requires m.mem.Some? && m.mem.value.started.None? && CanStart(spec, m.mem.value.nodes, n)
    requires NodeNamed(spec.nodes, n).Some?
    ensures MachineInv(spec, rank, ApplyStart(spec, tools, m, n, w))
  {
    var g, h := m.row.nodes, m.mem.value.nodes;
    var m' := ApplyStart(spec, tools, m, n, w);
    StartedNodes(spec, rank, tools, m, n, w);
    assert NodeInv(spec, rank, h, n);
    StartedShape(spec, tools, m, n, w);
    EvolvesAfterSkips(spec, rank, g, h, m'.mem.value.nodes, n);
    StartApprovals(spec, rank, tools, m, n, w);
    StartLinks(spec, rank, tools, m, n, w);
    KeepsProvenance(g, m.approvals, g, m'.approvals);
    KeepsProvenance(h, m.approvals, m'.mem.value.nodes, m'.approvals);
  }

  lemma EvolvesAfterSkips(spec: Spec, rank: Id -> nat, g: Nodes, h: Nodes, h': Nodes, n: Id)
    requires Ranked(spec.edges, rank) && OnlySkips(spec, rank, g, h) && CanStart(spec, h, n)
    requires forall k :: k != n ==> StatusOf(h', k) == StatusOf(h, k) && ResultOf(h', k) == ResultOf(h, k)
    requires n in h'.states && HasRun(h'.states[n].status)
    ensures Evolves(spec, g, h')
  {
    SkipsSame(spec, rank, g, h);
    forall k | k in g.states || k in h'.states
      ensures NodeEvolves(spec, g, h', k)
    {
      assert NodeEvolves(spec, g, h, k);
    }
  }

  /** The approval row a start opens, and the write it dispatches, are in order. */
  lemma StartApprovals(spec: Spec, rank: Id -> nat, tools: map<string, Tier>, m: Machine, n: Id, w: World)
    requires Ranked(spec.edges, rank) && m.mem.Some? && CanStart(spec, m.mem.value.nodes, n)
    requires NodeNamed(spec.nodes, n).Some? && OnlySkips(spec, rank, m.row.nodes, m.mem.value.nodes)
    requires NodesInv(spec, rank, m.mem.value.nodes)
    requires OpenInv(spec, rank, m.row.nodes, m.approvals) && ActsInv(spec, rank, m.row.nodes, m.acts)
    ensures OpenInv(spec, rank, m.row.nodes, ApplyStart(spec, tools, m, n, w).approvals)
    ensures ActsInv(spec, rank, m.row.nodes, ApplyStart(spec, tools, m, n, w).acts)
  {
    var h := m.mem.value.nodes;
    SkipsSame(spec, rank, m.row.nodes, h);
    ResolvedIsSettled(spec, rank, h, n);
    assert NodeInv(spec, rank, h, n);
    EffectShape(spec, tools, m.approvals, h, NodeNamed(spec.nodes, n).value, h.states[n], w);
  }

  lemma StartLinks(spec: Spec, rank: Id -> nat, tools: map<string, Tier>, m: Machine, n: Id, w: World)
    requires Ranked(spec.edges, rank) && m.mem.Some? && CanStart(spec, m.mem.value.nodes, n)
    requires NodeNamed(spec.nodes, n).Some? && NodesInv(spec, rank, m.mem.value.nodes)
    requires LinksInv(m.row.nodes, m.approvals) && LinksInv(m.mem.value.nodes, m.approvals)
    ensures LinksInv(m.row.nodes, ApplyStart(spec, tools, m, n, w).approvals)
    ensures LinksInv(ApplyStart(spec, tools, m, n, w).mem.value.nodes, ApplyStart(spec, tools, m, n, w).approvals)
    ensures forall a :: a in m.approvals ==>
              a in ApplyStart(spec, tools, m, n, w).approvals &&
              ApplyStart(spec, tools, m, n, w).approvals[a] == m.approvals[a]
  {
    assert NodeInv(spec, rank, m.mem.value.nodes, n);
    StartedShape(spec, tools, m, n, w);
  }

  lemma KeepsProvenance(g: Nodes, approvals: map<string, ApprovalRow>, g': Nodes, approvals': map<string, ApprovalRow>)
    requires ProvenanceInv(g, approvals)
    requires forall k :: k in g'.results && g'.results[k].Decided? ==> k in g.results && g.results[k] == g'.results[k]
    requires forall a :: a in approvals && approvals[a].status.Closed? ==> a in approvals' && approvals'[a] == approvals[a]
    ensures ProvenanceInv(g', approvals')
  {
    forall k | k in g'.results && g'.results[k].Decided?
      ensures DecidedBy(approvals', k, g'.results[k].decision)
    {
      KeepsDecisions(approvals, approvals', k, g.results[k].decision);
    }
  }

  lemma KeepsDecisions(approvals: map<string, ApprovalRow>, approvals': map<string, ApprovalRow>, n: Id, decision: string)
    requires DecidedBy(approvals, n, decision)
    requires forall a :: a in approvals && approvals[a].status.Closed? ==> a in approvals' && approvals'[a] == approvals[a]
    ensures DecidedBy(approvals', n, decision)
  {
    var a :| a in approvals && approvals[a] == ApprovalRow(n, Closed(decision));
    assert a in approvals';
  }

  lemma StatusFacts(g: Nodes)
    ensures RunStatusOf(g) != RunFailed <==> forall n :: n in g.states ==> g.states[n].status != Failed
    ensures RunStatusOf(g) !in {RunCancelled, RunRejected}
  {
  }

  lemma SaveKeeps(spec: Spec, rank: Id -> nat, tools: map<string, Tier>, m: Machine)
    requires Ranked(spec.edges, rank) && EdgesKnown(IdSet(spec), spec.edges) && MachineInv(spec, rank, m)
    requires m.mem.Some? && m.mem.value.started.Some?
    ensures MachineInv(spec, rank, Next(spec, tools, m, Save))
  {
    var g, h := m.row.nodes, m.mem.value.nodes;
    RowEvolves(spec, rank, g, h, m.approvals, m.acts);
    Reflexive(spec, h);
    StatusFacts(h);
  }

  lemma FinishKeeps(spec: Spec, rank: Id -> nat, m: Machine)
    requires Ranked(spec.edges, rank) && EdgesKnown(IdSet(spec), spec.edges) && MachineInv(spec, rank, m)
    requires m.mem.Some? && m.mem.value.started.None?
    ensures MachineInv(spec, rank, ApplyFinish(m))
    ensures Evolves(spec, m.row.nodes, ApplyFinish(m).row.nodes)
  {
    var h := m.mem.value.nodes;
    StatusFacts(h);
    if RunStatusOf(h) == RunFailed {
      FailedFinish(spec, rank, m);
    } else {
      RowEvolves(spec, rank, m.row.nodes, h, m.approvals, m.acts);
    }
  }

  lemma FailedFinish(spec: Spec, rank: Id -> nat, m: Machine)
    requires Ranked(spec.edges, rank) && EdgesKnown(IdSet(spec), spec.edges) && MachineInv(spec, rank, m)
    requires m.mem.Some? && m.mem.value.started.None? && RunStatusOf(m.mem.value.nodes) == RunFailed
    ensures MachineInv(spec, rank, ApplyFinish(m))
    ensures Evolves(spec, m.row.nodes, ApplyFinish(m).row.nodes)
  {
    var g, h := m.row.nodes, m.mem.value.nodes;
    var g' := Sweep(h, {Running, Waiting, Deferred}, Cancelled);
    SweepNodes(spec, rank, h, {Running, Waiting, Deferred}, Cancelled);
    SweptFromRow(spec, rank, g, h, g');
    RowEvolves(spec, rank, g, g', m.approvals, m.acts);
    SweepLinks(h, {Running, Waiting, Deferred}, Cancelled, m.approvals);
    WithdrawKeeps(g', m.approvals);
  }

  lemma SweepLinks(h: Nodes, from: set<Status>, to: Status, approvals: map<string, ApprovalRow>)
    requires to != Done && LinksInv(h, approvals) && ProvenanceInv(h, approvals)
    ensures LinksInv(Sweep(h, from, to), approvals) && ProvenanceInv(Sweep(h, from, to), approvals)
  {
  }

  lemma SweptFromRow(spec: Spec, rank: Id -> nat, g: Nodes, h: Nodes, h': Nodes)
    requires Ranked(spec.edges, rank) && OnlySkips(spec, rank, g, h) && Evolves(spec, g, h)
    requires h' == Sweep(h, {Running, Waiting, Deferred}, Cancelled)
    ensures Evolves(spec, g, h')
  {
    forall k | k in g.states || k in h'.states
      ensures NodeEvolves(spec, g, h', k)
    {
      assert NodeEvolves(spec, g, h, k);
    }
  }

  lemma WithdrawKeeps(g: Nodes, approvals: map<string, ApprovalRow>)
    requires LinksInv(g, approvals) && ProvenanceInv(g, approvals)
    ensures LinksInv(g, Withdraw(approvals)) && ProvenanceInv(g, Withdraw(approvals))
    ensures forall a :: a in Withdraw(approvals) ==> Withdraw(approvals)[a].status != Open
  {
    KeepsProvenance(g, approvals, g, Withdraw(approvals));
  }

  lemma DecidedNodes(spec: Spec, rank: Id -> nat, m: Machine, ap: string, decision: string)
    requires Ranked(spec.edges, rank) && MachineInv(spec, rank, m)
    requires DecisionLands(m, ap) && !Overwrites(m, ap)
    ensures NodesInv(spec, rank, ApplyDecision(spec, m, ap, decision).row.nodes)
    ensures Evolves(spec, m.row.nodes, ApplyDecision(spec, m, ap, decision).row.nodes)
  {
    var g := m.row.nodes;
    var n := m.approvals[ap].node;
    assert NodeInv(spec, rank, g, n);
    MoveNode(spec, rank, g, n, g.states[n].(status := Done), Some(Decided(decision)));
  }

  lemma DecidedLinks(spec: Spec, m: Machine, ap: string, decision: string)
    requires ap in m.approvals && m.approvals[ap].status == Open
    requires LinksInv(m.row.nodes, m.approvals) && ProvenanceInv(m.row.nodes, m.approvals)
    requires !Overwrites(m, ap)
    ensures var m' := ApplyDecision(spec, m, ap, decision);
            LinksInv(m'.row.nodes, m'.approvals) && ProvenanceInv(m'.row.nodes, m'.approvals)
  {
    var m' := ApplyDecision(spec, m, ap, decision);
    var n := m.approvals[ap].node;
    assert m'.approvals[ap] == ApprovalRow(n, Closed(decision));
    forall k | k in m'.row.nodes.results && m'.row.nodes.results[k].Decided?
      ensures DecidedBy(m'.approvals, k, m'.row.nodes.results[k].decision)
    {
      if k != n || !DecisionLands(m, ap) {
        KeepsDecisions(m.approvals, m'.approvals, k, m.row.nodes.results[k].decision);
      }
    }
  }

  lemma DecideKeeps(spec: Spec, rank: Id -> nat, m: Machine, ap: string, decision: string)
    requires Ranked(spec.edges, rank) && EdgesKnown(IdSet(spec), spec.edges) && MachineInv(spec, rank, m)
    requires m.mem.None? && ap in m.approvals && m.approvals[ap].status == Open && decision in DECISIONS
    requires !Overwrites(m, ap)
    ensures MachineInv(spec, rank, ApplyDecision(spec, m, ap, decision))
    ensures Evolves(spec, m.row.nodes, ApplyDecision(spec, m, ap, decision).row.nodes)
  {
    if DecisionLands(m, ap) {
      DecidedNodes(spec, rank, m, ap, decision);
    } else {
      Reflexive(spec, m.row.nodes);
    }
    DecidedLinks(spec, m, ap, decision);
    RowEvolves(spec, rank, m.row.nodes, ApplyDecision(spec, m, ap, decision).row.nodes, m.approvals, m.acts);
  }

  lemma HeartbeatKeeps(spec: Spec, rank: Id -> nat, m: Machine, n: Id, hb: string, ok: bool)
    requires Ranked(spec.edges, rank) && EdgesKnown(IdSet(spec), spec.edges) && MachineInv(spec, rank, m)
    ensures MachineInv(spec, rank, ApplyHeartbeat(m, n, hb, ok))
    ensures Evolves(spec, m.row.nodes, ApplyHeartbeat(m, n, hb, ok).row.nodes)
  {
    var g := m.row.nodes;
    var m' := ApplyHeartbeat(m, n, hb, ok);
    if m' != m {
      assert NodeInv(spec, rank, g, n);
      MoveNode(spec, rank, g, n, g.states[n].(status := if ok then Done else Failed), Some(Report(hb)));
      RowEvolves(spec, rank, g, m'.row.nodes, m.approvals, m.acts);
    } else {
      Reflexive(spec, g);
    }
  }

  lemma RetryKeeps(spec: Spec, rank: Id -> nat, m: Machine, n: Id)
    requires Ranked(spec.edges, rank) && EdgesKnown(IdSet(spec), spec.edges) && MachineInv(spec, rank, m)
    ensures MachineInv(spec, rank, ApplyRetry(m, n))
    ensures Evolves(spec, m.row.nodes, ApplyRetry(m, n).row.nodes)
  {
    var g := m.row.nodes;
    var m' := ApplyRetry(m, n);
    if m' != m {
      assert NodeInv(spec, rank, g, n);
      MoveNode(spec, rank, g, n, g.states[n].(status := Pending), None);
      RowEvolves(spec, rank, g, m'.row.nodes, m.approvals, m.acts);
    } else {
      Reflexive(spec, g);
    }
  }

  lemma ExpiredKeeps(spec: Spec, rank: Id -> nat, m: Machine, ap: string)
    requires Ranked(spec.edges, rank) && EdgesKnown(IdSet(spec), spec.edges) && MachineInv(spec, rank, m)
    ensures MachineInv(spec, rank, ApplyExpired(m, ap))
    ensures Evolves(spec, m.row.nodes, ApplyExpired(m, ap).row.nodes)
  {
    var g := m.row.nodes;
    var m' := ApplyExpired(m, ap);
    if m' != m {
      var n := m.approvals[ap].node;
      assert NodeInv(spec, rank, g, n);
      assert g.states[n].status == Waiting;
      MoveNode(spec, rank, g, n, g.states[n].(status := Failed), None);
      RowEvolves(spec, rank, g, m'.row.nodes, m.approvals, m.acts);
    } else {
      Reflexive(spec, g);
    }
  }

  lemma ExpireRowKeeps(spec: Spec, rank: Id -> nat, m: Machine, ap: string)
    requires Ranked(spec.edges, rank) && EdgesKnown(IdSet(spec), spec.edges) && MachineInv(spec, rank, m)
    requires ap in m.approvals && m.approvals[ap].status == Open
    ensures MachineInv(spec, rank, m.(approvals := m.approvals[ap := m.approvals[ap].(status := Expired)]))
  {
    var approvals := m.approvals[ap := m.approvals[ap].(status := Expired)];
    forall k, d | DecidedBy(m.approvals, k, d)
      ensures DecidedBy(approvals, k, d)
    {
      KeepsDecisions(m.approvals, approvals, k, d);
    }
  }

  lemma CancelKeeps(spec: Spec, rank: Id -> nat, m: Machine)
    requires Ranked(spec.edges, rank) && EdgesKnown(IdSet(spec), spec.edges) && MachineInv(spec, rank, m)
    ensures MachineInv(spec, rank, ApplyCancel(m))
    ensures Evolves(spec, m.row.nodes, ApplyCancel(m).row.nodes)
  {
    var g := m.row.nodes;
    var m' := ApplyCancel(m);
    if m' != m {
      SweepNodes(spec, rank, g, {Running, Waiting, Deferred, Pending}, Cancelled);
      RowEvolves(spec, rank, g, m'.row.nodes, m.approvals, m.acts);
      WithdrawKeeps(m'.row.nodes, m.approvals);
    } else {
      Reflexive(spec, g);
    }
  }

  lemma ReconcileKeeps(spec: Spec, rank: Id -> nat, tools: map<string, Tier>, m: Machine)
    requires Ranked(spec.edges, rank) && EdgesKnown(IdSet(spec), spec.edges) && MachineInv(spec, rank, m)
    ensures MachineInv(spec, rank, Next(spec, tools, m, Reconcile))
    ensures Evolves(spec, m.row.nodes, Next(spec, tools, m, Reconcile).row.nodes)
  {
    var g := m.row.nodes;
    if m.mem.None? && Active(m.row.status) {
      SweepNodes(spec, rank, g, {Deferred}, Pending);
      RowEvolves(spec, rank, g, Sweep(g, {Deferred}, Pending), m.approvals, m.acts);
    } else {
      Reflexive(spec, g);
    }
  }

  lemma CloseKeeps(spec: Spec, rank: Id -> nat, m: Machine)
    requires Ranked(spec.edges, rank) && MachineInv(spec, rank, m)
    ensures MachineInv(spec, rank, m.(approvals := Withdraw(m.approvals)))
  {
    WithdrawKeeps(m.row.nodes, m.approvals);
    if m.mem.Some? {
      WithdrawKeeps(m.mem.value.nodes, m.approvals);
    }
  }

  /** Every step keeps the invariant and moves the saved row only forward. */
  lemma StepKeeps(spec: Spec, rank: Id -> nat, tools: map<string, Tier>, m: Machine, ev: Event)
    requires Ranked(spec.edges, rank) && EdgesKnown(IdSet(spec), spec.edges) && MachineInv(spec, rank, m)
    requires CleanStep(m, ev)
    ensures MachineInv(spec, rank, Next(spec, tools, m, ev))
    ensures Evolves(spec, m.row.nodes, Next(spec, tools, m, ev).row.nodes)
  {
    Reflexive(spec, m.row.nodes);
    if Next(spec, tools, m, ev) != m {
      match ev
      case Begin =>
      case Skip(n) => SkipKeeps(spec, rank, tools, m, n);
      case Start(n, w) => StartKeeps(spec, rank, tools, m, n, w);
      case Save => SaveKeeps(spec, rank, tools, m);
      case Finish => FinishKeeps(spec, rank, m);
      case CloseGates => CloseKeeps(spec, rank, m);
      case Crash =>
      case Abort =>
      case Decide(ap, decision) => DecideKeeps(spec, rank, m, ap, decision);
      case HeartbeatDone(n, hb, ok) => HeartbeatKeeps(spec, rank, m, n, hb, ok);
      case Retry(n) => RetryKeeps(spec, rank, m, n);
      case ExpireRow(ap) => ExpireRowKeeps(spec, rank, m, ap);
      case ApprovalExpired(ap) => ExpiredKeeps(spec, rank, m, ap);
      case RequestCancel =>
      case CancelRun => CancelKeeps(spec, rank, m);
      case Reconcile => ReconcileKeeps(spec, rank, tools, m);
    }
  }
}
