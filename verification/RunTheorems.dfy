/** Theorems about whole runs: any interleaving of engine operations, any crashes. */
module RunTheorems {
  import opened Graphs
  import opened Workflows
  import opened Validator
  import opened Machine
  import opened Invariants
  import opened Steps

  /** No decision in the run lands on a node that is already done. */
  ghost predicate CleanRun(spec: Spec, tools: map<string, Tier>, events: seq<Event>) {
    forall i :: 0 <= i < |events| ==> CleanStep(Run(spec, tools, events[..i]), events[i])
  }

  lemma CleanPrefix(spec: Spec, tools: map<string, Tier>, events: seq<Event>, k: nat)
    requires k <= |events| && CleanRun(spec, tools, events)
    ensures CleanRun(spec, tools, events[..k])
  {
    forall i | 0 <= i < k
      ensures CleanStep(Run(spec, tools, events[..k][..i]), events[..k][i])
    {
      assert events[..k][..i] == events[..i];
    }
  }

  lemma FreshInv(spec: Spec, rank: Id -> nat)
    requires Ranked(spec.edges, rank)
    ensures MachineInv(spec, rank, Created(spec))
  {
    var g := Fresh(spec);
    forall n | n in g.states
      ensures NodeInv(spec, rank, g, n)
    {
      assert StatusOf(g, n) == Pending;
    }
  }

  lemma {:induction false} RunInv(spec: Spec, rank: Id -> nat, tools: map<string, Tier>, events: seq<Event>)
    requires Ranked(spec.edges, rank) && EdgesKnown(IdSet(spec), spec.edges) && CleanRun(spec, tools, events)
    ensures MachineInv(spec, rank, Run(spec, tools, events))
  {
    if events == [] {
      FreshInv(spec, rank);
    } else {
      var k := |events| - 1;
      CleanPrefix(spec, tools, events, k);
      RunInv(spec, rank, tools, events[..k]);
      StepKeeps(spec, rank, tools, Run(spec, tools, events[..k]), events[k]);
    }
  }

  // ---------------------------------------------------------------- the human gate

  /** Every chain of fired edges from a start node to `n` leaves an approval node
      for which a human decision `approved` is on record. */
  ghost predicate HumanGated(spec: Spec, m: Machine, g: Nodes, n: Id) {
    forall p :: StartChain(FiredEdges(spec, g), p, n) ==> PassesHuman(spec, m, p)
  }

  ghost predicate PassesHuman(spec: Spec, m: Machine, p: seq<Edge>) {
    exists i :: 0 <= i < |p| && HasKind(spec, p[i].src, Approval) && DecidedBy(m.approvals, p[i].src, "approved")
  }

  lemma GateIsHuman(spec: Spec, m: Machine, g: Nodes, n: Id)
    requires ApprovedOnPath(spec, g, n) && ProvenanceInv(g, m.approvals)
    ensures HumanGated(spec, m, g, n)
  {
    forall p: seq<Edge> | StartChain(FiredEdges(spec, g), p, n)
      ensures PassesHuman(spec, m, p)
    {
      assert Crosses(p, ApprovedExits(spec, g));
      var i :| 0 <= i < |p| && p[i] in ApprovedExits(spec, g);
      assert Approved(spec, g, p[i].src);
    }
  }

  /** Once done, always gated: in every clean run, every write that ever left the
      engine sits behind human approvals on all chains of fired edges, and this is
      still so at the end of the run, whatever happened in between. */
  lemma WritesStayGated(spec: Spec, tools: map<string, Tier>, events: seq<Event>)
    requires WellFormed(spec) && CleanRun(spec, tools, events)
    ensures forall n :: n in Run(spec, tools, events).acts ==>
              HumanGated(spec, Run(spec, tools, events), Run(spec, tools, events).row.nodes, n)
  {
    var rank := AcyclicHasRank(spec.edges, IdSet(spec));
    RunInv(spec, rank, tools, events);
    var m := Run(spec, tools, events);
    forall n | n in m.acts
      ensures HumanGated(spec, m, m.row.nodes, n)
    {
      GateIsHuman(spec, m, m.row.nodes, n);
    }
  }

  // ---------------------------------------------------------------- the same at the moment of the write, in every run

  ghost predicate Recorded(m: Machine) {
    && ProvenanceInv(m.row.nodes, m.approvals)
    && (m.mem.Some? ==> ProvenanceInv(m.mem.value.nodes, m.approvals))
  }

  lemma StartOutcome(spec: Spec, tools: map<string, Tier>, approvals: map<string, ApprovalRow>, g: Nodes, n: Node,
                     st: NodeState, w: World)
    ensures var eff := StartEffect(spec, tools, approvals, g, n, st, w);
            && (eff.outcome.Some? ==> !eff.outcome.value.Decided?)
            && (eff.row.Some? ==> eff.row.value !in approvals)
            && (eff.act ==> ApprovedOnPath(spec, g, n.id))
  {
    ToolOutcome(spec, tools, g, n, st, w);
    TaskOutcome(spec, g, n, st, w);
  }

  lemma ToolOutcome(spec: Spec, tools: map<string, Tier>, g: Nodes, n: Node, st: NodeState, w: World)
    ensures var eff := StartTool(spec, tools, g, n, st, w);
            (eff.outcome.Some? ==> eff.outcome.value.Reply?) && eff.row.None? && (eff.act ==> ApprovedOnPath(spec, g, n.id))
  {
  }

  lemma TaskOutcome(spec: Spec, g: Nodes, n: Node, st: NodeState, w: World)
    ensures var eff := StartTask(spec, g, n, st, w);
            eff.outcome.None? && eff.row.None? && (eff.act ==> ApprovedOnPath(spec, g, n.id))
  {
  }

  lemma DecisionRecorded(spec: Spec, m: Machine, ap: string, decision: string)
    requires ap in m.approvals && m.approvals[ap].status == Open && m.mem.None? && Recorded(m)
    ensures Recorded(ApplyDecision(spec, m, ap, decision))
  {
    var m' := ApplyDecision(spec, m, ap, decision);
    var n := m.approvals[ap].node;
    assert m'.approvals[ap] == ApprovalRow(n, Closed(decision));
    forall k | k in m'.row.nodes.results && m'.row.nodes.results[k].Decided?
      ensures DecidedBy(m'.approvals, k, m'.row.nodes.results[k].decision)
    {
      if k != n || !DecisionLands(m, ap) {
        KeepsDecisions(m.approvals, m'.approvals, k, m.row.nodes.results[k].decision);
      }
    }
  }

  lemma StepRecorded(spec: Spec, tools: map<string, Tier>, m: Machine, ev: Event)
    requires Recorded(m)
    ensures Recorded(Next(spec, tools, m, ev))
  {
    var m' := Next(spec, tools, m, ev);
    if m' != m {
      if ev.Decide? {
        DecisionRecorded(spec, m, ev.approval, ev.decision);
      } else {
        if ev.Start? {
          var h := m.mem.value.nodes;
          StartOutcome(spec, tools, m.approvals, h, NodeNamed(spec.nodes, ev.node).value, h.states[ev.node], ev.world);
          KeepsProvenance(h, m.approvals, m'.mem.value.nodes, m'.approvals);
        } else if m.mem.Some? {
          KeepsProvenance(m.mem.value.nodes, m.approvals, m.mem.value.nodes, m'.approvals);
        }
        KeepsProvenance(m.row.nodes, m.approvals, m.row.nodes, m'.approvals);
        if !ev.Start? {
          OtherResults(spec, tools, m, ev);
        }
      }
    }
  }

  /** Steps other than decisions write no decision. */
  lemma OtherResults(spec: Spec, tools: map<string, Tier>, m: Machine, ev: Event)
    requires !ev.Decide? && !ev.Start?
    ensures var m' := Next(spec, tools, m, ev);
            && (forall k :: k in m'.row.nodes.results && m'.row.nodes.results[k].Decided? ==>
                 (k in m.row.nodes.results && m.row.nodes.results[k] == m'.row.nodes.results[k]) ||
                 (m.mem.Some? && k in m.mem.value.nodes.results &&
                  m.mem.value.nodes.results[k] == m'.row.nodes.results[k]))
            && (m'.mem.Some? ==>
                 (m.mem.Some? && m'.mem.value.nodes.results == m.mem.value.nodes.results) ||
                 m'.mem.value.nodes.results == m.row.nodes.results)
  {
  }

  lemma {:induction false} RunRecorded(spec: Spec, tools: map<string, Tier>, events: seq<Event>)
    ensures Recorded(Run(spec, tools, events))
  {
    if events != [] {
      var k := |events| - 1;
      RunRecorded(spec, tools, events[..k]);
      StepRecorded(spec, tools, Run(spec, tools, events[..k]), events[k]);
    }
  }

  /** Event `i` dispatched the write `n`: it started the node, and right then every
      chain of fired edges to it crossed a recorded human approval. */
  ghost predicate GatedDispatch(spec: Spec, tools: map<string, Tier>, events: seq<Event>, i: nat, n: Id)
    requires i < |events|
  {
    var before := Run(spec, tools, events[..i]);
    && Run(spec, tools, events[..i + 1]).acts == before.acts + [n]
    && events[i].Start? && events[i].node == n && before.mem.Some?
    && HumanGated(spec, before, before.mem.value.nodes, n)
  }

  /** A step dispatches nothing, or one write from a gated start. */
  lemma StepDispatches(spec: Spec, tools: map<string, Tier>, m: Machine, ev: Event)
    requires Recorded(m)
    ensures var m' := Next(spec, tools, m, ev);
            m'.acts == m.acts ||
            (ev.Start? && m'.acts == m.acts + [ev.node] && m.mem.Some? && HumanGated(spec, m, m.mem.value.nodes, ev.node))
  {
    if Next(spec, tools, m, ev).acts != m.acts {
      var h := m.mem.value.nodes;
      StartOutcome(spec, tools, m.approvals, h, NodeNamed(spec.nodes, ev.node).value, h.states[ev.node], ev.world);
      GateIsHuman(spec, m, h, ev.node);
    }
  }

  /** In every run at all, each write, and each repetition of a write, was dispatched
      by a step of its own at which its gate held. */
  lemma {:induction false} EveryWriteWasGated(spec: Spec, tools: map<string, Tier>, events: seq<Event>, k: nat)
    requires k < |Run(spec, tools, events).acts|
    ensures exists i :: 0 <= i < |events| && |Run(spec, tools, events[..i]).acts| == k &&
              GatedDispatch(spec, tools, events, i, Run(spec, tools, events).acts[k])
  {
    var last := |events| - 1;
    var before := Run(spec, tools, events[..last]);
    assert events[..last + 1] == events;
    RunRecorded(spec, tools, events[..last]);
    StepDispatches(spec, tools, before, events[last]);
    if k < |before.acts| {
      EveryWriteWasGated(spec, tools, events[..last], k);
      var i :| 0 <= i < last && |Run(spec, tools, events[..last][..i]).acts| == k &&
               GatedDispatch(spec, tools, events[..last], i, before.acts[k]);
      assert events[..last][..i] == events[..i] && events[..last][..i + 1] == events[..i + 1];
      assert GatedDispatch(spec, tools, events, i, before.acts[k]);
    } else {
      assert GatedDispatch(spec, tools, events, last, Run(spec, tools, events).acts[k]);
    }
  }

  // ---------------------------------------------------------------- the static gate implies the run-time gate

  lemma {:induction false} StaticGateHolds(spec: Spec, rank: Id -> nat, g: Nodes, n: Id)
    requires Ranked(spec.edges, rank) && EdgesKnown(IdSet(spec), spec.edges) && NodesInv(spec, rank, g)
    requires Gated(spec, n) && Supported(spec, g, n)
    ensures ApprovedOnPath(spec, g, n)
    decreases rank(n)
  {
    GatedStep(spec.edges, ApprovedEdges(spec), n);
    GateStep(spec, g, n);
    forall e | e in Into(spec.edges, n) && Fired(spec, g, e)
      ensures Approved(spec, g, e.src) || ApprovedOnPath(spec, g, e.src)
    {
      if e !in ApprovedEdges(spec) {
        assert NodeInv(spec, rank, g, e.src);
        StaticGateHolds(spec, rank, g, e.src);
      }
    }
  }

  /** Whenever a clean run can start a node that the validator found gated, the
      engine's own check agrees: a published workflow is never refused at run time
      for want of a gate. */
  lemma PublishedGateHoldsAtRunTime(spec: Spec, tools: map<string, Tier>, events: seq<Event>, n: Id)
    requires WellFormed(spec) && CleanRun(spec, tools, events) && Gated(spec, n)
    requires Run(spec, tools, events).mem.Some? && CanStart(spec, Run(spec, tools, events).mem.value.nodes, n)
    ensures ApprovedOnPath(spec, Run(spec, tools, events).mem.value.nodes, n)
  {
    var rank := AcyclicHasRank(spec.edges, IdSet(spec));
    RunInv(spec, rank, tools, events);
    StaticGateHolds(spec, rank, Run(spec, tools, events).mem.value.nodes, n);
  }

  // ---------------------------------------------------------------- the outcome of a run is determined

  /** Some chain from a start node leads to `n` along edges that the answers fire. */
  ghost predicate Reached(spec: Spec, answers: map<Id, Outcome>, n: Id) {
    exists p :: StartChain(spec.edges, p, n) && AllFire(spec, answers, p)
  }

  ghost predicate AllFire(spec: Spec, answers: map<Id, Outcome>, p: seq<Edge>) {
    forall i :: 0 <= i < |p| ==> Fires(spec, p[i], answers)
  }

  /** `answers` says what every condition and approval that finished said. */
  ghost predicate Agrees(spec: Spec, g: Nodes, answers: map<Id, Outcome>) {
    forall n :: n in g.results && (HasKind(spec, n, Condition) || HasKind(spec, n, Approval)) ==>
      n in answers && answers[n] == g.results[n]
  }

  lemma {:induction false} ReachedIsDone(spec: Spec, rank: Id -> nat, g: Nodes, answers: map<Id, Outcome>, p: seq<Edge>, n: Id)
    requires Ranked(spec.edges, rank) && EdgesKnown(IdSet(spec), spec.edges) && NodesInv(spec, rank, g)
    requires RunStatusOf(g) == RunDone && Agrees(spec, g, answers)
    requires n in g.states && StartChain(spec.edges, p, n) && AllFire(spec, answers, p)
    ensures StatusOf(g, n) == Done
    decreases |p|
  {
    if p == [] {
      assert Supported(spec, g, n);
    } else {
      var e := p[|p| - 1];
      ShorterChain(spec.edges, p, n);
      ReachedIsDone(spec, rank, g, answers, p[..|p| - 1], e.src);
      assert Fires(spec, e, answers);
      AnswersDecide(spec, rank, g, answers, e);
      assert e in Into(spec.edges, n) && Fired(spec, g, e);
    }
    SupportedIsDone(spec, rank, g, n);
  }

  lemma ShorterChain(edges: seq<Edge>, p: seq<Edge>, n: Id)
    requires p != [] && StartChain(edges, p, n)
    ensures p[|p| - 1] in Into(edges, n)
    ensures StartChain(edges, p[..|p| - 1], p[|p| - 1].src)
  {
    var k := |p| - 1;
    assert p[k] in edges && p[k].dst == n;
    if k > 0 {
      assert p[..k][k - 1].dst == p[k].src;
      assert p[..k][0] == p[0];
    }
  }

  lemma SupportedIsDone(spec: Spec, rank: Id -> nat, g: Nodes, n: Id)
    requires Ranked(spec.edges, rank) && NodesInv(spec, rank, g) && RunStatusOf(g) == RunDone
    requires n in g.states && Supported(spec, g, n)
    ensures StatusOf(g, n) == Done
  {
    assert NodeInv(spec, rank, g, n);
  }

  lemma AnswersDecide(spec: Spec, rank: Id -> nat, g: Nodes, answers: map<Id, Outcome>, e: Edge)
    requires Ranked(spec.edges, rank) && NodesInv(spec, rank, g) && Agrees(spec, g, answers)
    requires e.src in g.states && StatusOf(g, e.src) == Done
    ensures Fires(spec, e, g.results) <==> Fires(spec, e, answers)
  {
    assert NodeInv(spec, rank, g, e.src);
  }

  lemma {:induction false} DoneIsReached(spec: Spec, rank: Id -> nat, g: Nodes, answers: map<Id, Outcome>, n: Id)
    requires Ranked(spec.edges, rank) && EdgesKnown(IdSet(spec), spec.edges) && NodesInv(spec, rank, g)
    requires Agrees(spec, g, answers)
    requires n in g.states && StatusOf(g, n) == Done
    ensures Reached(spec, answers, n)
    decreases rank(n)
  {
    DoneIsSupported(spec, rank, g, n);
    if Into(spec.edges, n) == [] {
      assert StartChain(spec.edges, [], n) && AllFire(spec, answers, []);
    } else {
      var e :| e in Into(spec.edges, n) && Fired(spec, g, e);
      DoneIsReached(spec, rank, g, answers, e.src);
      AnswersDecide(spec, rank, g, answers, e);
      ReachedAcross(spec, answers, e);
    }
  }

  lemma DoneIsSupported(spec: Spec, rank: Id -> nat, g: Nodes, n: Id)
    requires Ranked(spec.edges, rank) && NodesInv(spec, rank, g) && n in g.states && StatusOf(g, n) == Done
    ensures Supported(spec, g, n)
  {
    assert NodeInv(spec, rank, g, n);
  }

  lemma ReachedAcross(spec: Spec, answers: map<Id, Outcome>, e: Edge)
    requires e in spec.edges && Reached(spec, answers, e.src) && Fires(spec, e, answers)
    ensures Reached(spec, answers, e.dst)
  {
    var p :| StartChain(spec.edges, p, e.src) && AllFire(spec, answers, p);
    ExtendStartChain(spec.edges, p, e);
    assert AllFire(spec, answers, p + [e]);
  }

  /** A completed run's labelling is determined: a node is done exactly when it is
      reached along edges the answers fire, and skipped otherwise. */
  lemma FinalLabelling(spec: Spec, tools: map<string, Tier>, events: seq<Event>, answers: map<Id, Outcome>, n: Id)
    requires WellFormed(spec) && CleanRun(spec, tools, events) && n in IdSet(spec)
    requires RunStatusOf(Run(spec, tools, events).row.nodes) == RunDone
    requires Agrees(spec, Run(spec, tools, events).row.nodes, answers)
    ensures StatusOf(Run(spec, tools, events).row.nodes, n) ==
            if Reached(spec, answers, n) then Done else Skipped
  {
    var rank := AcyclicHasRank(spec.edges, IdSet(spec));
    RunInv(spec, rank, tools, events);
    var g := Run(spec, tools, events).row.nodes;
    if StatusOf(g, n) == Done {
      DoneIsReached(spec, rank, g, answers, n);
    }
    if Reached(spec, answers, n) {
      var p :| StartChain(spec.edges, p, n) && AllFire(spec, answers, p);
      ReachedIsDone(spec, rank, g, answers, p, n);
    }
  }

  /** The same nodes and edges, listed in any order. */
  ghost predicate SameWorkflow(a: Spec, b: Spec) {
    && (forall n :: n in a.nodes <==> n in b.nodes)
    && (forall e :: e in a.edges <==> e in b.edges)
  }

  lemma IntoEmpty(edges: seq<Edge>, n: Id)
    ensures Into(edges, n) == [] <==> forall e :: e in edges ==> e.dst != n
  {
    if Into(edges, n) != [] {
      assert Into(edges, n)[0] in Into(edges, n);
    }
  }

  lemma SameReached(a: Spec, b: Spec, answers: map<Id, Outcome>, n: Id)
    requires SameWorkflow(a, b) && UniqueIds(a.nodes) && UniqueIds(b.nodes) && Reached(a, answers, n)
    ensures Reached(b, answers, n)
  {
    var p: seq<Edge> :| StartChain(a.edges, p, n) && AllFire(a, answers, p);
    IntoEmpty(a.edges, Origin(p, n));
    IntoEmpty(b.edges, Origin(p, n));
    forall i | 0 <= i < |p|
      ensures Fires(b, p[i], answers)
    {
      SameNamed(a, b, p[i].src);
    }
    assert StartChain(b.edges, p, n) && AllFire(b, answers, p);
  }

  lemma SameNamed(a: Spec, b: Spec, id: Id)
    requires SameWorkflow(a, b) && UniqueIds(a.nodes) && UniqueIds(b.nodes)
    ensures NodeNamed(a.nodes, id) == NodeNamed(b.nodes, id)
  {
  }

  /** Two completed runs of one workflow, its nodes and edges listed in any order
      and its events in any order, label every node alike when the same answers
      explain both. */
  lemma LabellingIsUnique(a: Spec, b: Spec, tools: map<string, Tier>, es: seq<Event>, fs: seq<Event>,
                          answers: map<Id, Outcome>, n: Id)
    requires WellFormed(a) && WellFormed(b) && SameWorkflow(a, b) && n in IdSet(a)
    requires CleanRun(a, tools, es) && CleanRun(b, tools, fs)
    requires RunStatusOf(Run(a, tools, es).row.nodes) == RunDone && RunStatusOf(Run(b, tools, fs).row.nodes) == RunDone
    requires Agrees(a, Run(a, tools, es).row.nodes, answers) && Agrees(b, Run(b, tools, fs).row.nodes, answers)
    ensures StatusOf(Run(a, tools, es).row.nodes, n) == StatusOf(Run(b, tools, fs).row.nodes, n)
  {
    assert n in IdSet(b);
    FinalLabelling(a, tools, es, answers, n);
    FinalLabelling(b, tools, fs, answers, n);
    if Reached(a, answers, n) {
      SameReached(a, b, answers, n);
    }
    if Reached(b, answers, n) {
      SameReached(b, a, answers, n);
    }
  }

  // ---------------------------------------------------------------- no stuck runs

  predicate Live(s: Status) {
    s == Running || s == Deferred || s == Waiting
  }

  lemma {:induction false} PendingHasLiveAncestor(spec: Spec, rank: Id -> nat, g: Nodes, n: Id)
    requires Ranked(spec.edges, rank) && EdgesKnown(IdSet(spec), spec.edges) && g.states.Keys == IdSet(spec)
    requires Quiescent(spec, g) && n in g.states && StatusOf(g, n) == Pending
    ensures exists k :: k in g.states && Live(StatusOf(g, k))
    decreases rank(n)
  {
    var e :| e in Into(spec.edges, n) && !Settling(StatusOf(g, e.src));
    if StatusOf(g, e.src) == Pending {
      PendingHasLiveAncestor(spec, rank, g, e.src);
    }
  }

  lemma SomethingIsLive(spec: Spec, rank: Id -> nat, g: Nodes)
    requires Ranked(spec.edges, rank) && EdgesKnown(IdSet(spec), spec.edges) && g.states.Keys == IdSet(spec)
    requires Quiescent(spec, g) && Active(RunStatusOf(g))
    requires forall n :: n in g.states ==> g.states[n].status != Cancelled
    ensures exists n :: n in g.states && Live(StatusOf(g, n))
  {
    var n :| n in g.states && g.states[n].status !in {Done, Skipped};
    if StatusOf(g, n) == Pending {
      PendingHasLiveAncestor(spec, rank, g, n);
    } else {
      assert Live(StatusOf(g, n));
    }
  }

  // ---------------------------------------------------------------- restarts repeat nothing that was saved

  lemma {:induction false} RowKeeps(spec: Spec, tools: map<string, Tier>, events: seq<Event>, k: nat)
    requires WellFormed(spec) && CleanRun(spec, tools, events) && k <= |events|
    ensures Keeps(Run(spec, tools, events[..k]).row.nodes, Run(spec, tools, events).row.nodes)
  {
    if k == |events| {
      assert events[..k] == events;
    } else {
      var j := |events| - 1;
      CleanPrefix(spec, tools, events, j);
      RowKeeps(spec, tools, events[..j], k);
      assert events[..j][..k] == events[..k];
      var rank := AcyclicHasRank(spec.edges, IdSet(spec));
      RunInv(spec, rank, tools, events[..j]);
      var m := Run(spec, tools, events[..j]);
      StepKeeps(spec, rank, tools, m, events[j]);
      EvolvesKeeps(spec, m.row.nodes, Run(spec, tools, events).row.nodes);
    }
  }

  lemma EvolvesKeeps(spec: Spec, g: Nodes, g': Nodes)
    requires Evolves(spec, g, g')
    ensures Keeps(g, g')
  {
  }

  lemma StartNeedsPendingRow(spec: Spec, rank: Id -> nat, tools: map<string, Tier>, m: Machine, n: Id, w: World)
    requires Ranked(spec.edges, rank) && MachineInv(spec, rank, m) && Next(spec, tools, m, Start(n, w)) != m
    ensures StatusOf(m.row.nodes, n) == Pending
  {
  }

  lemma PendingBefore(spec: Spec, tools: map<string, Tier>, events: seq<Event>, n: Id, k: nat)
    requires WellFormed(spec) && CleanRun(spec, tools, events) && k <= |events|
    requires StatusOf(Run(spec, tools, events).row.nodes, n) == Pending
    ensures StatusOf(Run(spec, tools, events[..k]).row.nodes, n) in {Pending, Deferred}
  {
    var g, g' := Run(spec, tools, events[..k]).row.nodes, Run(spec, tools, events).row.nodes;
    assert Keeps(g, g') by {
      RowKeeps(spec, tools, events, k);
    }
    KeepsBackward(g, g', n);
  }

  lemma KeepsBackward(g: Nodes, g': Nodes, n: Id)
    requires Keeps(g, g') && StatusOf(g', n) == Pending
    ensures StatusOf(g, n) == Pending || StatusOf(g, n) == Deferred
  {
    var s := StatusOf(g, n);
    assert s in {Done, Skipped, Failed, Cancelled} || s in {Running, Waiting} || s == Pending || s == Deferred;
  }

  /** A node is only ever started while the saved row shows it pending. So what the
      row shows done, skipped, failed, waiting or running is never started again,
      whatever crashes and resumptions lie between. */
  lemma StartedOnlyWhenPending(spec: Spec, tools: map<string, Tier>, events: seq<Event>, n: Id, w: World, k: nat)
    requires WellFormed(spec) && CleanRun(spec, tools, events) && k <= |events|
    requires Next(spec, tools, Run(spec, tools, events), Start(n, w)) != Run(spec, tools, events)
    ensures StatusOf(Run(spec, tools, events).row.nodes, n) == Pending
    ensures StatusOf(Run(spec, tools, events[..k]).row.nodes, n) in {Pending, Deferred}
  {
    var m := Run(spec, tools, events);
    assert StatusOf(m.row.nodes, n) == Pending by {
      var rank := AcyclicHasRank(spec.edges, IdSet(spec));
      RunInv(spec, rank, tools, events);
      StartNeedsPendingRow(spec, rank, tools, m, n, w);
    }
    PendingBefore(spec, tools, events, n, k);
  }

  /** Once an operation leaves a run terminal, nothing changes it again. */
  lemma {:induction false} TerminalIsFinal(spec: Spec, tools: map<string, Tier>, events: seq<Event>, k: nat)
    requires k <= |events|
    requires var m := Run(spec, tools, events[..k]); m.mem.None? && !Active(m.row.status)
    ensures Run(spec, tools, events).row == Run(spec, tools, events[..k]).row
    ensures Run(spec, tools, events).mem.None?
    ensures Run(spec, tools, events).acts == Run(spec, tools, events[..k]).acts
  {
    if k == |events| {
      assert events[..k] == events;
    } else {
      var j := |events| - 1;
      assert events[..j][..k] == events[..k];
      TerminalIsFinal(spec, tools, events[..j], k);
    }
  }
}
