/** The workflow engine: the run row it keeps, and the operations that change it.
    Every operation is proved to be a sequence of steps of the state machine, so
    the theorems about runs speak about what these loops do. */
module Engine {
  import opened Wrappers
  import opened Graphs
  import opened Workflows
  import opened GateWalk
  import opened Machine

  lemma FiredIsSound(spec: Spec, g: Nodes)
    requires WellFormed(spec)
    ensures EdgesKnown(IdSet(spec), FiredEdges(spec, g)) && !HasCycle(FiredEdges(spec, g))
  {
    forall p | IsCycle(FiredEdges(spec, g), p)
      ensures false
    {
      assert IsCycle(spec.edges, p);
    }
  }

  /** The run-time gate: the memoised walk over the edges that fired. */
  method ApprovedOnPathNow(spec: Spec, g: Nodes, n: Id) returns (ok: bool)
    requires WellFormed(spec) && n in IdSet(spec)
    ensures ok == ApprovedOnPath(spec, g, n)
  {
    var fired: seq<Edge> := [];
    var i := 0;
    while i < |spec.edges|
      invariant 0 <= i <= |spec.edges|
      invariant fired == FiredAmong(spec, g, spec.edges[..i])
    {
      assert spec.edges[..i + 1][..i] == spec.edges[..i];
      if Fired(spec, g, spec.edges[i]) {
        fired := fired + [spec.edges[i]];
      }
      i := i + 1;
    }
    assert spec.edges[..|spec.edges|] == spec.edges;
    FiredIsSound(spec, g);
    var preds := Predecessors(IdSet(spec), fired);
    var walker := new GateWalker(IdSet(spec), fired, ApprovedExits(spec, g), preds);
    ok := walker.Walk(n, {});
    assert walker.Answers(n, ok);
  }

  predicate AllSettled(g: Nodes, es: seq<Edge>) {
    forall e :: e in es ==> Settling(StatusOf(g, e.src))
  }

  predicate AnyFired(spec: Spec, g: Nodes, es: seq<Edge>) {
    exists e :: e in es && Fired(spec, g, e)
  }

  /** Do all incoming edges stand resolved, and did one of them fire? */
  method Look(spec: Spec, g: Nodes, incoming: seq<Edge>) returns (resolved: bool, fired: bool)
    ensures resolved == AllSettled(g, incoming)
    ensures resolved ==> fired == AnyFired(spec, g, incoming)
  {
    resolved, fired := true, false;
    var i := 0;
    while i < |incoming| && resolved
      invariant 0 <= i <= |incoming|
      invariant resolved ==> AllSettled(g, incoming[..i]) && fired == AnyFired(spec, g, incoming[..i])
      invariant !resolved ==> !AllSettled(g, incoming)
    {
      var e := incoming[i];
      assert e in incoming;
      assert incoming[..i + 1] == incoming[..i] + [e];
      if !Settling(StatusOf(g, e.src)) {
        resolved := false;
      } else if Fired(spec, g, e) {
        fired := true;
      }
      i := i + 1;
    }
    assert resolved ==> incoming[..i] == incoming;
  }

  datatype Verdict = Recorded | NotPending

  predicate IsAdvance(ev: Event) {
    ev.Skip? || ev.Start? || ev.Save? || ev.CloseGates?
  }

  /** The events one complete pass of `advance` adds. */
  ghost predicate AdvanceTrace(es: seq<Event>, world: Id -> World) {
    && |es| >= 2 && es[0] == Begin && es[|es| - 1] == Finish
    && forall i :: 0 < i < |es| - 1 ==> IsAdvance(es[i]) && (es[i].Start? ==> es[i].world == world(es[i].node))
  }

  /** What `advance` may do: nothing to a run that has ended, cancel one whose
      cancellation was requested, or one complete pass. */
  ghost predicate Advanced(before: Row, es: seq<Event>, world: Id -> World) {
    if !Active(before.status) then es == []
    else if before.cancelRequested then es == [CloseGates, CancelRun]
    else AdvanceTrace(es, world)
  }

  lemma StartIsStep(spec: Spec, tools: map<string, Tier>, events: seq<Event>, m: Machine, n: Node, w: World)
    requires WellFormed(spec) && n in spec.nodes && Run(spec, tools, events) == m
    requires m.mem.Some? && m.mem.value.started.None? && CanStart(spec, m.mem.value.nodes, n.id)
    ensures NodeNamed(spec.nodes, n.id) == Some(n)
    ensures Run(spec, tools, events + [Start(n.id, w)]) == ApplyStart(spec, tools, m, n.id, w)
  {
    RunSnoc(spec, tools, events, Start(n.id, w));
  }

  lemma FinishIsStep(spec: Spec, tools: map<string, Tier>, events: seq<Event>, m: Machine)
    requires Run(spec, tools, events) == m && m.mem.Some? && m.mem.value.started.None?
    requires Quiescent(spec, m.mem.value.nodes)
    ensures Run(spec, tools, events + [Finish]) == ApplyFinish(m)
  {
    RunSnoc(spec, tools, events, Finish);
  }

  class RunEngine {
    const spec: Spec
    const tools: map<string, Tier>
    var row: Row
    var approvals: map<string, ApprovalRow>
    ghost var acts: seq<Id>
    ghost var events: seq<Event>

    ghost function Abs(): Machine
      reads this
    {
      Machine(row, approvals, acts, None)
    }

    ghost predicate Valid()
      reads this
    {
      && WellFormed(spec)
      && row.nodes.states.Keys == IdSet(spec)
      && Abs() == Run(spec, tools, events)
    }

    /** The state while an `advance` holds `g`, with `started` not yet saved. */
    ghost predicate Holds(g: Nodes, started: Option<Id>)
      reads this
    {
      && WellFormed(spec)
      && g.states.Keys == IdSet(spec)
      && Machine(row, approvals, acts, Some(Memory(g, started))) == Run(spec, tools, events)
    }

    constructor (spec: Spec, tools: map<string, Tier>)
      requires WellFormed(spec)
      ensures Valid() && this.spec == spec && this.tools == tools && events == []
    {
      this.spec, this.tools := spec, tools;
      row := Row(RunRunning, Fresh(spec), false);
      approvals := map[];
      acts, events := [], [];
    }

    /** A write/execute call outside mock runs only behind an approved gate. */
    method RunTool(g: Nodes, n: Node, st: NodeState, w: World) returns (eff: Effect)
      requires WellFormed(spec) && n.id in IdSet(spec)
      ensures eff == StartTool(spec, tools, g, n, st, w)
    {
      var outside := false;
      if n.tool in tools && tools[n.tool] != Read {
        if w.paused {
          return Ends(st, Failed);
        }
        if !IsMock(n.environment) {
          outside := true;
          var gated := ApprovedOnPathNow(spec, g, n.id);
          if !gated {
            return Ends(st, Failed);
          }
        }
      }
      if !w.argsOk {
        return Ends(st, Failed);
      }
      if !w.replies {
        return Effect(st.(status := Failed), None, None, outside);
      }
      if w.toolOk && n.tool in tools {
        eff := Effect(st.(status := Done), Some(Reply(true)), None, outside);
      } else {
        eff := Effect(st.(status := Failed), Some(Reply(false)), None, outside);
      }
    }

    /** The agent's mode is what it is now; full mode outside mock needs the gate. */
    method LaunchTask(g: Nodes, n: Node, st: NodeState, w: World) returns (eff: Effect)
      requires WellFormed(spec) && n.id in IdSet(spec)
      ensures eff == StartTask(spec, g, n, st, w)
    {
      if w.agent.None? {
        return Ends(st, Failed);
      }
      var mode := if n.mode.Some? then n.mode.value else w.agent.value;
      if ModeRank(mode) > ModeRank(w.agent.value) {
        mode := w.agent.value;
      }
      var gated := false;
      if mode == Full && !IsMock(n.environment) {
        gated := ApprovedOnPathNow(spec, g, n.id);
        if !gated {
          return Ends(st, Failed);
        }
      }
      match w.launch
      case LaunchRaised => eff := Effect(st.(status := Failed), None, None, gated);
      case Coalesced => eff := Ends(st, Deferred);
      case Launched(hb) => eff := Effect(st.(status := Running, heartbeat := Some(hb)), None, None, gated);
      case Refused(hb) => eff := Effect(st.(status := Failed, heartbeat := Some(hb)), None, None, false);
    }

    method EffectOf(g: Nodes, n: Node, st: NodeState, w: World) returns (eff: Effect)
      requires WellFormed(spec) && n.id in IdSet(spec) && st.status == Pending
      ensures eff == StartEffect(spec, tools, approvals, g, n, st, w)
      ensures eff.state.status != Pending
    {
      match n.kind {
        case Parallel => eff := Effect(st.(status := Done), Some(Marker), None, false);
        case Join => eff := Effect(st.(status := Done), Some(Marker), None, false);
        case Condition =>
          if w.value.None? {
            eff := Ends(st, Failed);
          } else {
            eff := Effect(st.(status := Done), Some(Branch(w.value.value)), None, false);
          }
        case Approval =>
          if w.stores && w.approval !in approvals {
            eff := Effect(st.(status := Waiting, approval := Some(w.approval)), None, Some(w.approval), false);
          } else {
            eff := Ends(st, Failed);
          }
        case Tool => eff := RunTool(g, n, st, w);
        case AgentTask => eff := LaunchTask(g, n, st, w);
      }
    }

    /** Start one node: its effect lands on the copies and on the approvals table. */
    method StartNode(g: Nodes, n: Node, w: World) returns (g': Nodes)
      requires Holds(g, None) && n in spec.nodes && CanStart(spec, g, n.id)
      modifies this
      ensures Holds(g', Some(n.id)) && row == old(row)
      ensures events == old(events) + [Start(n.id, w)]
      ensures g'.states.Keys == g.states.Keys && g'.states[n.id].status != Pending
      ensures forall k :: k in g.states && k != n.id ==> g'.states[k] == g.states[k]
    {
      var eff := EffectOf(g, n, g.states[n.id], w);
      StartIsStep(spec, tools, events, Machine(row, approvals, acts, Some(Memory(g, None))), n, w);
      if eff.row.Some? {
        approvals := approvals[eff.row.value := ApprovalRow(n.id, Open)];
      }
      if eff.act {
        acts := acts + [n.id];
      }
      g' := WithOutcome(Set(g, n.id, eff.state), n.id, eff.outcome);
      events := events + [Start(n.id, w)];
    }

    /** Persist the copies before the next node. */
    method SaveRun(g: Nodes, n: Id)
      requires Holds(g, Some(n))
      modifies this
      ensures Holds(g, None) && events == old(events) + [Save]
    {
      RunSnoc(spec, tools, events, Save);
      row := row.(status := RunStatusOf(g), nodes := g);
      events := events + [Save];
    }

    method SkipNode(g: Nodes, n: Id) returns (g': Nodes)
      requires Holds(g, None) && CanSkip(spec, g, n)
      modifies this`events
      ensures Holds(g', None) && events == old(events) + [Skip(n)]
      ensures g' == SetStatus(g, n, Skipped)
    {
      RunSnoc(spec, tools, events, Skip(n));
      g' := SetStatus(g, n, Skipped);
      events := events + [Skip(n)];
    }

    static ghost function PendingIn(g: Nodes): set<Id> {
      set n | n in g.states && g.states[n].status == Pending
    }

    /** One look at one node: skip it, start and save it, or leave it. */
    method Visit(g: Nodes, n: Node, incoming: seq<Edge>, world: Id -> World) returns (g': Nodes, moved: bool)
      requires Holds(g, None) && n in spec.nodes && incoming == Into(spec.edges, n.id)
      modifies this
      ensures Holds(g', None)
      ensures old(events) <= events && PassTrace(events[|old(events)|..], world)
      ensures moved ==> PendingIn(g') < PendingIn(g)
      ensures !moved ==> g' == g && (g.states[n.id].status == Pending ==> !Resolved(spec, g, n.id))
    {
      g', moved := g, false;
      assert n.id in g.states;
      if g.states[n.id].status != Pending {
        return;
      }
      var resolved, fired := Look(spec, g, incoming);
      assert resolved == Resolved(spec, g, n.id);
      if !resolved {
        return;
      }
      moved := true;
      g' := Move(g, n, incoming == [] || fired, world);
    }

    /** The node's turn: start it and save, or skip it, which waits for the next save. */
    method Move(g: Nodes, n: Node, supported: bool, world: Id -> World) returns (g': Nodes)
      requires Holds(g, None) && n in spec.nodes
      requires if supported then CanStart(spec, g, n.id) else CanSkip(spec, g, n.id)
      modifies this
      ensures Holds(g', None)
      ensures old(events) <= events && PassTrace(events[|old(events)|..], world)
      ensures PendingIn(g') < PendingIn(g)
    {
      if supported {
        g' := StartNode(g, n, world(n.id));
        SaveRun(g', n.id);
      } else {
        g' := SkipNode(g, n.id);
      }
      Shrinks(g, g', n.id);
    }

    static lemma Shrinks(g: Nodes, g': Nodes, n: Id)
      requires n in PendingIn(g) && n !in PendingIn(g') && PendingIn(g') <= PendingIn(g)
      ensures PendingIn(g') < PendingIn(g)
    {
    }

    ghost predicate PassTrace(es: seq<Event>, world: Id -> World) {
      forall i :: 0 <= i < |es| ==> IsAdvance(es[i]) && (es[i].Start? ==> es[i].world == world(es[i].node))
    }

    lemma PassConcat(es: seq<Event>, fs: seq<Event>, gs: seq<Event>, world: Id -> World)
      requires es <= fs <= gs && PassTrace(fs[|es|..], world) && PassTrace(gs[|fs|..], world)
      ensures PassTrace(gs[|es|..], world)
    {
      forall i | 0 <= i < |gs| - |es|
        ensures IsAdvance(gs[|es|..][i]) && (gs[|es|..][i].Start? ==> gs[|es|..][i].world == world(gs[|es|..][i].node))
      {
        if i < |fs| - |es| {
          assert gs[|es|..][i] == fs[|es|..][i];
        } else {
          assert gs[|es|..][i] == gs[|fs|..][i - (|fs| - |es|)];
        }
      }
    }

    /** One pass over the node list. */
    method Pass(g: Nodes, world: Id -> World) returns (g': Nodes, moved: bool)
      requires Holds(g, None)
      modifies this
      ensures Holds(g', None)
      ensures old(events) <= events && PassTrace(events[|old(events)|..], world)
      ensures moved ==> PendingIn(g') < PendingIn(g)
      ensures !moved ==> g' == g && Quiescent(spec, g)
    {
      g', moved := g, false;
      var i := 0;
      while i < |spec.nodes|
        invariant 0 <= i <= |spec.nodes| && Holds(g', None)
        invariant old(events) <= events && PassTrace(events[|old(events)|..], world)
        invariant moved ==> PendingIn(g') < PendingIn(g)
        invariant !moved ==> g' == g && forall j :: 0 <= j < i ==>
                    g.states[spec.nodes[j].id].status == Pending ==> !Resolved(spec, g, spec.nodes[j].id)
      {
        var n := spec.nodes[i];
        ghost var so, was := events, g';
        var stepped;
        g', stepped := Visit(g', n, Into(spec.edges, n.id), world);
        PassConcat(old(events), so, events, world);
        moved := moved || stepped;
        i := i + 1;
      }
      if !moved {
        forall n | n in g.states && g.states[n].status == Pending
          ensures !Resolved(spec, g, n)
        {
          var k :| k in spec.nodes && k.id == n;
          var j :| 0 <= j < |spec.nodes| && spec.nodes[j] == k;
        }
      }
    }

    /** Pass over the node list for as long as a pass moves something, then save. */
    method Advance(world: Id -> World)
      requires Valid()
      modifies this
      ensures Valid()
      ensures old(events) <= events && Advanced(old(row), events[|old(events)|..], world)
      ensures Active(row.status) ==> Quiescent(spec, row.nodes)
    {
      if !Active(row.status) {
        return;
      }
      if row.cancelRequested {
        ghost var was := events;
        CancelLocked();
        assert events[|was|..] == [CloseGates, CancelRun];
        return;
      }
      ghost var before := events;
      RunSnoc(spec, tools, events, Begin);
      events := events + [Begin];
      var g, moved := row.nodes, true;
      while moved
        invariant Holds(g, None)
        invariant before + [Begin] <= events && PassTrace(events[|before| + 1..], world)
        invariant !moved ==> Quiescent(spec, g)
        decreases PendingIn(g), moved
      {
        ghost var so := events;
        g, moved := Pass(g, world);
        PassConcat(before + [Begin], so, events, world);
      }
      TraceEnds(before, events, [], world);
      TraceEnds(before, events, [CloseGates], world);
      FinishRun(g);
    }

    lemma TraceEnds(before: seq<Event>, es: seq<Event>, closing: seq<Event>, world: Id -> World)
      requires before + [Begin] <= es && PassTrace(es[|before| + 1..], world)
      requires closing == [] || closing == [CloseGates]
      ensures before <= es + closing + [Finish] && AdvanceTrace((es + closing + [Finish])[|before|..], world)
    {
      var t := (es + closing + [Finish])[|before|..];
      assert t == [Begin] + es[|before| + 1..] + closing + [Finish];
    }

    /** The final save. A failed run stops its siblings first, which closes its gates
        in the table before the row is written. */
    method FinishRun(g: Nodes)
      requires Holds(g, None) && Quiescent(spec, g)
      modifies this
      ensures Valid()
      ensures events == old(events) + (if RunStatusOf(g) == RunFailed then [CloseGates] else []) + [Finish]
      ensures Active(row.status) ==> Quiescent(spec, row.nodes)
    {
      if RunStatusOf(g) == RunFailed {
        StopSiblings(g);
      }
      LastSave(g);
    }

    method LastSave(g: Nodes)
      requires Holds(g, None) && Quiescent(spec, g)
      requires RunStatusOf(g) == RunFailed ==> forall a :: a in approvals ==> approvals[a].status != Open
      modifies this`row, this`events
      ensures Valid() && events == old(events) + [Finish]
      ensures Active(row.status) ==> Quiescent(spec, row.nodes)
    {
      FinishIsStep(spec, tools, events, Machine(row, approvals, acts, Some(Memory(g, None))));
      var status := RunStatusOf(g);
      if status == RunFailed {
        WithdrawTwice(approvals);
        row := row.(status := status, nodes := Sweep(g, {Running, Waiting, Deferred}, Cancelled));
      } else {
        row := row.(status := status, nodes := g);
      }
      events := events + [Finish];
    }

    /** Close the gates of a run that failed; its siblings are cancelled by the next save. */
    method StopSiblings(g: Nodes)
      requires Holds(g, None) && Quiescent(spec, g) && RunStatusOf(g) == RunFailed
      modifies this`approvals, this`events
      ensures Holds(g, None) && events == old(events) + [CloseGates]
      ensures approvals == Withdraw(old(approvals))
    {
      RunSnoc(spec, tools, events, CloseGates);
      approvals := Withdraw(approvals);
      events := events + [CloseGates];
    }

    static lemma WithdrawTwice(approvals: map<string, ApprovalRow>)
      requires forall a :: a in approvals ==> approvals[a].status != Open
      ensures Withdraw(approvals) == approvals
    {
    }

    /** Close the gates, then cancel every node that has not ended and the run with them. */
    method CancelLocked()
      requires Valid() && Active(row.status) && row.cancelRequested
      modifies this
      ensures Valid() && events == old(events) + [CloseGates, CancelRun]
      ensures row.status == RunCancelled
    {
      ghost var was := events;
      RunSnoc(spec, tools, events, CloseGates);
      approvals := Withdraw(approvals);
      events := events + [CloseGates];
      assert Valid();
      RunSnoc(spec, tools, events, CancelRun);
      WithdrawTwice(approvals);
      row := row.(status := RunCancelled,
                  nodes := Sweep(row.nodes, {Running, Waiting, Deferred, Pending}, Cancelled));
      events := events + [CancelRun];
      assert events == was + [CloseGates, CancelRun];
    }

    method Cancel()
      requires Valid()
      modifies this
      ensures Valid()
      ensures Active(old(row.status)) ==> row.status == RunCancelled && events == old(events) + [RequestCancel, CloseGates, CancelRun]
      ensures !Active(old(row.status)) ==> row == old(row) && events == old(events)
    {
      if !Active(row.status) {
        return;
      }
      RunSnoc(spec, tools, events, RequestCancel);
      row := row.(cancelRequested := true);
      ghost var was := events;
      events := events + [RequestCancel];
      CancelLocked();
      assert events == was + [RequestCancel, CloseGates, CancelRun];
    }

    /** Record a human decision on an open approval and move the run on. */
    method DecideApproval(ap: string, decision: string, world: Id -> World) returns (v: Verdict)
      requires Valid() && decision in DECISIONS
      modifies this
      ensures Valid()
      ensures v == Recorded <==> old(ap in approvals && approvals[ap].status == Open)
      ensures v == NotPending ==> Abs() == old(Abs()) && events == old(events)
      ensures v == Recorded ==>
                var m := ApplyDecision(spec, old(Abs()), ap, decision);
                && old(events) + [Decide(ap, decision)] <= events
                && if old(DecisionLands(Abs(), ap))
                   then Advanced(m.row, events[|old(events)| + 1..], world)
                   else events == old(events) + [Decide(ap, decision)] && row == old(row)
    {
      if ap !in approvals || approvals[ap].status != Open {
        return NotPending;
      }
      RunSnoc(spec, tools, events, Decide(ap, decision));
      ghost var m := ApplyDecision(spec, Abs(), ap, decision);
      var n := approvals[ap].node;
      var lands := Active(row.status) && n in row.nodes.states && row.nodes.states[n].approval in {None, Some(ap)};
      approvals := approvals[ap := ApprovalRow(n, Closed(decision))];
      if lands {
        var g := WithOutcome(SetStatus(row.nodes, n, Done), n, Some(Decided(decision)));
        var status := row.status;
        if decision == "rejected" && !TakesRejection(spec, n) {
          status := RunRejected;
        }
        row := row.(status := status, nodes := g);
      }
      events := events + [Decide(ap, decision)];
      assert Abs() == m;
      if lands {
        Advance(world);
      }
      v := Recorded;
    }

    /** A heartbeat ended: the node it belongs to ends with it. */
    method OnHeartbeatDone(n: Id, hb: string, ok: bool, world: Id -> World)
      requires Valid()
      modifies this
      ensures Valid()
      ensures old(events) + [HeartbeatDone(n, hb, ok)] <= events
      ensures var m := ApplyHeartbeat(old(Abs()), n, hb, ok);
              if m == old(Abs()) then events == old(events) + [HeartbeatDone(n, hb, ok)] && row == old(row)
              else Advanced(m.row, events[|old(events)| + 1..], world)
    {
      ghost var m := ApplyHeartbeat(Abs(), n, hb, ok);
      RunSnoc(spec, tools, events, HeartbeatDone(n, hb, ok));
      events := events + [HeartbeatDone(n, hb, ok)];
      if !Active(row.status) || n !in row.nodes.states {
        return;
      }
      var st := row.nodes.states[n];
      if st.status != Running || st.heartbeat != Some(hb) {
        return;
      }
      var g := SetStatus(row.nodes, n, if ok then Done else Failed);
      row := row.(nodes := WithOutcome(g, n, Some(Report(hb))));
      assert Abs() == m && m.row.nodes.states[n].status != Running;
      Advance(world);
    }

    /** A deferred node gets another turn. */
    method RetryLater(n: Id, world: Id -> World)
      requires Valid()
      modifies this
      ensures Valid()
      ensures old(events) + [Retry(n)] <= events
      ensures Advanced(ApplyRetry(old(Abs()), n).row, events[|old(events)| + 1..], world)
    {
      ghost var m := ApplyRetry(Abs(), n);
      RunSnoc(spec, tools, events, Retry(n));
      if Active(row.status) && n in row.nodes.states && row.nodes.states[n].status == Deferred {
        row := row.(nodes := SetStatus(row.nodes, n, Pending));
      }
      events := events + [Retry(n)];
      assert Abs() == m;
      Advance(world);
    }

    /** An approval timed out: its row first, then the run that waits for it. */
    method ExpireApproval(ap: string)
      requires Valid() && ap in approvals && approvals[ap].status == Open
      modifies this
      ensures Valid()
      ensures events == old(events) + [ExpireRow(ap), ApprovalExpired(ap)]
    {
      ExpireOnly(ap);
      RunSnoc(spec, tools, events, ApprovalExpired(ap));
      var n := approvals[ap].node;
      if Active(row.status) && n in row.nodes.states && row.nodes.states[n].approval == Some(ap) {
        row := row.(status := RunFailed, nodes := SetStatus(row.nodes, n, Failed));
      }
      events := events + [ApprovalExpired(ap)];
    }

    method ExpireOnly(ap: string)
      requires Valid() && ap in approvals && approvals[ap].status == Open
      modifies this`approvals, this`events
      ensures Valid() && events == old(events) + [ExpireRow(ap)]
      ensures approvals == old(approvals)[ap := old(approvals)[ap].(status := Expired)]
    {
      RunSnoc(spec, tools, events, ExpireRow(ap));
      approvals := approvals[ap := approvals[ap].(status := Expired)];
      events := events + [ExpireRow(ap)];
    }

    /** Startup: deferred nodes are pending again, then the run advances. A node
        saved as running keeps its heartbeat; nothing relaunches it. */
    method ReconcileRun(world: Id -> World)
      requires Valid() && Active(row.status)
      modifies this
      ensures Valid()
      ensures old(events) + [Reconcile] <= events
      ensures Advanced(old(row).(nodes := Sweep(old(row).nodes, {Deferred}, Pending)), events[|old(events)| + 1..], world)
    {
      RunSnoc(spec, tools, events, Reconcile);
      row := row.(nodes := Sweep(row.nodes, {Deferred}, Pending));
      events := events + [Reconcile];
      Advance(world);
    }
  }
}
