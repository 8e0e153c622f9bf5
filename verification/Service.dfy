/** Which runs the program makes. A process that died serves no requests until the
    run has been advanced again, so no decision on an active run falls in between.
    The one thing that can still lose an approval request is a save that raises in a
    process that lives on; a decision can rewrite another one only if that happens
    twice for one node. */
module Service {
  import opened Wrappers
  import opened Graphs
  import opened Workflows
  import opened Machine
  import opened Invariants
  import opened Steps
  import opened Basics
  import opened RunTheorems

  /** Does the process take decisions on this run, and which nodes have lost a request
      to a save that raised? */
  datatype Service = Service(up: bool, lost: set<Id>)

  function Serve(spec: Spec, m: Machine, s: Service, ev: Event): Service {
    match ev
    case Crash => s.(up := false)
    case Abort => if Asking(m) then s.(lost := s.lost + {m.mem.value.started.value}) else s
    case Finish => if m.mem.Some? && m.mem.value.started.None? && Quiescent(spec, m.mem.value.nodes) then s.(up := true) else s
    case CancelRun => if m.mem.None? && Active(m.row.status) && m.row.cancelRequested then s.(up := true) else s
    case _ => s
  }

  ghost function ServiceAfter(spec: Spec, tools: map<string, Tier>, events: seq<Event>): Service {
    if events == [] then Service(true, {})
    else
      var k := |events| - 1;
      Serve(spec, Run(spec, tools, events[..k]), ServiceAfter(spec, tools, events[..k]), events[k])
  }

  /** Decisions on an active run come only while the process serves. */
  predicate Served(m: Machine, s: Service, ev: Event) {
    ev.Decide? ==> s.up || !Active(m.row.status)
  }

  /** A second request of the node is lost to a save that raises. */
  predicate LosesAgain(m: Machine, s: Service, ev: Event) {
    ev.Abort? && Asking(m) && m.mem.value.started.value in s.lost
  }

  /** The runs the program makes: events in any order, processes dying anywhere and
      saves raising anywhere, but no decision between a death and the restart. */
  ghost predicate ProgramRun(spec: Spec, tools: map<string, Tier>, events: seq<Event>) {
    forall i :: 0 <= i < |events| ==>
      Served(Run(spec, tools, events[..i]), ServiceAfter(spec, tools, events[..i]), events[i])
  }

  ghost predicate LosesNoneTwice(spec: Spec, tools: map<string, Tier>, events: seq<Event>) {
    forall i :: 0 <= i < |events| ==>
      !LosesAgain(Run(spec, tools, events[..i]), ServiceAfter(spec, tools, events[..i]), events[i])
  }

  // ---------------------------------------------------------------- what such runs keep

  /** A done node that names no approval has no open one. */
  predicate DecidedOnce(g: Nodes, approvals: map<string, ApprovalRow>) {
    forall a :: a in approvals ==>
      var n := approvals[a].node;
      n in g.states && g.states[n].status == Done && g.states[n].approval.None? ==> approvals[a].status != Open
  }

  predicate OpenRow(m: Machine, a: string) {
    a in m.approvals && m.approvals[a].status == Open
  }

  /** The row of the request the `advance` at work has just made. */
  predicate AskedNow(m: Machine, a: string) {
    Asking(m) && ApprovalOf(m.mem.value.nodes, m.mem.value.started.value) == Some(a)
  }

  /** An open approval that is not the one its node names, if it names any. */
  predicate Adrift(m: Machine, a: string) {
    OpenRow(m, a) && ApprovalOf(m.row.nodes, m.approvals[a].node).None? && !AskedNow(m, a)
  }

  /** While the process serves, only nodes that lost a request have an open approval
      they do not know of, and one at most. */
  ghost predicate Tracked(m: Machine, s: Service) {
    && (forall a :: Adrift(m, a) ==> m.approvals[a].node in s.lost)
    && (forall a, b :: Adrift(m, a) && Adrift(m, b) && m.approvals[a].node == m.approvals[b].node ==> a == b)
  }

  ghost predicate ServiceInv(m: Machine, s: Service) {
    && DecidedOnce(m.row.nodes, m.approvals) && (m.mem.Some? ==> DecidedOnce(m.mem.value.nodes, m.approvals))
    && (s.up ==> Tracked(m, s))
  }

  /** No decision lands on a node that is done. */
  lemma ServedIsClean(spec: Spec, m: Machine, ev: Event)
    requires BasicInv(spec, m) && DecidedOnce(m.row.nodes, m.approvals)
    ensures CleanStep(m, ev)
  {
    if ev.Decide? && DecisionLands(m, ev.approval) {
      assert NameOk(spec, m.row.nodes, m.approvals, m.approvals[ev.approval].node);
    }
  }

  lemma StartServes(spec: Spec, tools: map<string, Tier>, m: Machine, s: Service, n: Id, w: World)
    requires BasicInv(spec, m) && ServiceInv(m, s) && m.mem.Some? && m.mem.value.started.None?
    requires CanStart(spec, m.mem.value.nodes, n) && NodeNamed(spec.nodes, n).Some?
    ensures ServiceInv(ApplyStart(spec, tools, m, n, w), s)
  {
    var m' := ApplyStart(spec, tools, m, n, w);
    var h, h' := m.mem.value.nodes, m'.mem.value.nodes;
    assert NameOk(spec, h, m.approvals, n);
    assert CopyOk(m, n);
    StartedShape(spec, tools, m, n, w);
    StartedBasics(spec, tools, m, n, w);
    NoApproval(spec, tools, m, n, w);
    StartAdrift(m, m', n);
  }

  /** A node that starts without asking has no approval rows, its kind being another. */
  lemma NoApproval(spec: Spec, tools: map<string, Tier>, m: Machine, n: Id, w: World)
    requires BasicInv(spec, m) && m.mem.Some? && m.mem.value.started.None?
    requires CanStart(spec, m.mem.value.nodes, n) && NodeNamed(spec.nodes, n).Some?
    ensures var st := ApplyStart(spec, tools, m, n, w).mem.value.nodes.states[n];
            st.status == Done ==> forall a :: a in m.approvals ==> m.approvals[a].node != n
    ensures var st := ApplyStart(spec, tools, m, n, w).mem.value.nodes.states[n];
            st.approval.Some? ==> st.status == Waiting
  {
    var h := m.mem.value.nodes;
    assert NameOk(spec, h, m.approvals, n);
    EffectShape(spec, tools, m.approvals, h, NodeNamed(spec.nodes, n).value, h.states[n], w);
  }

  lemma StartAdrift(m: Machine, m': Machine, n: Id)
    requires m.mem.Some? && m.mem.value.started.None? && n in m.row.nodes.states && m.row.nodes.states[n].approval.None?
    requires m.row.nodes.states[n].status == Pending && n in m.mem.value.nodes.states && m.mem.value.nodes.states[n].status == Pending
    requires DecidedOnce(m.row.nodes, m.approvals) && DecidedOnce(m.mem.value.nodes, m.approvals)
    requires m'.row == m.row && m'.mem.Some? && m'.mem.value.started == Some(n)
    requires n in m'.mem.value.nodes.states && m'.mem.value.nodes.states == m.mem.value.nodes.states[n := m'.mem.value.nodes.states[n]]
    requires var st := m'.mem.value.nodes.states[n];
             && (st.approval.Some? ==>
                  && st.status == Waiting && st.approval.value !in m.approvals
                  && m'.approvals == m.approvals[st.approval.value := ApprovalRow(n, Open)])
             && (st.approval.None? ==> m'.approvals == m.approvals)
             && (st.status == Done ==> forall a :: a in m.approvals ==> m.approvals[a].node != n)
    ensures DecidedOnce(m'.row.nodes, m'.approvals) && DecidedOnce(m'.mem.value.nodes, m'.approvals)
    ensures forall a :: Adrift(m', a) ==> Adrift(m, a) && m'.approvals[a] == m.approvals[a]
  {
  }

  lemma SaveServes(spec: Spec, m: Machine, s: Service)
    requires BasicInv(spec, m) && ServiceInv(m, s) && m.mem.Some?
    ensures ServiceInv(m.(row := m.row.(status := RunStatusOf(m.mem.value.nodes), nodes := m.mem.value.nodes),
                          mem := Some(Memory(m.mem.value.nodes, None))), s)
  {
    var m' := m.(row := m.row.(status := RunStatusOf(m.mem.value.nodes), nodes := m.mem.value.nodes),
                 mem := Some(Memory(m.mem.value.nodes, None)));
    forall a | Adrift(m', a)
      ensures Adrift(m, a)
    {
      SaveAdrift(spec, m, a);
    }
    FewerAdrift(m, m', s);
  }

  /** What the copies do not name, the row did not name either. */
  lemma SaveAdrift(spec: Spec, m: Machine, a: string)
    requires BasicInv(spec, m) && m.mem.Some? && OpenRow(m, a)
    requires ApprovalOf(m.mem.value.nodes, m.approvals[a].node).None?
    ensures Adrift(m, a)
  {
    var n := m.approvals[a].node;
    if n in m.row.nodes.states {
      assert CopyOk(m, n);
      assert NameOk(spec, m.row.nodes, m.approvals, n);
    }
    if Asking(m) {
      assert NameOk(spec, m.mem.value.nodes, m.approvals, m.mem.value.started.value);
    }
  }

  lemma FewerAdrift(m: Machine, m': Machine, s: Service)
    requires s.up ==> Tracked(m, s)
    requires forall a :: Adrift(m', a) ==> Adrift(m, a) && m'.approvals[a].node == m.approvals[a].node
    ensures s.up ==> Tracked(m', s)
  {
  }

  /** Dropping the copies loses the request just made, if one was. */
  lemma AbortServes(spec: Spec, m: Machine, s: Service)
    requires BasicInv(spec, m) && ServiceInv(m, s) && !LosesAgain(m, s, Abort)
    ensures ServiceInv(m.(mem := None), Serve(spec, m, s, Abort))
  {
    var m', s' := m.(mem := None), Serve(spec, m, s, Abort);
    forall a | Adrift(m', a)
      ensures Adrift(m, a) || AskedNow(m, a)
    {
    }
    if Asking(m) {
      forall a | AskedNow(m, a) && OpenRow(m, a)
        ensures m.approvals[a].node == m.mem.value.started.value
      {
        assert NameOk(spec, m.mem.value.nodes, m.approvals, m.mem.value.started.value);
      }
    }
  }

  lemma DecideServes(spec: Spec, m: Machine, s: Service, ap: string, decision: string)
    requires BasicInv(spec, m) && ServiceInv(m, s) && (s.up || !Active(m.row.status))
    requires m.mem.None? && OpenRow(m, ap)
    ensures ServiceInv(ApplyDecision(spec, m, ap, decision), s)
  {
    var m' := ApplyDecision(spec, m, ap, decision);
    var n := m.approvals[ap].node;
    if DecisionLands(m, ap) && m.row.nodes.states[n].approval.None? {
      LastOfItsNode(m, s, ap);
    }
    DecisionNames(spec, m, ap, decision);
    FewerAdrift(m, m', s);
  }

  lemma LastOfItsNode(m: Machine, s: Service, ap: string)
    requires m.mem.None? && OpenRow(m, ap) && Tracked(m, s) && ApprovalOf(m.row.nodes, m.approvals[ap].node).None?
    ensures forall a :: OpenRow(m, a) && m.approvals[a].node == m.approvals[ap].node ==> a == ap
  {
    assert Adrift(m, ap);
    forall a | OpenRow(m, a) && m.approvals[a].node == m.approvals[ap].node
      ensures a == ap
    {
      assert Adrift(m, a);
    }
  }

  lemma DecisionNames(spec: Spec, m: Machine, ap: string, decision: string)
    requires m.mem.None? && OpenRow(m, ap) && DecidedOnce(m.row.nodes, m.approvals)
    requires DecisionLands(m, ap) && m.row.nodes.states[m.approvals[ap].node].approval.None? ==>
               forall a :: OpenRow(m, a) && m.approvals[a].node == m.approvals[ap].node ==> a == ap
    ensures var m' := ApplyDecision(spec, m, ap, decision);
            && DecidedOnce(m'.row.nodes, m'.approvals)
            && forall a :: Adrift(m', a) ==> Adrift(m, a) && m'.approvals[a].node == m.approvals[a].node
  {
    var m' := ApplyDecision(spec, m, ap, decision);
    assert forall a :: OpenRow(m', a) ==> OpenRow(m, a) && a != ap && m'.approvals[a] == m.approvals[a];
    assert forall k :: ApprovalOf(m'.row.nodes, k) == ApprovalOf(m.row.nodes, k);
  }

  /** A step on the row that opens nothing and decides nothing. */
  lemma QuietServes(m: Machine, m': Machine, s: Service)
    requires ServiceInv(m, s) && m'.mem == m.mem && (m.mem.Some? ==> m'.row.nodes == m.row.nodes)
    requires m'.approvals.Keys == m.approvals.Keys
    requires forall a :: a in m.approvals ==>
               && m'.approvals[a].node == m.approvals[a].node
               && (m'.approvals[a].status == Open ==> m.approvals[a].status == Open)
    requires m'.row.nodes.states.Keys == m.row.nodes.states.Keys
    requires forall n :: n in m.row.nodes.states ==>
               && m'.row.nodes.states[n].approval == m.row.nodes.states[n].approval
               && (m'.row.nodes.states[n].status == Done ==>
                     m.row.nodes.states[n].status == Done || forall a :: a in m.approvals ==> m.approvals[a].node != n)
    ensures ServiceInv(m', s)
  {
    assert forall a :: Adrift(m', a) ==> Adrift(m, a);
  }

  lemma HeartbeatServes(spec: Spec, m: Machine, s: Service, n: Id, hb: string, ok: bool)
    requires BasicInv(spec, m) && ServiceInv(m, s)
    ensures ServiceInv(ApplyHeartbeat(m, n, hb, ok), s)
  {
    if ApplyHeartbeat(m, n, hb, ok) != m {
      assert NameOk(spec, m.row.nodes, m.approvals, n);
      QuietServes(m, ApplyHeartbeat(m, n, hb, ok), s);
    }
  }

  /** Approvals that are closed, and nodes that go back to pending or fail. */
  lemma TableServes(m: Machine, s: Service, approvals: map<string, ApprovalRow>)
    requires ServiceInv(m, s) && approvals.Keys == m.approvals.Keys
    requires forall a :: a in m.approvals ==>
               && approvals[a].node == m.approvals[a].node
               && (approvals[a].status == Open ==> m.approvals[a].status == Open)
    ensures ServiceInv(m.(approvals := approvals), s)
  {
    QuietServes(m, m.(approvals := approvals), s);
  }

  lemma NodeServes(m: Machine, s: Service, n: Id, to: Status, status: RunStatus)
    requires ServiceInv(m, s) && m.mem.None? && n in m.row.nodes.states && to != Done
    ensures ServiceInv(m.(row := m.row.(status := status, nodes := SetStatus(m.row.nodes, n, to))), s)
  {
    QuietServes(m, m.(row := m.row.(status := status, nodes := SetStatus(m.row.nodes, n, to))), s);
  }

  lemma RowServes(spec: Spec, tools: map<string, Tier>, m: Machine, s: Service, ev: Event)
    requires BasicInv(spec, m) && ServiceInv(m, s)
    requires ev.Retry? || ev.ExpireRow? || ev.ApprovalExpired? || ev.RequestCancel? || ev.Reconcile? || ev.CloseGates?
    ensures ServiceInv(Next(spec, tools, m, ev), s)
  {
    if Next(spec, tools, m, ev) != m {
      match ev
      case Retry(n) => NodeServes(m, s, n, Pending, m.row.status);
      case ExpireRow(ap) => TableServes(m, s, m.approvals[ap := m.approvals[ap].(status := Expired)]);
      case ApprovalExpired(ap) => NodeServes(m, s, m.approvals[ap].node, Failed, RunFailed);
      case RequestCancel => MarkServes(m, s);
      case Reconcile => SweepServes(m, s);
      case CloseGates => CloseServes(m, s);
    }
  }

  lemma MarkServes(m: Machine, s: Service)
    requires ServiceInv(m, s)
    ensures ServiceInv(m.(row := m.row.(cancelRequested := true)), s)
  {
    QuietServes(m, m.(row := m.row.(cancelRequested := true)), s);
  }

  lemma CloseServes(m: Machine, s: Service)
    requires ServiceInv(m, s)
    ensures ServiceInv(m.(approvals := Withdraw(m.approvals)), s)
  {
    TableServes(m, s, Withdraw(m.approvals));
  }

  lemma SweepServes(m: Machine, s: Service)
    requires ServiceInv(m, s) && m.mem.None?
    ensures ServiceInv(m.(row := m.row.(nodes := Sweep(m.row.nodes, {Deferred}, Pending))), s)
  {
    QuietServes(m, m.(row := m.row.(nodes := Sweep(m.row.nodes, {Deferred}, Pending))), s);
  }

  lemma ClosedServes(m: Machine, s: Service)
    requires m.mem.None? && forall a :: a in m.approvals ==> m.approvals[a].status != Open
    ensures ServiceInv(m, s)
  {
  }

  // ---------------------------------------------------------------- a finished advance knows every request

  /** When nothing can move, what is doomed has been skipped. */
  lemma {:induction false} DoomedIsOver(spec: Spec, rank: Id -> nat, h: Nodes, n: Id)
    requires Ranked(spec.edges, rank) && EdgesKnown(IdSet(spec), spec.edges) && h.states.Keys == IdSet(spec)
    requires Quiescent(spec, h) && n in h.states && Doomed(spec, rank, h, n)
    ensures Settling(StatusOf(h, n))
    decreases rank(n)
  {
    if StatusOf(h, n) == Pending {
      assert !Resolved(spec, h, n);
      var e :| e in Into(spec.edges, n) && !Settling(StatusOf(h, e.src));
      DoomedIsOver(spec, rank, h, e.src);
    }
  }

  lemma SettledHasMoved(spec: Spec, rank: Id -> nat, h: Nodes, n: Id)
    requires Ranked(spec.edges, rank) && EdgesKnown(IdSet(spec), spec.edges) && h.states.Keys == IdSet(spec)
    requires Quiescent(spec, h) && n in h.states && Settled(spec, rank, h, n)
    ensures h.states[n].status != Pending
  {
    if !Resolved(spec, h, n) {
      var e :| e in Into(spec.edges, n) && !Settling(StatusOf(h, e.src));
      DoomedIsOver(spec, rank, h, e.src);
    }
  }

  /** The node of an open approval was reached, so by now it has asked and been saved. */
  lemma AskedByNow(spec: Spec, rank: Id -> nat, m: Machine, a: string)
    requires Ranked(spec.edges, rank) && EdgesKnown(IdSet(spec), spec.edges) && MachineInv(spec, rank, m) && BasicInv(spec, m)
    requires m.mem.Some? && m.mem.value.started.None? && Quiescent(spec, m.mem.value.nodes)
    requires DecidedOnce(m.mem.value.nodes, m.approvals) && !HasFailed(m.mem.value.nodes) && OpenRow(m, a)
    ensures ApprovalOf(m.mem.value.nodes, m.approvals[a].node).Some?
  {
    var g, h, n := m.row.nodes, m.mem.value.nodes, m.approvals[a].node;
    SettledStays(spec, rank, g, h, n);
    SettledHasMoved(spec, rank, h, n);
    assert NodeInv(spec, rank, h, n);
    assert NameOk(spec, h, m.approvals, n);
  }

  lemma FinishServes(spec: Spec, rank: Id -> nat, m: Machine, s: Service)
    requires Ranked(spec.edges, rank) && EdgesKnown(IdSet(spec), spec.edges) && MachineInv(spec, rank, m) && BasicInv(spec, m)
    requires ServiceInv(m, s) && m.mem.Some? && m.mem.value.started.None? && Quiescent(spec, m.mem.value.nodes)
    ensures ServiceInv(ApplyFinish(m), s.(up := true))
  {
    StatusTells(m.mem.value.nodes);
    if RunStatusOf(m.mem.value.nodes) == RunFailed {
      FailedServes(m, s);
    } else {
      forall a | OpenRow(m, a)
        ensures ApprovalOf(m.mem.value.nodes, m.approvals[a].node).Some?
      {
        AskedByNow(spec, rank, m, a);
      }
      AllNamed(m, s);
    }
  }

  lemma FailedServes(m: Machine, s: Service)
    requires m.mem.Some? && RunStatusOf(m.mem.value.nodes) == RunFailed
    ensures ServiceInv(ApplyFinish(m), s.(up := true))
  {
    WithdrawGrows(m.approvals);
    ClosedServes(ApplyFinish(m), s.(up := true));
  }

  lemma AllNamed(m: Machine, s: Service)
    requires m.mem.Some? && DecidedOnce(m.mem.value.nodes, m.approvals) && RunStatusOf(m.mem.value.nodes) != RunFailed
    requires forall a :: OpenRow(m, a) ==> ApprovalOf(m.mem.value.nodes, m.approvals[a].node).Some?
    ensures ServiceInv(ApplyFinish(m), s.(up := true))
  {
  }

  // ---------------------------------------------------------------- every program run is clean

  lemma StepServes(spec: Spec, rank: Id -> nat, tools: map<string, Tier>, m: Machine, s: Service, ev: Event)
    requires Ranked(spec.edges, rank) && EdgesKnown(IdSet(spec), spec.edges) && MachineInv(spec, rank, m) && BasicInv(spec, m)
    requires ServiceInv(m, s) && Served(m, s, ev) && !LosesAgain(m, s, ev)
    ensures ServiceInv(Next(spec, tools, m, ev), Serve(spec, m, s, ev))
  {
    match ev
    case Finish =>
      if m.mem.Some? && m.mem.value.started.None? && Quiescent(spec, m.mem.value.nodes) {
        FinishServes(spec, rank, m, s);
      }
    case Decide(ap, decision) => DecidedServes(spec, tools, m, s, ap, decision);
    case CancelRun => CancelledServes(spec, tools, m, s);
    case HeartbeatDone(n, hb, ok) => HeartbeatServes(spec, m, s, n, hb, ok);
    case _ =>
      if ev.Begin? || ev.Skip? || ev.Start? || ev.Save? || ev.Crash? || ev.Abort? {
        CopyServes(spec, tools, m, s, ev);
      } else {
        RowServes(spec, tools, m, s, ev);
      }
  }

  lemma DecidedServes(spec: Spec, tools: map<string, Tier>, m: Machine, s: Service, ap: string, decision: string)
    requires BasicInv(spec, m) && ServiceInv(m, s) && Served(m, s, Decide(ap, decision))
    ensures ServiceInv(Next(spec, tools, m, Decide(ap, decision)), s)
  {
    if m.mem.None? && OpenRow(m, ap) && decision in DECISIONS {
      DecideServes(spec, m, s, ap, decision);
    }
  }

  /** The steps of an `advance` before its end, and the two ways it may break off. */
  lemma CopyServes(spec: Spec, tools: map<string, Tier>, m: Machine, s: Service, ev: Event)
    requires BasicInv(spec, m) && ServiceInv(m, s) && !LosesAgain(m, s, ev)
    requires ev.Begin? || ev.Skip? || ev.Start? || ev.Save? || ev.Crash? || ev.Abort?
    ensures ServiceInv(Next(spec, tools, m, ev), Serve(spec, m, s, ev))
  {
    if Next(spec, tools, m, ev) != m {
      match ev
      case Begin => BeginServes(m, s);
      case Skip(n) => SkipServes(m, s, n);
      case Start(n, w) => StartServes(spec, tools, m, s, n, w);
      case Save => SaveServes(spec, m, s);
      case Crash => CrashServes(spec, tools, m, s);
      case Abort => AbortServes(spec, m, s);
    }
  }

  lemma BeginServes(m: Machine, s: Service)
    requires ServiceInv(m, s) && m.mem.None?
    ensures ServiceInv(m.(mem := Some(Memory(m.row.nodes, None))), s)
  {
    var m' := m.(mem := Some(Memory(m.row.nodes, None)));
    assert forall a :: Adrift(m', a) ==> Adrift(m, a);
  }

  lemma CrashServes(spec: Spec, tools: map<string, Tier>, m: Machine, s: Service)
    requires BasicInv(spec, m) && ServiceInv(m, s) && !LosesAgain(m, s, Crash)
    ensures ServiceInv(Next(spec, tools, m, Crash), Serve(spec, m, s, Crash))
  {
  }

  lemma SkipServes(m: Machine, s: Service, n: Id)
    requires ServiceInv(m, s) && m.mem.Some? && m.mem.value.started.None? && n in m.mem.value.nodes.states
    requires m.mem.value.nodes.states[n].status == Pending
    ensures ServiceInv(m.(mem := Some(Memory(SetStatus(m.mem.value.nodes, n, Skipped), None))), s)
  {
    var m' := m.(mem := Some(Memory(SetStatus(m.mem.value.nodes, n, Skipped), None)));
    assert forall a :: Adrift(m', a) ==> Adrift(m, a);
  }

  lemma CancelledServes(spec: Spec, tools: map<string, Tier>, m: Machine, s: Service)
    requires ServiceInv(m, s)
    ensures ServiceInv(Next(spec, tools, m, CancelRun), Serve(spec, m, s, CancelRun))
  {
    if m.mem.None? && Active(m.row.status) && m.row.cancelRequested {
      WithdrawGrows(m.approvals);
      ClosedServes(ApplyCancel(m), s.(up := true));
    }
  }

  lemma ProgramPrefix(spec: Spec, tools: map<string, Tier>, events: seq<Event>, k: nat)
    requires k <= |events| && ProgramRun(spec, tools, events) && LosesNoneTwice(spec, tools, events)
    ensures ProgramRun(spec, tools, events[..k]) && LosesNoneTwice(spec, tools, events[..k])
  {
    forall i | 0 <= i < k
      ensures Served(Run(spec, tools, events[..k][..i]), ServiceAfter(spec, tools, events[..k][..i]), events[..k][i])
      ensures !LosesAgain(Run(spec, tools, events[..k][..i]), ServiceAfter(spec, tools, events[..k][..i]), events[..k][i])
    {
      assert events[..k][..i] == events[..i];
    }
  }

  lemma CleanSnoc(spec: Spec, tools: map<string, Tier>, events: seq<Event>)
    requires events != [] && CleanRun(spec, tools, events[..|events| - 1])
    requires CleanStep(Run(spec, tools, events[..|events| - 1]), events[|events| - 1])
    ensures CleanRun(spec, tools, events)
  {
    forall i | 0 <= i < |events|
      ensures CleanStep(Run(spec, tools, events[..i]), events[i])
    {
      if i < |events| - 1 {
        CleanAt(spec, tools, events, i);
      }
    }
  }

  lemma CleanAt(spec: Spec, tools: map<string, Tier>, events: seq<Event>, i: nat)
    requires i < |events| - 1 && CleanRun(spec, tools, events[..|events| - 1])
    ensures CleanStep(Run(spec, tools, events[..i]), events[i])
  {
    var k := |events| - 1;
    assert events[..k][..i] == events[..i] && events[..k][i] == events[i];
  }

  /** A run the program makes in which no node loses two requests is clean. */
  lemma {:induction false} ProgramRunIsClean(spec: Spec, rank: Id -> nat, tools: map<string, Tier>, events: seq<Event>)
    requires Ranked(spec.edges, rank) && EdgesKnown(IdSet(spec), spec.edges)
    requires ProgramRun(spec, tools, events) && LosesNoneTwice(spec, tools, events)
    ensures CleanRun(spec, tools, events)
    ensures ServiceInv(Run(spec, tools, events), ServiceAfter(spec, tools, events))
  {
    if events != [] {
      var k := |events| - 1;
      var m, s := Run(spec, tools, events[..k]), ServiceAfter(spec, tools, events[..k]);
      ProgramPrefix(spec, tools, events, k);
      ProgramRunIsClean(spec, rank, tools, events[..k]);
      RunInv(spec, rank, tools, events[..k]);
      RunBasics(spec, tools, events[..k]);
      ServedIsClean(spec, m, events[k]);
      CleanSnoc(spec, tools, events);
      StepServes(spec, rank, tools, m, s, events[k]);
    }
  }
}
