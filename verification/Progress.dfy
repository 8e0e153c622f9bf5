/** No run is stuck, and the one exception: an approval that expired while nobody was
    told. All of it holds of every run, clean or not. */
module Progress {
  import opened Wrappers
  import opened Graphs
  import opened Workflows
  import opened Machine
  import opened Basics
  import opened RunTheorems

  // ---------------------------------------------------------------- expiries that were not heard of

  /** Approvals marked expired in the table whose run has not been told. The mark and
      the call are two steps of one tick; a death or an exception between them leaves
      the approval here for good, since the next tick only returns rows it marks. */
  function Hear(m: Machine, unheard: set<string>, ev: Event): set<string> {
    match ev
    case ExpireRow(a) => if a in m.approvals && m.approvals[a].status == Open then unheard + {a} else unheard
    case ApprovalExpired(a) => if m.mem.None? then unheard - {a} else unheard
    case _ => unheard
  }

  ghost function Unheard(spec: Spec, tools: map<string, Tier>, events: seq<Event>): set<string> {
    if events == [] then {}
    else
      var k := |events| - 1;
      Hear(Run(spec, tools, events[..k]), Unheard(spec, tools, events[..k]), events[k])
  }

  /** No node names the approval. */
  ghost predicate Forgotten(m: Machine, a: string) {
    && (forall n :: ApprovalOf(m.row.nodes, n) != Some(a))
    && (m.mem.Some? ==> forall n :: ApprovalOf(m.mem.value.nodes, n) != Some(a))
  }

  ghost predicate HeardInv(m: Machine, unheard: set<string>) {
    && (forall a :: a in unheard ==> a in m.approvals && m.approvals[a].status == Expired)
    && (Over(m) || forall a :: a in m.approvals && m.approvals[a].status == Expired && a !in unheard ==> Forgotten(m, a))
  }

  lemma StartHeard(spec: Spec, tools: map<string, Tier>, m: Machine, unheard: set<string>, n: Id, w: World)
    requires BasicInv(spec, m) && HeardInv(m, unheard) && m.mem.Some? && m.mem.value.started.None?
    requires CanStart(spec, m.mem.value.nodes, n) && NodeNamed(spec.nodes, n).Some?
    ensures HeardInv(ApplyStart(spec, tools, m, n, w), unheard)
  {
    var m' := ApplyStart(spec, tools, m, n, w);
    assert NameOk(spec, m.mem.value.nodes, m.approvals, n);
    Steps.StartedShape(spec, tools, m, n, w);
    StartNames(m, m', n);
    QuietHeard(m, m', unheard);
  }

  /** The only new name is that of a new row. */
  lemma StartNames(m: Machine, m': Machine, n: Id)
    requires m.mem.Some? && m'.mem.Some? && m'.row == m.row && n in m.mem.value.nodes.states && n in m'.mem.value.nodes.states
    requires m'.mem.value.nodes.states == m.mem.value.nodes.states[n := m'.mem.value.nodes.states[n]]
    requires var a := m'.mem.value.nodes.states[n].approval;
             if a.Some? then a.value !in m.approvals && m'.approvals == m.approvals[a.value := ApprovalRow(n, Open)]
             else m'.approvals == m.approvals
    ensures forall a :: a in m.approvals && Forgotten(m, a) ==> Forgotten(m', a)
    ensures forall a :: a in m'.approvals && m'.approvals[a].status == Expired <==> a in m.approvals && m.approvals[a].status == Expired
  {
    forall a | a in m.approvals && Forgotten(m, a)
      ensures Forgotten(m', a)
    {
      assert forall k :: k != n ==> ApprovalOf(m'.mem.value.nodes, k) == ApprovalOf(m.mem.value.nodes, k);
      assert ApprovalOf(m.mem.value.nodes, n) != Some(a);
    }
  }

  lemma SweepNames(g: Nodes, from: set<Status>, to: Status)
    ensures forall n :: ApprovalOf(Sweep(g, from, to), n) == ApprovalOf(g, n)
  {
  }

  lemma ExpiredHeard(spec: Spec, m: Machine, unheard: set<string>, ap: string)
    requires BasicInv(spec, m) && HeardInv(m, unheard) && m.mem.None?
    ensures HeardInv(ApplyExpired(m, ap), unheard - {ap})
  {
    var m' := ApplyExpired(m, ap);
    if !Over(m') && ap in m.approvals && m.approvals[ap].status == Expired {
      forall n
        ensures ApprovalOf(m.row.nodes, n) != Some(ap)
      {
        if n in m.row.nodes.states {
          assert NameOk(spec, m.row.nodes, m.approvals, n);
        }
      }
      assert Forgotten(m, ap);
    }
  }

  /** Steps that mark nothing expired and name nothing new. */
  lemma QuietHeard(m: Machine, m': Machine, unheard: set<string>)
    requires HeardInv(m, unheard) && (Over(m) ==> Over(m'))
    requires forall a :: a in m.approvals && m.approvals[a].status == Expired ==> a in m'.approvals && m'.approvals[a].status == Expired
    requires forall a :: a in m'.approvals && m'.approvals[a].status == Expired ==> a in m.approvals && m.approvals[a].status == Expired
    requires forall a :: a in m.approvals && Forgotten(m, a) ==> Forgotten(m', a)
    ensures HeardInv(m', unheard)
  {
  }

  lemma RowHeard(spec: Spec, tools: map<string, Tier>, m: Machine, unheard: set<string>, ev: Event)
    requires BasicInv(spec, m) && HeardInv(m, unheard)
    requires !ev.Start? && !ev.ExpireRow? && !ev.ApprovalExpired?
    ensures HeardInv(Next(spec, tools, m, ev), unheard)
  {
    match ev
    case Finish => if Next(spec, tools, m, ev) != m { FinishHeard(m, unheard); }
    case CancelRun => CancelHeard(m, unheard);
    case Decide(ap, decision) => if Next(spec, tools, m, ev) != m { DecideHeard(spec, m, unheard, ap, decision); }
    case HeartbeatDone(n, hb, ok) => HeartbeatHeard(m, unheard, n, hb, ok);
    case Retry(n) => RetryHeard(m, unheard, n);
    case Reconcile => if Next(spec, tools, m, ev) != m { ReconcileHeard(m, unheard); }
    case _ => CopyHeard(spec, tools, m, unheard, ev);
  }

  lemma HeartbeatHeard(m: Machine, unheard: set<string>, n: Id, hb: string, ok: bool)
    requires HeardInv(m, unheard)
    ensures HeardInv(ApplyHeartbeat(m, n, hb, ok), unheard)
  {
    assert forall k :: ApprovalOf(ApplyHeartbeat(m, n, hb, ok).row.nodes, k) == ApprovalOf(m.row.nodes, k);
    QuietHeard(m, ApplyHeartbeat(m, n, hb, ok), unheard);
  }

  lemma RetryHeard(m: Machine, unheard: set<string>, n: Id)
    requires HeardInv(m, unheard)
    ensures HeardInv(ApplyRetry(m, n), unheard)
  {
    assert forall k :: ApprovalOf(ApplyRetry(m, n).row.nodes, k) == ApprovalOf(m.row.nodes, k);
    QuietHeard(m, ApplyRetry(m, n), unheard);
  }

  lemma ReconcileHeard(m: Machine, unheard: set<string>)
    requires HeardInv(m, unheard) && m.mem.None?
    ensures HeardInv(m.(row := m.row.(nodes := Sweep(m.row.nodes, {Deferred}, Pending))), unheard)
  {
    SweepNames(m.row.nodes, {Deferred}, Pending);
    QuietHeard(m, m.(row := m.row.(nodes := Sweep(m.row.nodes, {Deferred}, Pending))), unheard);
  }

  lemma CopyHeard(spec: Spec, tools: map<string, Tier>, m: Machine, unheard: set<string>, ev: Event)
    requires HeardInv(m, unheard)
    requires ev.Begin? || ev.Skip? || ev.Save? || ev.CloseGates? || ev.Crash? || ev.Abort? || ev.RequestCancel?
    ensures HeardInv(Next(spec, tools, m, ev), unheard)
  {
    if Next(spec, tools, m, ev) != m {
      match ev
      case Skip(n) => SkipHeard(m, unheard, n);
      case Save => SaveHeard(m, unheard);
      case _ => QuietHeard(m, Next(spec, tools, m, ev), unheard);
    }
  }

  lemma SkipHeard(m: Machine, unheard: set<string>, n: Id)
    requires HeardInv(m, unheard) && m.mem.Some? && n in m.mem.value.nodes.states
    ensures HeardInv(m.(mem := Some(Memory(SetStatus(m.mem.value.nodes, n, Skipped), None))), unheard)
  {
    assert forall k :: ApprovalOf(SetStatus(m.mem.value.nodes, n, Skipped), k) == ApprovalOf(m.mem.value.nodes, k);
    QuietHeard(m, m.(mem := Some(Memory(SetStatus(m.mem.value.nodes, n, Skipped), None))), unheard);
  }

  lemma SaveHeard(m: Machine, unheard: set<string>)
    requires HeardInv(m, unheard) && m.mem.Some?
    ensures HeardInv(m.(row := m.row.(status := RunStatusOf(m.mem.value.nodes), nodes := m.mem.value.nodes),
                        mem := Some(Memory(m.mem.value.nodes, None))), unheard)
  {
    QuietHeard(m, m.(row := m.row.(status := RunStatusOf(m.mem.value.nodes), nodes := m.mem.value.nodes),
                     mem := Some(Memory(m.mem.value.nodes, None))), unheard);
  }

  lemma FinishHeard(m: Machine, unheard: set<string>)
    requires HeardInv(m, unheard) && m.mem.Some?
    ensures HeardInv(ApplyFinish(m), unheard)
  {
    SweepNames(m.mem.value.nodes, {Running, Waiting, Deferred}, Cancelled);
    QuietHeard(m, ApplyFinish(m), unheard);
  }

  lemma CancelHeard(m: Machine, unheard: set<string>)
    requires HeardInv(m, unheard)
    ensures HeardInv(ApplyCancel(m), unheard)
  {
    SweepNames(m.row.nodes, {Running, Waiting, Deferred, Pending}, Cancelled);
    QuietHeard(m, ApplyCancel(m), unheard);
  }

  lemma DecideHeard(spec: Spec, m: Machine, unheard: set<string>, ap: string, decision: string)
    requires HeardInv(m, unheard) && m.mem.None? && ap in m.approvals && m.approvals[ap].status == Open
    ensures HeardInv(ApplyDecision(spec, m, ap, decision), unheard)
  {
    var m' := ApplyDecision(spec, m, ap, decision);
    assert forall n :: ApprovalOf(m'.row.nodes, n) == ApprovalOf(m.row.nodes, n);
    QuietHeard(m, m', unheard);
  }

  lemma StepHeard(spec: Spec, tools: map<string, Tier>, m: Machine, unheard: set<string>, ev: Event)
    requires BasicInv(spec, m) && HeardInv(m, unheard)
    ensures HeardInv(Next(spec, tools, m, ev), Hear(m, unheard, ev))
  {
    if ev.Start? {
      if Next(spec, tools, m, ev) != m {
        StartHeard(spec, tools, m, unheard, ev.node, ev.world);
      }
    } else if ev.ExpireRow? {
      var m' := Next(spec, tools, m, ev);
      assert forall a :: Forgotten(m, a) ==> Forgotten(m', a);
    } else if ev.ApprovalExpired? {
      if m.mem.None? {
        ExpiredHeard(spec, m, unheard, ev.approval);
      }
    } else {
      RowHeard(spec, tools, m, unheard, ev);
    }
  }

  lemma {:induction false} RunHeard(spec: Spec, tools: map<string, Tier>, events: seq<Event>)
    ensures HeardInv(Run(spec, tools, events), Unheard(spec, tools, events))
  {
    if events != [] {
      var k := |events| - 1;
      RunHeard(spec, tools, events[..k]);
      RunBasics(spec, tools, events[..k]);
      StepHeard(spec, tools, Run(spec, tools, events[..k]), Unheard(spec, tools, events[..k]), events[k]);
    }
  }

  /** Can the approval a waiting node names still be decided or expire? */
  ghost predicate CanAnswer(m: Machine, n: Id) {
    var a := ApprovalOf(m.row.nodes, n);
    a.Some? && a.value in m.approvals && m.approvals[a.value].node == n && m.approvals[a.value].status == Open
  }

  /** In every run: as long as the run is active, has no failed node and no cancel is
      requested, a waiting node names an approval of its own, and that approval is
      open exactly when it was not expired without the run being told. */
  lemma WaitingCanBeAnswered(spec: Spec, tools: map<string, Tier>, events: seq<Event>, n: Id)
    requires var row := Run(spec, tools, events).row;
             Active(row.status) && !row.cancelRequested && !HasFailed(row.nodes) && StatusOf(row.nodes, n) == Waiting
    ensures ApprovalOf(Run(spec, tools, events).row.nodes, n).Some?
    ensures CanAnswer(Run(spec, tools, events), n) <==>
            ApprovalOf(Run(spec, tools, events).row.nodes, n).value !in Unheard(spec, tools, events)
  {
    var m := Run(spec, tools, events);
    RunBasics(spec, tools, events);
    RunHeard(spec, tools, events);
    assert NameOk(spec, m.row.nodes, m.approvals, n);
    var a := ApprovalOf(m.row.nodes, n).value;
    assert m.approvals[a].status == Open || m.approvals[a].status == Expired;
    assert !Forgotten(m, a);
  }

  // ---------------------------------------------------------------- no stuck runs

  /** When an `advance` finishes and leaves the run active, nothing pending can move,
      some node is running, deferred or waiting, and a waiting one can be answered
      unless its approval expired unheard. */
  lemma NoStuckRuns(spec: Spec, tools: map<string, Tier>, events: seq<Event>)
    requires WellFormed(spec)
    requires Next(spec, tools, Run(spec, tools, events), Finish) != Run(spec, tools, events)
    ensures var m := Run(spec, tools, events + [Finish]);
            Active(m.row.status) ==>
              && Quiescent(spec, m.row.nodes) && (exists n :: n in m.row.nodes.states && Live(StatusOf(m.row.nodes, n)))
              && (!m.row.cancelRequested ==> forall n :: StatusOf(m.row.nodes, n) == Waiting ==>
                    && ApprovalOf(m.row.nodes, n).Some?
                    && (CanAnswer(m, n) <==> ApprovalOf(m.row.nodes, n).value !in Unheard(spec, tools, events + [Finish])))
  {
    var rank := AcyclicHasRank(spec.edges, IdSet(spec));
    RunBasics(spec, tools, events);
    RunSnoc(spec, tools, events, Finish);
    var m, m' := Run(spec, tools, events), Run(spec, tools, events + [Finish]);
    if Active(m'.row.status) {
      StatusTells(m.mem.value.nodes);
      SomethingIsLive(spec, rank, m.mem.value.nodes);
      forall n | !m'.row.cancelRequested && StatusOf(m'.row.nodes, n) == Waiting
        ensures ApprovalOf(m'.row.nodes, n).Some?
        ensures CanAnswer(m', n) <==> ApprovalOf(m'.row.nodes, n).value !in Unheard(spec, tools, events + [Finish])
      {
        WaitingCanBeAnswered(spec, tools, events + [Finish], n);
      }
    }
  }

  // ---------------------------------------------------------------- and one that is

  /** Only waiting nodes are left, and no approval is open. */
  predicate OnlyUnheard(spec: Spec, m: Machine) {
    && m.mem.None? && m.row.status == RunWaiting && !m.row.cancelRequested
    && RunStatusOf(m.row.nodes) == RunWaiting && Quiescent(spec, m.row.nodes)
    && (forall n :: n in m.row.nodes.states ==> m.row.nodes.states[n].status !in {Running, Deferred})
    && (forall a :: a in m.approvals ==> m.approvals[a].status != Open)
  }

  /** Neither told of an expiry nor asked to cancel. */
  predicate Untold(later: seq<Event>) {
    forall i :: 0 <= i < |later| ==> !later[i].ApprovalExpired? && !later[i].RequestCancel?
  }

  predicate StillThere(m: Machine, m': Machine) {
    m'.row == m.row && m'.approvals == m.approvals && (m'.mem.Some? ==> m'.mem.value == Memory(m.row.nodes, None))
  }

  lemma StuckStep(spec: Spec, tools: map<string, Tier>, m: Machine, m': Machine, ev: Event)
    requires OnlyUnheard(spec, m) && StillThere(m, m') && !ev.ApprovalExpired? && !ev.RequestCancel?
    ensures StillThere(m, Next(spec, tools, m', ev))
  {
    if ev.Reconcile? {
      assert Sweep(m.row.nodes, {Deferred}, Pending).states == m.row.nodes.states;
    }
  }

  /** Such a run never moves again, restarts included: only a cancel ends it. */
  lemma {:induction false} StuckForever(spec: Spec, tools: map<string, Tier>, events: seq<Event>, later: seq<Event>)
    requires OnlyUnheard(spec, Run(spec, tools, events)) && Untold(later)
    ensures StillThere(Run(spec, tools, events), Run(spec, tools, events + later))
  {
    if later == [] {
      assert events + later == events;
    } else {
      var k := |later| - 1;
      StuckForever(spec, tools, events, later[..k]);
      assert events + later == (events + later[..k]) + [later[k]];
      RunSnoc(spec, tools, events + later[..k], later[k]);
      StuckStep(spec, tools, Run(spec, tools, events), Run(spec, tools, events + later[..k]), later[k]);
    }
  }

  function Request(ap: string): World {
    World(None, ap, true, false, true, true, true, None, Coalesced)
  }

  /** One approval, requested and saved. */
  function Asked(a: Id, ap: string): seq<Event> {
    [Begin, Start(a, Request(ap)), Save, Finish]
  }

  /** It expires, and the process dies before the run is told; then it restarts. */
  function Forgets(ap: string): seq<Event> {
    [ExpireRow(ap), Crash, Reconcile, Begin, Finish]
  }

  /** The run exists: a workflow of one approval. */
  lemma UnheardExpiryIsStuck(spec: Spec, tools: map<string, Tier>, a: Id, ap: string)
    requires UniqueIds(spec.nodes) && IdSet(spec) == {a} && HasKind(spec, a, Approval) && spec.edges == []
    ensures OnlyUnheard(spec, Run(spec, tools, Asked(a, ap) + Forgets(ap)))
    ensures ap in Unheard(spec, tools, Asked(a, ap) + Forgets(ap))
  {
    var g := Nodes(map[a := NodeState(Waiting, None, Some(ap))], map[]);
    OneApproval(spec, tools, a, ap, g);
    Expires(spec, tools, Asked(a, ap), a, ap, g);
  }

  lemma WaitingAlone(spec: Spec, a: Id, ap: string)
    requires IdSet(spec) == {a}
    ensures var g := Nodes(map[a := NodeState(Waiting, None, Some(ap))], map[]);
            RunStatusOf(g) == RunWaiting && Quiescent(spec, g) && Sweep(g, {Deferred}, Pending) == g
  {
    var g := Nodes(map[a := NodeState(Waiting, None, Some(ap))], map[]);
    assert a in g.states && g.states[a].status == Waiting;
  }

  lemma AsksFor(spec: Spec, tools: map<string, Tier>, m: Machine, a: Id, ap: string)
    requires HasKind(spec, a, Approval) && IdSet(spec) == {a} && m.mem == Some(Memory(Fresh(spec), None)) && m.approvals == map[]
    ensures ApplyStart(spec, tools, m, a, Request(ap)) ==
            Machine(m.row, map[ap := ApprovalRow(a, Open)], m.acts,
                    Some(Memory(Nodes(map[a := NodeState(Waiting, None, Some(ap))], map[]), Some(a))))
  {
    var eff := StartEffect(spec, tools, m.approvals, Fresh(spec), NodeNamed(spec.nodes, a).value, NodeState(Pending, None, None), Request(ap));
    assert eff == Effect(NodeState(Waiting, None, Some(ap)), None, Some(ap), false);
    assert Fresh(spec).states[a := eff.state] == map[a := eff.state];
    assert map[][ap := ApprovalRow(a, Open)] == map[ap := ApprovalRow(a, Open)];
  }

  lemma OneApproval(spec: Spec, tools: map<string, Tier>, a: Id, ap: string, g: Nodes)
    requires IdSet(spec) == {a} && HasKind(spec, a, Approval) && spec.edges == []
    requires g == Nodes(map[a := NodeState(Waiting, None, Some(ap))], map[])
    ensures Run(spec, tools, Asked(a, ap)) == Machine(Row(RunWaiting, g, false), map[ap := ApprovalRow(a, Open)], [], None)
  {
    WaitingAlone(spec, a, ap);
    AsksFor(spec, tools, Created(spec).(mem := Some(Memory(Fresh(spec), None))), a, ap);
    assert CanStart(spec, Fresh(spec), a);
    var e1 := [] + [Begin];
    var e2 := e1 + [Start(a, Request(ap))];
    var e3 := e2 + [Save];
    Adds(spec, tools, [], Begin);
    Adds(spec, tools, e1, Start(a, Request(ap)));
    Adds(spec, tools, e2, Save);
    Adds(spec, tools, e3, Finish);
    var approvals := map[ap := ApprovalRow(a, Open)];
    assert Run(spec, tools, e2) == Machine(Row(RunRunning, Fresh(spec), false), approvals, [], Some(Memory(g, Some(a))));
    assert Run(spec, tools, e3) == Machine(Row(RunWaiting, g, false), approvals, [], Some(Memory(g, None)));
    assert e3 + [Finish] == Asked(a, ap);
  }

  lemma Expires(spec: Spec, tools: map<string, Tier>, es: seq<Event>, a: Id, ap: string, g: Nodes)
    requires IdSet(spec) == {a} && g == Nodes(map[a := NodeState(Waiting, None, Some(ap))], map[])
    requires Run(spec, tools, es) == Machine(Row(RunWaiting, g, false), map[ap := ApprovalRow(a, Open)], [], None)
    ensures OnlyUnheard(spec, Run(spec, tools, es + Forgets(ap))) && ap in Unheard(spec, tools, es + Forgets(ap))
  {
    WaitingAlone(spec, a, ap);
    var m := Machine(Row(RunWaiting, g, false), map[ap := ApprovalRow(a, Expired)], [], None);
    var e1 := es + [ExpireRow(ap)];
    Adds(spec, tools, es, ExpireRow(ap));
    assert map[ap := ApprovalRow(a, Open)][ap := ApprovalRow(a, Expired)] == m.approvals;
    assert Run(spec, tools, e1) == m;
    Restarts(spec, tools, e1, m, ap);
    assert e1 + [Crash, Reconcile, Begin, Finish] == es + Forgets(ap);
  }

  lemma Restarts(spec: Spec, tools: map<string, Tier>, es: seq<Event>, m: Machine, ap: string)
    requires Run(spec, tools, es) == m && OnlyUnheard(spec, m) && Sweep(m.row.nodes, {Deferred}, Pending) == m.row.nodes
    requires ap in Unheard(spec, tools, es)
    ensures Run(spec, tools, es + [Crash, Reconcile, Begin, Finish]) == m
    ensures ap in Unheard(spec, tools, es + [Crash, Reconcile, Begin, Finish])
  {
    var e2 := es + [Crash];
    var e3 := e2 + [Reconcile];
    var e4 := e3 + [Begin];
    Adds(spec, tools, es, Crash);
    Adds(spec, tools, e2, Reconcile);
    Adds(spec, tools, e3, Begin);
    Adds(spec, tools, e4, Finish);
    assert Run(spec, tools, e3) == m;
    assert e4 + [Finish] == es + [Crash, Reconcile, Begin, Finish];
  }

  lemma Adds(spec: Spec, tools: map<string, Tier>, es: seq<Event>, ev: Event)
    ensures Run(spec, tools, es + [ev]) == Next(spec, tools, Run(spec, tools, es), ev)
    ensures Unheard(spec, tools, es + [ev]) == Hear(Run(spec, tools, es), Unheard(spec, tools, es), ev)
  {
    assert (es + [ev])[..|es|] == es;
  }
}
