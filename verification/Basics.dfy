/** What holds of every run of the machine, whatever crashes, raises or interleaves:
    how node states, the copies of an `advance` and the approvals table hang together. */
module Basics {
  import opened Wrappers
  import opened Graphs
  import opened Workflows
  import opened Machine

  /** The approval a node names. */
  function ApprovalOf(g: Nodes, n: Id): Option<string> {
    if n in g.states then g.states[n].approval else None
  }

  /** Nothing works on the run, and it has ended. */
  predicate Over(m: Machine) {
    m.mem.None? && !Active(m.row.status)
  }

  /** The node started last waits for an approval and is not saved yet. */
  predicate Asking(m: Machine) {
    m.mem.Some? && m.mem.value.started.Some? &&
    StatusOf(m.mem.value.nodes, m.mem.value.started.value) == Waiting
  }

  /** A waiting node names an approval; a named approval is the node's own, and was
      decided if the node is done. Approval nodes never run or defer. */
  predicate NameOk(spec: Spec, g: Nodes, approvals: map<string, ApprovalRow>, n: Id)
    requires n in g.states
  {
    var st := g.states[n];
    && (st.status == Waiting ==> st.approval.Some?)
    && (st.status in {Running, Deferred} ==> !HasKind(spec, n, Approval))
    && (st.approval.Some? ==>
          && st.status in {Waiting, Done, Failed, Cancelled}
          && st.approval.value in approvals && approvals[st.approval.value].node == n
          && (st.status == Done ==> approvals[st.approval.value].status.Closed?))
  }

  predicate NamesOk(spec: Spec, g: Nodes, approvals: map<string, ApprovalRow>) {
    forall n :: n in g.states ==> NameOk(spec, g, approvals, n)
  }

  predicate KindsOk(spec: Spec, approvals: map<string, ApprovalRow>) {
    forall a :: a in approvals ==> HasKind(spec, approvals[a].node, Approval)
  }

  /** The copies differ from the row in nodes skipped since the last save, and in the
      node started last, which the row shows pending. */
  predicate CopyOk(m: Machine, n: Id)
    requires m.mem.Some? && n in m.row.nodes.states && n in m.mem.value.nodes.states
  {
    var st, copy := m.row.nodes.states[n], m.mem.value.nodes.states[n];
    || copy == st
    || (st.status == Pending && (copy == st.(status := Skipped) || m.mem.value.started == Some(n)))
  }

  predicate CopiesOk(m: Machine) {
    m.mem.Some? ==>
      && m.mem.value.nodes.states.Keys == m.row.nodes.states.Keys
      && (forall n :: n in m.row.nodes.states ==> CopyOk(m, n))
      && (forall n :: n in m.mem.value.nodes.states ==> m.mem.value.nodes.states[n].status != Cancelled)
  }

  /** Nodes of an active run are not cancelled, and only agent tasks have failed. */
  predicate ActiveOk(spec: Spec, row: Row) {
    Active(row.status) ==>
      forall n :: n in row.nodes.states ==>
        row.nodes.states[n].status != Cancelled &&
        (row.nodes.states[n].status == Failed ==> !HasKind(spec, n, Approval))
  }

  predicate HasFailed(g: Nodes) {
    exists n :: n in g.states && g.states[n].status == Failed
  }

  /** What the approval of a waiting node can be, as long as the run is not failing
      and not being cancelled. */
  predicate GatesOk(g: Nodes, approvals: map<string, ApprovalRow>) {
    forall n :: n in g.states && g.states[n].status == Waiting && g.states[n].approval.Some? ==>
      var a := g.states[n].approval.value;
      a in approvals && (approvals[a].status == Open || approvals[a].status == Expired)
  }

  predicate RowGates(m: Machine) {
    Active(m.row.status) && !m.row.cancelRequested && !HasFailed(m.row.nodes) ==> GatesOk(m.row.nodes, m.approvals)
  }

  predicate MemGates(m: Machine) {
    m.mem.Some? && !HasFailed(m.mem.value.nodes) ==> GatesOk(m.mem.value.nodes, m.approvals)
  }

  predicate BasicInv(spec: Spec, m: Machine) {
    && m.row.nodes.states.Keys == IdSet(spec)
    && NamesOk(spec, m.row.nodes, m.approvals) && (m.mem.Some? ==> NamesOk(spec, m.mem.value.nodes, m.approvals))
    && KindsOk(spec, m.approvals) && CopiesOk(m) && ActiveOk(spec, m.row)
    && RowGates(m) && MemGates(m)
  }

  // ---------------------------------------------------------------- every step keeps it

  /** Approvals may be closed, expire, be withdrawn or be opened under fresh ids. */
  predicate Grows(approvals: map<string, ApprovalRow>, approvals': map<string, ApprovalRow>) {
    forall a :: a in approvals ==>
      a in approvals' && approvals'[a].node == approvals[a].node &&
      (approvals[a].status.Closed? ==> approvals'[a].status.Closed?)
  }

  lemma NamesGrow(spec: Spec, g: Nodes, approvals: map<string, ApprovalRow>, approvals': map<string, ApprovalRow>)
    requires NamesOk(spec, g, approvals) && Grows(approvals, approvals')
    ensures NamesOk(spec, g, approvals')
  {
    forall n | n in g.states
      ensures NameOk(spec, g, approvals', n)
    {
      assert NameOk(spec, g, approvals, n);
    }
  }

  /** One node may change; the others name what they named. */
  lemma NamesTouch(spec: Spec, g: Nodes, g': Nodes, approvals: map<string, ApprovalRow>, approvals': map<string, ApprovalRow>, n: Id)
    requires NamesOk(spec, g, approvals) && Grows(approvals, approvals') && n in g'.states
    requires g'.states.Keys <= g.states.Keys && forall k :: k in g'.states && k != n ==> g'.states[k] == g.states[k]
    requires NameOk(spec, g', approvals', n)
    ensures NamesOk(spec, g', approvals')
  {
    forall k | k in g'.states
      ensures NameOk(spec, g', approvals', k)
    {
      if k != n {
        assert NameOk(spec, g, approvals, k);
      }
    }
  }

  lemma NamesSweep(spec: Spec, g: Nodes, from: set<Status>, to: Status, approvals: map<string, ApprovalRow>)
    requires NamesOk(spec, g, approvals)
    requires to == Cancelled || (to == Pending && from == {Deferred})
    ensures NamesOk(spec, Sweep(g, from, to), approvals)
  {
    var g' := Sweep(g, from, to);
    forall n | n in g'.states
      ensures NameOk(spec, g', approvals, n)
    {
      assert NameOk(spec, g, approvals, n);
    }
  }

  lemma WithdrawGrows(approvals: map<string, ApprovalRow>)
    ensures Grows(approvals, Withdraw(approvals))
    ensures forall a :: a in Withdraw(approvals) ==> Withdraw(approvals)[a].status != Open
  {
  }

  /** A started node as the basics see it. */
  lemma StartedBasics(spec: Spec, tools: map<string, Tier>, m: Machine, n: Id, w: World)
    requires BasicInv(spec, m) && m.mem.Some? && m.mem.value.started.None?
    requires CanStart(spec, m.mem.value.nodes, n) && NodeNamed(spec.nodes, n).Some?
    ensures var m' := ApplyStart(spec, tools, m, n, w);
            var h' := m'.mem.value.nodes;
            && Grows(m.approvals, m'.approvals) && KindsOk(spec, m'.approvals)
            && n in h'.states && NameOk(spec, h', m'.approvals, n)
            && h'.states[n].status !in {Cancelled, Skipped, Pending}
            && (h'.states[n].status == Waiting ==> m'.approvals[h'.states[n].approval.value].status == Open)
            && (forall a :: a in m.approvals ==> m'.approvals[a] == m.approvals[a])
  {
    var node := NodeNamed(spec.nodes, n).value;
    var h := m.mem.value.nodes;
    assert NameOk(spec, h, m.approvals, n);
    EffectNames(spec, tools, m.approvals, h, node, h.states[n], w);
    AppliedStart(spec, tools, m, n, w);
    StartNamed(spec, m.approvals, h, ApplyStart(spec, tools, m, n, w), n,
               StartEffect(spec, tools, m.approvals, h, node, h.states[n], w));
  }

  /** A start leaves a live or ended node, and asks exactly when the node waits. */
  predicate NamesEffect(kind: Kind, approvals: map<string, ApprovalRow>, eff: Effect) {
    && eff.state.status !in {Cancelled, Skipped, Pending}
    && (eff.state.status in {Running, Deferred} ==> kind != Approval)
    && eff.state.approval == eff.row
    && (eff.state.status == Waiting ==> eff.row.Some?)
    && (eff.row.Some? ==> kind == Approval && eff.state.status == Waiting && eff.row.value !in approvals)
  }

  lemma EffectNames(spec: Spec, tools: map<string, Tier>, approvals: map<string, ApprovalRow>, g: Nodes, n: Node,
                    st: NodeState, w: World)
    requires st.status == Pending && st.approval.None?
    ensures NamesEffect(n.kind, approvals, StartEffect(spec, tools, approvals, g, n, st, w))
  {
  }

  lemma AppliedStart(spec: Spec, tools: map<string, Tier>, m: Machine, n: Id, w: World)
    requires m.mem.Some? && n in m.mem.value.nodes.states && NodeNamed(spec.nodes, n).Some?
    ensures var g, m' := m.mem.value.nodes, ApplyStart(spec, tools, m, n, w);
            var eff := StartEffect(spec, tools, m.approvals, g, NodeNamed(spec.nodes, n).value, g.states[n], w);
            && m'.mem.Some? && m'.mem.value.nodes.states == g.states[n := eff.state]
            && m'.approvals == if eff.row.Some? then m.approvals[eff.row.value := ApprovalRow(n, Open)] else m.approvals
  {
  }

  lemma StartNamed(spec: Spec, approvals: map<string, ApprovalRow>, g: Nodes, m': Machine, n: Id, eff: Effect)
    requires KindsOk(spec, approvals) && NodeNamed(spec.nodes, n).Some?
    requires NamesEffect(NodeNamed(spec.nodes, n).value.kind, approvals, eff)
    requires m'.mem.Some? && m'.mem.value.nodes.states == g.states[n := eff.state]
    requires m'.approvals == if eff.row.Some? then approvals[eff.row.value := ApprovalRow(n, Open)] else approvals
    ensures var h' := m'.mem.value.nodes;
            && Grows(approvals, m'.approvals) && KindsOk(spec, m'.approvals)
            && n in h'.states && NameOk(spec, h', m'.approvals, n)
            && h'.states[n].status !in {Cancelled, Skipped, Pending}
            && (h'.states[n].status == Waiting ==> m'.approvals[h'.states[n].approval.value].status == Open)
            && (forall a :: a in approvals ==> m'.approvals[a] == approvals[a])
  {
  }

  lemma StartBasics(spec: Spec, tools: map<string, Tier>, m: Machine, n: Id, w: World)
    requires BasicInv(spec, m) && m.mem.Some? && m.mem.value.started.None?
    requires CanStart(spec, m.mem.value.nodes, n) && NodeNamed(spec.nodes, n).Some?
    ensures BasicInv(spec, ApplyStart(spec, tools, m, n, w))
  {
    var m' := ApplyStart(spec, tools, m, n, w);
    var h, h' := m.mem.value.nodes, m'.mem.value.nodes;
    StartedBasics(spec, tools, m, n, w);
    NamesGrow(spec, m.row.nodes, m.approvals, m'.approvals);
    NamesTouch(spec, h, h', m.approvals, m'.approvals, n);
    CopiesStarted(m, m', n);
    GatesStarted(m, m', n);
  }

  lemma CopiesStarted(m: Machine, m': Machine, n: Id)
    requires CopiesOk(m) && m.mem.Some? && m.mem.value.started.None? && n in m.mem.value.nodes.states
    requires m.mem.value.nodes.states[n].status == Pending
    requires m'.row == m.row && m'.mem.Some? && m'.mem.value.started == Some(n)
    requires n in m'.mem.value.nodes.states && m'.mem.value.nodes.states[n].status != Cancelled
    requires m'.mem.value.nodes.states == m.mem.value.nodes.states[n := m'.mem.value.nodes.states[n]]
    ensures CopiesOk(m')
  {
    forall k | k in m.row.nodes.states
      ensures CopyOk(m', k)
    {
      assert CopyOk(m, k);
    }
  }

  lemma GatesStarted(m: Machine, m': Machine, n: Id)
    requires RowGates(m) && MemGates(m) && m.mem.Some? && n in m.mem.value.nodes.states
    requires m.mem.value.nodes.states[n].status == Pending
    requires m'.row == m.row && m'.mem.Some? && n in m'.mem.value.nodes.states
    requires m'.mem.value.nodes.states == m.mem.value.nodes.states[n := m'.mem.value.nodes.states[n]]
    requires forall a :: a in m.approvals ==> a in m'.approvals && m'.approvals[a] == m.approvals[a]
    requires var st := m'.mem.value.nodes.states[n];
             st.status == Waiting ==> st.approval.Some? && st.approval.value in m'.approvals && m'.approvals[st.approval.value].status == Open
    ensures RowGates(m') && MemGates(m')
  {
    var h, h' := m.mem.value.nodes, m'.mem.value.nodes;
    if !HasFailed(h') {
      assert forall k :: k in h.states && k != n ==> h'.states[k] == h.states[k];
      assert !HasFailed(h);
    }
  }

  lemma SkipBasics(spec: Spec, m: Machine, n: Id)
    requires BasicInv(spec, m) && m.mem.Some? && m.mem.value.started.None? && CanSkip(spec, m.mem.value.nodes, n)
    ensures BasicInv(spec, m.(mem := Some(Memory(SetStatus(m.mem.value.nodes, n, Skipped), None))))
  {
    var h := m.mem.value.nodes;
    var m' := m.(mem := Some(Memory(SetStatus(h, n, Skipped), None)));
    assert NameOk(spec, h, m.approvals, n);
    NamesTouch(spec, h, m'.mem.value.nodes, m.approvals, m.approvals, n);
    SkipCopies(m, m', n);
    SkipGates(m, n);
  }

  lemma SkipCopies(m: Machine, m': Machine, n: Id)
    requires CopiesOk(m) && m.mem.Some? && m.mem.value.started.None? && n in m.mem.value.nodes.states
    requires m.mem.value.nodes.states[n].status == Pending
    requires m' == m.(mem := Some(Memory(SetStatus(m.mem.value.nodes, n, Skipped), None)))
    ensures CopiesOk(m')
  {
    forall k | k in m.row.nodes.states
      ensures CopyOk(m', k)
    {
      assert CopyOk(m, k);
    }
  }

  lemma SkipGates(m: Machine, n: Id)
    requires MemGates(m) && m.mem.Some? && n in m.mem.value.nodes.states && m.mem.value.nodes.states[n].status == Pending
    ensures MemGates(m.(mem := Some(Memory(SetStatus(m.mem.value.nodes, n, Skipped), None))))
  {
    var h, h' := m.mem.value.nodes, SetStatus(m.mem.value.nodes, n, Skipped);
    if !HasFailed(h') {
      assert forall k :: k in h.states ==> h'.states[k] == h.states[k] || k == n;
      assert !HasFailed(h);
    }
  }

  lemma StatusTells(g: Nodes)
    ensures RunStatusOf(g) == RunFailed <==> HasFailed(g)
    ensures RunStatusOf(g) != RunCancelled && RunStatusOf(g) != RunRejected
  {
  }

  lemma SaveBasics(spec: Spec, m: Machine)
    requires BasicInv(spec, m) && m.mem.Some?
    ensures var row := m.row.(status := RunStatusOf(m.mem.value.nodes), nodes := m.mem.value.nodes);
            && BasicInv(spec, m.(row := row, mem := Some(Memory(m.mem.value.nodes, None))))
            && BasicInv(spec, m.(row := row, mem := None))
  {
    StatusTells(m.mem.value.nodes);
  }

  lemma FinishBasics(spec: Spec, m: Machine)
    requires BasicInv(spec, m) && m.mem.Some?
    ensures BasicInv(spec, ApplyFinish(m))
  {
    var g := m.mem.value.nodes;
    SaveBasics(spec, m);
    StatusTells(g);
    if RunStatusOf(g) == RunFailed {
      NamesSweep(spec, g, {Running, Waiting, Deferred}, Cancelled, m.approvals);
      WithdrawGrows(m.approvals);
      NamesGrow(spec, Sweep(g, {Running, Waiting, Deferred}, Cancelled), m.approvals, Withdraw(m.approvals));
    }
  }

  /** Copies that were only skipped since the last save failed only where the row did. */
  lemma FailedInRow(m: Machine)
    requires CopiesOk(m) && m.mem.Some? && m.mem.value.started.None? && HasFailed(m.mem.value.nodes)
    ensures HasFailed(m.row.nodes)
  {
    var n :| n in m.mem.value.nodes.states && m.mem.value.nodes.states[n].status == Failed;
    assert CopyOk(m, n);
  }

  lemma CloseBasics(spec: Spec, m: Machine)
    requires BasicInv(spec, m) && GatesClosing(spec, m)
    ensures BasicInv(spec, m.(approvals := Withdraw(m.approvals)))
  {
    WithdrawGrows(m.approvals);
    NamesGrow(spec, m.row.nodes, m.approvals, Withdraw(m.approvals));
    if m.mem.Some? {
      NamesGrow(spec, m.mem.value.nodes, m.approvals, Withdraw(m.approvals));
      StatusTells(m.mem.value.nodes);
      FailedInRow(m);
    }
  }

  lemma DecideBasics(spec: Spec, m: Machine, ap: string, decision: string)
    requires BasicInv(spec, m) && m.mem.None? && ap in m.approvals && m.approvals[ap].status == Open
    ensures BasicInv(spec, ApplyDecision(spec, m, ap, decision))
  {
    DecideNames(spec, m, ap, decision);
    DecideGates(spec, m, ap, decision);
    DecideRow(spec, m, ap, decision);
  }

  lemma DecideNames(spec: Spec, m: Machine, ap: string, decision: string)
    requires NamesOk(spec, m.row.nodes, m.approvals) && KindsOk(spec, m.approvals)
    requires m.mem.None? && ap in m.approvals && m.approvals[ap].status == Open
    ensures var m' := ApplyDecision(spec, m, ap, decision);
            NamesOk(spec, m'.row.nodes, m'.approvals) && KindsOk(spec, m'.approvals)
  {
    var m' := ApplyDecision(spec, m, ap, decision);
    if DecisionLands(m, ap) {
      NamesTouch(spec, m.row.nodes, m'.row.nodes, m.approvals, m'.approvals, m.approvals[ap].node);
    } else {
      NamesGrow(spec, m.row.nodes, m.approvals, m'.approvals);
    }
  }

  lemma DecideRow(spec: Spec, m: Machine, ap: string, decision: string)
    requires BasicInv(spec, m) && m.mem.None? && ap in m.approvals && m.approvals[ap].status == Open
    ensures var m' := ApplyDecision(spec, m, ap, decision);
            m'.mem.None? && m'.row.nodes.states.Keys == m.row.nodes.states.Keys && ActiveOk(spec, m'.row)
  {
  }

  lemma DecideGates(spec: Spec, m: Machine, ap: string, decision: string)
    requires BasicInv(spec, m) && m.mem.None? && ap in m.approvals && m.approvals[ap].status == Open
    ensures RowGates(ApplyDecision(spec, m, ap, decision))
  {
    var m' := ApplyDecision(spec, m, ap, decision);
    var g, g' := m.row.nodes, m'.row.nodes;
    if Active(m'.row.status) && !m'.row.cancelRequested && !HasFailed(g') {
      assert forall k :: k in g.states && k != m.approvals[ap].node ==> g'.states[k] == g.states[k];
      assert !HasFailed(g);
      forall k | k in g'.states && g'.states[k].status == Waiting && g'.states[k].approval.Some?
        ensures var a := g'.states[k].approval.value;
                a in m'.approvals && (m'.approvals[a].status == Open || m'.approvals[a].status == Expired)
      {
        assert NameOk(spec, g, m.approvals, k);
      }
    }
  }

  /** A row step that changes one node that names no open approval. */
  lemma OneNodeBasics(spec: Spec, m: Machine, n: Id, st: NodeState, status: RunStatus, results: map<Id, Outcome>)
    requires BasicInv(spec, m) && m.mem.None? && n in m.row.nodes.states
    requires NameOk(spec, Nodes(m.row.nodes.states[n := st], results), m.approvals, n)
    requires m.row.nodes.states[n].status != Failed && st.status != Waiting && st.status != Cancelled
    requires Active(status) ==> Active(m.row.status) && (st.status == Failed ==> !HasKind(spec, n, Approval))
    ensures BasicInv(spec, m.(row := m.row.(status := status, nodes := Nodes(m.row.nodes.states[n := st], results))))
  {
    var g, g' := m.row.nodes, Nodes(m.row.nodes.states[n := st], results);
    NamesTouch(spec, g, g', m.approvals, m.approvals, n);
    if !HasFailed(g') {
      assert forall k :: k in g.states && k != n ==> g'.states[k] == g.states[k];
      assert !HasFailed(g);
    }
  }

  lemma HeartbeatBasics(spec: Spec, m: Machine, n: Id, hb: string, ok: bool)
    requires BasicInv(spec, m)
    ensures BasicInv(spec, ApplyHeartbeat(m, n, hb, ok))
  {
    if ApplyHeartbeat(m, n, hb, ok) != m {
      assert NameOk(spec, m.row.nodes, m.approvals, n);
      var st := m.row.nodes.states[n].(status := if ok then Done else Failed);
      OneNodeBasics(spec, m, n, st, m.row.status, m.row.nodes.results[n := Report(hb)]);
    }
  }

  lemma RetryBasics(spec: Spec, m: Machine, n: Id)
    requires BasicInv(spec, m)
    ensures BasicInv(spec, ApplyRetry(m, n))
  {
    if ApplyRetry(m, n) != m {
      assert NameOk(spec, m.row.nodes, m.approvals, n);
      OneNodeBasics(spec, m, n, m.row.nodes.states[n].(status := Pending), m.row.status, m.row.nodes.results);
    }
  }

  lemma ExpiredBasics(spec: Spec, m: Machine, ap: string)
    requires BasicInv(spec, m)
    ensures BasicInv(spec, ApplyExpired(m, ap))
  {
    if ApplyExpired(m, ap) != m {
      var n := m.approvals[ap].node;
      assert NameOk(spec, m.row.nodes, m.approvals, n);
      OneNodeBasics(spec, m, n, m.row.nodes.states[n].(status := Failed), RunFailed, m.row.nodes.results);
    }
  }

  lemma ExpireRowBasics(spec: Spec, m: Machine, ap: string)
    requires BasicInv(spec, m) && ap in m.approvals && m.approvals[ap].status == Open
    ensures BasicInv(spec, m.(approvals := m.approvals[ap := m.approvals[ap].(status := Expired)]))
  {
    var approvals := m.approvals[ap := m.approvals[ap].(status := Expired)];
    NamesGrow(spec, m.row.nodes, m.approvals, approvals);
    if m.mem.Some? {
      NamesGrow(spec, m.mem.value.nodes, m.approvals, approvals);
    }
  }

  lemma CancelBasics(spec: Spec, m: Machine)
    requires BasicInv(spec, m)
    ensures BasicInv(spec, ApplyCancel(m))
  {
    var g := m.row.nodes;
    NamesSweep(spec, g, {Running, Waiting, Deferred, Pending}, Cancelled, m.approvals);
    WithdrawGrows(m.approvals);
    NamesGrow(spec, Sweep(g, {Running, Waiting, Deferred, Pending}, Cancelled), m.approvals, Withdraw(m.approvals));
  }

  lemma ReconcileBasics(spec: Spec, m: Machine)
    requires BasicInv(spec, m) && m.mem.None? && Active(m.row.status)
    ensures BasicInv(spec, m.(row := m.row.(nodes := Sweep(m.row.nodes, {Deferred}, Pending))))
  {
    var g, g' := m.row.nodes, Sweep(m.row.nodes, {Deferred}, Pending);
    NamesSweep(spec, g, {Deferred}, Pending, m.approvals);
    if !HasFailed(g') {
      assert forall k :: k in g.states ==> k in g'.states && (g'.states[k] == g.states[k] || g.states[k].status == Deferred);
      assert !HasFailed(g);
    }
  }

  lemma RowBasics(spec: Spec, tools: map<string, Tier>, m: Machine, ev: Event)
    requires BasicInv(spec, m)
    requires ev.HeartbeatDone? || ev.Retry? || ev.ExpireRow? || ev.ApprovalExpired? || ev.RequestCancel? || ev.CancelRun? || ev.Reconcile?
    ensures BasicInv(spec, Next(spec, tools, m, ev))
  {
    match ev
    case HeartbeatDone(n, hb, ok) => HeartbeatBasics(spec, m, n, hb, ok);
    case Retry(n) => RetryBasics(spec, m, n);
    case ExpireRow(ap) => if Next(spec, tools, m, ev) != m { ExpireRowBasics(spec, m, ap); }
    case ApprovalExpired(ap) => ExpiredBasics(spec, m, ap);
    case RequestCancel =>
    case CancelRun => CancelBasics(spec, m);
    case Reconcile => if Next(spec, tools, m, ev) != m { ReconcileBasics(spec, m); }
  }

  lemma StepBasics(spec: Spec, tools: map<string, Tier>, m: Machine, ev: Event)
    requires BasicInv(spec, m)
    ensures BasicInv(spec, Next(spec, tools, m, ev))
  {
    if Next(spec, tools, m, ev) != m {
      match ev
      case Begin =>
      case Skip(n) => SkipBasics(spec, m, n);
      case Start(n, w) => StartBasics(spec, tools, m, n, w);
      case Save => SaveBasics(spec, m);
      case Finish => FinishBasics(spec, m);
      case CloseGates => CloseBasics(spec, m);
      case Crash =>
      case Abort =>
      case Decide(ap, decision) => DecideBasics(spec, m, ap, decision);
      case _ => RowBasics(spec, tools, m, ev);
    }
  }

  /** Every run, with any events in any order. */
  lemma {:induction false} RunBasics(spec: Spec, tools: map<string, Tier>, events: seq<Event>)
    ensures BasicInv(spec, Run(spec, tools, events))
  {
    if events == [] {
      assert forall n :: n in Fresh(spec).states ==> Fresh(spec).states[n] == NodeState(Pending, None, None);
    } else {
      RunBasics(spec, tools, events[..|events| - 1]);
      StepBasics(spec, tools, Run(spec, tools, events[..|events| - 1]), events[|events| - 1]);
    }
  }
}
