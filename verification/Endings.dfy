/** What a run leaves behind when it ends: nodes that still run or wait, and approvals
    a human could still decide. For every event that can end a run, exactly when it
    ends quietly. All of it holds of every run, clean or not. */
module Endings {
  import opened Wrappers
  import opened Graphs
  import opened Workflows
  import opened Machine
  import opened Invariants
  import opened Basics
  import opened RunTheorems
  import opened Service

  /** No node outside `spared` runs, waits or is deferred. */
  predicate NoLive(g: Nodes, spared: set<Id>) {
    forall n :: n in g.states && n !in spared ==> !Live(g.states[n].status)
  }

  /** No approval outside `spared` is open. */
  predicate NoneOpen(m: Machine, spared: set<string>) {
    forall a :: a in m.approvals && a !in spared ==> m.approvals[a].status != Open
  }

  predicate Quiet(m: Machine) {
    NoLive(m.row.nodes, {}) && NoneOpen(m, {})
  }

  ghost predicate QuietForever(spec: Spec, tools: map<string, Tier>, events: seq<Event>) {
    forall later :: Quiet(Run(spec, tools, events + later))
  }

  // ---------------------------------------------------------------- quiet stays quiet

  lemma NoneOpenStays(spec: Spec, tools: map<string, Tier>, m: Machine, ev: Event)
    requires Over(m) && NoneOpen(m, {})
    ensures NoneOpen(Next(spec, tools, m, ev), {})
  {
  }

  lemma {:induction false} QuietIsFinal(spec: Spec, tools: map<string, Tier>, events: seq<Event>, k: nat)
    requires k <= |events| && Over(Run(spec, tools, events[..k])) && Quiet(Run(spec, tools, events[..k]))
    ensures Quiet(Run(spec, tools, events))
  {
    if k == |events| {
      assert events[..k] == events;
    } else {
      var j := |events| - 1;
      assert events[..j][..k] == events[..k];
      QuietIsFinal(spec, tools, events[..j], k);
      TerminalIsFinal(spec, tools, events[..j], k);
      TerminalIsFinal(spec, tools, events, k);
      NoneOpenStays(spec, tools, Run(spec, tools, events[..j]), events[j]);
    }
  }

  /** A run that is over is quiet ever after exactly when it is quiet now. */
  lemma QuietEverAfter(spec: Spec, tools: map<string, Tier>, events: seq<Event>)
    requires Over(Run(spec, tools, events))
    ensures QuietForever(spec, tools, events) <==> Quiet(Run(spec, tools, events))
  {
    assert events + [] == events;
    if Quiet(Run(spec, tools, events)) {
      forall later: seq<Event>
        ensures Quiet(Run(spec, tools, events + later))
      {
        assert (events + later)[..|events|] == events;
        QuietIsFinal(spec, tools, events + later, |events|);
      }
    }
  }

  // ---------------------------------------------------------------- each way to end

  lemma SweptQuiet(g: Nodes, from: set<Status>)
    requires {Running, Waiting, Deferred} <= from
    ensures NoLive(Sweep(g, from, Cancelled), {})
  {
  }

  lemma StatusEnds(g: Nodes)
    ensures RunStatusOf(g) == RunDone <==> !HasFailed(g) && forall n :: n in g.states ==> g.states[n].status in {Done, Skipped}
    ensures !Active(RunStatusOf(g)) <==> RunStatusOf(g) in {RunDone, RunFailed}
  {
  }

  /** The end of an `advance`: a failed run always, a completed one exactly when no
      approval was open. */
  lemma FinishEndsQuietly(spec: Spec, tools: map<string, Tier>, events: seq<Event>)
    requires var m := Run(spec, tools, events);
             && m.mem.Some? && m.mem.value.started.None? && Quiescent(spec, m.mem.value.nodes)
             && !Active(RunStatusOf(m.mem.value.nodes))
    ensures Over(Run(spec, tools, events + [Finish]))
    ensures QuietForever(spec, tools, events + [Finish]) <==>
            RunStatusOf(Run(spec, tools, events).mem.value.nodes) == RunFailed || NoneOpen(Run(spec, tools, events), {})
  {
    var g := Run(spec, tools, events).mem.value.nodes;
    RunSnoc(spec, tools, events, Finish);
    StatusEnds(g);
    SweptQuiet(g, {Running, Waiting, Deferred});
    QuietEverAfter(spec, tools, events + [Finish]);
  }

  /** A death, or a save that raises, right after the save that shows the run ended:
      its siblings were not stopped, so it is quiet exactly when there was nothing to
      stop and no approval open. */
  lemma SaveThenDeathEndsQuietly(spec: Spec, tools: map<string, Tier>, events: seq<Event>, death: Event)
    requires death.Crash? || death.Abort?
    requires var m := Run(spec, tools, events);
             m.mem.Some? && m.mem.value.started.Some? && !Active(RunStatusOf(m.mem.value.nodes))
    ensures Over(Run(spec, tools, events + [Save] + [death]))
    ensures QuietForever(spec, tools, events + [Save] + [death]) <==>
            NoLive(Run(spec, tools, events).mem.value.nodes, {}) && NoneOpen(Run(spec, tools, events), {})
  {
    RunSnoc(spec, tools, events, Save);
    RunSnoc(spec, tools, events + [Save], death);
    QuietEverAfter(spec, tools, events + [Save] + [death]);
  }

  /** The same once the gates are closed but the last save is missing, on a row that
      already showed the failure: quiet exactly when nothing was live. */
  lemma GatesThenDeathEndsQuietly(spec: Spec, tools: map<string, Tier>, events: seq<Event>, death: Event)
    requires death.Crash? || death.Abort?
    requires GatesClosing(spec, Run(spec, tools, events)) && !Active(Run(spec, tools, events).row.status)
    ensures Over(Run(spec, tools, events + [CloseGates] + [death]))
    ensures QuietForever(spec, tools, events + [CloseGates] + [death]) <==>
            NoLive(Run(spec, tools, events).row.nodes, {})
  {
    RunSnoc(spec, tools, events, CloseGates);
    RunSnoc(spec, tools, events + [CloseGates], death);
    WithdrawGrows(Run(spec, tools, events).approvals);
    QuietEverAfter(spec, tools, events + [CloseGates] + [death]);
  }

  /** A rejection that no edge takes: it stops nothing and closes nothing else. */
  lemma RejectionEndsQuietly(spec: Spec, tools: map<string, Tier>, events: seq<Event>, ap: string)
    requires DecisionLands(Run(spec, tools, events), ap)
    requires !TakesRejection(spec, Run(spec, tools, events).approvals[ap].node)
    ensures Over(Run(spec, tools, events + [Decide(ap, "rejected")]))
    ensures QuietForever(spec, tools, events + [Decide(ap, "rejected")]) <==>
            && NoLive(Run(spec, tools, events).row.nodes, {Run(spec, tools, events).approvals[ap].node})
            && NoneOpen(Run(spec, tools, events), {ap})
  {
    RunSnoc(spec, tools, events, Decide(ap, "rejected"));
    DoneSpares(Run(spec, tools, events).row.nodes, Run(spec, tools, events).approvals[ap].node, Done);
    QuietEverAfter(spec, tools, events + [Decide(ap, "rejected")]);
  }

  lemma DoneSpares(g: Nodes, n: Id, to: Status)
    requires n in g.states && !Live(to)
    ensures NoLive(SetStatus(g, n, to), {}) <==> NoLive(g, {n})
  {
    var g' := SetStatus(g, n, to);
    if NoLive(g', {}) {
      forall k | k in g.states && k !in {n}
        ensures !Live(g.states[k].status)
      {
        assert g'.states[k] == g.states[k];
      }
    }
  }

  /** An approval that timed out fails the run, and again stops and closes nothing else. */
  lemma ExpiryEndsQuietly(spec: Spec, tools: map<string, Tier>, events: seq<Event>, ap: string)
    requires var m := Run(spec, tools, events); m.mem.None? && ApplyExpired(m, ap) != m
    ensures Over(Run(spec, tools, events + [ApprovalExpired(ap)]))
    ensures QuietForever(spec, tools, events + [ApprovalExpired(ap)]) <==>
            && NoLive(Run(spec, tools, events).row.nodes, {Run(spec, tools, events).approvals[ap].node})
            && NoneOpen(Run(spec, tools, events), {})
  {
    RunSnoc(spec, tools, events, ApprovalExpired(ap));
    DoneSpares(Run(spec, tools, events).row.nodes, Run(spec, tools, events).approvals[ap].node, Failed);
    QuietEverAfter(spec, tools, events + [ApprovalExpired(ap)]);
  }

  /** A cancel stops and closes everything. */
  lemma CancelEndsQuietly(spec: Spec, tools: map<string, Tier>, events: seq<Event>)
    requires var m := Run(spec, tools, events); m.mem.None? && Active(m.row.status) && m.row.cancelRequested
    ensures QuietForever(spec, tools, events + [CancelRun])
  {
    var m := Run(spec, tools, events);
    RunSnoc(spec, tools, events, CancelRun);
    SweptQuiet(m.row.nodes, {Running, Waiting, Deferred, Pending});
    WithdrawGrows(m.approvals);
    QuietEverAfter(spec, tools, events + [CancelRun]);
  }

  // ---------------------------------------------------------------- what a completed run leaves open

  /** Completing changes no approval, and the ones still open then are exactly the
      open ones their nodes do not name. */
  lemma CompletedLeavesOpen(spec: Spec, tools: map<string, Tier>, events: seq<Event>, a: string)
    requires var m := Run(spec, tools, events);
             && m.mem.Some? && m.mem.value.started.None? && Quiescent(spec, m.mem.value.nodes)
             && RunStatusOf(m.mem.value.nodes) == RunDone
    ensures OpenRow(Run(spec, tools, events + [Finish]), a) <==>
            var m := Run(spec, tools, events);
            OpenRow(m, a) && ApprovalOf(m.mem.value.nodes, m.approvals[a].node) != Some(a)
  {
    var m := Run(spec, tools, events);
    RunSnoc(spec, tools, events, Finish);
    RunBasics(spec, tools, events);
    StatusEnds(m.mem.value.nodes);
    if OpenRow(m, a) && m.approvals[a].node in m.mem.value.nodes.states {
      assert NameOk(spec, m.mem.value.nodes, m.approvals, m.approvals[a].node);
    }
  }

  /** In a completed run the program made, an open approval belongs to a node that was
      asked again and decided under another one: a request lost to a death. */
  lemma OpenIsSuperseded(spec: Spec, tools: map<string, Tier>, events: seq<Event>, a: string)
    requires WellFormed(spec) && ProgramRun(spec, tools, events) && LosesNoneTwice(spec, tools, events)
    requires var m := Run(spec, tools, events);
             m.mem.None? && RunStatusOf(m.row.nodes) == RunDone && OpenRow(m, a)
    ensures var m := Run(spec, tools, events);
            var b := ApprovalOf(m.row.nodes, m.approvals[a].node);
            b.Some? && b.value != a && b.value in m.approvals && m.approvals[b.value].status.Closed?
  {
    var rank := AcyclicHasRank(spec.edges, IdSet(spec));
    var m := Run(spec, tools, events);
    ProgramRunIsClean(spec, rank, tools, events);
    RunInv(spec, rank, tools, events);
    RunBasics(spec, tools, events);
    StatusEnds(m.row.nodes);
    var n := m.approvals[a].node;
    assert NodeInv(spec, rank, m.row.nodes, n);
    assert NameOk(spec, m.row.nodes, m.approvals, n);
  }
}
