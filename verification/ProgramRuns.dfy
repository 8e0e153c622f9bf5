/** The theorems about runs, for every run the program makes: processes may die at any
    point and saves may raise at any point, as long as no one node loses two approval
    requests to saves that raise. */
module ProgramRuns {
  import opened Graphs
  import opened Workflows
  import opened Validator
  import opened Machine
  import opened Invariants
  import opened Steps
  import Clean = RunTheorems
  import opened Service

  /** Once done, always gated: every write that ever left the engine sits behind human
      approvals on all chains of fired edges, also at the end of the run. */
  lemma WritesStayGated(spec: Spec, tools: map<string, Tier>, events: seq<Event>)
    requires WellFormed(spec) && ProgramRun(spec, tools, events) && LosesNoneTwice(spec, tools, events)
    ensures forall n :: n in Run(spec, tools, events).acts ==>
              Clean.HumanGated(spec, Run(spec, tools, events), Run(spec, tools, events).row.nodes, n)
  {
    IsClean(spec, tools, events);
    Clean.WritesStayGated(spec, tools, events);
  }

  lemma IsClean(spec: Spec, tools: map<string, Tier>, events: seq<Event>)
    requires WellFormed(spec) && ProgramRun(spec, tools, events) && LosesNoneTwice(spec, tools, events)
    ensures Clean.CleanRun(spec, tools, events)
  {
    var rank := AcyclicHasRank(spec.edges, IdSet(spec));
    ProgramRunIsClean(spec, rank, tools, events);
  }

  /** The invariants of the machine hold after every such run. */
  lemma MachineKept(spec: Spec, rank: Id -> nat, tools: map<string, Tier>, events: seq<Event>)
    requires Ranked(spec.edges, rank) && EdgesKnown(IdSet(spec), spec.edges)
    requires ProgramRun(spec, tools, events) && LosesNoneTwice(spec, tools, events)
    ensures MachineInv(spec, rank, Run(spec, tools, events)) && ServiceInv(Run(spec, tools, events), ServiceAfter(spec, tools, events))
  {
    ProgramRunIsClean(spec, rank, tools, events);
    Clean.RunInv(spec, rank, tools, events);
  }

  /** A node the validator found gated passes the engine's own check whenever it can start. */
  lemma PublishedGateHoldsAtRunTime(spec: Spec, tools: map<string, Tier>, events: seq<Event>, n: Id)
    requires WellFormed(spec) && ProgramRun(spec, tools, events) && LosesNoneTwice(spec, tools, events) && Gated(spec, n)
    requires Run(spec, tools, events).mem.Some? && CanStart(spec, Run(spec, tools, events).mem.value.nodes, n)
    ensures ApprovedOnPath(spec, Run(spec, tools, events).mem.value.nodes, n)
  {
    IsClean(spec, tools, events);
    Clean.PublishedGateHoldsAtRunTime(spec, tools, events, n);
  }

  /** A completed run's labelling: done is what the answers reach, the rest is skipped. */
  lemma FinalLabelling(spec: Spec, tools: map<string, Tier>, events: seq<Event>, answers: map<Id, Outcome>, n: Id)
    requires WellFormed(spec) && ProgramRun(spec, tools, events) && LosesNoneTwice(spec, tools, events) && n in IdSet(spec)
    requires RunStatusOf(Run(spec, tools, events).row.nodes) == RunDone
    requires Clean.Agrees(spec, Run(spec, tools, events).row.nodes, answers)
    ensures StatusOf(Run(spec, tools, events).row.nodes, n) ==
            if Clean.Reached(spec, answers, n) then Done else Skipped
  {
    IsClean(spec, tools, events);
    Clean.FinalLabelling(spec, tools, events, answers, n);
  }

  /** Two completed runs of one workflow, nodes, edges and events in any order, label
      every node alike when the same answers explain both. */
  lemma LabellingIsUnique(a: Spec, b: Spec, tools: map<string, Tier>, es: seq<Event>, fs: seq<Event>,
                          answers: map<Id, Outcome>, n: Id)
    requires WellFormed(a) && WellFormed(b) && Clean.SameWorkflow(a, b) && n in IdSet(a)
    requires ProgramRun(a, tools, es) && LosesNoneTwice(a, tools, es)
    requires ProgramRun(b, tools, fs) && LosesNoneTwice(b, tools, fs)
    requires RunStatusOf(Run(a, tools, es).row.nodes) == RunDone && RunStatusOf(Run(b, tools, fs).row.nodes) == RunDone
    requires Clean.Agrees(a, Run(a, tools, es).row.nodes, answers) && Clean.Agrees(b, Run(b, tools, fs).row.nodes, answers)
    ensures StatusOf(Run(a, tools, es).row.nodes, n) == StatusOf(Run(b, tools, fs).row.nodes, n)
  {
    IsClean(a, tools, es);
    IsClean(b, tools, fs);
    Clean.LabellingIsUnique(a, b, tools, es, fs, answers, n);
  }

  /** What a saved row shows ended stays so with its result; what it shows running or
      waiting never goes back to pending or deferred. */
  lemma RowKeeps(spec: Spec, tools: map<string, Tier>, events: seq<Event>, k: nat)
    requires WellFormed(spec) && ProgramRun(spec, tools, events) && LosesNoneTwice(spec, tools, events) && k <= |events|
    ensures Keeps(Run(spec, tools, events[..k]).row.nodes, Run(spec, tools, events).row.nodes)
  {
    IsClean(spec, tools, events);
    Clean.RowKeeps(spec, tools, events, k);
  }

  /** A node is only ever started while the saved row shows it pending, and then every
      earlier row showed it pending or deferred. */
  lemma StartedOnlyWhenPending(spec: Spec, tools: map<string, Tier>, events: seq<Event>, n: Id, w: World, k: nat)
    requires WellFormed(spec) && ProgramRun(spec, tools, events) && LosesNoneTwice(spec, tools, events) && k <= |events|
    requires Next(spec, tools, Run(spec, tools, events), Start(n, w)) != Run(spec, tools, events)
    ensures StatusOf(Run(spec, tools, events).row.nodes, n) == Pending
    ensures StatusOf(Run(spec, tools, events[..k]).row.nodes, n) in {Pending, Deferred}
  {
    IsClean(spec, tools, events);
    Clean.StartedOnlyWhenPending(spec, tools, events, n, w, k);
  }
}
