# PayProbe control plane: a Dafny model

PayProbe lets agents and workflows act on a payments test platform under human control.
This project models the parts that keep that control, and proves what they promise:

- **Workflows** (`Workflows`, `Graphs`): specifications as nodes and edges; chains, cycles,
  ranks, "every path from a start node crosses a gate".
- **The publish-time validator** (`Validator`, `Findings`, `Texts`, `Kahn`, `GateWalk`): the edge
  checks, Kahn's loop with its in-degree table and stack, the findings about nodes and labels with
  the words of their reports, the memoised gate walk shared by the validator and the engine, and
  `ValidateWorkflow`, which is proved to report nothing exactly for publishable workflows.
- **The workflow engine** (`Machine`, `Invariants`, `Steps`, `Basics`, `RunTheorems`, `Service`,
  `ProgramRuns`, `Progress`, `Endings`, `LostRequests`, `Engine`): one run as its saved row, its
  approval rows, the writes it dispatched, and the copies an `advance` works on. Every engine
  operation is an event; a run is any sequence of events. Between any two events the process may
  die (`Crash`), and a save may raise in a process that lives on (`Abort`). `Basics` holds of every
  run whatsoever. `Service` says which runs the program makes: after a death no decision on an
  active run is taken before the run has been advanced again, because `reconcile` precedes all
  requests (main.py:85-112). `Engine.RunEngine` is the imperative engine; every method of it is
  proved to be events of this machine.
- **The agent toolkit** (`Journal`, `Grants`, `Runner`): the change journal and its undo, the
  scope of a tool call, when one agent version is wider than another and who may publish it, and
  the bounded heartbeat loop. `Publishing` joins grants and registry: the check of a draft and its
  activation are separate steps, with edits and other publishes in between.
- **Supporting cores**: the version registry (`RegistryStore`), fleet placement and teardown
  (`Fleet`, `FlowHosts`), secret documents (`Secrets`), Go/No-Go gates (`ReleaseGates`), the
  scoring of predictions (`PredictionLog`) and the frequency baseline (`Predictor`).

Whatever the modelled code cannot control is an argument that theorems quantify over: condition
values, tool replies, agent modes at launch time, heartbeat results, the model's turns, stop
flags, what a poll lists, backend stamps, clocks.

`dafny verify dfyconfig.toml` checks the whole project.

## What the proofs found

- **A second decision can rewrite an approval.** If the save after an approval request raises in a
  process that lives on, the approval row stays open and no node names it. A later `advance` asks
  again. When that happens twice for one node, the first decision completes the node without an
  approval id on it, and the guard of `decide` (engine.py:205-208) lets the second decision land on
  the same, done node. `LostRequests.SecondDecisionUngatesWrite` gives the run, without any process
  death and with exactly two saves that raise: the write has left the engine, and afterwards no
  approval gates it. `LostRequests.DecisionKeepsHistory` is the exact condition on a decision: it
  rewrites the record if and only if the run is active and its node is done, names no approval, and
  was decided otherwise. `Service.ProgramRunIsClean` shows that nothing less does it: deaths
  anywhere, saves raising anywhere, as long as no node loses two requests that way. The theorems of
  `ProgramRuns` are stated for exactly those runs; that each write, and each repetition
  of one, was dispatched by a step at which its gate held (`RunTheorems.EveryWriteWasGated`) is so in every run.
- **An expiry can go unheard.** A tick marks approvals expired in one statement and then tells each
  run (engine.py:116-118). A death or an exception in between leaves a run waiting for an approval
  that can neither be decided nor expire again. `Progress.WaitingCanBeAnswered` shows that this is the
  only way, and `Progress.UnheardExpiryIsStuck` with `Progress.StuckForever` shows the run: it
  survives restarts and only a cancel ends it.
- **Not every end is quiet.** `Endings` says, for each event that can end a run, exactly when it
  leaves nothing running and no approval open. A rejection and an expiry stop nothing else, and a
  process that dies between the save that shows a failure and the end of the `advance` stops nothing
  at all.
- **A name can hide an ungated write.** The validator skips its gate check when the text of an earlier
  finding contains "cycle" (validate.py:182-183), also when the word is part of a name in it. The
  workflow is still refused, but the ungated write is not reported (`Validator.RecycleHidesTheWrite`).
- **A publish is checked against what it may no longer find.** The handler compares the draft it read
  with the active version it read (main.py:312-331); the store then activates what the row holds by
  then, in place of what is active by then, and compares nothing (store.py:505-528). So there are two
  ways past the comparison. An editor who rewrites the draft in between takes the agent to any grant
  (`Publishing.DraftRace`). And an editor whose untouched draft was compared with a version that has been
  narrowed since, by anybody, widens the narrower one back (`Publishing.StaleComparison`). Whatever draft
  passed the comparison and is committed no wider than it was checked, the commit is not wider than the
  version it replaces if and only if the version it was compared with is not wider than the one it
  replaces (`Publishing.CommitIsSafeExactly`). Where both hold, admins and edits anywhere in between,
  every commit by an editor shrinks the grant (`Publishing.EditorCommitsShrink`). Without admins a stale
  comparison alone still never goes beyond the version a run began with (`Publishing.EditorsNeverGrow`).
- **Undo misses one kind of document.** The journal's own comment says that a record is durable
  before its write and that a failing record refuses it (agent_toolkit.py:190). The create tools
  write first and record second: a create whose record cannot be persisted leaves a document that
  undo does not remove (`Journal.UndoIffRecorded`).
- **Proposals can be false.** In plan mode a call of a tool that is not allowed at all is recorded
  as proposed when its name contains the plan phrase (`Runner.ProposalsOfPlanMode`).
- **Encryption is not transparent to tagged text.** A document that already holds a string with
  the ciphertext prefix, under any key, does not come back (`Secrets.EncryptionRoundTrips`).
- **Scores need a clock.** The comments promise that every prediction meets the first outcome that
  followed it (ingest.py:54-55, store.py:294-297). A prediction logged by a clock behind already ingested runs is scored
  by a later run than the first one after it (`PredictionLog.EarliestRunScores`,
  `PredictionLog.SkewedClock`). A run skipped for want of a summary is lost once a run created no
  earlier has been ingested (`PredictionLog.SkippedIsLost`).
- **A stopped run can be watched again.** `place` gives way between polls; a stop that comes then is
  followed by the watch of a run that is stopped network-wide, though nothing of it is re-placed
  (`Fleet.Coordinator.StopWhilePlacing`).

## Model

| member | source | states |
|---|---|---|
| Kahn.FindCycle | packages/agent-hub/agent_hub/validate.py:121-133 | on known edges (END ignored, parallel edges allowed) the stack loop reports a cycle if and only if the edges contain one |
| Kahn.Verdict | packages/agent-hub/agent_hub/validate.py:121-133 | when the stack is empty, everything was processed exactly when there is no cycle: what is left over is a set in which every node has a predecessor |
| Graphs.StuckHasCycle | packages/agent-hub/agent_hub/validate.py:131-133 | a non-empty set in which every node has a predecessor contains a cycle |
| Graphs.AcyclicHasRank | packages/agent-hub/agent_hub/validate.py:121-133 | the nodes of an acyclic graph can be ranked so that every edge rises; the basis of all inductions over workflows |
| Graphs.GatedStep | packages/agent-hub/agent_hub/validate.py:231-247 | every path to a node is gated exactly when it has incoming edges and each is a gate or comes from a gated node: the recursion the code uses is the path property it stands for |
| GateWalk.Predecessors | packages/agent-hub/agent_hub/engine.py:307-342 | the grouped edges are exactly the edges into each known node, in order |
| GateWalk.GateWalker.Walk | packages/agent-hub/agent_hub/validate.py:215-249 | one memo shared by any queries in any order: on an acyclic graph the answer for a node, and every memo entry, is whether every path from a start node crosses a gate; on a cyclic one the walk still ends |
| Validator.CheckEdges | packages/agent-hub/agent_hub/validate.py:104-118 | no finding exactly when all edges join known nodes, and then the adjacency lists and in-degrees count them |
| Validator.ApprovalGated | packages/agent-hub/agent_hub/validate.py:215-249 | for every node of a well-formed workflow, whether all paths to it cross an approved edge out of an approval |
| Validator.CheckNodes | packages/agent-hub/agent_hub/validate.py:135-163 | exactly the findings about unknown tools, unresolved or escalated agents and reviews, in node order; none if and only if every node is in order |
| Validator.CheckGuards | packages/agent-hub/agent_hub/validate.py:165-180 | exactly the labels their source cannot branch on, in edge order |
| Findings.TextMentions | packages/agent-hub/agent_hub/validate.py:182-183 | the text of a finding contains "cycle" if and only if it is the cycle finding or carries a name that contains it |
| Validator.ValidateWorkflow | packages/agent-hub/agent_hub/validate.py:96-212 | no problems if and only if the workflow is publishable; a cycle is reported if and only if distinct, known nodes form one; on well-formed graphs the earlier findings are followed by exactly the ungated writes outside mock, in node order, if and only if no earlier finding mentions "cycle" |
| Validator.RecycleHidesTheWrite | packages/agent-hub/agent_hub/validate.py:182-183 | a well-formed workflow with an ungated write whose only finding is an unknown tool of a node called "recycle" |
| Steps.StepKeeps | packages/agent-hub/agent_hub/engine.py:188-284 | every engine operation, and a crash anywhere, keeps the machine's invariant and moves every node of the saved row only forward, unless a decision lands on a done node |
| Basics.RunBasics | packages/agent-hub/agent_hub/engine.py:188-284 | in every run a waiting node names an approval of its own, a done node's named approval was decided, copies differ from the row only in skipped nodes and the node just started, and the approval of a waiting node is open or expired unless the run is failing or being cancelled |
| Service.ProgramRunIsClean | packages/agent-hub/agent_hub/main.py:85-112 | in every run the program makes, with deaths and raising saves anywhere, no decision lands on a done node, as long as no node loses two approval requests to saves that raise |
| Service.AskedByNow | packages/agent-hub/agent_hub/engine.py:243-283 | when an advance ends without a failed node, the node of every open approval names one: a request lost to a death has been asked again |
| ProgramRuns.MachineKept | packages/agent-hub/agent_hub/engine.py:188-284 | the machine's invariant holds after every such run |
| RunTheorems.EveryWriteWasGated | packages/agent-hub/agent_hub/engine.py:429-443 | in every run at all, the k-th write outside mock was appended by the start of its own node, and before that very step every chain of fired edges to the node crossed an approval that a decision row records as approved; a write that a death repeats has a gated step for each repetition |
| ProgramRuns.WritesStayGated | packages/agent-hub/agent_hub/engine.py:307-342 | in every such run the same still holds at the end of the run, whatever happened after the write |
| ProgramRuns.PublishedGateHoldsAtRunTime | packages/agent-hub/agent_hub/engine.py:429-443 | a node the validator found gated passes the engine's own path check in every state in which it can start |
| ProgramRuns.FinalLabelling | packages/agent-hub/agent_hub/engine.py:243-274 | in a completed run of the program a node is done exactly when a chain of edges that the answers fire reaches it from a start node, and skipped otherwise |
| ProgramRuns.LabellingIsUnique | packages/agent-hub/agent_hub/engine.py:243-274 | two completed runs of one workflow, with nodes and edges listed in any order and events in any order, label every node alike when the same answers explain both |
| Progress.NoStuckRuns | packages/agent-hub/agent_hub/engine.py:274-305 | in every run on an acyclic workflow: when an advance finishes and leaves the run active, nothing pending can move, some node is running, deferred or waiting, and, unless a cancel is requested, the approval of a waiting node is open exactly when it did not expire unheard |
| Progress.WaitingCanBeAnswered | packages/agent-hub/agent_hub/engine.py:116-123 | in every run that is active, not failing and not being cancelled, a waiting node names an approval of its own, open if and only if no expiry mark of it still lacks its call |
| Progress.UnheardExpiryIsStuck | packages/agent-hub/agent_hub/engine.py:116-118 | the run of a one-approval workflow that dies between the mark and the call and restarts: it waits, no approval is open and the mark is unheard |
| Progress.StuckForever | packages/agent-hub/agent_hub/engine.py:116-118 | such a run never moves again, whatever follows, unless it is told of the expiry or cancelled |
| ProgramRuns.StartedOnlyWhenPending | packages/agent-hub/agent_hub/engine.py:243-272 | a node is started only while the saved row shows it pending, and then every earlier saved row showed it pending or deferred: nothing saved as done, skipped, failed, waiting or running is started again, over any crashes |
| ProgramRuns.RowKeeps | packages/agent-hub/agent_hub/engine.py:588-669 | over any such run what a saved row shows done, skipped, failed or cancelled stays so with its result, and what it shows running or waiting never becomes pending, deferred or skipped |
| RunTheorems.TerminalIsFinal | packages/agent-hub/agent_hub/engine.py:227-241 | once an operation leaves a run terminal, no event changes its row, starts a node or dispatches a write |
| Endings.QuietEverAfter | packages/agent-hub/agent_hub/engine.py:227-241 | a run that is over has nothing live and nothing open ever after if and only if it has not now |
| Endings.FinishEndsQuietly | packages/agent-hub/agent_hub/engine.py:274-295 | an advance that ends the run leaves it quiet for good if and only if it failed or no approval was open |
| Endings.SaveThenDeathEndsQuietly | packages/agent-hub/agent_hub/engine.py:265-280 | a death right after the save that shows the run ended leaves it quiet for good if and only if nothing was live and no approval open |
| Endings.GatesThenDeathEndsQuietly | packages/agent-hub/agent_hub/engine.py:276-283 | the same between the closing of the gates and the last save: if and only if nothing was live |
| Endings.RejectionEndsQuietly | packages/agent-hub/agent_hub/engine.py:213-223 | a rejection no edge takes ends the run quietly if and only if no other node was live and no other approval open |
| Endings.ExpiryEndsQuietly | packages/agent-hub/agent_hub/engine.py:631-650 | an expiry ends the run quietly if and only if no other node was live and no approval open |
| Endings.CancelEndsQuietly | packages/agent-hub/agent_hub/engine.py:652-669 | a cancel always ends the run quietly |
| Endings.CompletedLeavesOpen | packages/agent-hub/agent_hub/engine.py:274-305 | completing leaves open exactly the approvals that were open and that their node does not name |
| Endings.OpenIsSuperseded | packages/agent-hub/agent_hub/engine.py:380-416 | in a completed run of the program an open approval belongs to a node that was asked again and decided under another one |
| LostRequests.DecisionKeepsHistory | packages/agent-hub/agent_hub/engine.py:196-223 | a decision keeps what is on record if and only if not: the run is active and its node is done, names no approval and was decided otherwise |
| LostRequests.SecondDecisionUngatesWrite | packages/agent-hub/agent_hub/engine.py:196-223 | for every workflow of a task, an approval and a write behind it: a run the program makes without dying, in which two saves raise, the write is dispatched, and afterwards it is not gated |
| LostRequests.SuchAWorkflow | packages/agent-hub/agent_hub/engine.py:380-416 | such a workflow, well formed |
| LostRequests.OverwritesUnnamed | packages/agent-hub/agent_hub/engine.py:205-210 | in every run, a decision lands on a done node if and only if the run is active and that node names no approval |
| Engine.ApprovedOnPathNow | packages/agent-hub/agent_hub/engine.py:307-342 | the engine's walk over the edges that fired decides whether every chain of fired edges crosses an approved approval |
| Engine.Look | packages/agent-hub/agent_hub/engine.py:250-258 | one scan of a node's incoming edges finds whether all predecessors are resolved and whether one fired |
| Engine.RunEngine.RunTool | packages/agent-hub/agent_hub/engine.py:418-474 | the outcome of a tool node: refused while paused, refused without a gate, failed on bad arguments, otherwise what the call replied |
| Engine.RunEngine.LaunchTask | packages/agent-hub/agent_hub/engine.py:476-557 | the outcome of an agent task: the node's mode can only narrow the agent's, full mode outside mock needs the gate, and the launch decides between running, deferred and failed |
| Engine.RunEngine.StartNode | packages/agent-hub/agent_hub/engine.py:354-378 | starting a node is the machine's start event: its state, result, approval row and dispatched write |
| Engine.RunEngine.Pass | packages/agent-hub/agent_hub/engine.py:244-272 | one pass over the node list performs only skips, starts and saves, takes a node out of pending if it moves, and otherwise nothing can move |
| Engine.RunEngine.Advance | packages/agent-hub/agent_hub/engine.py:227-284 | nothing on an ended run, cancellation when requested, otherwise it ends, is one complete pass of the machine, and leaves an active run with nothing left to move |
| Engine.RunEngine.FinishRun | packages/agent-hub/agent_hub/engine.py:274-295 | a failed run closes its open approvals first, as a step of its own, and the last save is the machine's finish event, which cancels its running, waiting and deferred nodes |
| Engine.RunEngine.DecideApproval | packages/agent-hub/agent_hub/engine.py:196-223 | a decision on an open approval is recorded exactly once and lands on the run only if its node waits for it or names none; anything else is refused unchanged |
| Engine.RunEngine.OnHeartbeatDone | packages/agent-hub/agent_hub/engine.py:588-629 | a finished heartbeat completes only the running node that names it, then the run advances |
| Engine.RunEngine.RetryLater | packages/agent-hub/agent_hub/engine.py:559-573 | a deferred node of an active run becomes pending and the run advances; any other node is left alone |
| Engine.RunEngine.ExpireApproval | packages/agent-hub/agent_hub/engine.py:631-650 | an expired approval fails the run only if a node of it still waits for that approval |
| Engine.RunEngine.Cancel | packages/agent-hub/agent_hub/engine.py:188-194 | a cancel request marks an active run; then its approvals are closed and it and everything in it is cancelled, in this order |
| Engine.RunEngine.ReconcileRun | packages/agent-hub/agent_hub/engine.py:133-152 | at startup deferred nodes are pending again and the run advances; nodes saved as running keep their heartbeat |
| Journal.Toolkit.RecordChange | packages/payprobe_common/agent_toolkit.py:185-192 | the record is appended only if it was persisted, and a failure refuses the write it protects |
| Journal.Toolkit.SaveDocument | packages/payprobe_common/agent_toolkit.py:762-828 | an upsert records the old document, then writes; the session moves exactly as the model step, also when validation, record or write fails |
| Journal.Toolkit.UpdateScenario | packages/payprobe_common/agent_toolkit.py:892-905 | an update of a missing scenario is refused; otherwise record first, write second |
| Journal.Toolkit.CreateDocument | packages/payprobe_common/agent_toolkit.py:830-891 | a create writes first and records second |
| Journal.Toolkit.Revert | packages/payprobe_common/agent_toolkit.py:203-271 | all records are restored newest first and forgotten |
| Journal.UndoIsExact | packages/payprobe_common/agent_toolkit.py:155-271 | after any sequence of write calls, each accepted or not, recorded or not, carried out or not, restoring the journal gives the starting registry up to bookkeeping fields, plus exactly the creates whose record was lost |
| Journal.UndoIffRecorded | packages/payprobe_common/agent_toolkit.py:830-891 | undo returns to the start if and only if no create lost its record |
| Grants.Widens | packages/agent-hub/agent_hub/validate.py:252-281 | no reasons if and only if no part of the grant grew |
| Grants.NotWiderRefines | packages/payprobe_common/agent_toolkit.py:1077-1151 | every call, with any arguments, that runs under a version that is not wider also runs under the older one |
| Publishing.HandlePublish | packages/agent-hub/agent_hub/main.py:309-332 | each answer holds exactly under its condition, in the handler's order: not an editor, no such version, no longer a draft, invalid, wider than the active version by a caller who is not an admin, refused by the store, published; the tables move only when published; it is the four steps of one undisturbed publish, and an editor's publish is then not wider than what it replaces |
| Publishing.CommitIsSafeExactly | packages/agent-hub/agent_hub/main.py:320-332 | at every commit by an editor in every run: it replaces an active version, and whatever draft passed the comparison and is committed no wider than checked, the commit is not wider than what it replaces if and only if the version it was compared with is not wider than the one it replaces |
| Publishing.EditorCommitsShrink | packages/agent-hub/agent_hub/main.py:309-332 | over any run of edits and publishes, admins anywhere, the grant only shrinks at each commit by an editor as long as no draft was widened between check and commit and no active version narrowed between comparison and commit |
| Publishing.StaleComparison | packages/agent-hub/agent_hub/store.py:505-528 | an editor checks a copy of the active version and a narrower draft, commits the narrower one and then the copy: no draft changed, no admin took part, and the last commit widens what was active |
| Publishing.DraftRace | packages/agent-hub/agent_hub/store.py:481-528 | an editor with a draft that copies the active version takes any active version to any spec by rewriting the draft between its check and its commit |
| Publishing.CommitKeepsExactly | packages/agent-hub/agent_hub/main.py:332 | a commit keeps the active version within a grant if and only if the spec the row holds then is within it |
| Publishing.EditorsNeverGrow | packages/agent-hub/agent_hub/main.py:309-332 | over any interleaving of publishes by callers who are not admins with edits, stale comparisons included, the active version stays within the first one and runs no call the first could not, as long as no committed draft is wider than the one that was checked |
| Publishing.FirstPublishIsAdmins | packages/agent-hub/agent_hub/main.py:229-239 | without an active version, and without an admin's publish, no run of edits and publishes makes one active |
| Runner.ScopedDispatch | packages/payprobe_common/agent_toolkit.py:1210-1245 | the handler runs exactly when allowlist, mode, write scope and load cap all let the call through |
| Runner.ProposalsOfPlanMode | packages/agent-hub/agent_hub/runner.py:180-184 | short of full mode a call becomes a proposal if and only if it is a granted write or its refused tool name carries the phrase, and only reads run |
| Runner.RefusedNameProposes | packages/payprobe_common/agent_toolkit.py:1210-1245 | the allowlist refusal carries the plan phrase if and only if the tool name does |
| Runner.RunHeartbeat | packages/agent-hub/agent_hub/runner.py:106-239 | whatever the model replies: turns and their calls are taken in order, every model or tool call directly follows a passed stop check, nothing follows a failed one, at most max_steps model calls are made and each begins within max_tokens, the status names what ended the wake, and short of full mode registry and journal are unchanged and the granted writes reached are proposed in order |
| RegistryStore.LifecycleInv | packages/agent-hub/agent_hub/store.py:352-543 | over any operation sequence versions are numbered 1..n, hashes match their specs, an active definition has exactly one active version and any other has none |
| RegistryStore.RunFreezes | packages/agent-hub/agent_hub/store.py:481-543 | a version that left draft keeps its spec and hash and never becomes a draft again; retirement is final |
| RegistryStore.PinsAreStable | packages/agent-hub/agent_hub/store.py:545-572 | a pin that resolves keeps resolving to the same spec exactly as long as the definition is not retired |
| RegistryStore.NamesResolveOnce | packages/agent-hub/agent_hub/store.py:545-572 | a bare name resolves exactly when its definition is active, and to one version |
| RegistryStore.Store.AddDraft | packages/agent-hub/agent_hub/store.py:450-474 | refused for missing or retired definitions, otherwise the next number is one more than the largest there is |
| RegistryStore.Store.ReplaceDraft | packages/agent-hub/agent_hub/store.py:481-503 | only a draft can be rewritten, and its hash with it |
| RegistryStore.Store.PublishDraft | packages/agent-hub/agent_hub/store.py:505-528 | the refusals in the source's order; otherwise the old active version is superseded and the draft becomes active |
| RegistryStore.Store.RetireDefinition | packages/agent-hub/agent_hub/store.py:530-543 | built-ins are refused, retiring twice changes nothing, and all versions retire together |
| Fleet.Await | packages/orchestrator/api/flow_fleet.py:84-101 | the wait ends at the first poll that shows an error row or all expected instances, or at the deadline, naming what is missing |
| Fleet.Coordinator.Place | packages/orchestrator/api/flow_fleet.py:67-101 | undisturbed, either every expected instance is advertised and no row is an error, or the stop was signalled and the run forgotten |
| Fleet.Coordinator.StopWhilePlacing | packages/orchestrator/api/flow_fleet.py:81-109 | a stop during the wait is followed by a watch of the stopped run, of which nothing is re-placed |
| Fleet.Coordinator.StopRun | packages/orchestrator/api/flow_fleet.py:103-111 | the stop is signalled and the run leaves the watch list, the snapshot and the placements, and nothing else does |
| Fleet.Coordinator.ReconcileRun | packages/orchestrator/api/flow_fleet.py:125-149 | exactly the placed instances that are not advertised and past their cooldown are pushed again, and none of a stopped run |
| FlowHosts.NoZombies | packages/worker/flow_host.py:171-233 | once a host has begun a round after a run was stopped, its table holds nothing of that run at the end of that or any later round, however claims, starts, stops and re-placements interleave |
| FlowHosts.FlowHost.Round | packages/worker/flow_host.py:171-233 | one round as written, with in-place table and sweep loop, is a round of the protocol: begin, claim, check, start, one sweep step per hosted run against the stops seen at that moment, end; nothing stopped before it survives it |
| FlowHosts.FlowHost.StopRunHere | packages/worker/flow_host.py:229-233 | every listener of the run is taken down and retracted, no other |
| FlowHosts.FlowHost.StopInstance | packages/worker/flow_host.py:143-154 | one listener is forgotten and its advertisement retracted; an unknown one changes nothing |
| FlowHosts.FlowHost.Shutdown | packages/worker/flow_host.py:239-245 | leaving the loop takes every listener down |
| Secrets.WalkAt | packages/payprobe_common/crypto.py:140-163 | a walk rewrites strings only, each by its place: the nearest key above it read with the key above that one, through any nesting of lists |
| Secrets.EncryptionRoundTrips | packages/payprobe_common/crypto.py:114-138 | decrypting an encrypted document gives it back if and only if encryption is off or no string in it is already tagged |
| Secrets.EncryptIsIdempotent | packages/payprobe_common/crypto.py:114-134 | encrypting again, even under another key, never wraps twice |
| Secrets.MaskThenMerge | packages/payprobe_common/crypto.py:177-205 | sending a masked document back changes nothing, for every document |
| Secrets.MergeAtPlace | packages/payprobe_common/crypto.py:193-205 | a mask over a stored string keeps the stored one, every other string sent wins |
| Secrets.SecretsAreMasked | packages/payprobe_common/crypto.py:168-190 | every non-empty string at a secret place is a mask, every other string is as it was |
| Secrets.MaskIsIdempotent | packages/payprobe_common/crypto.py:168-190 | masking twice is masking once |
| ReleaseGates.EvaluateGates | packages/report_service/gates.py:123-198 | the applicable gates in order, and GO exactly when all of them hold |
| ReleaseGates.PassesNeverBlock | packages/report_service/gates.py:75-198 | turning any scenario or step outcomes into passes never turns GO into NO_GO, duplicate names included |
| ReleaseGates.TighteningNeverUnblocks | packages/report_service/gates.py:38-69 | whatever passes a tighter policy passes the looser one |
| ReleaseGates.IndexImproves | packages/report_service/generators.py:591-598 | the last-wins step index of an improved run is the old one with some outcomes turned into passes |
| ReleaseGates.ByNameImproves | packages/report_service/generators.py:127-147 | the same for the last-wins map of scenario outcomes the pack is scored with |
| PredictionLog.FirstRunSinceScores | packages/insight-service/insight_service/store.py:290-311 | over every interleaving a prediction holds its scenario's status in the first run ingested since it was logged that was created after it, and nothing while there is none |
| PredictionLog.NeverRescored | packages/insight-service/insight_service/store.py:290-311 | no sequence of events changes a scored prediction |
| PredictionLog.IngestsInOrder | packages/insight-service/insight_service/ingest.py:37-65 | runs are ingested in creation order and the marker is the creation time of the last one |
| PredictionLog.EarliestRunScores | packages/insight-service/insight_service/ingest.py:37-65 | the scoring run is the earliest ingested run created after the prediction if and only if no run ingested before it was logged was created after it |
| PredictionLog.ClocksAgree | packages/insight-service/insight_service/store.py:280-288 | a clock not behind the marker when the prediction is logged is enough, for good |
| PredictionLog.SkewedClock | packages/insight-service/insight_service/store.py:290-311 | with a clock behind it a prediction is scored failed although the first run after it passed |
| PredictionLog.VisitsExactly | packages/insight-service/insight_service/ingest.py:40-47 | a sync visits a listed run if and only if it has ended, has a creation time, and was created after every run ingested before |
| PredictionLog.SkippedIsLost | packages/insight-service/insight_service/ingest.py:49-52 | a run offered and skipped for want of a summary is never visited again once one created no earlier was ingested in the same sync, whatever happens later |
| PredictionLog.DeathIsRepaired | packages/insight-service/insight_service/ingest.py:54-65 | a sync that dies between the scores and the marker leaves nothing wrong once the next one offers the same runs: log and marker are as without the death |
| PredictionLog.DeathReorders | packages/insight-service/insight_service/ingest.py:54-65 | if an older run is listed meanwhile, it is ingested after the newer one: the marker had not moved |
| PredictionLog.SortSorts | packages/insight-service/insight_service/ingest.py:47 | the sort orders by creation time and keeps every card |
| PredictionLog.SortIsStable | packages/insight-service/insight_service/ingest.py:47 | cards created at the same time keep the reader's order |
| PredictionLog.Insight.ScorePredictions | packages/insight-service/insight_service/store.py:290-311 | one update per scenario, in any order, scores exactly the unscored earlier predictions of each |
| PredictionLog.Insight.Sync | packages/insight-service/insight_service/ingest.py:37-72 | a sync is the begin event and one event per new run, in creation order; runs without a summary do not move the marker |
| Predictor.NeverCertain | packages/insight-service/insight_service/predict.py:31-45 | for every history the estimate lies strictly between 2/29 and 27/29 |
| Predictor.TotalIsGeometric | packages/insight-service/insight_service/predict.py:37-43 | n runs weigh 12.5 (1 - 0.92^n) |
| Predictor.SwappingOutcomesComplements | packages/insight-service/insight_service/predict.py:31-45 | swapping all passes and failures turns p into 1 - p |
| Predictor.FailureRaises | packages/insight-service/insight_service/predict.py:31-45 | turning one pass into a failure never lowers the estimate, and raises it exactly when the run is in the window |
| Predictor.FailuresRaiseByRecency | packages/insight-service/insight_service/predict.py:31-45 | the newer of two passes raises it strictly more |
| Predictor.FlakyIsAFraction | packages/insight-service/insight_service/predict.py:47-52 | the flip score is in [0, 1], and 0 exactly for one-sided histories |
| Predictor.PredictOutcomes | packages/insight-service/insight_service/predict.py:25-71 | the accumulation loops compute that estimate and that score |

## Left out

- Error messages, alerts, plans and the node journal of the engine: no modelled decision reads them.
- Engine: condition expressions are one answer per start of the node; their parser is not modelled.
- Engine: `decide` is one step (approval row and run row together); an expiry is two, as in the source.
- Engine: one process with a lock per run; `reconcile` may also come between other operations, which is more than the source does. A request that is committed although its insert raises is not modelled.
- Engine: the result of a node is kept as what edges and gates read of it (a branch, a decision, whether a call succeeded), not its text.
- ProgramRuns.LabellingIsUnique: takes the answers as one map that agrees with both runs; a node retried after a deferral has one final answer.
- Letters outside ASCII are not lower-cased when guards, environments and secret key names are compared.
- Validator: agent definitions, schedules and model allowlists are not checked; repeated ids are reported in node order, not sorted.
- Journal: the backend is a map that honours given keys; a restore that the backend refuses is modelled only for missing scenarios.
- Journal: the listing of changes and the `after` snapshots, which undo does not read.
- Publishing: whether a draft is a valid definition is an input of the comparison; creating, editing and retiring are free events, without their own role checks.
- Grants: JSON values other than texts, numbers and dictionaries name no project, environment or rate.
- Runner.RunHeartbeat: says nothing about proposals in full mode, where guardrail texts of handlers decide; token use of a turn that raises counts as 0.
- Runner: the conversation, step records, error texts and the wall clock as a number (a flag per stop check stands for it).
- RegistryStore: timestamps, authors and the heartbeat, run and approval tables; a hash is any function of the spec.
- Fleet: two listeners for one instance id after an advertisement expires are not excluded, because check and start are not one step in the source.
- Fleet.Coordinator.Place: is one undisturbed call; `StopWhilePlacing` shows what a stop during its wait does.
- Fleet: the polling loop, presence of hosts and shipping of traces; expiry of an advertisement is a poll that does not list it.
- FlowHosts: the stop set is what each look of a host returns and may only grow; a listener overwritten by a second start of one instance on one host is not tracked.
- Secrets: the cipher is any function whose tokens open to what was sealed and are longer than it; fingerprints are any function.
- ReleaseGates: report texts and the list of fixed steps; percentages are exact.
- PredictionLog: one sync at a time; the corpus of failures and load runs. Outside the order theorems are details whose created_at differs from their card, and a death between the scores and the marker, which ingests the run again (`DeathIsRepaired`, `DeathReorders`).
- Predictor: rounding to four digits, the factor texts and the duration drift; weights are exact decimals.
