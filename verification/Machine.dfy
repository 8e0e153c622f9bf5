/** One workflow run as the engine persists it, and every step that can change it.

    A run is a durable row (status, node states, results), the approvals table, and
    at most one `advance` in progress, which works on copies of the row and saves
    them after each node it starts. A step is one event; an event whose guard does
    not hold changes nothing. Two things end an operation early. The process may die:
    `Crash` drops the copies and keeps what was saved. Or a save may raise in a process
    that lives on: `Abort` drops the copies of that one `advance`. */
module Machine {
  import opened Wrappers
  import opened Graphs
  import opened Workflows

  datatype Status = Pending | Running | Waiting | Deferred | Done | Skipped | Failed | Cancelled

  datatype RunStatus = RunRunning | RunWaiting | RunDone | RunFailed | RunCancelled | RunRejected

  predicate Active(s: RunStatus) {
    s == RunRunning || s == RunWaiting
  }

  predicate Settling(s: Status) {
    s == Done || s == Skipped || s == Failed || s == Cancelled
  }

  datatype NodeState = NodeState(status: Status, heartbeat: Option<string>, approval: Option<string>)

  /** What a node leaves behind for the nodes after it. */
  datatype Outcome =
    | Marker
    | Branch(value: bool)
    | Decided(decision: string)
    | Reply(ok: bool)
    | Report(heartbeat: string)

  /** Node states and results: the two dictionaries that are the whole truth. */
  datatype Nodes = Nodes(states: map<Id, NodeState>, results: map<Id, Outcome>)

  datatype Row = Row(status: RunStatus, nodes: Nodes, cancelRequested: bool)

  datatype ApprovalStatus = Open | Closed(decision: string) | Expired | Withdrawn

  datatype ApprovalRow = ApprovalRow(node: Id, status: ApprovalStatus)

  /** The copies an `advance` works on; `started` is the node not saved yet. */
  datatype Memory = Memory(nodes: Nodes, started: Option<Id>)

  /** `acts` lists the nodes that dispatched a write outside mock, oldest first. */
  datatype Machine = Machine(
    row: Row,
    approvals: map<string, ApprovalRow>,
    acts: seq<Id>,
    mem: Option<Memory>)

  // ---------------------------------------------------------------- the world's answers

  datatype Launch = Coalesced | Launched(heartbeat: string) | Refused(heartbeat: string) | LaunchRaised

  /** Everything outside the engine that decides how a started node turns out. */
  datatype World = World(
    value: Option<bool>,       // a condition's value; None is an expression error
    approval: string,          // id of a new approval row
    stores: bool,              // the approvals table accepts it
    paused: bool,              // the global pause flag
    argsOk: bool,              // tool arguments render to an object
    replies: bool,             // the tool call returns an envelope
    toolOk: bool,              // and its envelope says ok
    agent: Option<Mode>,       // mode of the version the agent reference resolves to now
    launch: Launch)

  datatype Event =
    | Begin
    | Skip(node: Id)
    | Start(node: Id, world: World)
    | Save
    | Finish
    | CloseGates
    | Crash
    | Abort
    | Decide(approval: string, decision: string)
    | HeartbeatDone(node: Id, heartbeat: string, ok: bool)
    | Retry(node: Id)
    | ExpireRow(approval: string)
    | ApprovalExpired(approval: string)
    | RequestCancel
    | CancelRun
    | Reconcile

  // ---------------------------------------------------------------- reading the dictionaries

  function StatusOf(g: Nodes, n: Id): Status {
    if n in g.states then g.states[n].status else Pending
  }

  function Set(g: Nodes, n: Id, st: NodeState): Nodes {
    g.(states := g.states[n := st])
  }

  function SetStatus(g: Nodes, n: Id, s: Status): Nodes
    requires n in g.states
  {
    Set(g, n, g.states[n].(status := s))
  }

  /** Does the edge fire, given its source's result? */
  predicate Fires(spec: Spec, e: Edge, results: map<Id, Outcome>) {
    if HasKind(spec, e.src, Condition) then
      Guard(e, "true") == (if e.src in results && results[e.src] == Branch(true) then "true" else "false")
    else if HasKind(spec, e.src, Approval) then
      Guard(e, "approved") ==
      (if e.src in results && results[e.src].Decided? then results[e.src].decision else "")
    else true
  }

  predicate Fired(spec: Spec, g: Nodes, e: Edge) {
    StatusOf(g, e.src) == Done && Fires(spec, e, g.results)
  }

  function FiredAmong(spec: Spec, g: Nodes, edges: seq<Edge>): (r: seq<Edge>)
    ensures forall e :: e in r <==> e in edges && Fired(spec, g, e)
  {
    if edges == [] then []
    else
      var last := edges[|edges| - 1];
      FiredAmong(spec, g, edges[..|edges| - 1]) + if Fired(spec, g, last) then [last] else []
  }

  function FiredEdges(spec: Spec, g: Nodes): seq<Edge> {
    FiredAmong(spec, g, spec.edges)
  }

  predicate Approved(spec: Spec, g: Nodes, n: Id) {
    HasKind(spec, n, Approval) && n in g.results && g.results[n] == Decided("approved")
  }

  function ApprovedExits(spec: Spec, g: Nodes): set<Edge> {
    set e | e in spec.edges && Approved(spec, g, e.src)
  }

  /** Every chain of fired edges from a start node to `n` leaves an approval that
      was decided `approved`. */
  ghost predicate ApprovedOnPath(spec: Spec, g: Nodes, n: Id) {
    EveryPathGated(FiredEdges(spec, g), ApprovedExits(spec, g), n)
  }

  predicate Resolved(spec: Spec, g: Nodes, n: Id) {
    forall e :: e in Into(spec.edges, n) ==> Settling(StatusOf(g, e.src))
  }

  /** A start node, or some incoming edge fired. */
  predicate Supported(spec: Spec, g: Nodes, n: Id) {
    Into(spec.edges, n) == [] || exists e :: e in Into(spec.edges, n) && Fired(spec, g, e)
  }

  predicate CanStart(spec: Spec, g: Nodes, n: Id) {
    n in g.states && g.states[n].status == Pending && Resolved(spec, g, n) && Supported(spec, g, n)
  }

  predicate CanSkip(spec: Spec, g: Nodes, n: Id) {
    n in g.states && g.states[n].status == Pending && Resolved(spec, g, n) && !Supported(spec, g, n)
  }

  /** Nothing more can move: every pending node has an unresolved predecessor. */
  predicate Quiescent(spec: Spec, g: Nodes) {
    forall n :: n in g.states && g.states[n].status == Pending ==> !Resolved(spec, g, n)
  }

  function RunStatusOf(g: Nodes): RunStatus {
    if exists n :: n in g.states && g.states[n].status == Failed then RunFailed
    else if forall n :: n in g.states ==> g.states[n].status in {Done, Skipped} then RunDone
    else if exists n :: n in g.states && g.states[n].status == Waiting then RunWaiting
    else RunRunning
  }

  // ---------------------------------------------------------------- starting a node

  /** The effect of starting one node: its new state, its result, a new approval
      row, and whether a write left for a real environment. */
  datatype Effect = Effect(state: NodeState, outcome: Option<Outcome>, row: Option<string>, act: bool)

  function Ends(st: NodeState, s: Status): Effect {
    Effect(st.(status := s), None, None, false)
  }

  ghost function StartTool(spec: Spec, tools: map<string, Tier>, g: Nodes, n: Node, st: NodeState, w: World): Effect {
    var writes := n.tool in tools && tools[n.tool] != Read;
    var outside := writes && !IsMock(n.environment);
    if writes && w.paused then Ends(st, Failed)
    else if outside && !ApprovedOnPath(spec, g, n.id) then Ends(st, Failed)
    else if !w.argsOk then Ends(st, Failed)
    else if !w.replies then Ends(st, Failed).(act := outside)
    else
      var ok := w.toolOk && n.tool in tools;
      Effect(st.(status := if ok then Done else Failed), Some(Reply(ok)), None, outside)
  }

  /** A node may narrow the agent's mode, never escalate it. */
  function EffectiveMode(n: Node, agent: Mode): Mode {
    if n.mode.Some? && ModeRank(n.mode.value) <= ModeRank(agent) then n.mode.value else agent
  }

  ghost function StartTask(spec: Spec, g: Nodes, n: Node, st: NodeState, w: World): Effect {
    if w.agent.None? then Ends(st, Failed)
    else
      var outside := EffectiveMode(n, w.agent.value) == Full && !IsMock(n.environment);
      if outside && !ApprovedOnPath(spec, g, n.id) then Ends(st, Failed)
      else
        match w.launch
        case LaunchRaised => Ends(st, Failed).(act := outside)
        case Coalesced => Ends(st, Deferred)
        case Launched(hb) => Effect(st.(status := Running, heartbeat := Some(hb)), None, None, outside)
        case Refused(hb) => Effect(st.(status := Failed, heartbeat := Some(hb)), None, None, false)
  }

  ghost function StartEffect(spec: Spec, tools: map<string, Tier>, approvals: map<string, ApprovalRow>, g: Nodes, n: Node,
                             st: NodeState, w: World): Effect {
    match n.kind
    case Parallel => Ends(st, Done).(outcome := Some(Marker))
    case Join => Ends(st, Done).(outcome := Some(Marker))
    case Condition =>
      if w.value.None? then Ends(st, Failed)
      else Ends(st, Done).(outcome := Some(Branch(w.value.value)))
    case Approval =>
      if w.stores && w.approval !in approvals then
        Effect(st.(status := Waiting, approval := Some(w.approval)), None, Some(w.approval), false)
      else Ends(st, Failed)
    case Tool => StartTool(spec, tools, g, n, st, w)
    case AgentTask => StartTask(spec, g, n, st, w)
  }

  function WithOutcome(g: Nodes, n: Id, o: Option<Outcome>): Nodes {
    if o.Some? then g.(results := g.results[n := o.value]) else g
  }

  ghost function ApplyStart(spec: Spec, tools: map<string, Tier>, m: Machine, n: Id, w: World): Machine
    requires m.mem.Some? && n in m.mem.value.nodes.states && NodeNamed(spec.nodes, n).Some?
  {
    var g := m.mem.value.nodes;
    var eff := StartEffect(spec, tools, m.approvals, g, NodeNamed(spec.nodes, n).value, g.states[n], w);
    Machine(
      m.row,
      if eff.row.Some? then m.approvals[eff.row.value := ApprovalRow(n, Open)] else m.approvals,
      if eff.act then m.acts + [n] else m.acts,
      Some(Memory(WithOutcome(Set(g, n, eff.state), n, eff.outcome), Some(n))))
  }

  // ---------------------------------------------------------------- the other operations

  /** Give every node whose status is in `from` the status `to`. */
  function Sweep(g: Nodes, from: set<Status>, to: Status): Nodes {
    g.(states := map n | n in g.states ::
      if g.states[n].status in from then g.states[n].(status := to) else g.states[n])
  }

  function Withdraw(approvals: map<string, ApprovalRow>): map<string, ApprovalRow> {
    map a | a in approvals ::
      if approvals[a].status == Open then approvals[a].(status := Withdrawn) else approvals[a]
  }

  /** A run about to be saved as failed or cancelled: its gates are closed first. */
  predicate GatesClosing(spec: Spec, m: Machine) {
    if m.mem.Some? then
      m.mem.value.started.None? && Quiescent(spec, m.mem.value.nodes) && RunStatusOf(m.mem.value.nodes) == RunFailed
    else Active(m.row.status) && m.row.cancelRequested
  }

  /** The end of an `advance`: a failed run stops its siblings and closes its gates. */
  function ApplyFinish(m: Machine): Machine
    requires m.mem.Some?
  {
    var g := m.mem.value.nodes;
    var status := RunStatusOf(g);
    if status == RunFailed then
      m.(row := m.row.(status := status, nodes := Sweep(g, {Running, Waiting, Deferred}, Cancelled)),
         approvals := Withdraw(m.approvals), mem := None)
    else m.(row := m.row.(status := status, nodes := g), mem := None)
  }

  /** Some edge out of the approval takes the rejected branch. */
  predicate TakesRejection(spec: Spec, n: Id) {
    exists e :: e in spec.edges && e.src == n && Guard(e, "") == "rejected"
  }

  const DECISIONS: set<string> := {"approved", "rejected"}

  /** The guard of a decision on the row: an active run whose node waits for this
      approval, or has no approval on record. */
  predicate DecisionLands(m: Machine, ap: string) {
    && m.mem.None? && ap in m.approvals && m.approvals[ap].status == Open
    && Active(m.row.status) && m.approvals[ap].node in m.row.nodes.states
    && m.row.nodes.states[m.approvals[ap].node].approval in {None, Some(ap)}
  }

  function ApplyDecision(spec: Spec, m: Machine, ap: string, decision: string): Machine
    requires ap in m.approvals
  {
    var n := m.approvals[ap].node;
    var recorded := m.(approvals := m.approvals[ap := ApprovalRow(n, Closed(decision))]);
    if DecisionLands(m, ap) then
      var g := WithOutcome(SetStatus(m.row.nodes, n, Done), n, Some(Decided(decision)));
      var status := if decision == "rejected" && !TakesRejection(spec, n) then RunRejected else m.row.status;
      recorded.(row := m.row.(status := status, nodes := g))
    else recorded
  }

  function ApplyHeartbeat(m: Machine, n: Id, hb: string, ok: bool): Machine {
    var g := m.row.nodes;
    if m.mem.None? && Active(m.row.status) && n in g.states &&
       g.states[n].status == Running && g.states[n].heartbeat == Some(hb) then
      m.(row := m.row.(nodes := WithOutcome(SetStatus(g, n, if ok then Done else Failed), n, Some(Report(hb)))))
    else m
  }

  function ApplyRetry(m: Machine, n: Id): Machine {
    var g := m.row.nodes;
    if m.mem.None? && Active(m.row.status) && n in g.states && g.states[n].status == Deferred then
      m.(row := m.row.(nodes := SetStatus(g, n, Pending)))
    else m
  }

  function ApplyExpired(m: Machine, ap: string): Machine {
    var g := m.row.nodes;
    if m.mem.None? && Active(m.row.status) && ap in m.approvals && m.approvals[ap].status == Expired &&
       m.approvals[ap].node in g.states && g.states[m.approvals[ap].node].approval == Some(ap) then
      m.(row := m.row.(status := RunFailed, nodes := SetStatus(g, m.approvals[ap].node, Failed)))
    else m
  }

  function ApplyCancel(m: Machine): Machine {
    if m.mem.None? && Active(m.row.status) && m.row.cancelRequested then
      m.(row := m.row.(status := RunCancelled,
                       nodes := Sweep(m.row.nodes, {Running, Waiting, Deferred, Pending}, Cancelled)),
         approvals := Withdraw(m.approvals))
    else m
  }

  // ---------------------------------------------------------------- runs

  ghost function Next(spec: Spec, tools: map<string, Tier>, m: Machine, ev: Event): Machine {
    match ev
    case Begin =>
      if m.mem.None? && Active(m.row.status) && !m.row.cancelRequested
      then m.(mem := Some(Memory(m.row.nodes, None))) else m
    case Skip(n) =>
      if m.mem.Some? && m.mem.value.started.None? && CanSkip(spec, m.mem.value.nodes, n)
      then m.(mem := Some(Memory(SetStatus(m.mem.value.nodes, n, Skipped), None))) else m
    case Start(n, w) =>
      if m.mem.Some? && m.mem.value.started.None? && CanStart(spec, m.mem.value.nodes, n) &&
         NodeNamed(spec.nodes, n).Some?
      then ApplyStart(spec, tools, m, n, w) else m
    case Save =>
      if m.mem.Some? && m.mem.value.started.Some?
      then m.(row := m.row.(status := RunStatusOf(m.mem.value.nodes), nodes := m.mem.value.nodes),
              mem := Some(Memory(m.mem.value.nodes, None))) else m
    case Finish =>
      if m.mem.Some? && m.mem.value.started.None? && Quiescent(spec, m.mem.value.nodes)
      then ApplyFinish(m) else m
    case CloseGates => if GatesClosing(spec, m) then m.(approvals := Withdraw(m.approvals)) else m
    case Crash => m.(mem := None)
    case Abort => m.(mem := None)
    case Decide(ap, decision) =>
      if m.mem.None? && ap in m.approvals && m.approvals[ap].status == Open && decision in DECISIONS
      then ApplyDecision(spec, m, ap, decision) else m
    case HeartbeatDone(n, hb, ok) => ApplyHeartbeat(m, n, hb, ok)
    case Retry(n) => ApplyRetry(m, n)
    case ExpireRow(ap) =>
      if ap in m.approvals && m.approvals[ap].status == Open
      then m.(approvals := m.approvals[ap := m.approvals[ap].(status := Expired)]) else m
    case ApprovalExpired(ap) => ApplyExpired(m, ap)
    case RequestCancel =>
      if Active(m.row.status) then m.(row := m.row.(cancelRequested := true)) else m
    case CancelRun => ApplyCancel(m)
    case Reconcile =>
      if m.mem.None? && Active(m.row.status)
      then m.(row := m.row.(nodes := Sweep(m.row.nodes, {Deferred}, Pending))) else m
  }

  function Fresh(spec: Spec): Nodes {
    Nodes(map n | n in IdSet(spec) :: NodeState(Pending, None, None), map[])
  }

  function Created(spec: Spec): Machine {
    Machine(Row(RunRunning, Fresh(spec), false), map[], [], None)
  }

  /** The machine after a sequence of events: any interleaving, any crashes. */
  ghost function Run(spec: Spec, tools: map<string, Tier>, events: seq<Event>): Machine {
    if events == [] then Created(spec)
    else Next(spec, tools, Run(spec, tools, events[..|events| - 1]), events[|events| - 1])
  }

  lemma RunSnoc(spec: Spec, tools: map<string, Tier>, events: seq<Event>, ev: Event)
    ensures Run(spec, tools, events + [ev]) == Next(spec, tools, Run(spec, tools, events), ev)
  {
    assert (events + [ev])[..|events|] == events;
  }
}
