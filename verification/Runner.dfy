/** One heartbeat: the bounded tool-calling loop of one agent. The model's replies,
    the stop flags and the tool handlers are arbitrary; the bounds are not. */
module Runner {
  import opened Wrappers
  import opened Workflows
  import opened Grants
  import opened Texts
  import Journal

  // ---------------------------------------------------------------- what a dispatched call answers

  datatype ToolCall = ToolCall(name: string, args: Args)

  /** What the handler of an executed call reports. */
  datatype Report = Fine | Broken(guardrail: bool, text: string)

  /** The envelope handed back to the model, and whether the handler ran. */
  datatype Envelope = Envelope(ok: bool, guardrail: bool, error: string, ran: bool)

  const PLAN_MARK := "describe the change in your plan"

  function NotAllowed(name: string): string {
    "tool '" + name + "' is not in this agent's allowlist"
  }

  function TierName(t: Tier): string {
    match t
    case Read => "read"
    case Write => "write"
    case Execute => "execute"
  }

  function PlanRefusal(name: string, tier: Tier): string {
    ("tool '" + name + "' (" + TierName(tier) + ") is not executable in this mode \U{2014} ") + PLAN_MARK
    + " instead of performing it"
  }

  function RefusalText(r: Refusal): string {
    match r
    case ProjectOutside(p) => "project '" + p + "' is outside this agent's write scope"
    case EnvironmentOutside(e) => "environment '" + e + "' is outside this agent's write scope"
    case GlobalWrite => "global registry writes need '*' in the agent's project scope"
    case LoadTooHigh => "load exceeds this agent's cap"
  }

  /** A call behind an agent's grant. Only write handlers raise guardrails. */
  function ScopedDispatch(platform: Platform, scope: Scope, c: ToolCall, report: Report): (r: Envelope)
    ensures r.ran <==> Runs(platform, scope, c.name, c.args)
  {
    if c.name !in scope.allow then Envelope(false, true, NotAllowed(c.name), false)
    else if c.name !in platform.tiers then Envelope(false, false, "unknown tool", false)
    else
      var tier := platform.tiers[c.name];
      if !TierOpen(scope.mode, tier) then Envelope(false, true, PlanRefusal(c.name, tier), false)
      else
        var outside := CheckWriteScope(scope, tier, c.args);
        if outside.Some? then Envelope(false, true, RefusalText(outside.value), false)
        else if OverCap(platform, scope, c.name, c.args) then Envelope(false, true, RefusalText(LoadTooHigh), false)
        else
          match report
          case Fine => Envelope(true, false, "", true)
          case Broken(guardrail, text) => Envelope(false, guardrail && tier == Write, text, true)
  }

  /** A refusal that carries the plan phrase is kept as a proposed call. */
  predicate IsProposal(r: Envelope) {
    !r.ok && r.guardrail && Contains(r.error, PLAN_MARK)
  }

  // ---------------------------------------------------------------- which calls become proposals

  lemma ContainsMiddle(a: string, b: string, c: string)
    ensures Contains(a + b + c, b)
  {
    assert (a + b + c)[|a|..|a| + |b|] == b;
    assert OccursAt(a + b + c, b, |a|);
  }

  /** The phrase holds no quote, so in a quoted text it stands between two quotes. */
  lemma MarkAvoidsQuotes(s: string, i: nat, q: nat)
    requires OccursAt(s, PLAN_MARK, i) && q < |s| && s[q] == '\''
    ensures q < i || i + |PLAN_MARK| <= q
  {
    if i <= q < i + |PLAN_MARK| {
      assert s[i..i + |PLAN_MARK|][q - i] == '\'';
      NoQuote(q - i);
    }
  }

  lemma NoQuote(k: nat)
    requires k < |PLAN_MARK|
    ensures PLAN_MARK[k] != '\''
  {
  }

  /** A call refused for its name reads as a proposal only if the name itself
      carries the phrase. */
  lemma RefusedNameProposes(name: string)
    ensures Contains(NotAllowed(name), PLAN_MARK) <==> Contains(name, PLAN_MARK)
  {
    var pre, post := "tool '", "' is not in this agent's allowlist";
    var s := pre + name + post;
    var close := |pre| + |name|;
    assert s == NotAllowed(name) && |post| == 34 && |PLAN_MARK| == 32;
    assert s[5] == pre[5] == '\'' && s[close] == post[0] == '\'' && s[close + 22] == post[22] == '\'';
    if i :| 0 <= i <= |s| && OccursAt(s, PLAN_MARK, i) {
      MarkAvoidsQuotes(s, i, 5);
      MarkAvoidsQuotes(s, i, close);
      MarkAvoidsQuotes(s, i, close + 22);
      assert name[i - |pre|..i - |pre| + |PLAN_MARK|] == s[i..i + |PLAN_MARK|];
      assert OccursAt(name, PLAN_MARK, i - |pre|);
    }
    if k :| 0 <= k <= |name| && OccursAt(name, PLAN_MARK, k) {
      assert s[|pre| + k..|pre| + k + |PLAN_MARK|] == name[k..k + |PLAN_MARK|];
      assert OccursAt(s, PLAN_MARK, |pre| + k);
    }
  }

  /** A write or execute call of a tool the agent was granted. */
  predicate GrantedWrite(platform: Platform, agent: Agent, c: ToolCall) {
    c.name in agent.tools && c.name in platform.tiers && platform.tiers[c.name] != Read
  }

  /** Short of full mode, the proposals are the granted writes, and besides them
      only calls of tools outside the grant whose very name carries the phrase. */
  lemma ProposalsOfPlanMode(platform: Platform, agent: Agent, c: ToolCall, report: Report)
    requires agent.mode != Full
    ensures IsProposal(ScopedDispatch(platform, ScopeFor(platform, agent), c, report)) <==>
            GrantedWrite(platform, agent, c) || (c.name !in agent.tools && Contains(c.name, PLAN_MARK))
    ensures ScopedDispatch(platform, ScopeFor(platform, agent), c, report).ran ==> platform.tiers[c.name] == Read
  {
    if c.name !in agent.tools {
      RefusedNameProposes(c.name);
    } else if GrantedWrite(platform, agent, c) {
      var tier := platform.tiers[c.name];
      ContainsMiddle("tool '" + c.name + "' (" + TierName(tier) + ") is not executable in this mode \U{2014} ",
                     PLAN_MARK, " instead of performing it");
    }
  }

  // ---------------------------------------------------------------- the loop

  datatype Turn = Raised | Reply(calls: seq<ToolCall>, tokens: nat)

  /** What one stop check reads: cancel and pause flags, the wall clock. */
  datatype Flags = Flags(cancel: bool, paused: bool, late: bool)

  datatype Stop = Done | Failed | Cancelled | Paused | TimedOut | BudgetExceeded

  /** Everything outside the loop: the model's k-th turn, the flags at the k-th stop
      check, the report of the k-th dispatched call, and what a write handler does. */
  datatype World = World(
    turns: nat -> Turn,
    flags: nat -> Flags,
    reports: nat -> Report,
    writes: (Journal.Session, ToolCall) -> Journal.Session)

  /** The loop's visible actions, in order. */
  datatype Action = Check(passed: bool) | Ask(step: nat, usage: nat) | Dispatch(step: nat, call: ToolCall, report: Report)

  datatype Proposal = Proposal(step: nat, call: ToolCall)

  /** What a list of actions adds up to; `ran` counts the calls of the last turn. */
  datatype Tally = Tally(checks: nat, asks: nat, dispatched: nat, ran: nat, usage: nat)

  datatype Beat = Beat(session: Journal.Session, proposed: seq<Proposal>, tally: Tally, actions: seq<Action>)

  function TokensOf(t: Turn): nat {
    if t.Reply? then t.tokens else 0
  }

  function Counted(world: World, t: Tally, a: Action): Tally {
    match a
    case Check(_) => t.(checks := t.checks + 1)
    case Ask(step, _) => t.(asks := t.asks + 1, ran := 0, usage := t.usage + TokensOf(world.turns(step)))
    case Dispatch(_, _, _) => t.(dispatched := t.dispatched + 1, ran := t.ran + 1)
  }

  function TallyOf(world: World, actions: seq<Action>): Tally {
    if actions == [] then Tally(0, 0, 0, 0, 0)
    else Counted(world, TallyOf(world, actions[..|actions| - 1]), actions[|actions| - 1])
  }

  predicate Interrupted(s: Stop) {
    s == Cancelled || s == Paused || s == TimedOut || s == BudgetExceeded
  }

  /** Why the loop must stop now, in the order the flags are read. */
  function StopReason(agent: Agent, world: World, t: Tally): (r: Option<Stop>)
    ensures r.Some? ==> Interrupted(r.value)
  {
    var f := world.flags(t.checks);
    if f.cancel then Some(Cancelled)
    else if f.paused then Some(Paused)
    else if f.late then Some(TimedOut)
    else if t.usage > agent.maxTokens then Some(BudgetExceeded)
    else None
  }

  /** Nothing is left to do of the model's last turn, and it did ask for something. */
  predicate TurnOver(world: World, t: Tally) {
    t.asks > 0 ==>
      var turn := world.turns(t.asks);
      turn.Reply? && turn.calls != [] && t.ran == |turn.calls|
  }

  /** An action the world allows at this point: a check reports the flags and the
      tokens spent so far, a question is the next one, a dispatched call is the next
      call of the model's last turn. */
  predicate Fits(agent: Agent, world: World, t: Tally, a: Action) {
    match a
    case Check(passed) => passed == StopReason(agent, world, t).None?
    case Ask(step, usage) => step == t.asks + 1 && usage == t.usage && TurnOver(world, t)
    case Dispatch(step, call, report) =>
      && step == t.asks && world.turns(step).Reply? && t.ran < |world.turns(step).calls|
      && call == world.turns(step).calls[t.ran] && report == world.reports(t.dispatched)
  }

  ghost predicate Grounded(agent: Agent, world: World, actions: seq<Action>) {
    forall i :: 0 <= i < |actions| ==> Fits(agent, world, TallyOf(world, actions[..i]), actions[i])
  }

  /** Every model call and every tool call directly follows a passed check, a failed
      check ends the heartbeat, and no model call starts over the token limit. */
  ghost predicate Disciplined(agent: Agent, actions: seq<Action>) {
    && (forall i :: 0 <= i < |actions| && !actions[i].Check? ==> i > 0 && actions[i - 1] == Check(true))
    && (forall i :: 0 <= i < |actions| && actions[i] == Check(false) ==> i == |actions| - 1)
    && (forall i :: 0 <= i < |actions| && actions[i].Ask? ==> actions[i].usage <= agent.maxTokens)
  }

  /** The calls the loop reached that must be proposals, in order. */
  function Expected(platform: Platform, agent: Agent, actions: seq<Action>): seq<Proposal> {
    if actions == [] then []
    else
      var a := actions[|actions| - 1];
      Expected(platform, agent, actions[..|actions| - 1]) + if MustPropose(platform, agent, a) then [Proposal(a.step, a.call)] else []
  }

  predicate MustPropose(platform: Platform, agent: Agent, a: Action) {
    a.Dispatch? &&
    (GrantedWrite(platform, agent, a.call) || (a.call.name !in agent.tools && Contains(a.call.name, PLAN_MARK)))
  }

  /** What the dispatched writes that ran made of the session. */
  function Effects(platform: Platform, agent: Agent, world: World, start: Journal.Session, actions: seq<Action>): Journal.Session {
    if actions == [] then start
    else
      var a := actions[|actions| - 1];
      var before := Effects(platform, agent, world, start, actions[..|actions| - 1]);
      if a.Dispatch? && Runs(platform, ScopeFor(platform, agent), a.call.name, a.call.args) &&
         platform.tiers[a.call.name] == Write
      then world.writes(before, a.call) else before
  }

  /** Short of full mode nothing a heartbeat does touches the registry or the journal. */
  lemma {:induction false} NoEffects(platform: Platform, agent: Agent, world: World, start: Journal.Session, actions: seq<Action>)
    requires agent.mode != Full
    ensures Effects(platform, agent, world, start, actions) == start
  {
    if actions != [] {
      NoEffects(platform, agent, world, start, actions[..|actions| - 1]);
    }
  }

  /** What holds of a heartbeat at every point. */
  ghost predicate BeatInv(platform: Platform, agent: Agent, world: World, start: Journal.Session, b: Beat) {
    && Disciplined(agent, b.actions) && Grounded(agent, world, b.actions)
    && b.tally == TallyOf(world, b.actions)
    && b.session == Effects(platform, agent, world, start, b.actions)
    && (agent.mode != Full ==> b.proposed == Expected(platform, agent, b.actions))
  }

  predicate Running(b: Beat) {
    b.actions == [] || b.actions[|b.actions| - 1] != Check(false)
  }

  predicate Cleared(b: Beat) {
    b.actions != [] && b.actions[|b.actions| - 1] == Check(true)
  }

  function Acted(world: World, b: Beat, a: Action): Beat {
    b.(tally := Counted(world, b.tally, a), actions := b.actions + [a])
  }

  lemma GroundedSnoc(agent: Agent, world: World, actions: seq<Action>, a: Action)
    requires Grounded(agent, world, actions) && Fits(agent, world, TallyOf(world, actions), a)
    ensures Grounded(agent, world, actions + [a])
    ensures TallyOf(world, actions + [a]) == Counted(world, TallyOf(world, actions), a)
  {
    assert (actions + [a])[..|actions|] == actions;
    forall i | 0 <= i < |actions|
      ensures Fits(agent, world, TallyOf(world, (actions + [a])[..i]), (actions + [a])[i])
    {
      assert (actions + [a])[..i] == actions[..i];
    }
  }

  /** An action other than a dispatch leaves session and proposals alone. */
  lemma QuietAction(platform: Platform, agent: Agent, world: World, start: Journal.Session, b: Beat, a: Action)
    requires BeatInv(platform, agent, world, start, b) && !a.Dispatch? && Fits(agent, world, b.tally, a)
    requires Disciplined(agent, b.actions + [a])
    ensures BeatInv(platform, agent, world, start, Acted(world, b, a))
  {
    GroundedSnoc(agent, world, b.actions, a);
    assert (b.actions + [a])[..|b.actions|] == b.actions;
  }

  /** One stop check. */
  method CheckStop(platform: Platform, agent: Agent, world: World, ghost start: Journal.Session, b: Beat)
      returns (reason: Option<Stop>, b': Beat)
    requires BeatInv(platform, agent, world, start, b) && Running(b)
    ensures BeatInv(platform, agent, world, start, b')
    ensures reason == StopReason(agent, world, b.tally) && b' == Acted(world, b, Check(reason.None?))
  {
    reason := StopReason(agent, world, b.tally);
    QuietAction(platform, agent, world, start, b, Check(reason.None?));
    b' := Acted(world, b, Check(reason.None?));
  }

  /** Dispatch one call that a passed check precedes. */
  method DispatchOne(platform: Platform, agent: Agent, world: World, ghost start: Journal.Session, b: Beat, step: nat, c: ToolCall)
      returns (b': Beat)
    requires BeatInv(platform, agent, world, start, b) && Cleared(b)
    requires Fits(agent, world, b.tally, Dispatch(step, c, world.reports(b.tally.dispatched)))
    ensures BeatInv(platform, agent, world, start, b')
    ensures b'.actions == b.actions + [Dispatch(step, c, world.reports(b.tally.dispatched))]
    ensures b'.tally == Counted(world, b.tally, Dispatch(step, c, world.reports(b.tally.dispatched)))
  {
    var report := world.reports(b.tally.dispatched);
    var r := ScopedDispatch(platform, ScopeFor(platform, agent), c, report);
    b' := Acted(world, b, Dispatch(step, c, report));
    if r.ran && platform.tiers[c.name] == Write {
      b' := b'.(session := world.writes(b.session, c));
    }
    if IsProposal(r) {
      b' := b'.(proposed := b.proposed + [Proposal(step, c)]);
    }
    DispatchKeeps(platform, agent, world, start, b, Dispatch(step, c, report), b');
  }

  lemma DispatchKeeps(platform: Platform, agent: Agent, world: World, start: Journal.Session, b: Beat, a: Action, b': Beat)
    requires BeatInv(platform, agent, world, start, b) && Cleared(b) && a.Dispatch? && Fits(agent, world, b.tally, a)
    requires b'.actions == b.actions + [a] && b'.tally == Counted(world, b.tally, a)
    requires var r := ScopedDispatch(platform, ScopeFor(platform, agent), a.call, a.report);
             && b'.session == (if r.ran && platform.tiers[a.call.name] == Write then world.writes(b.session, a.call) else b.session)
             && b'.proposed == (if IsProposal(r) then b.proposed + [Proposal(a.step, a.call)] else b.proposed)
    ensures BeatInv(platform, agent, world, start, b')
  {
    if agent.mode != Full {
      ProposalsOfPlanMode(platform, agent, a.call, a.report);
    }
    GroundedSnoc(agent, world, b.actions, a);
    DispatchDisciplined(agent, b.actions, a);
    assert (b.actions + [a])[..|b.actions|] == b.actions;
  }

  lemma DispatchDisciplined(agent: Agent, actions: seq<Action>, a: Action)
    requires Disciplined(agent, actions) && actions != [] && actions[|actions| - 1] == Check(true) && a.Dispatch?
    ensures Disciplined(agent, actions + [a])
  {
  }

  /** The last action is a failed check, and this is why it failed. */
  ghost predicate StoppedBy(agent: Agent, world: World, b: Beat, status: Stop) {
    !Running(b) && StopReason(agent, world, TallyOf(world, b.actions[..|b.actions| - 1])) == Some(status)
  }

  /** The calls of one turn, each behind its own stop check, up to the first failed one. */
  method RunCalls(platform: Platform, agent: Agent, world: World, ghost start: Journal.Session, b: Beat, step: nat)
      returns (reason: Option<Stop>, b': Beat)
    requires BeatInv(platform, agent, world, start, b) && Running(b)
    requires b.tally.asks == step && b.tally.ran == 0 && world.turns(step).Reply?
    ensures BeatInv(platform, agent, world, start, b') && b'.tally.asks == step
    ensures reason.None? <==> Running(b')
    ensures reason.None? ==> b'.tally.ran == |world.turns(step).calls|
    ensures reason.Some? ==> StoppedBy(agent, world, b', reason.value)
  {
    var calls := world.turns(step).calls;
    b', reason := b, None;
    var i := 0;
    while i < |calls| && reason.None?
      invariant BeatInv(platform, agent, world, start, b') && b'.tally.asks == step
      invariant i == b'.tally.ran <= |calls|
      invariant reason.None? <==> Running(b')
      invariant reason.Some? ==> StoppedBy(agent, world, b', reason.value)
      decreases |calls| - i, if reason.None? then 1 else 0
    {
      ghost var before := b';
      reason, b' := CheckStop(platform, agent, world, start, b');
      assert b'.actions[..|b'.actions| - 1] == before.actions;
      if reason.None? {
        b' := DispatchOne(platform, agent, world, start, b', step, calls[i]);
        i := i + 1;
      }
    }
  }

  /** One model call, right after a passed check. */
  method AskModel(platform: Platform, agent: Agent, world: World, ghost start: Journal.Session, b: Beat, step: nat) returns (b': Beat)
    requires BeatInv(platform, agent, world, start, b) && Cleared(b)
    requires b.tally.usage <= agent.maxTokens && step == b.tally.asks + 1 && TurnOver(world, b.tally)
    ensures BeatInv(platform, agent, world, start, b') && b' == Acted(world, b, Ask(step, b.tally.usage))
  {
    QuietAction(platform, agent, world, start, b, Ask(step, b.tally.usage));
    b' := Acted(world, b, Ask(step, b.tally.usage));
  }

  /** Why a heartbeat with these actions ended: a failed check, a model that raised,
      an answer without calls, or the last allowed step. */
  ghost predicate Explains(agent: Agent, world: World, b: Beat, status: Stop) {
    if !Running(b) then StoppedBy(agent, world, b, status)
    else if b.tally.asks > 0 && world.turns(b.tally.asks).Raised? then status == Failed
    else if b.tally.asks > 0 && world.turns(b.tally.asks).calls == [] then status == Done
    else status == BudgetExceeded && b.tally.asks == agent.maxSteps && TurnOver(world, b.tally)
  }

  /** One step of the wake: check, ask, run the calls. `reason` is why it ends here. */
  method OneStep(platform: Platform, agent: Agent, world: World, ghost start: Journal.Session, b: Beat, step: nat)
      returns (reason: Option<Stop>, b': Beat)
    requires BeatInv(platform, agent, world, start, b) && Running(b)
    requires step == b.tally.asks + 1 && TurnOver(world, b.tally)
    ensures BeatInv(platform, agent, world, start, b') && b'.tally.asks <= step
    ensures reason.None? ==> Running(b') && b'.tally.asks == step && TurnOver(world, b'.tally)
    ensures reason.Some? ==> Explains(agent, world, b', reason.value)
  {
    reason, b' := CheckStop(platform, agent, world, start, b);
    assert b'.actions[..|b'.actions| - 1] == b.actions;
    if reason.None? {
      reason, b' := OneTurn(platform, agent, world, start, b', step);
    }
  }

  /** The model's turn behind a passed check, and what it asks for. */
  method OneTurn(platform: Platform, agent: Agent, world: World, ghost start: Journal.Session, b: Beat, step: nat)
      returns (reason: Option<Stop>, b': Beat)
    requires BeatInv(platform, agent, world, start, b) && Cleared(b) && b.tally.usage <= agent.maxTokens
    requires step == b.tally.asks + 1 && TurnOver(world, b.tally)
    ensures BeatInv(platform, agent, world, start, b') && b'.tally.asks == step
    ensures reason.None? ==> Running(b') && TurnOver(world, b'.tally)
    ensures reason.Some? ==> Explains(agent, world, b', reason.value)
  {
    b' := AskModel(platform, agent, world, start, b, step);
    var turn := world.turns(step);
    if turn.Raised? {
      reason := Some(Failed);
    } else if turn.calls == [] {
      reason := Some(Done);
    } else {
      reason, b' := RunCalls(platform, agent, world, start, b', step);
    }
  }

  /** One wake, to completion or to a limit. Whatever the model replies: its turns
      are taken in order and their calls dispatched in order, at most `maxSteps` model
      calls are made, each begun within the token limit, and nothing follows a failed
      check; the status says what ended it. Short of full mode the registry and its
      journal are as they were and the granted writes reached are proposed, in order. */
  method RunHeartbeat(platform: Platform, agent: Agent, world: World, start: Journal.Session)
      returns (status: Stop, b: Beat)
    ensures Disciplined(agent, b.actions) && Grounded(agent, world, b.actions)
    ensures TallyOf(world, b.actions).asks <= agent.maxSteps
    ensures b.session == Effects(platform, agent, world, start, b.actions)
    ensures agent.mode != Full ==> b.session == start && b.proposed == Expected(platform, agent, b.actions)
    ensures Explains(agent, world, b, status)
  {
    b := Beat(start, [], Tally(0, 0, 0, 0, 0), []);
    status := BudgetExceeded;
    var step := 1;
    while step <= agent.maxSteps
      invariant BeatInv(platform, agent, world, start, b) && Running(b) && status == BudgetExceeded
      invariant 1 <= step <= agent.maxSteps + 1 && b.tally.asks == step - 1
      invariant TurnOver(world, b.tally)
    {
      var reason;
      reason, b := OneStep(platform, agent, world, start, b, step);
      if reason.Some? {
        status := reason.value;
        break;
      }
      step := step + 1;
    }
    if agent.mode != Full {
      NoEffects(platform, agent, world, start, b.actions);
    }
  }
}
