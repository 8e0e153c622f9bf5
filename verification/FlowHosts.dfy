/** The hosts of a fleet: each claims placements, starts listeners and, once per
    round, tears down what was stopped. Hosts interleave with each other, with the
    coordinator's stops and with re-placements at every point where they wait. */
module FlowHosts {
  import opened Wrappers
  import opened Fleet

  type HostId = string

  // ---------------------------------------------------------------- the protocol

  /** Where a host stands in its loop. `Sweeping(left)` is the teardown pass with
      the runs it still has to look at. */
  datatype Phase = Idle | Polling | Claimed(p: Placement) | Cleared(p: Placement) | Sweeping(left: set<RunId>)

  /** `since` is what was stopped when the current, or last, round began. */
  datatype Host = Host(hosted: map<InstanceId, RunId>, phase: Phase, since: set<RunId>)

  datatype Net = Net(stopped: set<RunId>, queue: seq<Placement>, hosts: map<HostId, Host>)

  /** What one host may do next. */
  datatype HostAction =
    | BeginRound
    | Claim
    | CheckClaim(servedElsewhere: bool)
    | StartListener(ok: bool)
    | SweepRun(run: RunId)
    | EndRound

  datatype Action =
    | Push(p: Placement)
    | Stop(run: RunId)
    | Join(h: HostId)
    | Leave(h: HostId)
    | At(h: HostId, step: HostAction)

  function RunsOf(hosted: map<InstanceId, RunId>): set<RunId> {
    set i | i in hosted :: hosted[i]
  }

  /** Tear down every listener of one run. */
  function Without(hosted: map<InstanceId, RunId>, run: RunId): map<InstanceId, RunId> {
    map i | i in hosted && hosted[i] != run :: hosted[i]
  }

  function HostStep(n: Net, h: Host, a: HostAction): Host {
    match (a, h.phase)
    case (BeginRound, Idle) => h.(phase := Polling, since := n.stopped)
    case (Claim, Polling) =>
      if n.queue == [] then h.(phase := Sweeping(RunsOf(h.hosted))) else h.(phase := Claimed(n.queue[0]))
    case (CheckClaim(elsewhere), Claimed(p)) =>
      if p.run in n.stopped || elsewhere then h.(phase := Sweeping(RunsOf(h.hosted))) else h.(phase := Cleared(p))
    case (StartListener(ok), Cleared(p)) =>
      var hosted := if ok then h.hosted[p.instance := p.run] else h.hosted;
      h.(hosted := hosted, phase := Sweeping(RunsOf(hosted)))
    case (SweepRun(run), Sweeping(left)) =>
      if run !in left then h
      else h.(hosted := if run in n.stopped then Without(h.hosted, run) else h.hosted, phase := Sweeping(left - {run}))
    case (EndRound, Sweeping(left)) => if left == {} then h.(phase := Idle) else h
    case _ => h
  }

  function Next(n: Net, a: Action): Net {
    match a
    case Push(p) => n.(queue := n.queue + [p])
    case Stop(run) => n.(stopped := n.stopped + {run})
    case Join(h) => if h in n.hosts then n else n.(hosts := n.hosts[h := Host(map[], Idle, n.stopped)])
    case Leave(h) => n.(hosts := n.hosts - {h})
    case At(h, step) =>
      if h !in n.hosts then n
      else
        var taken := step.Claim? && n.hosts[h].phase.Polling? && n.queue != [];
        Net(n.stopped, if taken then n.queue[1..] else n.queue, n.hosts[h := HostStep(n, n.hosts[h], step)])
  }

  function Run(actions: seq<Action>): Net {
    if actions == [] then Net({}, [], map[]) else Next(Run(actions[..|actions| - 1]), actions[|actions| - 1])
  }

  /** A round never loses sight of a run that was stopped before it began: such a
      run is not started, and stays on the list of the teardown pass until it goes. */
  predicate HostInv(n: Net, h: Host) {
    && h.since <= n.stopped
    && match h.phase
       case Idle => forall i :: i in h.hosted ==> h.hosted[i] !in h.since
       case Polling => true
       case Claimed(_) => true
       case Cleared(p) => p.run !in h.since
       case Sweeping(left) => forall i :: i in h.hosted && h.hosted[i] in h.since ==> h.hosted[i] in left
  }

  lemma HostStepKeeps(n: Net, h: Host, a: HostAction)
    requires HostInv(n, h)
    ensures HostInv(n, HostStep(n, h, a))
  {
  }

  lemma {:induction false} RunInv(actions: seq<Action>)
    ensures forall h :: h in Run(actions).hosts ==> HostInv(Run(actions), Run(actions).hosts[h])
  {
    if actions != [] {
      var n, a := Run(actions[..|actions| - 1]), actions[|actions| - 1];
      RunInv(actions[..|actions| - 1]);
      if a.At? && a.h in n.hosts {
        HostStepKeeps(n, n.hosts[a.h], a.step);
      }
    }
  }

  lemma {:induction false} StopsAreForever(actions: seq<Action>, j: nat)
    requires j <= |actions|
    ensures Run(actions[..j]).stopped <= Run(actions).stopped
  {
    if j == |actions| {
      assert actions[..j] == actions;
    } else {
      var k := |actions| - 1;
      assert actions[..k][..j] == actions[..j];
      StopsAreForever(actions[..k], j);
    }
  }

  /** The runs a round remembers only grow, also over a restart of the host. */
  lemma {:induction false} SinceGrows(actions: seq<Action>, j: nat, h: HostId, run: RunId)
    requires j < |actions| && actions[j] == At(h, BeginRound)
    requires h in Run(actions[..j]).hosts && Run(actions[..j]).hosts[h].phase.Idle?
    requires run in Run(actions[..j]).stopped
    ensures h in Run(actions).hosts ==> run in Run(actions).hosts[h].since
    ensures run in Run(actions).stopped
  {
    var k := |actions| - 1;
    if j < k {
      assert actions[..k][..j] == actions[..j];
      SinceGrows(actions[..k], j, h, run);
    }
  }

  /** No zombie listeners: once a host has begun a round after a run was stopped,
      its table holds nothing of that run at the end of that round or of any later
      one, however claims, starts, stops and re-placements interleave. */
  lemma NoZombies(actions: seq<Action>, j: nat, h: HostId, run: RunId)
    requires j < |actions| && actions[j] == At(h, BeginRound)
    requires h in Run(actions[..j]).hosts && Run(actions[..j]).hosts[h].phase.Idle?
    requires run in Run(actions[..j]).stopped
    requires h in Run(actions).hosts && Run(actions).hosts[h].phase.Idle?
    ensures run !in RunsOf(Run(actions).hosts[h].hosted)
  {
    SinceGrows(actions, j, h, run);
    RunInv(actions);
  }

  // ---------------------------------------------------------------- one host's loop

  /** What the host sees: `stops(k)` is the stop set at its k-th look, and only grows. */
  ghost predicate Growing(stops: nat -> set<RunId>) {
    forall i: nat, j: nat :: i <= j ==> stops(i) <= stops(j)
  }

  /** How a claimed placement fares on this host. */
  datatype Attempt = Attempt(claim: Option<Placement>, servedElsewhere: bool, starts: bool)

  /** One step of a host, taken while it sees the k-th stop set. */
  datatype Look = Look(k: nat, queue: seq<Placement>, action: HostAction)

  /** The host after a list of protocol steps. */
  function Follow(stops: nat -> set<RunId>, h: Host, steps: seq<Look>): Host {
    if steps == [] then h
    else
      var last := steps[|steps| - 1];
      HostStep(Net(stops(last.k), last.queue, map[]), Follow(stops, h, steps[..|steps| - 1]), last.action)
  }

  /** Later steps see later stop sets, the first one the set the round begins with. */
  predicate InTime(steps: seq<Look>, last: nat) {
    && steps != [] && steps[0].k == 0 && steps[0].action == BeginRound
    && (forall i, j :: 0 <= i < j < |steps| ==> steps[i].k <= steps[j].k)
    && forall i :: 0 <= i < |steps| ==> steps[i].k <= last
  }

  /** How a round begins, given what it claims. */
  function Opening(stops: nat -> set<RunId>, a: Attempt): seq<Look> {
    if a.claim.None? then [Look(0, [], BeginRound), Look(0, [], Claim)]
    else
      [Look(0, [], BeginRound), Look(0, [a.claim.value], Claim), Look(1, [], CheckClaim(a.servedElsewhere))]
      + if a.claim.value.run in stops(1) || a.servedElsewhere then [] else [Look(1, [], StartListener(a.starts))]
  }

  lemma OneMoreStep(stops: nat -> set<RunId>, h: Host, steps: seq<Look>, last: nat, x: Look)
    requires InTime(steps, last) && last <= x.k
    ensures InTime(steps + [x], x.k)
    ensures Follow(stops, h, steps + [x]) == HostStep(Net(stops(x.k), x.queue, map[]), Follow(stops, h, steps), x.action)
  {
    assert (steps + [x])[..|steps|] == steps;
  }

  class FlowHost {
    var hosted: map<InstanceId, RunId>
    var retracted: seq<InstanceId>
    var started: nat

    constructor ()
      ensures hosted == map[] && retracted == [] && started == 0
    {
      hosted, retracted, started := map[], [], 0;
    }

    /** Forget one listener and retract its advertisement. */
    method StopInstance(i: InstanceId)
      modifies this`hosted, this`retracted
      ensures hosted == old(hosted) - {i}
      ensures retracted == if i in old(hosted) then old(retracted) + [i] else old(retracted)
    {
      if i in hosted {
        hosted := hosted - {i};
        retracted := retracted + [i];
      }
    }

    /** Tear down every listener of a stopped run. */
    method StopRunHere(run: RunId)
      modifies this`hosted, this`retracted
      ensures hosted == Without(old(hosted), run)
      ensures old(retracted) <= retracted
      ensures forall i :: i in retracted[|old(retracted)|..] <==> i in old(hosted) && old(hosted)[i] == run
    {
      var mine := set i | i in hosted && hosted[i] == run;
      while mine != {}
        invariant forall i :: i in mine ==> i in hosted && hosted[i] == run
        invariant forall i :: i in hosted && hosted[i] == run ==> i in mine
        invariant Without(hosted, run) == Without(old(hosted), run)
        invariant hosted.Keys <= old(hosted).Keys && forall i :: i in hosted ==> hosted[i] == old(hosted)[i]
        invariant old(retracted) <= retracted
        invariant forall i :: i in retracted[|old(retracted)|..] <==> i in old(hosted) && i !in hosted
        decreases mine
      {
        var i :| i in mine;
        ghost var before := retracted;
        StopInstance(i);
        assert retracted[|old(retracted)|..] == before[|old(retracted)|..] + [i];
        mine := mine - {i};
      }
      assert Without(hosted, run) == hosted;
    }

    /** Claim at most one placement and start it, unless its run is stopped or
        another host already serves it. */
    method TryStart(stops: nat -> set<RunId>, a: Attempt, ghost since: set<RunId>) returns (k: nat, ghost steps: seq<Look>)
      modifies this`hosted, this`started
      ensures k <= 1 && InTime(steps, k) && steps == Opening(stops, a)
      ensures Follow(stops, Host(old(hosted), Idle, since), steps) == Host(hosted, Sweeping(RunsOf(hosted)), stops(0))
      ensures hosted != old(hosted) ==> started == old(started) + 1
    {
      ghost var h := Host(hosted, Idle, since);
      ghost var queue := if a.claim.Some? then [a.claim.value] else [];
      k, steps := 0, [Look(0, [], BeginRound)];
      assert steps[..0] == [];
      OneMoreStep(stops, h, steps, 0, Look(0, queue, Claim));
      steps := steps + [Look(0, queue, Claim)];
      if a.claim.Some? {
        k := 1;
        OneMoreStep(stops, h, steps, 0, Look(1, [], CheckClaim(a.servedElsewhere)));
        steps := steps + [Look(1, [], CheckClaim(a.servedElsewhere))];
        if a.claim.value.run !in stops(1) && !a.servedElsewhere {
          OneMoreStep(stops, h, steps, 1, Look(1, [], StartListener(a.starts)));
          steps := steps + [Look(1, [], StartListener(a.starts))];
          if a.starts {
            hosted := hosted[a.claim.value.instance := a.claim.value.run];
            started := started + 1;
          }
        }
      }
    }

    /** One round of the loop: start at most one claim, then sweep the hosted runs,
        each against the stops seen at that moment. It is a round of the protocol,
        so all that is proved of hosts there holds of this one. */
    method Round(stops: nat -> set<RunId>, a: Attempt, ghost since: set<RunId>) returns (last: nat, ghost steps: seq<Look>)
      requires Growing(stops)
      modifies this
      ensures InTime(steps, last) && Opening(stops, a) <= steps
      ensures Follow(stops, Host(old(hosted), Idle, since), steps) == Host(hosted, Idle, stops(0))
      ensures forall i :: i in hosted ==> hosted[i] !in stops(0)
    {
      ghost var h := Host(hosted, Idle, since);
      last, steps := TryStart(stops, a, since);
      var left := RunsOf(hosted);
      while left != {}
        invariant InTime(steps, last) && Opening(stops, a) <= steps
        invariant Follow(stops, h, steps) == Host(hosted, Sweeping(left), stops(0))
        invariant forall i :: i in hosted ==> hosted[i] in left || hosted[i] !in stops(0)
        decreases left
      {
        var run :| run in left;
        OneMoreStep(stops, h, steps, last, Look(last + 1, [], SweepRun(run)));
        steps := steps + [Look(last + 1, [], SweepRun(run))];
        left := left - {run};
        last := last + 1;
        assert stops(0) <= stops(last);
        if run in stops(last) {
          StopRunHere(run);
        }
      }
      OneMoreStep(stops, h, steps, last, Look(last, [], EndRound));
      steps := steps + [Look(last, [], EndRound)];
    }

    /** Leaving the loop, for whatever reason, takes every listener down. */
    method Shutdown()
      modifies this`hosted, this`retracted
      ensures hosted == map[]
    {
      while hosted != map[]
        decreases hosted.Keys
      {
        var i :| i in hosted;
        StopInstance(i);
      }
    }
  }
}
