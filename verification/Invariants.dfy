/** What every step of a run keeps. */
module Invariants {
  import opened Wrappers
  import opened Graphs
  import opened Workflows
  import opened Machine

  // ---------------------------------------------------------------- edges that can no longer fire

  /** `n` ended without being done, or is pending with only dead edges coming in. */
  ghost predicate Doomed(spec: Spec, rank: Id -> nat, g: Nodes, n: Id)
    requires Ranked(spec.edges, rank)
    decreases rank(n)
  {
    match StatusOf(g, n)
    case Skipped => true
    case Failed => true
    case Cancelled => true
    case Pending =>
      Into(spec.edges, n) != [] &&
      forall e :: e in Into(spec.edges, n) ==>
        (StatusOf(g, e.src) == Done && !Fires(spec, e, g.results)) || Doomed(spec, rank, g, e.src)
    case _ => false
  }

  /** Each incoming edge of `n` has fired or never will. */
  ghost predicate Settled(spec: Spec, rank: Id -> nat, g: Nodes, n: Id)
    requires Ranked(spec.edges, rank)
  {
    forall e :: e in Into(spec.edges, n) ==> StatusOf(g, e.src) == Done || Doomed(spec, rank, g, e.src)
  }

  function ResultOf(g: Nodes, n: Id): Option<Outcome> {
    if n in g.results then Some(g.results[n]) else None
  }

  /** The only ways a node may move: what is done stays done with its result, what
      ended otherwise stays so, and only a supported node leaves `pending` to run. */
  ghost predicate NodeEvolves(spec: Spec, g: Nodes, g': Nodes, n: Id) {
    var s, s' := StatusOf(g, n), StatusOf(g', n);
    && (s == Done ==> s' == Done && ResultOf(g', n) == ResultOf(g, n))
    && (s in {Skipped, Failed, Cancelled} ==> s' == s && ResultOf(g', n) == ResultOf(g, n))
    && (s in {Running, Waiting} ==> s' !in {Pending, Deferred, Skipped})
    && (s == Deferred ==> s' != Skipped)
    && (s == Pending && s' !in {Pending, Skipped, Cancelled} ==> Supported(spec, g, n))
  }

  ghost predicate Evolves(spec: Spec, g: Nodes, g': Nodes) {
    forall n :: n in g.states || n in g'.states ==> NodeEvolves(spec, g, g', n)
  }

  /** The part of evolving that chains over whole runs. */
  ghost predicate Keeps(g: Nodes, g': Nodes) {
    forall n ::
      && (StatusOf(g, n) in {Done, Skipped, Failed, Cancelled} ==>
            StatusOf(g', n) == StatusOf(g, n) && ResultOf(g', n) == ResultOf(g, n))
      && (StatusOf(g, n) in {Running, Waiting} ==> StatusOf(g', n) !in {Pending, Deferred, Skipped})
  }

  lemma {:induction false} DoomedStays(spec: Spec, rank: Id -> nat, g: Nodes, g': Nodes, n: Id)
    requires Ranked(spec.edges, rank) && Evolves(spec, g, g') && Doomed(spec, rank, g, n)
    ensures Doomed(spec, rank, g', n)
    decreases rank(n)
  {
    if StatusOf(g, n) == Pending {
      forall e | e in Into(spec.edges, n)
        ensures !Fired(spec, g, e)
        ensures (StatusOf(g', e.src) == Done && !Fires(spec, e, g'.results)) || Doomed(spec, rank, g', e.src)
      {
        EdgeStays(spec, rank, g, g', e);
      }
      assert !Supported(spec, g, n);
    }
  }

  /** An edge whose source is done or doomed keeps its verdict. */
  lemma {:induction false} EdgeStays(spec: Spec, rank: Id -> nat, g: Nodes, g': Nodes, e: Edge)
    requires Ranked(spec.edges, rank) && Evolves(spec, g, g') && e in spec.edges
    requires StatusOf(g, e.src) == Done || Doomed(spec, rank, g, e.src)
    ensures StatusOf(g', e.src) == Done || Doomed(spec, rank, g', e.src)
    ensures Fired(spec, g, e) <==> Fired(spec, g', e)
    ensures StatusOf(g, e.src) == Done ==> StatusOf(g', e.src) == Done
    ensures StatusOf(g, e.src) == Done ==> (Fires(spec, e, g.results) <==> Fires(spec, e, g'.results))
    ensures Doomed(spec, rank, g, e.src) ==> Doomed(spec, rank, g', e.src)
    decreases rank(e.dst), 0
  {
    if StatusOf(g, e.src) == Done {
      assert ResultOf(g, e.src) == ResultOf(g', e.src);
    } else {
      DoomedStays(spec, rank, g, g', e.src);
    }
  }

  lemma SettledStays(spec: Spec, rank: Id -> nat, g: Nodes, g': Nodes, n: Id)
    requires Ranked(spec.edges, rank) && Evolves(spec, g, g') && Settled(spec, rank, g, n)
    ensures Settled(spec, rank, g', n)
    ensures forall e :: e in Into(spec.edges, n) ==> (Fired(spec, g, e) <==> Fired(spec, g', e))
    ensures Supported(spec, g, n) <==> Supported(spec, g', n)
  {
    forall e | e in Into(spec.edges, n)
      ensures StatusOf(g', e.src) == Done || Doomed(spec, rank, g', e.src)
      ensures Fired(spec, g, e) <==> Fired(spec, g', e)
    {
      EdgeStays(spec, rank, g, g', e);
    }
  }

  // ---------------------------------------------------------------- the invariant on the dictionaries

  predicate HasRun(s: Status) {
    s == Running || s == Waiting || s == Deferred || s == Done || s == Failed
  }

  ghost predicate NodeInv(spec: Spec, rank: Id -> nat, g: Nodes, n: Id)
    requires Ranked(spec.edges, rank)
  {
    var s := StatusOf(g, n);
    && (HasRun(s) ==> Supported(spec, g, n) && Settled(spec, rank, g, n))
    && (s == Skipped ==> !Supported(spec, g, n) && Settled(spec, rank, g, n))
    && (n in g.results ==> s == Done || s == Failed)
    && (HasKind(spec, n, Condition) && s == Done ==> n in g.results)
    && (s == Running || s == Deferred ==> HasKind(spec, n, AgentTask))
    && (HasKind(spec, n, Approval) ==>
          && (s == Done ==> n in g.results && g.results[n].Decided?)
          && (n in g.results ==> s == Done))
    && (n in g.states && g.states[n].approval.Some? ==>
          HasKind(spec, n, Approval) && s in {Waiting, Done, Failed, Cancelled})
  }

  ghost predicate NodesInv(spec: Spec, rank: Id -> nat, g: Nodes)
    requires Ranked(spec.edges, rank)
  {
    && g.states.Keys == IdSet(spec)
    && g.results.Keys <= IdSet(spec)
    && forall n :: n in g.states ==> NodeInv(spec, rank, g, n)
  }

  /** A step that only moves nodes the allowed ways keeps the invariant of every
      node it leaves alone. */
  lemma UntouchedNode(spec: Spec, rank: Id -> nat, g: Nodes, g': Nodes, n: Id)
    requires Ranked(spec.edges, rank) && Evolves(spec, g, g') && NodeInv(spec, rank, g, n)
    requires n in g.states && n in g'.states && g.states[n] == g'.states[n] && ResultOf(g, n) == ResultOf(g', n)
    ensures NodeInv(spec, rank, g', n)
  {
    if HasRun(StatusOf(g, n)) || StatusOf(g, n) == Skipped {
      SettledStays(spec, rank, g, g', n);
    }
  }

  /** The dictionaries differ only in nodes the pass has skipped since the last save. */
  ghost predicate OnlySkips(spec: Spec, rank: Id -> nat, g: Nodes, g': Nodes)
    requires Ranked(spec.edges, rank)
  {
    && g'.results == g.results && g'.states.Keys == g.states.Keys
    && forall n :: n in g.states ==>
         g'.states[n] == g.states[n] ||
         (g'.states[n] == g.states[n].(status := Skipped) && g.states[n].status == Pending && Doomed(spec, rank, g, n))
  }

  lemma {:induction false} SkipsSameDoom(spec: Spec, rank: Id -> nat, g: Nodes, g': Nodes, n: Id)
    requires Ranked(spec.edges, rank) && OnlySkips(spec, rank, g, g')
    ensures Doomed(spec, rank, g, n) <==> Doomed(spec, rank, g', n)
    decreases rank(n)
  {
    forall e | e in Into(spec.edges, n)
      ensures Doomed(spec, rank, g, e.src) <==> Doomed(spec, rank, g', e.src)
      ensures StatusOf(g, e.src) == Done <==> StatusOf(g', e.src) == Done
    {
      SkipsSameDoom(spec, rank, g, g', e.src);
    }
  }

  lemma SkipsSame(spec: Spec, rank: Id -> nat, g: Nodes, g': Nodes)
    requires Ranked(spec.edges, rank) && OnlySkips(spec, rank, g, g')
    ensures Evolves(spec, g, g')
    ensures forall n :: Settled(spec, rank, g, n) <==> Settled(spec, rank, g', n)
    ensures forall n :: Supported(spec, g, n) <==> Supported(spec, g', n)
    ensures forall e :: Fired(spec, g, e) <==> Fired(spec, g', e)
    ensures forall n :: ApprovedOnPath(spec, g, n) <==> ApprovedOnPath(spec, g', n)
  {
    forall n
      ensures Doomed(spec, rank, g, n) <==> Doomed(spec, rank, g', n)
      ensures StatusOf(g, n) == Done <==> StatusOf(g', n) == Done
    {
      SkipsSameDoom(spec, rank, g, g', n);
    }
    FiredSame(spec, g, g', spec.edges);
    assert ApprovedExits(spec, g) == ApprovedExits(spec, g');
  }

  lemma {:induction false} FiredSame(spec: Spec, g: Nodes, g': Nodes, edges: seq<Edge>)
    requires forall e :: e in edges ==> (Fired(spec, g, e) <==> Fired(spec, g', e))
    ensures FiredAmong(spec, g, edges) == FiredAmong(spec, g', edges)
  {
    if edges != [] {
      assert edges[|edges| - 1] in edges;
      FiredSame(spec, g, g', edges[..|edges| - 1]);
    }
  }

  // ---------------------------------------------------------------- the gate, once passed, stays passed

  lemma {:induction false} IntoAmong(spec: Spec, g: Nodes, n: Id)
    ensures forall e :: e in Into(FiredEdges(spec, g), n) <==> e in Into(spec.edges, n) && Fired(spec, g, e)
    ensures Into(FiredEdges(spec, g), n) != [] <==> exists e :: e in Into(spec.edges, n) && Fired(spec, g, e)
  {
    var into := Into(FiredEdges(spec, g), n);
    if into != [] {
      assert into[0] in into;
    }
  }

  /** The run-time gate, one step back along the edges that fired. */
  lemma GateStep(spec: Spec, g: Nodes, n: Id)
    ensures ApprovedOnPath(spec, g, n) <==>
              && (exists e :: e in Into(spec.edges, n) && Fired(spec, g, e))
              && forall e :: e in Into(spec.edges, n) && Fired(spec, g, e) ==>
                   Approved(spec, g, e.src) || ApprovedOnPath(spec, g, e.src)
  {
    GatedStep(FiredEdges(spec, g), ApprovedExits(spec, g), n);
    IntoAmong(spec, g, n);
  }

  lemma {:induction false} GateStays(spec: Spec, rank: Id -> nat, g: Nodes, g': Nodes, n: Id)
    requires Ranked(spec.edges, rank) && EdgesKnown(IdSet(spec), spec.edges)
    requires NodesInv(spec, rank, g) && Evolves(spec, g, g')
    requires Settled(spec, rank, g, n) && ApprovedOnPath(spec, g, n)
    ensures Settled(spec, rank, g', n) && ApprovedOnPath(spec, g', n)
    decreases rank(n)
  {
    SettledStays(spec, rank, g, g', n);
    GateStep(spec, g, n);
    GateStep(spec, g', n);
    forall e | e in Into(spec.edges, n) && Fired(spec, g', e)
      ensures Approved(spec, g', e.src) || ApprovedOnPath(spec, g', e.src)
    {
      assert Fired(spec, g, e) && e.src in g.states;
      assert ResultOf(g, e.src) == ResultOf(g', e.src);
      if !Approved(spec, g, e.src) {
        assert NodeInv(spec, rank, g, e.src);
        GateStays(spec, rank, g, g', e.src);
      }
    }
  }
}
