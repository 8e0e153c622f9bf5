/** The memoised backward walk behind the human gate. The validator runs it over
    all edges with approvals' approved edges as gates; the engine runs it over the
    edges that fired with the edges out of approved approvals as gates. */
module GateWalk {
  import opened Graphs
  import opened Workflows

  ghost predicate Connects(edges: seq<Edge>, p: seq<Edge>, n: Id, m: Id) {
    p != [] && Chain(edges, p) && p[0].src == n && p[|p| - 1].dst == m
  }

  /** There is a non-empty chain from `n` to `m`. */
  ghost predicate Leads(edges: seq<Edge>, n: Id, m: Id) {
    exists p :: Connects(edges, p, n, m)
  }

  lemma LeadsPrepend(edges: seq<Edge>, e: Edge, m: Id)
    requires e in edges && Leads(edges, e.dst, m)
    ensures Leads(edges, e.src, m)
  {
    var p: seq<Edge> :| Connects(edges, p, e.dst, m);
    var q := [e] + p;
    forall i | 0 < i < |q|
      ensures q[i - 1].dst == q[i].src
    {
      if i > 1 {
        assert p[i - 2].dst == p[i - 1].src;
      }
    }
    assert Connects(edges, q, e.src, m);
  }

  lemma LeadsOne(edges: seq<Edge>, e: Edge)
    requires e in edges
    ensures Leads(edges, e.src, e.dst)
  {
    assert Connects(edges, [e], e.src, e.dst);
  }

  lemma LeadsBackIsCycle(edges: seq<Edge>, n: Id)
    requires Leads(edges, n, n)
    ensures HasCycle(edges)
  {
    var p: seq<Edge> :| Connects(edges, p, n, n);
    assert IsCycle(edges, p);
  }

  /** The edges between known nodes that lead to `n`, in list order. */
  function KnownInto(ids: set<Id>, edges: seq<Edge>, n: Id): seq<Edge> {
    if edges == [] then []
    else
      var e := edges[|edges| - 1];
      KnownInto(ids, edges[..|edges| - 1], n) +
      if e.dst == n && n != END && e.src in ids && n in ids then [e] else []
  }

  lemma {:induction false} KnownIntoMembers(ids: set<Id>, edges: seq<Edge>, n: Id, e: Edge)
    requires e in KnownInto(ids, edges, n)
    ensures e in edges && e.dst == n && e.src in ids
  {
    var k := |edges| - 1;
    if e in KnownInto(ids, edges[..k], n) {
      KnownIntoMembers(ids, edges[..k], n, e);
    } else {
      assert e == edges[k];
    }
  }

  lemma {:induction false} KnownIntoIsInto(ids: set<Id>, edges: seq<Edge>, n: Id)
    requires EdgesKnown(ids, edges) && n in ids && n != END
    ensures KnownInto(ids, edges, n) == Into(edges, n)
  {
    if edges != [] {
      KnownIntoIsInto(ids, edges[..|edges| - 1], n);
      assert edges[|edges| - 1] in edges;
    }
  }

  /** Edges between known nodes, grouped by target. */
  method Predecessors(ids: set<Id>, edges: seq<Edge>) returns (preds: map<Id, seq<Edge>>)
    requires END !in ids
    ensures preds.Keys == ids
    ensures forall n, e :: n in ids && e in preds[n] ==> e in edges && e.src in ids && e.dst == n
    ensures EdgesKnown(ids, edges) ==> forall n :: n in ids ==> preds[n] == Into(edges, n)
  {
    preds := map n | n in ids :: [];
    var i := 0;
    while i < |edges|
      invariant 0 <= i <= |edges|
      invariant preds.Keys == ids
      invariant forall n :: n in ids ==> preds[n] == KnownInto(ids, edges[..i], n)
    {
      var e := edges[i];
      assert edges[..i + 1][..i] == edges[..i];
      if e.dst != END && e.src in ids && e.dst in ids {
        preds := preds[e.dst := preds[e.dst] + [e]];
      }
      i := i + 1;
    }
    assert edges[..|edges|] == edges;
    Grouped(ids, edges, preds);
  }

  lemma Grouped(ids: set<Id>, edges: seq<Edge>, preds: map<Id, seq<Edge>>)
    requires END !in ids && preds.Keys == ids && forall n :: n in ids ==> preds[n] == KnownInto(ids, edges, n)
    ensures forall n, e :: n in ids && e in preds[n] ==> e in edges && e.src in ids && e.dst == n
    ensures EdgesKnown(ids, edges) ==> forall n :: n in ids ==> preds[n] == Into(edges, n)
  {
    forall n, e | n in ids && e in preds[n]
      ensures e in edges && e.src in ids && e.dst == n
    {
      KnownIntoMembers(ids, edges, n, e);
    }
    forall n | n in ids && EdgesKnown(ids, edges)
      ensures preds[n] == Into(edges, n)
    {
      KnownIntoIsInto(ids, edges, n);
    }
  }

  class GateWalker {
    const ids: set<Id>
    const edges: seq<Edge>
    const gates: set<Edge>
    const preds: map<Id, seq<Edge>>
    var memo: map<Id, bool>

    /** The graphs on which the answer means something. */
    ghost predicate Sound() {
      EdgesKnown(ids, edges) && !HasCycle(edges)
    }

    ghost predicate Valid()
      reads this
    {
      && preds.Keys == ids && memo.Keys <= ids
      && (forall n, e :: n in ids && e in preds[n] ==> e in edges && e.src in ids && e.dst == n)
      && (Sound() ==> forall n :: n in ids ==> preds[n] == Into(edges, n))
      && (forall n :: n in memo ==> Answers(n, memo[n]))
    }

    /** `ok` is the right answer for `n`. */
    ghost predicate Answers(n: Id, ok: bool) {
      Sound() ==> ok == EveryPathGated(edges, gates, n)
    }

    ghost predicate Passes(e: Edge) {
      e in gates || EveryPathGated(edges, gates, e.src)
    }

    constructor (ids: set<Id>, edges: seq<Edge>, gates: set<Edge>, preds: map<Id, seq<Edge>>)
      requires preds.Keys == ids
      requires forall n, e :: n in ids && e in preds[n] ==> e in edges && e.src in ids && e.dst == n
      requires EdgesKnown(ids, edges) ==> forall n :: n in ids ==> preds[n] == Into(edges, n)
      ensures Valid() && this.ids == ids && this.edges == edges && this.gates == gates
    {
      this.ids, this.edges, this.gates, this.preds := ids, edges, gates, preds;
      memo := map[];
    }

    /** Is every chain from a start node to `n` gated? `stack` holds the nodes the
        walk came through; a repeat can only happen on a cyclic graph. */
    method Walk(n: Id, stack: set<Id>) returns (ok: bool)
      requires Valid() && n in ids && stack <= ids
      requires LeadsToAll(n, stack)
      modifies this`memo
      ensures Valid()
      ensures Answers(n, ok)
      decreases |ids - stack|, if n in stack then 1 else 0, 2
    {
      if n in memo {
        return memo[n];
      }
      ok := AllIncoming(n, stack);
      memo := memo[n := ok];
    }

    /** A start node fails; any other passes when all its incoming edges do. */
    method AllIncoming(n: Id, stack: set<Id>) returns (ok: bool)
      requires Valid() && n in ids && stack <= ids
      requires LeadsToAll(n, stack)
      modifies this`memo
      ensures Valid() && Answers(n, ok)
      decreases |ids - stack|, if n in stack then 1 else 0, 1
    {
      var into := preds[n];
      ok := into != [];
      var i := 0;
      while i < |into| && ok
        invariant 0 <= i <= |into| && Valid()
        invariant ok ==> into != []
        invariant Sound() && into != [] ==> (ok <==> AllPass(into[..i]))
      {
        var e := into[i];
        assert e in into;
        ok := Check(e, stack);
        assert into[..i + 1] == into[..i] + [e];
        OneMorePasses(into[..i], e);
        i := i + 1;
      }
      if Sound() {
        assert ok ==> into[..i] == into;
        Conclude(n, into, into[..i], ok);
      }
    }

    lemma OneMorePasses(es: seq<Edge>, e: Edge)
      ensures AllPass(es + [e]) <==> AllPass(es) && Passes(e)
    {
      assert forall x :: x in es + [e] <==> x in es || x == e;
    }

    /** One incoming edge: a gate passes, a repeat fails, otherwise ask its source. */
    method Check(e: Edge, stack: set<Id>) returns (ok: bool)
      requires Valid() && e in edges && e.src in ids && e.dst in ids && stack <= ids
      requires LeadsToAll(e.dst, stack)
      modifies this`memo
      ensures Valid()
      ensures Sound() ==> ok == Passes(e)
      decreases |ids - stack|, if e.dst in stack then 1 else 0, 0
    {
      if e in gates {
        return true;
      }
      if e.src in stack {
        Repeat(e, stack);
        return false;
      }
      Deeper(e, stack);
      ok := Walk(e.src, stack + {e.dst});
    }

    ghost predicate LeadsToAll(n: Id, stack: set<Id>) {
      forall m :: m in stack ==> Leads(edges, n, m)
    }

    ghost predicate AllPass(es: seq<Edge>) {
      forall e :: e in es ==> Passes(e)
    }

    lemma Conclude(n: Id, into: seq<Edge>, seen: seq<Edge>, ok: bool)
      requires into == Into(edges, n) && (forall e :: e in seen ==> e in into)
      requires ok <==> into != [] && AllPass(seen)
      requires ok ==> seen == into
      ensures ok <==> EveryPathGated(edges, gates, n)
    {
      GatedStep(edges, gates, n);
    }

    lemma Repeat(e: Edge, stack: set<Id>)
      requires e in edges && e.src in stack
      requires LeadsToAll(e.dst, stack)
      ensures !Sound()
    {
      LeadsPrepend(edges, e, e.src);
      LeadsBackIsCycle(edges, e.src);
    }

    lemma Deeper(e: Edge, stack: set<Id>)
      requires e in edges && e.src in ids && e.src !in stack && stack <= ids && e.dst in ids
      requires LeadsToAll(e.dst, stack)
      ensures LeadsToAll(e.src, stack + {e.dst})
      ensures e.dst !in stack ==> |ids - (stack + {e.dst})| < |ids - stack|
      ensures e.dst in stack ==> stack + {e.dst} == stack
    {
      forall m | m in stack + {e.dst}
        ensures Leads(edges, e.src, m)
      {
        if m in stack {
          LeadsPrepend(edges, e, m);
        } else {
          LeadsOne(edges, e);
        }
      }
      if e.dst !in stack {
        assert ids - stack == (ids - (stack + {e.dst})) + {e.dst};
      }
    }
  }
}
