/** Directed graphs given by a list of labelled edges, as workflow specs give
    them: chains, cycles, topological ranks, and the one question the human gate
    asks ("does every chain from a start node to n cross one of these edges?"). */
module Graphs {
  import opened Wrappers

  type Id = string

  /** An edge; `guard` is the optional `when` of the specification. */
  datatype Edge = Edge(src: Id, dst: Id, guard: Option<string>)

  /** The edges that end in `n`, in list order. */
  function Into(edges: seq<Edge>, n: Id): (r: seq<Edge>)
    ensures forall e :: e in r <==> e in edges && e.dst == n
  {
    if edges == [] then []
    else
      var last := edges[|edges| - 1];
      Into(edges[..|edges| - 1], n) + if last.dst == n then [last] else []
  }

  // ---------------------------------------------------------------- chains

  /** `p` is a walk along `edges`: each edge starts where the one before ended. */
  ghost predicate Chain(edges: seq<Edge>, p: seq<Edge>) {
    && (forall i :: 0 <= i < |p| ==> p[i] in edges)
    && (forall i :: 0 < i < |p| ==> p[i - 1].dst == p[i].src)
  }

  /** The node a chain to `n` leaves from (`n` itself when the chain is empty). */
  function Origin(p: seq<Edge>, n: Id): Id {
    if p == [] then n else p[0].src
  }

  /** `p` leads from a node without incoming edges to `n`. */
  ghost predicate StartChain(edges: seq<Edge>, p: seq<Edge>, n: Id) {
    && Chain(edges, p)
    && (p != [] ==> p[|p| - 1].dst == n)
    && Into(edges, Origin(p, n)) == []
  }

  ghost predicate Crosses(p: seq<Edge>, gates: set<Edge>) {
    exists i :: 0 <= i < |p| && p[i] in gates
  }

  /** Every chain from a start node to `n` crosses one of `gates`. */
  ghost predicate EveryPathGated(edges: seq<Edge>, gates: set<Edge>, n: Id) {
    forall p :: StartChain(edges, p, n) ==> Crosses(p, gates)
  }

  // ---------------------------------------------------------------- cycles and ranks

  ghost predicate IsCycle(edges: seq<Edge>, p: seq<Edge>) {
    p != [] && Chain(edges, p) && p[|p| - 1].dst == p[0].src
  }

  ghost predicate HasCycle(edges: seq<Edge>) {
    exists p :: IsCycle(edges, p)
  }

  /** A topological numbering: every edge leads to a higher number. */
  ghost predicate Ranked(edges: seq<Edge>, rank: Id -> nat) {
    forall e :: e in edges ==> rank(e.src) < rank(e.dst)
  }

  lemma {:induction false} ChainRaisesRank(edges: seq<Edge>, rank: Id -> nat, p: seq<Edge>)
    requires Ranked(edges, rank) && Chain(edges, p) && p != []
    ensures rank(p[0].src) < rank(p[|p| - 1].dst)
  {
    assert p[0] in edges;
    if |p| > 1 {
      assert Chain(edges, p[1..]) by {
        forall i | 0 < i < |p| - 1
          ensures p[1..][i - 1].dst == p[1..][i].src
        {
          assert p[i].dst == p[i + 1].src;
        }
      }
      ChainRaisesRank(edges, rank, p[1..]);
      assert p[0].dst == p[1].src;
    }
  }

  /** A graph with a topological numbering has no cycle. */
  lemma RankedHasNoCycle(edges: seq<Edge>, rank: Id -> nat)
    requires Ranked(edges, rank)
    ensures !HasCycle(edges)
  {
    forall p | IsCycle(edges, p)
      ensures false
    {
      ChainRaisesRank(edges, rank, p);
    }
  }

  // ---------------------------------------------------------------- stuck sets contain a cycle

  ghost predicate HasPredIn(edges: seq<Edge>, s: set<Id>, n: Id) {
    exists e :: e in edges && e.dst == n && e.src in s
  }

  /** Every node of `s` has a predecessor inside `s`. */
  ghost predicate Stuck(edges: seq<Edge>, s: set<Id>) {
    forall n :: n in s ==> HasPredIn(edges, s, n)
  }

  /** A backward walk of any length inside a stuck set. */
  lemma {:induction false} BackWalk(edges: seq<Edge>, s: set<Id>, n: Id, k: nat) returns (p: seq<Edge>)
    requires Stuck(edges, s) && n in s
    ensures |p| == k && Chain(edges, p) && (k > 0 ==> p[k - 1].dst == n)
    ensures forall i :: 0 <= i < k ==> p[i].src in s
    decreases k
  {
    if k == 0 {
      p := [];
    } else {
      assert HasPredIn(edges, s, n);
      var e :| e in edges && e.dst == n && e.src in s;
      var q := BackWalk(edges, s, e.src, k - 1);
      ChainSnoc(edges, q, e);
      p := q + [e];
    }
  }

  lemma ChainSnoc(edges: seq<Edge>, p: seq<Edge>, e: Edge)
    requires Chain(edges, p) && e in edges && (p != [] ==> p[|p| - 1].dst == e.src)
    ensures Chain(edges, p + [e])
  {
  }

  lemma {:induction false} Pigeonhole(q: seq<Id>, s: set<Id>) returns (i: nat, j: nat)
    requires |q| > |s| && forall k :: 0 <= k < |q| ==> q[k] in s
    ensures i < j < |q| && q[i] == q[j]
    decreases |q|
  {
    var last := q[|q| - 1];
    if k :| 0 <= k < |q| - 1 && q[k] == last {
      i, j := k, |q| - 1;
    } else {
      assert |s - {last}| == |s| - 1;
      i, j := Pigeonhole(q[..|q| - 1], s - {last});
    }
  }

  /** A walk that visits a node twice runs round a cycle. */
  lemma RepeatIsCycle(edges: seq<Edge>, p: seq<Edge>, i: nat, j: nat)
    requires Chain(edges, p) && i < j < |p| && p[i].src == p[j].src
    ensures HasCycle(edges)
  {
    var c := p[i..j];
    forall k | 0 < k < |c|
      ensures c[k - 1].dst == c[k].src
    {
      assert p[i + k - 1].dst == p[i + k].src;
    }
    assert p[j - 1].dst == p[j].src;
    assert IsCycle(edges, c);
  }

  /** A non-empty stuck set contains a cycle: walk back far enough and a node repeats. */
  lemma StuckHasCycle(edges: seq<Edge>, s: set<Id>)
    requires s != {} && Stuck(edges, s)
    ensures HasCycle(edges)
  {
    var n :| n in s;
    var p := BackWalk(edges, s, n, |s| + 1);
    var q := Sources(p);
    var i, j := Pigeonhole(q, s);
    RepeatIsCycle(edges, p, i, j);
  }

  ghost function Sources(p: seq<Edge>): (q: seq<Id>)
    ensures |q| == |p| && forall i :: 0 <= i < |p| ==> q[i] == p[i].src
  {
    seq(|p|, i requires 0 <= i < |p| => p[i].src)
  }

  /** Extend a numbering of `done` (closed under predecessors) to all of `ids`. */
  lemma {:induction false} ExtendRank(edges: seq<Edge>, ids: set<Id>, done: set<Id>, rank: Id -> nat)
      returns (full: Id -> nat)
    requires !HasCycle(edges)
    requires forall e :: e in edges ==> e.src in ids
    requires done <= ids
    requires forall n :: n in done ==> rank(n) < |done|
    requires forall e :: e in edges && e.dst in done ==> e.src in done && rank(e.src) < rank(e.dst)
    ensures Ranked(edges, full)
    decreases ids - done
  {
    var rest := ids - done;
    if rest == {} {
      full := n => if n in done then rank(n) else |done|;
    } else {
      if Stuck(edges, rest) {
        StuckHasCycle(edges, rest);
      }
      var n :| n in rest && !HasPredIn(edges, rest, n);
      var rank' := m => if m == n then |done| else rank(m);
      assert |done + {n}| == |done| + 1;
      full := ExtendRank(edges, ids, done + {n}, rank');
    }
  }

  /** Without a cycle, a finite graph has a topological numbering. */
  lemma AcyclicHasRank(edges: seq<Edge>, ids: set<Id>) returns (rank: Id -> nat)
    requires !HasCycle(edges)
    requires forall e :: e in edges ==> e.src in ids
    ensures Ranked(edges, rank)
  {
    rank := ExtendRank(edges, ids, {}, n => 0);
  }

  // ---------------------------------------------------------------- the gate question, one step at a time

  lemma ExtendStartChain(edges: seq<Edge>, p: seq<Edge>, e: Edge)
    requires e in edges && StartChain(edges, p, e.src)
    ensures StartChain(edges, p + [e], e.dst)
  {
    var q := p + [e];
    assert Origin(q, e.dst) == Origin(p, e.src);
    forall i | 0 < i < |q|
      ensures q[i - 1].dst == q[i].src
    {
      if i < |p| {
        assert p[i - 1].dst == p[i].src;
      }
    }
  }

  /** The path question answered locally: a node is gated exactly when it has
      incoming edges and each of them is a gate or leaves a gated node. */
  lemma GatedStep(edges: seq<Edge>, gates: set<Edge>, n: Id)
    ensures EveryPathGated(edges, gates, n) <==>
              Into(edges, n) != [] &&
              forall e :: e in Into(edges, n) ==> e in gates || EveryPathGated(edges, gates, e.src)
  {
    if EveryPathGated(edges, gates, n) {
      if Into(edges, n) == [] {
        assert StartChain(edges, [], n);
        assert false;
      }
      forall e | e in Into(edges, n) && e !in gates
        ensures EveryPathGated(edges, gates, e.src)
      {
        forall p | StartChain(edges, p, e.src)
          ensures Crosses(p, gates)
        {
          ExtendStartChain(edges, p, e);
          var i :| 0 <= i < |p + [e]| && (p + [e])[i] in gates;
          assert i < |p| && p[i] in gates;
        }
      }
    }
    if Into(edges, n) != [] &&
       forall e :: e in Into(edges, n) ==> e in gates || EveryPathGated(edges, gates, e.src) {
      forall p | StartChain(edges, p, n)
        ensures Crosses(p, gates)
      {
        GatedFromLast(edges, gates, p, n);
      }
    }
  }

  lemma GatedFromLast(edges: seq<Edge>, gates: set<Edge>, p: seq<Edge>, n: Id)
    requires StartChain(edges, p, n) && Into(edges, n) != []
    requires forall e :: e in Into(edges, n) ==> e in gates || EveryPathGated(edges, gates, e.src)
    ensures Crosses(p, gates)
  {
    var k := |p| - 1;
    var e := p[k];
    assert e in Into(edges, n);
    if e !in gates {
      var q := p[..k];
      assert StartChain(edges, q, e.src) by {
        assert Origin(q, e.src) == Origin(p, n);
        if q != [] {
          assert p[k - 1].dst == p[k].src;
        }
      }
      var i :| 0 <= i < |q| && q[i] in gates;
      assert p[i] in gates;
    }
  }
}
