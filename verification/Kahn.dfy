/** Cycle detection by Kahn's algorithm, as the workflow validator runs it:
    in-degrees counted with parallel edges, a stack of ready nodes, a counter. */
module Kahn {
  import opened Graphs
  import opened Workflows

  /** Number of edges into `m` whose source is not in `done`. */
  function Live(edges: seq<Edge>, done: set<Id>, m: Id): nat {
    if edges == [] then 0
    else
      var last := edges[|edges| - 1];
      Live(edges[..|edges| - 1], done, m) + if last.dst == m && last.src !in done then 1 else 0
  }

  /** Targets of the edges that leave `n`, in list order. */
  function Targets(edges: seq<Edge>, n: Id): seq<Id> {
    if edges == [] then []
    else
      var last := edges[|edges| - 1];
      Targets(edges[..|edges| - 1], n) + if last.src == n then [last.dst] else []
  }

  function Count(s: seq<Id>, m: Id): nat {
    if s == [] then 0 else (if s[0] == m then 1 else 0) + Count(s[1..], m)
  }

  lemma {:induction false} CountAppend(s: seq<Id>, t: seq<Id>, m: Id)
    ensures Count(s + t, m) == Count(s, m) + Count(t, m)
  {
    if s == [] {
      assert s + t == t;
    } else {
      assert (s + t)[1..] == s[1..] + t;
      CountAppend(s[1..], t, m);
    }
  }

  /** Processing `n` takes away exactly the edges from `n`. */
  lemma {:induction false} LiveStep(edges: seq<Edge>, done: set<Id>, n: Id, m: Id)
    requires n !in done
    ensures Live(edges, done, m) == Live(edges, done + {n}, m) + Count(Targets(edges, n), m)
  {
    if edges != [] {
      var last := edges[|edges| - 1];
      var init := edges[..|edges| - 1];
      LiveStep(init, done, n, m);
      CountAppend(Targets(init, n), if last.src == n then [last.dst] else [], m);
    }
  }

  lemma {:induction false} LiveWitness(edges: seq<Edge>, done: set<Id>, m: Id)
    ensures Live(edges, done, m) > 0 <==> exists e :: e in edges && e.dst == m && e.src !in done
  {
    if edges != [] {
      var last := edges[|edges| - 1];
      LiveWitness(edges[..|edges| - 1], done, m);
      assert forall e :: e in edges <==> e in edges[..|edges| - 1] || e == last;
    }
  }

  predicate Distinct(s: seq<Id>) {
    forall i, j :: 0 <= i < j < |s| ==> s[i] != s[j]
  }

  function Elements(s: seq<Id>): set<Id> {
    set x | x in s
  }

  /** `len(set(s)) == len(s)` says that `s` repeats nothing. */
  lemma {:induction false} DistinctSize(s: seq<Id>)
    ensures |Elements(s)| <= |s|
    ensures Distinct(s) <==> |Elements(s)| == |s|
  {
    if s != [] {
      var last, init := s[|s| - 1], s[..|s| - 1];
      DistinctSize(init);
      assert Elements(s) == Elements(init) + {last};
      if last in init {
        assert Elements(s) == Elements(init);
        var k :| 0 <= k < |init| && init[k] == last;
        assert s[k] == s[|s| - 1];
      } else {
        assert Distinct(init) ==> Distinct(s);
      }
    }
  }

  ghost predicate Counted(ids: set<Id>, edges: seq<Edge>, out: map<Id, seq<Id>>, indeg: map<Id, nat>) {
    && out.Keys == ids && indeg.Keys == ids
    && (forall n :: n in ids ==> out[n] == Targets(edges, n))
    && (forall n :: n in ids ==> indeg[n] == Live(edges, {}, n))
  }

  /** What the main loop keeps: `pending` counts live edges, the stack holds
      exactly the unprocessed nodes without any, and `rank` numbers the processed. */
  ghost predicate Peeled(ids: set<Id>, edges: seq<Edge>, done: set<Id>, pending: map<Id, nat>,
                         queue: seq<Id>, rank: map<Id, nat>)
  {
    && done <= ids && pending.Keys == ids && rank.Keys == done
    && (forall m :: m in ids ==> pending[m] == Live(edges, done, m))
    && (forall m :: m in done ==> pending[m] == 0)
    && Ready(ids, done, pending, queue)
    && Numbered(edges, done, rank)
  }

  /** `rank` is topological on `done`, which is closed under predecessors. */
  ghost predicate Numbered(edges: seq<Edge>, done: set<Id>, rank: map<Id, nat>)
    requires rank.Keys == done
  {
    && (forall m :: m in done ==> rank[m] < |done|)
    && (forall e :: e in edges && e.dst in done ==> e.src in done && rank[e.src] < rank[e.dst])
  }

  lemma NumberNext(edges: seq<Edge>, done: set<Id>, rank: map<Id, nat>, n: Id)
    requires rank.Keys == done && Numbered(edges, done, rank) && n !in done
    requires forall e :: e in edges && e.dst == n ==> e.src in done
    ensures Numbered(edges, done + {n}, rank[n := |done|])
  {
    assert |done + {n}| == |done| + 1;
  }

  ghost predicate Ready(ids: set<Id>, done: set<Id>, pending: map<Id, nat>, queue: seq<Id>)
    requires pending.Keys == ids
  {
    && (forall m :: m in queue <==> m in ids && m !in done && pending[m] == 0)
    && (forall i, j :: 0 <= i < j < |queue| ==> queue[i] != queue[j])
  }

  /** One node leaves the stack: its targets are counted down to `goal`, and a
      target that reaches zero becomes ready. */
  method Release(ids: set<Id>, ghost done: set<Id>, targets: seq<Id>,
                 pending0: map<Id, nat>, queue0: seq<Id>, ghost goal: map<Id, nat>)
      returns (pending: map<Id, nat>, queue: seq<Id>)
    requires END !in ids && done <= ids && pending0.Keys == ids && goal.Keys == ids
    requires forall t :: t in targets ==> t == END || t in ids
    requires forall m :: m in ids ==> pending0[m] == goal[m] + Count(targets, m)
    requires forall m :: m in done ==> pending0[m] == 0
    requires Ready(ids, done, pending0, queue0)
    ensures pending == goal
    ensures Ready(ids, done, pending, queue)
  {
    pending, queue := pending0, queue0;
    var j := 0;
    assert targets[0..] == targets;
    while j < |targets|
      invariant 0 <= j <= |targets|
      invariant pending.Keys == ids
      invariant forall m :: m in ids ==> pending[m] == goal[m] + Count(targets[j..], m)
      invariant forall m :: m in done ==> pending[m] == 0
      invariant Ready(ids, done, pending, queue)
    {
      var t := targets[j];
      CountHead(targets, j, ids);
      if t != END {
        pending := pending[t := pending[t] - 1];
        if pending[t] == 0 {
          queue := queue + [t];
        }
      }
      j := j + 1;
    }
  }

  lemma CountHead(targets: seq<Id>, j: nat, ids: set<Id>)
    requires j < |targets|
    ensures forall m :: m in ids ==>
              Count(targets[j..], m) == (if m == targets[j] then 1 else 0) + Count(targets[j + 1..], m)
  {
    assert targets[j..][1..] == targets[j + 1..];
  }

  lemma {:induction false} TargetKnown(edges: seq<Edge>, n: Id, m: Id)
    requires m in Targets(edges, n)
    ensures exists e :: e in edges && e.src == n && e.dst == m
  {
    var last := edges[|edges| - 1];
    if last.src == n && last.dst == m {
      assert last in edges;
    } else {
      TargetKnown(edges[..|edges| - 1], n, m);
      var e :| e in edges[..|edges| - 1] && e.src == n && e.dst == m;
      assert e in edges;
    }
  }

  lemma ReleasePre(ids: set<Id>, edges: seq<Edge>, done: set<Id>, pending: map<Id, nat>,
                   queue: seq<Id>, n: Id, goal: map<Id, nat>)
    requires END !in ids && EdgesKnown(ids, edges) && done <= ids && pending.Keys == ids
    requires forall m :: m in ids ==> pending[m] == Live(edges, done, m)
    requires forall m :: m in done ==> pending[m] == 0
    requires Ready(ids, done, pending, queue) && queue != [] && n == queue[|queue| - 1]
    requires goal == map m | m in ids :: Live(edges, done + {n}, m)
    ensures forall m :: m in ids ==> pending[m] == goal[m] + Count(Targets(edges, n), m)
    ensures forall t :: t in Targets(edges, n) ==> t == END || t in ids
    ensures forall m :: m in done + {n} ==> pending[m] == goal[m] == 0
    ensures Ready(ids, done + {n}, pending, queue[..|queue| - 1])
  {
    assert n in queue;
    forall m | m in ids
      ensures pending[m] == goal[m] + Count(Targets(edges, n), m)
    {
      LiveStep(edges, done, n, m);
    }
    forall t | t in Targets(edges, n)
      ensures t == END || t in ids
    {
      TargetKnown(edges, n, t);
    }
    var rest := queue[..|queue| - 1];
    assert forall m :: m in queue <==> m in rest || m == n;
  }

  /** Taking a ready node `n` off the stack keeps the numbering topological. */
  lemma PeelNode(ids: set<Id>, edges: seq<Edge>, done: set<Id>, pending: map<Id, nat>,
                 queue: seq<Id>, rank: map<Id, nat>, n: Id, goal: map<Id, nat>, queue': seq<Id>)
    requires Peeled(ids, edges, done, pending, queue, rank) && n in queue
    requires goal.Keys == ids && forall m :: m in ids ==> goal[m] == Live(edges, done + {n}, m)
    requires Ready(ids, done + {n}, goal, queue')
    requires forall m :: m in done + {n} ==> goal[m] == 0
    ensures Peeled(ids, edges, done + {n}, goal, queue', rank[n := |done|])
  {
    LiveWitness(edges, done, n);
    NumberNext(edges, done, rank, n);
  }

  /** One turn of the main loop: pop a ready node and count its targets down. */
  method PeelOne(ids: set<Id>, edges: seq<Edge>, out: map<Id, seq<Id>>, ghost done: set<Id>,
                 pending0: map<Id, nat>, queue0: seq<Id>, ghost rank: map<Id, nat>)
      returns (n: Id, pending: map<Id, nat>, queue: seq<Id>)
    requires END !in ids && EdgesKnown(ids, edges)
    requires out.Keys == ids && forall m :: m in ids ==> out[m] == Targets(edges, m)
    requires queue0 != [] && Peeled(ids, edges, done, pending0, queue0, rank)
    ensures n in ids && n !in done
    ensures Peeled(ids, edges, done + {n}, pending, queue, rank[n := |done|])
  {
    n := queue0[|queue0| - 1];
    assert n in queue0;
    ghost var goal: map<Id, nat> := map m | m in ids :: Live(edges, done + {n}, m);
    ReleasePre(ids, edges, done, pending0, queue0, n, goal);
    pending, queue := Release(ids, done + {n}, out[n], pending0, queue0[..|queue0| - 1], goal);
    PeelNode(ids, edges, done, pending0, queue0, rank, n, goal, queue);
  }

  /** Reports a cycle if and only if the edges contain one. */
  method FindCycle(ids: set<Id>, nodeCount: nat, edges: seq<Edge>, out: map<Id, seq<Id>>,
                   indeg: map<Id, nat>, roots: seq<Id>)
      returns (cyclic: bool)
    requires |ids| == nodeCount && END !in ids && EdgesKnown(ids, edges)
    requires Counted(ids, edges, out, indeg)
    requires Ready(ids, {}, indeg, roots)
    ensures cyclic <==> HasCycle(edges)
  {
    var pending, queue, seen := indeg, roots, 0;
    ghost var done: set<Id> := {};
    ghost var rank: map<Id, nat> := map[];
    while queue != []
      invariant Peeled(ids, edges, done, pending, queue, rank)
      invariant seen == |done|
      decreases ids - done
    {
      var n;
      n, pending, queue := PeelOne(ids, edges, out, done, pending, queue, rank);
      seen := seen + 1;
      rank := rank[n := |done|];
      done := done + {n};
    }
    cyclic := seen != nodeCount;
    Verdict(ids, edges, done, pending, rank);
    assert done != ids ==> |ids - done| == |ids| - |done| && ids - done != {};
  }

  /** With nothing left on the stack, what was not processed is a stuck set. */
  lemma Verdict(ids: set<Id>, edges: seq<Edge>, done: set<Id>, pending: map<Id, nat>, rank: map<Id, nat>)
    requires EdgesKnown(ids, edges) && Peeled(ids, edges, done, pending, [], rank)
    ensures done == ids <==> !HasCycle(edges)
  {
    var rest := ids - done;
    if rest == {} {
      assert done == ids by {
        forall m | m in ids
          ensures m in done
        {
          assert m !in rest;
        }
      }
      RankedHasNoCycle(edges, n => if n in rank then rank[n] else |done|);
    } else {
      forall m | m in rest
        ensures HasPredIn(edges, rest, m)
      {
        assert m !in [];
        LiveWitness(edges, done, m);
      }
      assert Stuck(edges, rest);
      StuckHasCycle(edges, rest);
    }
  }
}
