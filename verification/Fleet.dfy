/** Placing a network run on a fleet of flow hosts: the coordinator that pushes
    placements and waits for endpoints, over a bus whose stop signals are permanent. */
module Fleet {
  type RunId = string
  type InstanceId = string

  datatype Placement = Placement(run: RunId, instance: InstanceId)

  datatype Health = Up | Down | Error

  datatype Advert = Advert(instance: InstanceId, health: Health)

  const REPLACE_COOLDOWN := 10

  /** Advertisements by instance; of two rows for one instance the later wins. */
  function ById(rows: seq<Advert>): (m: map<InstanceId, Advert>)
    ensures forall i :: i in m ==> m[i] in rows && m[i].instance == i
    ensures forall r :: r in rows ==> r.instance in m
  {
    if rows == [] then map[]
    else ById(rows[..|rows| - 1])[rows[|rows| - 1].instance := rows[|rows| - 1]]
  }

  predicate AnyFailed(m: map<InstanceId, Advert>) {
    exists i :: i in m && m[i].health == Error
  }

  function Instances(ps: seq<Placement>): set<InstanceId> {
    set p | p in ps :: p.instance
  }

  datatype Placed = Serving(rows: map<InstanceId, Advert>) | HostFailed(rows: map<InstanceId, Advert>) | TimedOut(missing: set<InstanceId>)

  predicate AllUp(expected: set<InstanceId>, rows: seq<Advert>) {
    !AnyFailed(ById(rows)) && expected <= ById(rows).Keys
  }

  /** The wait ended at poll `last`: the first one that shows an error or everything
      advertised, or the deadline. */
  ghost predicate Settles(expected: set<InstanceId>, polls: nat -> seq<Advert>, deadline: nat, last: nat, r: Placed) {
    && last <= deadline
    && (forall k :: 0 <= k < last ==> !AnyFailed(ById(polls(k))) && !AllUp(expected, polls(k)))
    && (r.Serving? <==> AllUp(expected, polls(last)))
    && (r.HostFailed? <==> AnyFailed(ById(polls(last))))
    && (!r.TimedOut? ==> r.rows == ById(polls(last)))
    && (r.TimedOut? ==> last == deadline && r.missing == expected - ById(polls(last)).Keys)
  }

  /** Poll until every expected instance is advertised; `polls(k)` is what the k-th
      poll lists. */
  method Await(expected: set<InstanceId>, polls: nat -> seq<Advert>, deadline: nat) returns (r: Placed, last: nat)
    ensures Settles(expected, polls, deadline, last, r)
  {
    last := 0;
    while true
      invariant last <= deadline
      invariant forall k :: 0 <= k < last ==> !AnyFailed(ById(polls(k))) && !AllUp(expected, polls(k))
      decreases deadline - last
    {
      var rows := ById(polls(last));
      if AnyFailed(rows) {
        return HostFailed(rows), last;
      }
      if expected <= rows.Keys {
        return Serving(rows), last;
      }
      if last >= deadline {
        return TimedOut(expected - rows.Keys), last;
      }
      last := last + 1;
    }
  }

  /** The coordinator, and the parts of the bus it writes: the placement queue and
      the set of stopped runs, which nothing ever shrinks. */
  class Coordinator {
    var snapshot: map<RunId, map<InstanceId, Advert>>
    var watched: set<RunId>
    var placements: map<RunId, map<InstanceId, Placement>>
    var replacedAt: map<InstanceId, int>
    var queue: seq<Placement>
    var stopped: set<RunId>

    /** Placements are filed under their own run and instance. */
    ghost predicate Valid()
      reads this
    {
      forall r, i :: r in placements && i in placements[r] ==> placements[r][i].run == r && placements[r][i].instance == i
    }

    constructor ()
      ensures Valid() && stopped == {} && queue == []
    {
      snapshot, watched, placements, replacedAt := map[], {}, map[], map[];
      queue, stopped := [], {};
    }

    /** Network-wide stop: signal every host, forget the run. */
    method StopRun(run: RunId)
      requires Valid()
      modifies this
      ensures Valid()
      ensures stopped == old(stopped) + {run} && queue == old(queue)
      ensures run !in watched && run !in snapshot && run !in placements
      ensures placements == old(placements) - {run}
      ensures watched == old(watched) - {run} && snapshot == old(snapshot) - {run}
    {
      stopped := stopped + {run};
      watched := watched - {run};
      snapshot := snapshot - {run};
      if run in placements {
        replacedAt := replacedAt - placements[run].Keys;
        placements := placements - {run};
      }
    }

    method Enqueue(run: RunId, ps: seq<Placement>)
      requires Valid() && forall p :: p in ps ==> p.run == run
      modifies this`placements, this`queue
      ensures Valid() && queue == old(queue) + ps
      ensures run in placements && Instances(ps) <= placements[run].Keys
      ensures placements - {run} == old(placements) - {run}
    {
      var known := if run in placements then placements[run] else map[];
      placements := placements[run := known + ByInstance(ps)];
      queue := queue + ps;
    }

    /** The outcome of the wait: watch the run, or stop it network-wide. */
    method Conclude(run: RunId, r: Placed)
      requires Valid()
      modifies this
      ensures Valid() && queue == old(queue)
      ensures r.Serving? ==>
                && stopped == old(stopped) && placements == old(placements) && replacedAt == old(replacedAt)
                && watched == old(watched) + {run} && snapshot == old(snapshot)[run := r.rows]
      ensures !r.Serving? ==>
                && stopped == old(stopped) + {run} && placements == old(placements) - {run}
                && watched == old(watched) - {run} && snapshot == old(snapshot) - {run}
    {
      if r.Serving? {
        snapshot := snapshot[run := r.rows];
        watched := watched + {run};
      } else {
        StopRun(run);
      }
    }

    /** The wait gives way at every poll, so a stop may come during it: then a run that
        was stopped network-wide is watched again, though none of it is ever re-placed. */
    method StopWhilePlacing(run: RunId, ps: seq<Placement>, rows: map<InstanceId, Advert>, advertised: set<InstanceId>, now: int)
        returns (replaced: set<InstanceId>)
      requires Valid() && forall p :: p in ps ==> p.run == run
      modifies this
      ensures Valid() && run in stopped && run in watched && run !in placements && replaced == {}
    {
      Enqueue(run, ps);
      StopRun(run);
      Conclude(run, Serving(rows));
      replaced := ReconcileRun(run, advertised, now);
    }

    /** Push the placements and wait for them, undisturbed. A host error or the deadline
        stops the run network-wide: it serves completely or it is stopped. */
    method Place(run: RunId, ps: seq<Placement>, polls: nat -> seq<Advert>, deadline: nat) returns (r: Placed)
      requires Valid() && forall p :: p in ps ==> p.run == run
      modifies this
      ensures Valid() && queue == old(queue) + ps
      ensures exists last :: Settles(Instances(ps), polls, deadline, last, r)
      ensures r.Serving? ==> stopped == old(stopped) && run in watched && run in placements
      ensures !r.Serving? ==> stopped == old(stopped) + {run} && run !in watched && run !in placements
    {
      Enqueue(run, ps);
      ghost var last;
      r, last := Await(Instances(ps), polls, deadline);
      Conclude(run, r);
    }

    /** Re-place instances whose advertisements are gone, at most once per cooldown;
        never anything of a stopped run. */
    method ReconcileRun(run: RunId, advertised: set<InstanceId>, now: int) returns (replaced: set<InstanceId>)
      requires Valid()
      modifies this`queue, this`replacedAt
      ensures Valid()
      ensures replaced == if run !in placements || run in stopped then {} else
                set i | i in placements[run] && i !in advertised && old(Cooled(i, now))
      ensures forall i :: i in replaced ==> i in replacedAt && replacedAt[i] == now
      ensures forall i :: i !in replaced ==> (i in replacedAt <==> old(i in replacedAt))
      ensures forall i :: i !in replaced && i in replacedAt ==> replacedAt[i] == old(replacedAt)[i]
      ensures old(queue) <= queue
      ensures forall p :: p in queue[|old(queue)|..] <==> run in placements && p.instance in replaced && p == placements[run][p.instance]
    {
      replaced := {};
      if run !in placements || run in stopped {
        return;
      }
      var pending := placements[run].Keys;
      while pending != {}
        invariant pending <= placements[run].Keys
        invariant replaced == set i | i in placements[run].Keys - pending && i !in advertised && old(Cooled(i, now))
        invariant forall i :: i in replaced ==> i in replacedAt && replacedAt[i] == now
        invariant forall i :: i !in replaced ==> (i in replacedAt <==> i in old(replacedAt))
        invariant forall i :: i !in replaced && i in replacedAt ==> replacedAt[i] == old(replacedAt)[i]
        invariant old(queue) <= queue
        invariant forall p :: p in queue[|old(queue)|..] <==> p.instance in replaced && p == placements[run][p.instance]
        decreases pending
      {
        var i :| i in pending;
        pending := pending - {i};
        if i !in advertised && Cooled(i, now) {
          replacedAt := replacedAt[i := now];
          ghost var before := queue;
          queue := queue + [placements[run][i]];
          assert queue[|old(queue)|..] == before[|old(queue)|..] + [placements[run][i]];
          replaced := replaced + {i};
        }
      }
    }

    predicate Cooled(i: InstanceId, now: int)
      reads this`replacedAt
    {
      now - (if i in replacedAt then replacedAt[i] else 0) >= REPLACE_COOLDOWN
    }
  }

  function ByInstance(ps: seq<Placement>): (m: map<InstanceId, Placement>)
    ensures m.Keys == Instances(ps)
    ensures forall i :: i in m ==> m[i] in ps && m[i].instance == i
  {
    if ps == [] then map[]
    else
      assert Instances(ps) == Instances(ps[..|ps| - 1]) + {ps[|ps| - 1].instance} by {
        assert forall p :: p in ps <==> p in ps[..|ps| - 1] || p == ps[|ps| - 1];
      }
      ByInstance(ps[..|ps| - 1])[ps[|ps| - 1].instance := ps[|ps| - 1]]
  }
}
