/** The versioned registry of agent and workflow definitions: two tables, five
    operations, and what any sequence of them keeps. */
module RegistryStore {
  import opened Wrappers

  datatype Name = Name(kind: string, name: string)

  datatype DefStatus = DraftDef | ActiveDef | RetiredDef

  datatype VersionStatus = Draft | Active | Superseded | Retired

  datatype Definition = Definition(status: DefStatus, builtin: bool)

  /** One row of the versions table; `hash` is stored beside the spec it was taken of. */
  datatype Version = Version(status: VersionStatus, spec: string, hash: string)

  datatype VersionKey = VersionKey(of: Name, number: nat)

  datatype Tables = Tables(defs: map<Name, Definition>, versions: map<VersionKey, Version>)

  datatype Problem = Conflict | NotFound | Guardrail

  datatype Op =
    | Create(name: Name, spec: string, builtin: bool)
    | AddVersion(name: Name, spec: string)
    | UpdateDraft(name: Name, number: nat, spec: string)
    | Publish(name: Name, number: nat)
    | Retire(name: Name)

  // ---------------------------------------------------------------- the operations on the tables

  function Numbers(t: Tables, d: Name): set<nat> {
    set k | k in t.versions && k.of == d :: k.number
  }

  /** The largest version number, 0 when there is none. */
  ghost function MaxNumber(s: set<nat>): (m: nat)
    ensures s == {} ==> m == 0
    ensures s != {} ==> m in s
    ensures forall x :: x in s ==> x <= m
  {
    if s == {} then 0
    else
      var x :| x in s;
      var rest := MaxNumber(s - {x});
      assert forall y :: y in s ==> y == x || y in s - {x};
      if x > rest then x else rest
  }

  function SetStatuses(t: Tables, d: Name, from: set<VersionStatus>, to: VersionStatus): map<VersionKey, Version> {
    map k | k in t.versions ::
      if k.of == d && t.versions[k].status in from then t.versions[k].(status := to) else t.versions[k]
  }

  /** Why an operation is refused; None when it is carried out. */
  function Refused(t: Tables, op: Op): Option<Problem> {
    match op
    case Create(d, _, _) => if d in t.defs then Some(Conflict) else None
    case AddVersion(d, _) =>
      if d !in t.defs then Some(NotFound)
      else if t.defs[d].status == RetiredDef then Some(Conflict) else None
    case UpdateDraft(d, v, _) =>
      if d !in t.defs || VersionKey(d, v) !in t.versions then Some(NotFound)
      else if t.versions[VersionKey(d, v)].status != Draft then Some(Conflict) else None
    case Publish(d, v) =>
      if d !in t.defs then Some(NotFound)
      else if t.defs[d].status == RetiredDef then Some(Conflict)
      else if VersionKey(d, v) !in t.versions then Some(NotFound)
      else if t.versions[VersionKey(d, v)].status != Draft then Some(Conflict) else None
    case Retire(d) =>
      if d !in t.defs then Some(NotFound)
      else if t.defs[d].builtin then Some(Guardrail) else None
  }

  /** The tables after an operation that is not refused. */
  ghost function Apply(hash: string -> string, t: Tables, op: Op): Tables
    requires Refused(t, op).None?
  {
    match op
    case Create(d, spec, builtin) =>
      Tables(t.defs[d := Definition(DraftDef, builtin)],
             t.versions[VersionKey(d, 1) := Version(Draft, spec, hash(spec))])
    case AddVersion(d, spec) =>
      t.(versions := t.versions[VersionKey(d, MaxNumber(Numbers(t, d)) + 1) := Version(Draft, spec, hash(spec))])
    case UpdateDraft(d, v, spec) =>
      t.(versions := t.versions[VersionKey(d, v) := Version(Draft, spec, hash(spec))])
    case Publish(d, v) =>
      var demoted := SetStatuses(t, d, {Active}, Superseded);
      Tables(t.defs[d := t.defs[d].(status := ActiveDef)],
             demoted[VersionKey(d, v) := demoted[VersionKey(d, v)].(status := Active)])
    case Retire(d) =>
      if t.defs[d].status == RetiredDef then t
      else Tables(t.defs[d := t.defs[d].(status := RetiredDef)],
                  SetStatuses(t, d, {Active, Superseded, Draft}, Retired))
  }

  ghost function Next(hash: string -> string, t: Tables, op: Op): Tables {
    if Refused(t, op).None? then Apply(hash, t, op) else t
  }

  ghost function Run(hash: string -> string, ops: seq<Op>): Tables {
    if ops == [] then Tables(map[], map[])
    else Next(hash, Run(hash, ops[..|ops| - 1]), ops[|ops| - 1])
  }

  /** A reference: the active version, or a pinned one that was published. */
  predicate Resolves(t: Tables, d: Name, pin: Option<nat>, number: nat) {
    && d in t.defs && t.defs[d].status != RetiredDef && VersionKey(d, number) in t.versions
    && (pin.None? ==> t.versions[VersionKey(d, number)].status == Active)
    && (pin.Some? ==> pin.value == number && t.versions[VersionKey(d, number)].status in {Active, Superseded})
  }

  // ---------------------------------------------------------------- what every run keeps

  /** One definition: numbered 1..n, hashes match, one active version exactly when
      the definition is active, nothing published in a draft, all retired together. */
  ghost predicate DefinitionInv(hash: string -> string, t: Tables, d: Name)
    requires d in t.defs
  {
    && Numbered(t, d, MaxNumber(Numbers(t, d))) && 1 in Numbers(t, d)
    && RowsInv(hash, t, d)
    && OneActive(t, d)
  }

  predicate ActiveAt(t: Tables, d: Name, v: nat) {
    VersionKey(d, v) in t.versions && t.versions[VersionKey(d, v)].status == Active
  }

  predicate Owned(t: Tables) {
    forall k :: k in t.versions ==> k.of in t.defs
  }

  ghost predicate TablesInv(hash: string -> string, t: Tables) {
    && Owned(t)
    && (forall d :: d in t.defs ==> DefinitionInv(hash, t, d))
  }

  lemma MaxIs(s: set<nat>, n: nat)
    requires forall v :: v in s <==> 1 <= v <= n
    ensures MaxNumber(s) == n
  {
    if n > 0 {
      assert n in s;
    } else {
      assert forall v :: v !in s;
    }
  }

  /** Rows of other definitions are not looked at. */
  lemma OtherDefinition(hash: string -> string, t: Tables, t': Tables, d: Name)
    requires d in t.defs && d in t'.defs && DefinitionInv(hash, t, d) && t.defs[d] == t'.defs[d]
    requires forall k: VersionKey :: k.of == d ==> (k in t.versions <==> k in t'.versions)
    requires forall k :: k in t.versions && k.of == d ==> t'.versions[k] == t.versions[k]
    ensures DefinitionInv(hash, t', d)
  {
    assert Numbers(t, d) == Numbers(t', d);
    assert forall v :: ActiveAt(t, d, v) <==> ActiveAt(t', d, v);
  }

  lemma NumberOf(t: Tables, d: Name, v: nat)
    ensures v in Numbers(t, d) <==> VersionKey(d, v) in t.versions
  {
    if VersionKey(d, v) in t.versions {
      assert VersionKey(d, v).of == d && VersionKey(d, v).number == v;
    }
  }

  ghost predicate Numbered(t: Tables, d: Name, n: nat) {
    forall v :: v in Numbers(t, d) <==> 1 <= v <= n
  }

  /** A definition's versions stay numbered 1..n; adding one makes n + 1. */
  lemma NumbersAfter(hash: string -> string, t: Tables, op: Op, n: nat)
    requires Owned(t) && Refused(t, op).None?
    requires if op.Create? then n == 0 else n == MaxNumber(Numbers(t, op.name)) && Numbered(t, op.name, n)
    ensures Numbered(Apply(hash, t, op), op.name, if op.Create? || op.AddVersion? then n + 1 else n)
  {
    var t', d := Apply(hash, t, op), op.name;
    var n' := if op.Create? || op.AddVersion? then n + 1 else n;
    forall v: nat
      ensures v in Numbers(t', d) <==> 1 <= v <= n'
    {
      NumberOf(t, d, v);
      NumberOf(t', d, v);
    }
  }

  ghost predicate RowsInv(hash: string -> string, t: Tables, d: Name)
    requires d in t.defs
  {
    forall k :: k in t.versions && k.of == d ==>
      && t.versions[k].hash == hash(t.versions[k].spec)
      && (t.defs[d].status == DraftDef ==> t.versions[k].status == Draft)
      && (t.defs[d].status == ActiveDef ==> t.versions[k].status != Retired)
      && (t.defs[d].status == RetiredDef ==> t.versions[k].status == Retired)
  }

  lemma RowsAfter(hash: string -> string, t: Tables, op: Op)
    requires Owned(t) && Refused(t, op).None? && (op.name in t.defs ==> RowsInv(hash, t, op.name))
    ensures op.name in Apply(hash, t, op).defs && RowsInv(hash, Apply(hash, t, op), op.name)
  {
  }

  ghost predicate OneActive(t: Tables, d: Name)
    requires d in t.defs
  {
    && (t.defs[d].status == ActiveDef ==> exists k :: ActiveAt(t, d, k))
    && (forall j, k :: ActiveAt(t, d, j) && ActiveAt(t, d, k) ==> j == k)
  }

  lemma ActiveAfter(hash: string -> string, t: Tables, op: Op)
    requires Owned(t) && Refused(t, op).None? && (op.name in t.defs ==> OneActive(t, op.name))
    ensures op.name in Apply(hash, t, op).defs && OneActive(Apply(hash, t, op), op.name)
  {
    var t', d := Apply(hash, t, op), op.name;
    match op
    case Publish(_, v) =>
      assert ActiveAt(t', d, v);
      assert forall k :: ActiveAt(t', d, k) ==> k == v;
    case Retire(_) =>
      assert forall k :: ActiveAt(t', d, k) ==> ActiveAt(t, d, k);
    case Create(_, _, _) =>
      assert forall k :: !ActiveAt(t', d, k);
    case _ =>
      if op.AddVersion? {
        NumberIsNew(t, d);
      }
      assert forall k :: ActiveAt(t', d, k) <==> ActiveAt(t, d, k);
  }

  lemma NumberIsNew(t: Tables, d: Name)
    ensures VersionKey(d, MaxNumber(Numbers(t, d)) + 1) !in t.versions
  {
    NumberOf(t, d, MaxNumber(Numbers(t, d)) + 1);
  }

  lemma OwnDefinition(hash: string -> string, t: Tables, op: Op)
    requires TablesInv(hash, t) && Refused(t, op).None?
    ensures op.name in Apply(hash, t, op).defs && DefinitionInv(hash, Apply(hash, t, op), op.name)
  {
    var t', d := Apply(hash, t, op), op.name;
    var n := if op.Create? then 0 else MaxNumber(Numbers(t, d));
    NumbersAfter(hash, t, op, n);
    MaxIs(Numbers(t', d), if op.Create? || op.AddVersion? then n + 1 else n);
    RowsAfter(hash, t, op);
    ActiveAfter(hash, t, op);
  }

  /** An operation touches one definition only. */
  lemma OthersUntouched(hash: string -> string, t: Tables, op: Op, k: VersionKey)
    requires Refused(t, op).None? && k.of != op.name
    ensures k in t.versions <==> k in Apply(hash, t, op).versions
    ensures k in t.versions ==> Apply(hash, t, op).versions[k] == t.versions[k]
  {
  }

  lemma OthersKept(hash: string -> string, t: Tables, op: Op)
    requires Refused(t, op).None?
    ensures forall d :: d != op.name ==> (d in t.defs <==> d in Apply(hash, t, op).defs)
    ensures forall d :: d != op.name && d in t.defs ==> Apply(hash, t, op).defs[d] == t.defs[d]
    ensures forall k: VersionKey :: k.of != op.name ==> (k in t.versions <==> k in Apply(hash, t, op).versions)
    ensures forall k: VersionKey :: k.of != op.name && k in t.versions ==> Apply(hash, t, op).versions[k] == t.versions[k]
  {
    forall k: VersionKey | k.of != op.name
      ensures k in t.versions <==> k in Apply(hash, t, op).versions
      ensures k in t.versions ==> Apply(hash, t, op).versions[k] == t.versions[k]
    {
      OthersUntouched(hash, t, op, k);
    }
  }

  lemma StillOwned(hash: string -> string, t: Tables, op: Op)
    requires Owned(t) && Refused(t, op).None?
    ensures Owned(Apply(hash, t, op))
  {
  }

  lemma OtherStays(hash: string -> string, t: Tables, op: Op, d: Name)
    requires Refused(t, op).None? && d != op.name && d in t.defs && DefinitionInv(hash, t, d)
    ensures d in Apply(hash, t, op).defs && DefinitionInv(hash, Apply(hash, t, op), d)
  {
    OthersKept(hash, t, op);
    OtherDefinition(hash, t, Apply(hash, t, op), d);
  }

  lemma StepKeeps(hash: string -> string, t: Tables, op: Op)
    requires TablesInv(hash, t)
    ensures TablesInv(hash, Next(hash, t, op))
  {
    if Refused(t, op).None? {
      var t' := Apply(hash, t, op);
      StillOwned(hash, t, op);
      OwnDefinition(hash, t, op);
      OthersKept(hash, t, op);
      forall d | d in t'.defs && d != op.name
        ensures DefinitionInv(hash, t', d)
      {
        OtherStays(hash, t, op, d);
      }
    }
  }

  /** Over any sequence of operations: versions numbered 1..n, hashes matching,
      exactly one active version of an active definition and none otherwise. */
  lemma {:induction false} LifecycleInv(hash: string -> string, ops: seq<Op>)
    ensures TablesInv(hash, Run(hash, ops))
  {
    if ops != [] {
      LifecycleInv(hash, ops[..|ops| - 1]);
      StepKeeps(hash, Run(hash, ops[..|ops| - 1]), ops[|ops| - 1]);
    }
  }

  /** What is published is fixed, and retirement is final. */
  ghost predicate Frozen(t: Tables, t': Tables) {
    && (forall d :: d in t.defs ==> d in t'.defs && (t.defs[d].status == RetiredDef ==> t'.defs[d].status == RetiredDef))
    && (forall k :: k in t.versions ==> k in t'.versions)
    && (forall k :: k in t.versions && t.versions[k].status != Draft ==>
          && t'.versions[k].spec == t.versions[k].spec && t'.versions[k].hash == t.versions[k].hash
          && t'.versions[k].status != Draft)
  }

  lemma StepFreezes(hash: string -> string, t: Tables, op: Op)
    requires Owned(t)
    ensures Frozen(t, Next(hash, t, op))
  {
    if Refused(t, op).None? {
      if op.AddVersion? {
        NumberIsNew(t, op.name);
      }
    }
  }

  lemma {:induction false} RunOwned(hash: string -> string, ops: seq<Op>)
    ensures Owned(Run(hash, ops))
  {
    if ops != [] {
      RunOwned(hash, ops[..|ops| - 1]);
      if Refused(Run(hash, ops[..|ops| - 1]), ops[|ops| - 1]).None? {
        StillOwned(hash, Run(hash, ops[..|ops| - 1]), ops[|ops| - 1]);
      }
    }
  }

  lemma FrozenChains(a: Tables, b: Tables, c: Tables)
    requires Frozen(a, b) && Frozen(b, c)
    ensures Frozen(a, c)
  {
  }

  lemma {:induction false} RunFreezes(hash: string -> string, ops: seq<Op>, k: nat)
    requires k <= |ops|
    ensures Frozen(Run(hash, ops[..k]), Run(hash, ops))
  {
    if k == |ops| {
      assert ops[..k] == ops;
    } else {
      var j := |ops| - 1;
      assert ops[..j][..k] == ops[..k];
      RunFreezes(hash, ops[..j], k);
      RunOwned(hash, ops[..j]);
      StepFreezes(hash, Run(hash, ops[..j]), ops[j]);
      FrozenChains(Run(hash, ops[..k]), Run(hash, ops[..j]), Run(hash, ops));
    }
  }

  /** A pin that once resolved resolves to the same spec for as long as the
      definition is not retired, and to nothing afterwards. */
  lemma PinsAreStable(hash: string -> string, ops: seq<Op>, k: nat, d: Name, v: nat)
    requires k <= |ops| && Resolves(Run(hash, ops[..k]), d, Some(v), v)
    ensures d in Run(hash, ops).defs
    ensures Resolves(Run(hash, ops), d, Some(v), v) <==> Run(hash, ops).defs[d].status != RetiredDef
    ensures VersionKey(d, v) in Run(hash, ops).versions
    ensures Run(hash, ops).versions[VersionKey(d, v)].spec == Run(hash, ops[..k]).versions[VersionKey(d, v)].spec
  {
    RunFreezes(hash, ops, k);
    LifecycleInv(hash, ops);
    PinFrozen(hash, Run(hash, ops[..k]), Run(hash, ops), d, v);
  }

  lemma PinFrozen(hash: string -> string, t: Tables, t': Tables, d: Name, v: nat)
    requires Frozen(t, t') && Resolves(t, d, Some(v), v) && d in t'.defs && DefinitionInv(hash, t', d)
    ensures Resolves(t', d, Some(v), v) <==> t'.defs[d].status != RetiredDef
    ensures VersionKey(d, v) in t'.versions
    ensures t'.versions[VersionKey(d, v)].spec == t.versions[VersionKey(d, v)].spec
  {
    assert VersionKey(d, v) in t'.versions;
  }

  /** A bare name resolves exactly when its definition is active, and then to one
      version only. */
  lemma NamesResolveOnce(hash: string -> string, ops: seq<Op>, d: Name)
    ensures var t := Run(hash, ops);
            && ((exists v :: Resolves(t, d, None, v)) <==> d in t.defs && t.defs[d].status == ActiveDef)
            && forall v, w :: Resolves(t, d, None, v) && Resolves(t, d, None, w) ==> v == w
  {
    LifecycleInv(hash, ops);
    if d in Run(hash, ops).defs {
      NameResolvesOnce(hash, Run(hash, ops), d);
    }
  }

  lemma NameResolvesOnce(hash: string -> string, t: Tables, d: Name)
    requires d in t.defs && DefinitionInv(hash, t, d)
    ensures (exists v :: Resolves(t, d, None, v)) <==> t.defs[d].status == ActiveDef
    ensures forall v, w :: Resolves(t, d, None, v) && Resolves(t, d, None, w) ==> v == w
  {
    if t.defs[d].status == ActiveDef {
      var v :| ActiveAt(t, d, v);
      assert Resolves(t, d, None, v);
    }
    forall v | Resolves(t, d, None, v)
      ensures ActiveAt(t, d, v) && t.defs[d].status == ActiveDef
    {
      assert VersionKey(d, v) in t.versions;
    }
  }

  // ---------------------------------------------------------------- the store

  class Store {
    const hash: string -> string
    var defs: map<Name, Definition>
    var versions: map<VersionKey, Version>

    ghost function Abs(): Tables
      reads this
    {
      Tables(defs, versions)
    }

    constructor (hash: string -> string)
      ensures Abs() == Tables(map[], map[]) && this.hash == hash
    {
      this.hash := hash;
      defs, versions := map[], map[];
    }

    method CreateDefinition(d: Name, spec: string, builtin: bool) returns (problem: Option<Problem>)
      modifies this
      ensures problem == old(Refused(Abs(), Create(d, spec, builtin)))
      ensures Abs() == Next(hash, old(Abs()), Create(d, spec, builtin))
    {
      if d in defs {
        return Some(Conflict);
      }
      defs := defs[d := Definition(DraftDef, builtin)];
      versions := versions[VersionKey(d, 1) := Version(Draft, spec, hash(spec))];
      problem := None;
    }

    /** MAX(version) over the definition's rows, 0 without any. */
    method LargestNumber(d: Name) returns (m: nat)
      ensures m == MaxNumber(Numbers(Abs(), d))
    {
      m := 0;
      var rest := set k | k in versions && k.of == d :: k.number;
      assert rest == Numbers(Abs(), d);
      while rest != {}
        invariant rest <= Numbers(Abs(), d)
        invariant forall v :: v in Numbers(Abs(), d) ==> v in rest || v <= m
        invariant m == 0 || m in Numbers(Abs(), d)
        decreases rest
      {
        var v :| v in rest;
        if v > m {
          m := v;
        }
        rest := rest - {v};
      }
    }

    method AddDraft(d: Name, spec: string) returns (problem: Option<Problem>)
      modifies this
      ensures problem == old(Refused(Abs(), AddVersion(d, spec)))
      ensures Abs() == Next(hash, old(Abs()), AddVersion(d, spec))
    {
      if d !in defs {
        return Some(NotFound);
      }
      if defs[d].status == RetiredDef {
        return Some(Conflict);
      }
      var m := LargestNumber(d);
      versions := versions[VersionKey(d, m + 1) := Version(Draft, spec, hash(spec))];
      problem := None;
    }

    method ReplaceDraft(d: Name, v: nat, spec: string) returns (problem: Option<Problem>)
      modifies this
      ensures problem == old(Refused(Abs(), UpdateDraft(d, v, spec)))
      ensures Abs() == Next(hash, old(Abs()), UpdateDraft(d, v, spec))
    {
      if d !in defs || VersionKey(d, v) !in versions {
        return Some(NotFound);
      }
      if versions[VersionKey(d, v)].status != Draft {
        return Some(Conflict);
      }
      versions := versions[VersionKey(d, v) := Version(Draft, spec, hash(spec))];
      problem := None;
    }

    /** The old active version is superseded, the draft becomes the active one. */
    method PublishDraft(d: Name, v: nat) returns (problem: Option<Problem>)
      modifies this
      ensures problem == old(Refused(Abs(), Publish(d, v)))
      ensures Abs() == Next(hash, old(Abs()), Publish(d, v))
    {
      if d !in defs {
        return Some(NotFound);
      }
      if defs[d].status == RetiredDef {
        return Some(Conflict);
      }
      if VersionKey(d, v) !in versions {
        return Some(NotFound);
      }
      if versions[VersionKey(d, v)].status != Draft {
        return Some(Conflict);
      }
      versions := SetStatuses(Tables(defs, versions), d, {Active}, Superseded);
      versions := versions[VersionKey(d, v) := versions[VersionKey(d, v)].(status := Active)];
      defs := defs[d := defs[d].(status := ActiveDef)];
      problem := None;
    }

    method RetireDefinition(d: Name) returns (problem: Option<Problem>)
      modifies this
      ensures problem == old(Refused(Abs(), Retire(d)))
      ensures Abs() == Next(hash, old(Abs()), Retire(d))
    {
      if d !in defs {
        return Some(NotFound);
      }
      if defs[d].builtin {
        return Some(Guardrail);
      }
      if defs[d].status != RetiredDef {
        versions := SetStatuses(Tables(defs, versions), d, {Active, Superseded, Draft}, Retired);
        defs := defs[d := defs[d].(status := RetiredDef)];
      }
      problem := None;
    }
  }
}
