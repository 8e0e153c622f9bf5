/** The reversible change journal: every write records what was there before, and
    restoring the records newest first takes the registry back. */
module Journal {
  import opened Wrappers

  datatype Resource = Connection | Table | Variables | StarterFlow | Scenario | NetworkFlow

  type Doc = map<string, string>

  datatype Key = Key(resource: Resource, name: string)

  type Registry = map<Key, Doc>

  /** Bookkeeping fields the backend owns; a restore drops them. */
  function Bookkeeping(r: Resource): set<string> {
    match r
    case Connection => {"name"}
    case Table => {"name"}
    case Variables => {}
    case StarterFlow => {"id", "builtin", "updated_at"}
    case Scenario => {"id", "version", "created_at", "updated_at", "project_id"}
    case NetworkFlow => {"id", "updated_at"}
  }

  function Field(d: Doc, name: string, default: string): string {
    if name in d then d[name] else default
  }

  /** What a user wrote: the document without its bookkeeping. */
  function Body(r: Resource, d: Doc): Doc {
    if r == Variables then map["variables" := Field(d, "variables", "{}"), "secrets" := Field(d, "secrets", "[]")]
    else map f | f in d && f !in Bookkeeping(r) :: d[f]
  }

  function Bodies(reg: Registry): Registry {
    map k | k in reg :: Body(k.resource, reg[k])
  }

  /** What the backend stores for a draft: the body and its own stamps. */
  function Stored(r: Resource, draft: Doc, stamp: Doc): (d: Doc)
    ensures Body(r, d) == Body(r, draft)
  {
    Body(r, draft) + map f | f in stamp && f in Bookkeeping(r) :: stamp[f]
  }

  datatype Record = Record(key: Key, before: Option<Doc>)

  /** Restore one record. Updating a scenario that is gone fails and is skipped. */
  function RestoreOne(reg: Registry, rec: Record, stamp: Doc): Registry {
    if rec.before.None? then reg - {rec.key}
    else if rec.key.resource == Scenario && rec.key !in reg then reg
    else reg[rec.key := Stored(rec.key.resource, Body(rec.key.resource, rec.before.value), stamp)]
  }

  /** Restore all records, newest first; the backend stamps each write as it likes. */
  function Restore(reg: Registry, records: seq<Record>, stamps: nat -> Doc): Registry
    decreases |records|
  {
    if records == [] then reg
    else
      var last := |records| - 1;
      Restore(RestoreOne(reg, records[last], stamps(last)), records[..last], stamps)
  }

  // ---------------------------------------------------------------- the write tools

  /** The shapes of the write handlers. `Save` is an upsert of a connection, table,
      network or the variables; `Create` gets its key from the backend. */
  datatype Call =
    | Save(key: Key, draft: Doc)
    | Remove(key: Key)
    | Update(key: Key, draft: Doc)
    | Create(key: Key, draft: Doc)

  /** How the world treats a call: accepted by validation and guardrails, its record
      persisted, its write carried out, and the backend's stamps. A process that
      dies between record and write is a write not carried out. */
  datatype World = World(accepted: bool, persisted: bool, written: bool, stamp: Doc)

  datatype Session = Session(registry: Registry, journal: seq<Record>)

  function Before(reg: Registry, k: Key): Option<Doc> {
    if k in reg then Some(reg[k]) else None
  }

  /** Ids of created documents are never reused. */
  predicate FreshKey(s: Session, k: Key) {
    k !in s.registry && forall r :: r in s.journal ==> r.key != k
  }

  /** The calls there are tools for. Global variables always exist, so they are
      replaced, never created or deleted; scenarios have no delete tool. */
  predicate HasTool(reg: Registry, c: Call) {
    match c
    case Save(k, _) => k.resource in {Connection, Table, NetworkFlow} || (k.resource == Variables && k in reg)
    case Remove(k) => k.resource in {Connection, Table, StarterFlow, NetworkFlow} && k in reg
    case Update(k, _) => k.resource == Scenario && k in reg
    case Create(k, _) => k.resource in {StarterFlow, Scenario}
  }

  /** Updates and deletes record first and write second. */
  function RecordThenWrite(s: Session, k: Key, w: World, after: Registry): Session {
    if !w.persisted then s
    else Session(if w.written then after else s.registry, s.journal + [Record(k, Before(s.registry, k))])
  }

  function Step(s: Session, c: Call, w: World): Session {
    if !w.accepted || !HasTool(s.registry, c) then s
    else
      match c
      case Save(k, draft) => RecordThenWrite(s, k, w, s.registry[k := Stored(k.resource, draft, w.stamp)])
      case Remove(k) => RecordThenWrite(s, k, w, s.registry - {k})
      case Update(k, draft) => RecordThenWrite(s, k, w, s.registry[k := Stored(k.resource, draft, w.stamp)])
      case Create(k, draft) =>
        if !w.written || !FreshKey(s, k) then s
        else
          Session(s.registry[k := Stored(k.resource, draft, w.stamp)],
                  if w.persisted then s.journal + [Record(k, None)] else s.journal)
  }

  function Run(reg: Registry, calls: seq<(Call, World)>): Session {
    if calls == [] then Session(reg, [])
    else
      var last := |calls| - 1;
      Step(Run(reg, calls[..last]), calls[last].0, calls[last].1)
  }

  // ---------------------------------------------------------------- undo on bodies

  function UndoOne(b: Registry, rec: Record): Registry {
    if rec.before.None? then b - {rec.key}
    else if rec.key.resource == Scenario && rec.key !in b then b
    else b[rec.key := Body(rec.key.resource, rec.before.value)]
  }

  function Undo(b: Registry, records: seq<Record>): Registry
    decreases |records|
  {
    if records == [] then b
    else
      var last := |records| - 1;
      Undo(UndoOne(b, records[last]), records[..last])
  }

  lemma BodyTwice(r: Resource, d: Doc)
    ensures Body(r, Body(r, d)) == Body(r, d)
  {
  }

  lemma {:induction false} RestoreIsUndo(reg: Registry, records: seq<Record>, stamps: nat -> Doc)
    ensures Bodies(Restore(reg, records, stamps)) == Undo(Bodies(reg), records)
    decreases |records|
  {
    if records != [] {
      var last := |records| - 1;
      var rec := records[last];
      var reg' := RestoreOne(reg, rec, stamps(last));
      if rec.before.Some? {
        BodyTwice(rec.key.resource, rec.before.value);
      }
      assert Bodies(reg') == UndoOne(Bodies(reg), rec);
      RestoreIsUndo(reg', records[..last], stamps);
    }
  }

  lemma UndoSnoc(b: Registry, records: seq<Record>, rec: Record)
    ensures Undo(b, records + [rec]) == Undo(UndoOne(b, rec), records)
  {
    assert (records + [rec])[..|records|] == records;
  }

  /** A key no record mentions is left alone by the undo. */
  lemma {:induction false} UndoFrame(b: Registry, records: seq<Record>, k: Key, d: Doc)
    requires forall r :: r in records ==> r.key != k
    ensures Undo(b[k := d], records) == Undo(b, records)[k := d]
    decreases |records|
  {
    if records != [] {
      var last := |records| - 1;
      assert records[last] in records;
      assert UndoOne(b[k := d], records[last]) == UndoOne(b, records[last])[k := d];
      UndoFrame(UndoOne(b, records[last]), records[..last], k, d);
    }
  }

  // ---------------------------------------------------------------- the theorem

  /** Documents created whose journal record could not be persisted. */
  function Unrecorded(reg: Registry, calls: seq<(Call, World)>): Registry {
    if calls == [] then map[]
    else
      var last := |calls| - 1;
      var rest := Unrecorded(reg, calls[..last]);
      if LosesRecord(Run(reg, calls[..last]), calls[last].0, calls[last].1)
      then rest[calls[last].0.key := Body(calls[last].0.key.resource, calls[last].0.draft)]
      else rest
  }

  /** A create that wrote its document and then failed to persist the record. */
  predicate LosesRecord(s: Session, c: Call, w: World) {
    c.Create? && HasTool(s.registry, c) && w.accepted && w.written && !w.persisted && FreshKey(s, c.key)
  }

  /** Undoing one record takes back the write it protects, or nothing at all. */
  lemma UndoOneWrite(reg: Registry, k: Key, d: Doc)
    ensures UndoOne(Bodies(reg[k := d]), Record(k, Before(reg, k))) == Bodies(reg)
  {
  }

  lemma UndoOneDelete(reg: Registry, k: Key)
    requires k in reg && k.resource != Scenario
    ensures UndoOne(Bodies(reg - {k}), Record(k, Before(reg, k))) == Bodies(reg)
  {
  }

  lemma UndoOneNothing(reg: Registry, k: Key)
    ensures UndoOne(Bodies(reg), Record(k, Before(reg, k))) == Bodies(reg)
  {
  }

  lemma RecordedUndone(s: Session, k: Key, w: World, after: Registry)
    requires UndoOne(Bodies(after), Record(k, Before(s.registry, k))) == Bodies(s.registry)
    ensures var s' := RecordThenWrite(s, k, w, after);
            Undo(Bodies(s'.registry), s'.journal) == Undo(Bodies(s.registry), s.journal)
  {
    UndoOneNothing(s.registry, k);
    var s' := RecordThenWrite(s, k, w, after);
    UndoSnoc(Bodies(s'.registry), s.journal, Record(k, Before(s.registry, k)));
  }

  lemma CreateUndone(s: Session, k: Key, draft: Doc, w: World)
    requires HasTool(s.registry, Create(k, draft)) && w.accepted && w.written && FreshKey(s, k)
    ensures var s' := Step(s, Create(k, draft), w);
            Undo(Bodies(s'.registry), s'.journal) ==
            if w.persisted then Undo(Bodies(s.registry), s.journal)
            else Undo(Bodies(s.registry), s.journal)[k := Body(k.resource, draft)]
  {
    var d := Stored(k.resource, draft, w.stamp);
    if w.persisted {
      UndoOneWrite(s.registry, k, d);
      UndoSnoc(Bodies(s.registry[k := d]), s.journal, Record(k, None));
    } else {
      assert Bodies(s.registry[k := d]) == Bodies(s.registry)[k := Body(k.resource, draft)];
      UndoFrame(Bodies(s.registry), s.journal, k, Body(k.resource, draft));
    }
  }

  lemma StepUndone(s: Session, c: Call, w: World)
    ensures var s' := Step(s, c, w);
            Undo(Bodies(s'.registry), s'.journal) ==
            if LosesRecord(s, c, w)
            then Undo(Bodies(s.registry), s.journal)[c.key := Body(c.key.resource, c.draft)]
            else Undo(Bodies(s.registry), s.journal)
  {
    if w.accepted && HasTool(s.registry, c) {
      match c
      case Save(k, draft) =>
        UndoOneWrite(s.registry, k, Stored(k.resource, draft, w.stamp));
        RecordedUndone(s, k, w, s.registry[k := Stored(k.resource, draft, w.stamp)]);
      case Remove(k) =>
        UndoOneDelete(s.registry, k);
        RecordedUndone(s, k, w, s.registry - {k});
      case Update(k, draft) =>
        UndoOneWrite(s.registry, k, Stored(k.resource, draft, w.stamp));
        RecordedUndone(s, k, w, s.registry[k := Stored(k.resource, draft, w.stamp)]);
      case Create(k, draft) =>
        if w.written && FreshKey(s, k) {
          CreateUndone(s, k, draft, w);
        }
    }
  }

  /** Undo is exact: restoring the journal of any sequence of writes, including
      writes that fail after being recorded or never happen because the process
      died, gives back the starting registry up to bookkeeping, plus exactly the
      creates whose record was lost. */
  lemma {:induction false} UndoIsExact(reg: Registry, calls: seq<(Call, World)>, stamps: nat -> Doc)
    ensures Bodies(Restore(Run(reg, calls).registry, Run(reg, calls).journal, stamps)) ==
            Bodies(reg) + Unrecorded(reg, calls)
  {
    RestoreIsUndo(Run(reg, calls).registry, Run(reg, calls).journal, stamps);
    UndoneBodies(reg, calls);
  }

  lemma {:induction false} UndoneBodies(reg: Registry, calls: seq<(Call, World)>)
    ensures Undo(Bodies(Run(reg, calls).registry), Run(reg, calls).journal) == Bodies(reg) + Unrecorded(reg, calls)
  {
    if calls == [] {
      assert Bodies(reg) + map[] == Bodies(reg);
    } else {
      var last := |calls| - 1;
      var s, c, w := Run(reg, calls[..last]), calls[last].0, calls[last].1;
      UndoneBodies(reg, calls[..last]);
      StepUndone(s, c, w);
      assert Run(reg, calls) == Step(s, c, w);
      if LosesRecord(s, c, w) {
        AddLater(Bodies(reg), Unrecorded(reg, calls[..last]), c.key, Body(c.key.resource, c.draft));
      }
    }
  }

  lemma AddLater(a: Registry, b: Registry, k: Key, d: Doc)
    ensures (a + b)[k := d] == a + b[k := d]
  {
  }

  /** So undo returns to the start exactly when no create lost its record. */
  lemma UndoIffRecorded(reg: Registry, calls: seq<(Call, World)>, stamps: nat -> Doc)
    ensures Bodies(Restore(Run(reg, calls).registry, Run(reg, calls).journal, stamps)) == Bodies(reg) <==>
            forall i :: 0 <= i < |calls| ==> !LosesRecord(Run(reg, calls[..i]), calls[i].0, calls[i].1)
  {
    UndoIsExact(reg, calls, stamps);
    UnrecordedIsNew(reg, calls);
    UnrecordedEmpty(reg, calls);
    if Unrecorded(reg, calls) == map[] {
      assert Bodies(reg) + Unrecorded(reg, calls) == Bodies(reg);
    } else {
      var k :| k in Unrecorded(reg, calls);
      assert k in Bodies(reg) + Unrecorded(reg, calls) && k !in Bodies(reg);
    }
  }

  lemma {:induction false} UnrecordedEmpty(reg: Registry, calls: seq<(Call, World)>)
    ensures Unrecorded(reg, calls) == map[] <==>
            forall i :: 0 <= i < |calls| ==> !LosesRecord(Run(reg, calls[..i]), calls[i].0, calls[i].1)
  {
    if calls != [] {
      var last := |calls| - 1;
      UnrecordedEmpty(reg, calls[..last]);
      assert forall i :: 0 <= i < last ==> calls[..last][..i] == calls[..i];
      if LosesRecord(Run(reg, calls[..last]), calls[last].0, calls[last].1) {
        assert calls[last].0.key in Unrecorded(reg, calls);
      }
    }
  }

  /** A key the session starts with stays in its registry or in its journal. */
  lemma {:induction false} KeysStayKnown(reg: Registry, calls: seq<(Call, World)>, k: Key)
    requires k in reg
    ensures !FreshKey(Run(reg, calls), k)
  {
    if calls != [] {
      var last := |calls| - 1;
      KeysStayKnown(reg, calls[..last], k);
      var s, s' := Run(reg, calls[..last]), Run(reg, calls);
      if k !in s.registry {
        var r :| r in s.journal && r.key == k;
        assert r in s'.journal;
      } else if k !in s'.registry {
        assert s'.journal == s.journal + [Record(k, Some(s.registry[k]))];
        assert Record(k, Some(s.registry[k])) in s'.journal;
      }
    }
  }

  lemma {:induction false} UnrecordedIsNew(reg: Registry, calls: seq<(Call, World)>)
    ensures forall k :: k in Unrecorded(reg, calls) ==> k !in reg
  {
    if calls != [] {
      var last := |calls| - 1;
      UnrecordedIsNew(reg, calls[..last]);
      if LosesRecord(Run(reg, calls[..last]), calls[last].0, calls[last].1) && calls[last].0.key in reg {
        KeysStayKnown(reg, calls[..last], calls[last].0.key);
      }
    }
  }

  // ---------------------------------------------------------------- the session object

  class Toolkit {
    var registry: Registry
    var journal: seq<Record>

    ghost function Abs(): Session
      reads this
    {
      Session(registry, journal)
    }

    constructor (registry: Registry)
      ensures Abs() == Session(registry, [])
    {
      this.registry, journal := registry, [];
    }

    /** Make the record durable before anything happens; a failure refuses the write. */
    method RecordChange(k: Key, before: Option<Doc>, w: World) returns (ok: bool)
      modifies this`journal
      ensures ok == w.persisted
      ensures journal == if ok then old(journal) + [Record(k, before)] else old(journal)
    {
      ok := w.persisted;
      if ok {
        journal := journal + [Record(k, before)];
      }
    }

    /** upsert_connection, save_table, save_network, set_global_variables */
    method SaveDocument(k: Key, draft: Doc, w: World) returns (ok: bool)
      requires HasTool(registry, Save(k, draft))
      modifies this
      ensures Abs() == Step(old(Abs()), Save(k, draft), w)
      ensures ok <==> w.accepted && w.persisted && w.written
    {
      ok := false;
      if w.accepted {
        ok := RecordChange(k, Before(registry, k), w);
        if ok {
          ok := w.written;
          if ok {
            registry := registry[k := Stored(k.resource, draft, w.stamp)];
          }
        }
      }
    }

    /** delete_connection, delete_table, delete_starter_flow, delete_network */
    method DeleteDocument(k: Key, w: World) returns (ok: bool)
      requires k.resource in {Connection, Table, StarterFlow, NetworkFlow}
      modifies this
      ensures Abs() == Step(old(Abs()), Remove(k), w)
      ensures ok <==> w.accepted && old(k in registry) && w.persisted && w.written
    {
      ok := false;
      if w.accepted && k in registry {
        ok := RecordChange(k, Some(registry[k]), w);
        if ok {
          ok := w.written;
          if ok {
            registry := registry - {k};
          }
        }
      }
    }

    /** update_scenario */
    method UpdateScenario(name: string, draft: Doc, w: World) returns (ok: bool)
      modifies this
      ensures Abs() == Step(old(Abs()), Update(Key(Scenario, name), draft), w)
      ensures ok <==> w.accepted && old(Key(Scenario, name) in registry) && w.persisted && w.written
    {
      var k := Key(Scenario, name);
      ok := false;
      if k in registry && w.accepted {
        ok := RecordChange(k, Some(registry[k]), w);
        if ok {
          ok := w.written;
          if ok {
            registry := registry[k := Stored(Scenario, draft, w.stamp)];
          }
        }
      }
    }

    /** create_starter_flow, create_scenario: the key is the id the write assigns,
        so the record comes after the write. */
    method CreateDocument(k: Key, draft: Doc, w: World) returns (ok: bool)
      requires k.resource in {StarterFlow, Scenario} && FreshKey(Session(registry, journal), k)
      modifies this
      ensures Abs() == Step(old(Abs()), Create(k, draft), w)
      ensures ok <==> w.accepted && w.written && w.persisted
    {
      ok := false;
      if w.accepted && w.written {
        registry := registry[k := Stored(k.resource, draft, w.stamp)];
        ok := RecordChange(k, None, w);
      }
    }

    /** Undo every recorded change, newest first, and forget the records. */
    method Revert(stamps: nat -> Doc)
      modifies this
      ensures registry == Restore(old(registry), old(journal), stamps) && journal == []
    {
      var i := |journal|;
      assert journal[..i] == journal;
      while i > 0
        invariant 0 <= i <= |journal| && journal == old(journal)
        invariant Restore(registry, journal[..i], stamps) == Restore(old(registry), journal, stamps)
      {
        i := i - 1;
        assert journal[..i + 1][..i] == journal[..i];
        registry := RestoreOne(registry, journal[i], stamps(i));
      }
      journal := [];
    }
  }
}
