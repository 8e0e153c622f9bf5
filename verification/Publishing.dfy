/** Publishing as the handler does it, one await at a time: the caller's roles, the
    draft, the comparison with the active version, and then the store, which activates
    whatever the row holds by then. Other handlers and edits come in between. */
module Publishing {
  import opened Wrappers
  import opened Grants
  import opened RegistryStore

  /** The admin roles, how a stored spec reads as an agent, and the spec hash. */
  datatype Hub = Hub(admins: set<string>, parse: string -> Agent, hash: string -> string)

  /** How far a publish has come. `against` is the spec it was compared with. */
  datatype Stage = Arrived | Drafted(spec: string) | Passed(checked: string, against: Option<string>)

  /** A publish under way; `free` ones are not compared with the active version. */
  datatype Ticket = Ticket(name: Name, number: nat, free: bool, stage: Stage)

  datatype Desk = Desk(tables: Tables, tickets: seq<Ticket>)

  datatype Event =
    | Edit(op: Op)
    | Arrive(name: Name, number: nat, caller: Caller)
    | ReadDraft(ticket: nat)
    | Compare(ticket: nat, valid: bool)
    | Commit(ticket: nat)

  ghost function ActiveSpec(t: Tables, d: Name): Option<string> {
    if v :| ActiveAt(t, d, v) then Some(t.versions[VersionKey(d, v)].spec) else None
  }

  ghost function ActiveAgent(hub: Hub, t: Tables, d: Name): Option<Agent> {
    if ActiveSpec(t, d).Some? then Some(hub.parse(ActiveSpec(t, d).value)) else None
  }

  /** Only agents are compared, and only for callers who are not admins. */
  predicate IsFree(hub: Hub, d: Name, caller: Caller) {
    d.kind != "agent" || IsAdmin(hub.admins, caller)
  }

  predicate IsDraft(t: Tables, d: Name, number: nat) {
    VersionKey(d, number) in t.versions && t.versions[VersionKey(d, number)].status == Draft
  }

  function Without(tickets: seq<Ticket>, i: nat): seq<Ticket>
    requires i < |tickets|
  {
    tickets[..i] + tickets[i + 1..]
  }

  function Advance(s: Desk, i: nat, stage: Stage): Desk
    requires i < |s.tickets|
  {
    s.(tickets := s.tickets[i := s.tickets[i].(stage := stage)])
  }

  function Drop(s: Desk, i: nat): Desk
    requires i < |s.tickets|
  {
    s.(tickets := Without(s.tickets, i))
  }

  ghost predicate Widening(hub: Hub, t: Tables, k: Ticket)
    requires k.stage.Drafted?
  {
    !k.free && ActiveSpec(t, k.name).Some? && !NotWider(hub.parse(ActiveSpec(t, k.name).value), hub.parse(k.stage.spec))
  }

  ghost function Compared(hub: Hub, s: Desk, i: nat, valid: bool): Desk
    requires i < |s.tickets| && s.tickets[i].stage.Drafted?
  {
    var k := s.tickets[i];
    if !valid || Widening(hub, s.tables, k) then Drop(s, i)
    else Advance(s, i, Passed(k.stage.spec, if k.free then None else ActiveSpec(s.tables, k.name)))
  }

  ghost function Committed(hub: Hub, s: Desk, i: nat): Desk
    requires i < |s.tickets|
  {
    Drop(s.(tables := Next(hub.hash, s.tables, Op.Publish(s.tickets[i].name, s.tickets[i].number))), i)
  }

  ghost function Step(hub: Hub, s: Desk, e: Event): Desk {
    match e
    case Edit(op) => if op.Publish? then s else s.(tables := Next(hub.hash, s.tables, op))
    case Arrive(d, number, caller) =>
      if MayEdit(hub.admins, ActiveAgent(hub, s.tables, d), caller)
      then s.(tickets := s.tickets + [Ticket(d, number, IsFree(hub, d, caller), Arrived)]) else s
    case ReadDraft(i) =>
      if i >= |s.tickets| || !s.tickets[i].stage.Arrived? then s
      else if IsDraft(s.tables, s.tickets[i].name, s.tickets[i].number)
      then Advance(s, i, Drafted(s.tables.versions[VersionKey(s.tickets[i].name, s.tickets[i].number)].spec))
      else Drop(s, i)
    case Compare(i, valid) =>
      if i >= |s.tickets| || !s.tickets[i].stage.Drafted? then s else Compared(hub, s, i, valid)
    case Commit(i) =>
      if i >= |s.tickets| || !s.tickets[i].stage.Passed? then s else Committed(hub, s, i)
  }

  ghost function Steps(hub: Hub, s: Desk, events: seq<Event>): Desk {
    if events == [] then s else Step(hub, Steps(hub, s, events[..|events| - 1]), events[|events| - 1])
  }

  lemma {:induction false} StepsJoin(hub: Hub, s: Desk, a: seq<Event>, b: seq<Event>)
    ensures Steps(hub, s, a + b) == Steps(hub, Steps(hub, s, a), b)
  {
    if b == [] {
      assert a + b == a;
    } else {
      var k := |b| - 1;
      assert (a + b)[..|a + b| - 1] == a + b[..k];
      StepsJoin(hub, s, a, b[..k]);
    }
  }

  lemma OneStep(hub: Hub, s: Desk, e: Event)
    ensures Steps(hub, s, [e]) == Step(hub, s, e)
  {
    assert [e][..0] == [];
  }

  // ---------------------------------------------------------------- what changes the active version

  /** No edit of the registry touches what is active. */
  lemma EditsActivateNothing(hub: Hub, t: Tables, op: Op, d: Name, v: nat)
    requires !op.Publish? && ActiveAt(Next(hub.hash, t, op), d, v)
    ensures ActiveAt(t, d, v) && Next(hub.hash, t, op).versions[VersionKey(d, v)].spec == t.versions[VersionKey(d, v)].spec
  {
  }

  /** After a commit the committed version is the active one; other definitions keep theirs. */
  lemma CommitActivates(hub: Hub, t: Tables, name: Name, number: nat, d: Name, v: nat)
    requires Refused(t, Op.Publish(name, number)).None?
    ensures d == name ==> (ActiveAt(Next(hub.hash, t, Op.Publish(name, number)), d, v) <==> v == number)
    ensures d != name ==> (ActiveAt(Next(hub.hash, t, Op.Publish(name, number)), d, v) <==> ActiveAt(t, d, v))
    ensures VersionKey(d, v) in t.versions ==>
              VersionKey(d, v) in Next(hub.hash, t, Op.Publish(name, number)).versions &&
              Next(hub.hash, t, Op.Publish(name, number)).versions[VersionKey(d, v)].spec == t.versions[VersionKey(d, v)].spec
  {
  }

  lemma ActiveSpecIs(hash: string -> string, t: Tables, d: Name, v: nat)
    requires TablesInv(hash, t) && ActiveAt(t, d, v)
    ensures d in t.defs && t.defs[d].status == ActiveDef && (forall w :: ActiveAt(t, d, w) ==> w == v)
    ensures ActiveSpec(t, d) == Some(t.versions[VersionKey(d, v)].spec)
  {
    assert d in t.defs && DefinitionInv(hash, t, d);
    assert OneActive(t, d) && RowsInv(hash, t, d);
  }

  // ---------------------------------------------------------------- what a ticket knows

  /** Has been active: it never goes back to a draft. */
  predicate WasActive(t: Tables, d: Name) {
    d in t.defs && t.defs[d].status != DraftDef
  }

  lemma WasActiveStays(hub: Hub, t: Tables, op: Op, d: Name)
    requires WasActive(t, d)
    ensures WasActive(Next(hub.hash, t, op), d)
    ensures t.defs[d].status == RetiredDef ==> Next(hub.hash, t, op).defs[d].status == RetiredDef
  {
  }

  /** A ticket that must be compared is for a definition that was active. If it passed,
      its draft is not wider than the version it was compared with; if there was none,
      the definition is retired. */
  ghost predicate TicketOk(hub: Hub, t: Tables, k: Ticket) {
    !k.free ==>
      && WasActive(t, k.name)
      && (k.stage.Passed? && k.stage.against.Some? ==> NotWider(hub.parse(k.stage.against.value), hub.parse(k.stage.checked)))
      && (k.stage.Passed? && k.stage.against.None? ==> t.defs[k.name].status == RetiredDef)
  }

  ghost predicate DeskInv(hub: Hub, s: Desk) {
    TablesInv(hub.hash, s.tables) && forall i :: 0 <= i < |s.tickets| ==> TicketOk(hub, s.tables, s.tickets[i])
  }

  lemma TicketsStay(hub: Hub, s: Desk, op: Op)
    requires DeskInv(hub, s)
    ensures DeskInv(hub, s.(tables := Next(hub.hash, s.tables, op)))
  {
    StepKeeps(hub.hash, s.tables, op);
    forall i | 0 <= i < |s.tickets|
      ensures TicketOk(hub, Next(hub.hash, s.tables, op), s.tickets[i])
    {
      assert TicketOk(hub, s.tables, s.tickets[i]);
      if !s.tickets[i].free {
        WasActiveStays(hub, s.tables, op, s.tickets[i].name);
      }
    }
  }

  lemma DropOk(hub: Hub, s: Desk, i: nat)
    requires DeskInv(hub, s) && i < |s.tickets|
    ensures DeskInv(hub, Drop(s, i))
  {
    forall j | 0 <= j < |s.tickets| - 1
      ensures TicketOk(hub, s.tables, Without(s.tickets, i)[j])
    {
      assert Without(s.tickets, i)[j] == s.tickets[if j < i then j else j + 1];
    }
  }

  /** An editor who is not an admin needs an active version to arrive. */
  lemma ArriveOk(hub: Hub, t: Tables, d: Name, number: nat, caller: Caller)
    requires TablesInv(hub.hash, t) && MayEdit(hub.admins, ActiveAgent(hub, t, d), caller)
    ensures TicketOk(hub, t, Ticket(d, number, IsFree(hub, d, caller), Arrived))
  {
    if !IsFree(hub, d, caller) {
      OnlyAdminsFirst(hub.admins, caller);
      var v :| ActiveAt(t, d, v);
      ActiveSpecIs(hub.hash, t, d, v);
    }
  }

  lemma CompareOk(hub: Hub, s: Desk, i: nat)
    requires DeskInv(hub, s) && i < |s.tickets| && s.tickets[i].stage.Drafted? && !Widening(hub, s.tables, s.tickets[i])
    ensures var k := s.tickets[i];
            TicketOk(hub, s.tables, k.(stage := Passed(k.stage.spec, if k.free then None else ActiveSpec(s.tables, k.name))))
  {
    var k := s.tickets[i];
    assert TicketOk(hub, s.tables, k);
    if !k.free && ActiveSpec(s.tables, k.name).None? {
      assert DefinitionInv(hub.hash, s.tables, k.name);
      assert OneActive(s.tables, k.name);
    }
  }

  lemma AdvanceOk(hub: Hub, s: Desk, i: nat, stage: Stage)
    requires DeskInv(hub, s) && i < |s.tickets| && !stage.Passed?
    ensures DeskInv(hub, Advance(s, i, stage))
  {
    assert TicketOk(hub, s.tables, s.tickets[i]);
  }

  lemma ReadOk(hub: Hub, s: Desk, i: nat)
    requires DeskInv(hub, s)
    ensures DeskInv(hub, Step(hub, s, ReadDraft(i)))
  {
    if i < |s.tickets| && s.tickets[i].stage.Arrived? {
      if IsDraft(s.tables, s.tickets[i].name, s.tickets[i].number) {
        AdvanceOk(hub, s, i, Drafted(s.tables.versions[VersionKey(s.tickets[i].name, s.tickets[i].number)].spec));
      } else {
        DropOk(hub, s, i);
      }
    }
  }

  lemma ComparedOk(hub: Hub, s: Desk, i: nat, valid: bool)
    requires DeskInv(hub, s) && i < |s.tickets| && s.tickets[i].stage.Drafted?
    ensures DeskInv(hub, Compared(hub, s, i, valid))
  {
    DropOk(hub, s, i);
    if !Widening(hub, s.tables, s.tickets[i]) {
      CompareOk(hub, s, i);
    }
  }

  lemma CommittedOk(hub: Hub, s: Desk, i: nat)
    requires DeskInv(hub, s) && i < |s.tickets|
    ensures DeskInv(hub, Committed(hub, s, i))
  {
    var op := Op.Publish(s.tickets[i].name, s.tickets[i].number);
    TicketsStay(hub, s, op);
    DropOk(hub, s.(tables := Next(hub.hash, s.tables, op)), i);
  }

  lemma StepOk(hub: Hub, s: Desk, e: Event)
    requires DeskInv(hub, s)
    ensures DeskInv(hub, Step(hub, s, e))
  {
    match e
    case Edit(op) => TicketsStay(hub, s, op);
    case Arrive(d, number, caller) =>
      if MayEdit(hub.admins, ActiveAgent(hub, s.tables, d), caller) {
        ArriveOk(hub, s.tables, d, number, caller);
      }
    case ReadDraft(i) => ReadOk(hub, s, i);
    case Compare(i, valid) =>
      if i < |s.tickets| && s.tickets[i].stage.Drafted? {
        ComparedOk(hub, s, i, valid);
      }
    case Commit(i) =>
      if i < |s.tickets| && s.tickets[i].stage.Passed? {
        CommittedOk(hub, s, i);
      }
  }

  lemma {:induction false} StepsOk(hub: Hub, s: Desk, events: seq<Event>)
    requires DeskInv(hub, s)
    ensures DeskInv(hub, Steps(hub, s, events))
  {
    if events != [] {
      StepsOk(hub, s, events[..|events| - 1]);
      StepOk(hub, Steps(hub, s, events[..|events| - 1]), events[|events| - 1]);
    }
  }

  // ---------------------------------------------------------------- one commit by an editor

  /** A publish that had to pass the comparison reaches the store and is carried out. */
  predicate EditorCommits(s: Desk, e: Event) {
    && e.Commit? && e.ticket < |s.tickets| && s.tickets[e.ticket].stage.Passed? && !s.tickets[e.ticket].free
    && Refused(s.tables, Op.Publish(s.tickets[e.ticket].name, s.tickets[e.ticket].number)).None?
  }

  /** What the row holds by then. */
  function RowSpec(s: Desk, i: nat): string
    requires i < |s.tickets| && Refused(s.tables, Op.Publish(s.tickets[i].name, s.tickets[i].number)).None?
  {
    s.tables.versions[VersionKey(s.tickets[i].name, s.tickets[i].number)].spec
  }

  /** The version active after is not wider than the one active before. */
  ghost predicate Shrinks(hub: Hub, t: Tables, t': Tables, d: Name) {
    forall v, w :: ActiveAt(t, d, v) && ActiveAt(t', d, w) ==>
      NotWider(hub.parse(t.versions[VersionKey(d, v)].spec), hub.parse(t'.versions[VersionKey(d, w)].spec))
  }

  /** The draft was not rewritten into a wider one since it was checked. */
  ghost predicate StillChecked(hub: Hub, s: Desk, e: Event) {
    EditorCommits(s, e) ==> NotWider(hub.parse(s.tickets[e.ticket].stage.checked), hub.parse(RowSpec(s, e.ticket)))
  }

  /** The active version was not narrowed since the comparison: what it was compared
      with is not wider than what is active now. */
  ghost predicate StillCompared(hub: Hub, s: Desk, e: Event) {
    EditorCommits(s, e) && s.tickets[e.ticket].stage.against.Some? ==>
      forall v :: ActiveAt(s.tables, s.tickets[e.ticket].name, v) ==>
        NotWider(hub.parse(s.tables.versions[VersionKey(s.tickets[e.ticket].name, v)].spec),
                 hub.parse(s.tickets[e.ticket].stage.against.value))
  }

  lemma NotWiderItself(p: Agent)
    ensures NotWider(p, p)
  {
  }

  /** An editor's publish that is carried out was compared with something. */
  lemma WasCompared(hub: Hub, s: Desk, i: nat)
    requires DeskInv(hub, s) && EditorCommits(s, Commit(i))
    ensures s.tickets[i].stage.against.Some?
    ensures NotWider(hub.parse(s.tickets[i].stage.against.value), hub.parse(s.tickets[i].stage.checked))
  {
    assert TicketOk(hub, s.tables, s.tickets[i]);
  }

  /** A commit shrinks the grant exactly when what it activates is not wider than what
      is active. */
  lemma CommitShrinksIff(hub: Hub, s: Desk, i: nat, v: nat)
    requires EditorCommits(s, Commit(i)) && ActiveAt(s.tables, s.tickets[i].name, v)
    requires forall w :: ActiveAt(s.tables, s.tickets[i].name, w) ==> w == v
    ensures Shrinks(hub, s.tables, Step(hub, s, Commit(i)).tables, s.tickets[i].name) <==>
            NotWider(hub.parse(s.tables.versions[VersionKey(s.tickets[i].name, v)].spec), hub.parse(RowSpec(s, i)))
  {
    var d, number := s.tickets[i].name, s.tickets[i].number;
    var t' := Step(hub, s, Commit(i)).tables;
    forall w: nat
      ensures ActiveAt(t', d, w) <==> w == number
    {
      CommitActivates(hub, s.tables, d, number, d, w);
    }
    CommitActivates(hub, s.tables, d, number, d, number);
  }

  /** The desk with another draft behind ticket `i`: checked as `c`, held by the row as `k`. */
  function DraftedAs(s: Desk, i: nat, c: string, k: string): Desk
    requires EditorCommits(s, Commit(i))
  {
    var key := VersionKey(s.tickets[i].name, s.tickets[i].number);
    Desk(s.tables.(versions := s.tables.versions[key := s.tables.versions[key].(spec := k)]),
         s.tickets[i := s.tickets[i].(stage := Passed(c, s.tickets[i].stage.against))])
  }

  /** Both halves of the handler's promise at one commit. */
  ghost predicate Safe(hub: Hub, s: Desk, i: nat, c: string, k: string)
    requires EditorCommits(s, Commit(i))
  {
    Shrinks(hub, s.tables, Step(hub, DraftedAs(s, i, c, k), Commit(i)).tables, s.tickets[i].name)
  }

  lemma DraftedShrinks(hub: Hub, s: Desk, i: nat, v: nat, c: string, k: string)
    requires EditorCommits(s, Commit(i)) && ActiveAt(s.tables, s.tickets[i].name, v)
    requires forall w :: ActiveAt(s.tables, s.tickets[i].name, w) ==> w == v
    ensures Safe(hub, s, i, c, k) <==>
            NotWider(hub.parse(s.tables.versions[VersionKey(s.tickets[i].name, v)].spec), hub.parse(k))
  {
    var d, number := s.tickets[i].name, s.tickets[i].number;
    var t := DraftedAs(s, i, c, k).tables;
    var t' := Step(hub, DraftedAs(s, i, c, k), Commit(i)).tables;
    forall w: nat
      ensures ActiveAt(t', d, w) <==> w == number
    {
      CommitActivates(hub, t, d, number, d, w);
    }
    CommitActivates(hub, t, d, number, d, number);
  }

  lemma SafeExactly(hub: Hub, s: Desk, i: nat, v: nat)
    requires EditorCommits(s, Commit(i)) && s.tickets[i].stage.against.Some? && ActiveAt(s.tables, s.tickets[i].name, v)
    requires forall w :: ActiveAt(s.tables, s.tickets[i].name, w) ==> w == v
    ensures var a := s.tickets[i].stage.against.value;
            var now := s.tables.versions[VersionKey(s.tickets[i].name, v)].spec;
            (forall c, k :: NotWider(hub.parse(a), hub.parse(c)) && NotWider(hub.parse(c), hub.parse(k)) ==> Safe(hub, s, i, c, k))
            <==> NotWider(hub.parse(now), hub.parse(a))
  {
    var a, now := s.tickets[i].stage.against.value, s.tables.versions[VersionKey(s.tickets[i].name, v)].spec;
    NotWiderItself(hub.parse(a));
    DraftedShrinks(hub, s, i, v, a, a);
    if NotWider(hub.parse(now), hub.parse(a)) {
      forall c, k | NotWider(hub.parse(a), hub.parse(c)) && NotWider(hub.parse(c), hub.parse(k))
        ensures Safe(hub, s, i, c, k)
      {
        NotWiderChains(hub.parse(now), hub.parse(a), hub.parse(c));
        NotWiderChains(hub.parse(now), hub.parse(c), hub.parse(k));
        DraftedShrinks(hub, s, i, v, c, k);
      }
    }
  }

  /** An editor's publish that is carried out replaces an active version. */
  lemma ReplacesActive(hub: Hub, s: Desk, i: nat) returns (v: nat)
    requires DeskInv(hub, s) && EditorCommits(s, Commit(i))
    ensures ActiveAt(s.tables, s.tickets[i].name, v)
  {
    var d := s.tickets[i].name;
    assert TicketOk(hub, s.tables, s.tickets[i]);
    assert DefinitionInv(hub.hash, s.tables, d) && OneActive(s.tables, d);
    v :| ActiveAt(s.tables, d, v);
  }

  /** This is the exact condition, at every commit by an editor in every run. The commit
      is not wider than the version it replaces, whatever draft passed the comparison
      and is committed no wider than it was checked, if and only if the version it was
      compared with is not wider than the one it replaces. */
  lemma CommitIsSafeExactly(hub: Hub, t: Tables, events: seq<Event>, i: nat)
    requires TablesInv(hub.hash, t) && EditorCommits(Steps(hub, Desk(t, []), events), Commit(i))
    ensures var s := Steps(hub, Desk(t, []), events);
            && s.tickets[i].stage.against.Some? && ActiveSpec(s.tables, s.tickets[i].name).Some?
            && var a := hub.parse(s.tickets[i].stage.against.value);
               (forall c, k :: NotWider(a, hub.parse(c)) && NotWider(hub.parse(c), hub.parse(k)) ==> Safe(hub, s, i, c, k))
               <==> NotWider(hub.parse(ActiveSpec(s.tables, s.tickets[i].name).value), a)
  {
    var s := Steps(hub, Desk(t, []), events);
    StepsOk(hub, Desk(t, []), events);
    WasCompared(hub, s, i);
    var v := ReplacesActive(hub, s, i);
    ActiveSpecIs(hub.hash, s.tables, s.tickets[i].name, v);
    SafeExactly(hub, s, i, v);
  }

  /** Every commit by an editor whose draft and whose comparison still stand shrinks
      the grant. */
  lemma EditorCommitShrinks(hub: Hub, s: Desk, i: nat)
    requires DeskInv(hub, s) && EditorCommits(s, Commit(i))
    requires StillChecked(hub, s, Commit(i)) && StillCompared(hub, s, Commit(i))
    ensures Shrinks(hub, s.tables, Step(hub, s, Commit(i)).tables, s.tickets[i].name)
  {
    var k := s.tickets[i];
    WasCompared(hub, s, i);
    if v :| ActiveAt(s.tables, k.name, v) {
      var now := s.tables.versions[VersionKey(k.name, v)].spec;
      ActiveSpecIs(hub.hash, s.tables, k.name, v);
      NotWiderChains(hub.parse(now), hub.parse(k.stage.against.value), hub.parse(k.stage.checked));
      NotWiderChains(hub.parse(now), hub.parse(k.stage.checked), hub.parse(RowSpec(s, i)));
      CommitShrinksIff(hub, s, i, v);
    }
  }

  /** Over any run, admins and edits anywhere in between: the grant only shrinks at each
      commit by an editor, as long as no draft was widened between its check and its
      commit and no active version narrowed between comparison and commit. */
  lemma EditorCommitsShrink(hub: Hub, t: Tables, events: seq<Event>)
    requires TablesInv(hub.hash, t)
    requires forall i :: 0 <= i < |events| ==>
               StillChecked(hub, Steps(hub, Desk(t, []), events[..i]), events[i]) &&
               StillCompared(hub, Steps(hub, Desk(t, []), events[..i]), events[i])
    ensures forall i :: 0 <= i < |events| && EditorCommits(Steps(hub, Desk(t, []), events[..i]), events[i]) ==>
              var before := Steps(hub, Desk(t, []), events[..i]);
              Shrinks(hub, before.tables, Step(hub, before, events[i]).tables, before.tickets[events[i].ticket].name)
  {
    forall i | 0 <= i < |events| && EditorCommits(Steps(hub, Desk(t, []), events[..i]), events[i])
      ensures var before := Steps(hub, Desk(t, []), events[..i]);
              Shrinks(hub, before.tables, Step(hub, before, events[i]).tables, before.tickets[events[i].ticket].name)
    {
      StepsOk(hub, Desk(t, []), events[..i]);
      EditorCommitShrinks(hub, Steps(hub, Desk(t, []), events[..i]), events[i].ticket);
    }
  }

  // ---------------------------------------------------------------- runs without admins

  /** The active version of `d`, if any, is no wider than `p`. */
  ghost predicate Within(hub: Hub, p: Agent, t: Tables, d: Name) {
    forall v :: ActiveAt(t, d, v) ==> NotWider(p, hub.parse(t.versions[VersionKey(d, v)].spec))
  }

  ghost predicate TicketWithin(hub: Hub, p: Agent, k: Ticket, d: Name) {
    k.name == d ==> !k.free && (k.stage.Passed? && k.stage.against.Some? ==> NotWider(p, hub.parse(k.stage.checked)))
  }

  ghost predicate TicketsWithin(hub: Hub, p: Agent, tickets: seq<Ticket>, d: Name) {
    forall i :: 0 <= i < |tickets| ==> TicketWithin(hub, p, tickets[i], d)
  }

  /** Nobody who arrives for `d` is an admin. */
  predicate ByEditors(hub: Hub, events: seq<Event>, d: Name) {
    forall i :: 0 <= i < |events| && events[i].Arrive? && events[i].name == d ==> !IsAdmin(hub.admins, events[i].caller)
  }

  lemma DropWithin(hub: Hub, p: Agent, tickets: seq<Ticket>, i: nat, d: Name)
    requires TicketsWithin(hub, p, tickets, d) && i < |tickets|
    ensures TicketsWithin(hub, p, Without(tickets, i), d)
  {
    forall j | 0 <= j < |tickets| - 1
      ensures TicketWithin(hub, p, Without(tickets, i)[j], d)
    {
      assert Without(tickets, i)[j] == tickets[if j < i then j else j + 1];
    }
  }

  lemma EditWithin(hub: Hub, p: Agent, t: Tables, op: Op, d: Name)
    requires Within(hub, p, t, d) && !op.Publish?
    ensures Within(hub, p, Next(hub.hash, t, op), d)
  {
    forall v | ActiveAt(Next(hub.hash, t, op), d, v)
      ensures NotWider(p, hub.parse(Next(hub.hash, t, op).versions[VersionKey(d, v)].spec))
    {
      EditsActivateNothing(hub, t, op, d, v);
    }
  }

  /** One commit keeps the active version within a grant exactly when what it activates is. */
  lemma CommitKeepsExactly(hub: Hub, p: Agent, s: Desk, i: nat, d: Name)
    requires Within(hub, p, s.tables, d) && EditorCommits(s, Commit(i)) && s.tickets[i].name == d
    ensures Within(hub, p, Step(hub, s, Commit(i)).tables, d) <==> NotWider(p, hub.parse(RowSpec(s, i)))
  {
    var t' := Step(hub, s, Commit(i)).tables;
    forall v: nat
      ensures ActiveAt(t', d, v) <==> v == s.tickets[i].number
    {
      CommitActivates(hub, s.tables, d, s.tickets[i].number, d, v);
    }
    CommitActivates(hub, s.tables, d, s.tickets[i].number, d, s.tickets[i].number);
  }

  lemma CommitElsewhere(hub: Hub, p: Agent, t: Tables, name: Name, number: nat, d: Name)
    requires Within(hub, p, t, d) && (name != d || Refused(t, Op.Publish(name, number)).Some?)
    ensures Within(hub, p, Next(hub.hash, t, Op.Publish(name, number)), d)
  {
    if Refused(t, Op.Publish(name, number)).None? {
      var t' := Next(hub.hash, t, Op.Publish(name, number));
      forall v | ActiveAt(t', d, v)
        ensures NotWider(p, hub.parse(t'.versions[VersionKey(d, v)].spec))
      {
        CommitActivates(hub, t, name, number, d, v);
      }
    }
  }

  lemma OwnCommitWithin(hub: Hub, p: Agent, s: Desk, i: nat, d: Name)
    requires DeskInv(hub, s) && Within(hub, p, s.tables, d) && i < |s.tickets| && TicketWithin(hub, p, s.tickets[i], d)
    requires s.tickets[i].name == d && EditorCommits(s, Commit(i)) && StillChecked(hub, s, Commit(i))
    ensures Within(hub, p, Step(hub, s, Commit(i)).tables, d)
  {
    WasCompared(hub, s, i);
    NotWiderChains(p, hub.parse(s.tickets[i].stage.checked), hub.parse(RowSpec(s, i)));
    CommitKeepsExactly(hub, p, s, i, d);
  }

  lemma OtherCommitWithin(hub: Hub, p: Agent, s: Desk, i: nat, d: Name)
    requires Within(hub, p, s.tables, d) && i < |s.tickets| && TicketWithin(hub, p, s.tickets[i], d)
    requires s.tickets[i].stage.Passed? && !(EditorCommits(s, Commit(i)) && s.tickets[i].name == d)
    ensures Within(hub, p, Step(hub, s, Commit(i)).tables, d)
  {
    CommitElsewhere(hub, p, s.tables, s.tickets[i].name, s.tickets[i].number, d);
  }

  lemma CommitWithin(hub: Hub, p: Agent, s: Desk, i: nat, d: Name)
    requires DeskInv(hub, s) && Within(hub, p, s.tables, d) && TicketsWithin(hub, p, s.tickets, d)
    requires i < |s.tickets| && s.tickets[i].stage.Passed? && StillChecked(hub, s, Commit(i))
    ensures Within(hub, p, Step(hub, s, Commit(i)).tables, d)
  {
    var k := s.tickets[i];
    assert TicketWithin(hub, p, k, d);
    if EditorCommits(s, Commit(i)) && k.name == d {
      OwnCommitWithin(hub, p, s, i, d);
    } else {
      OtherCommitWithin(hub, p, s, i, d);
    }
  }

  lemma CompareWithin(hub: Hub, p: Agent, s: Desk, i: nat, valid: bool, d: Name)
    requires Within(hub, p, s.tables, d) && TicketsWithin(hub, p, s.tickets, d)
    requires i < |s.tickets| && s.tickets[i].stage.Drafted?
    ensures TicketsWithin(hub, p, Compared(hub, s, i, valid).tickets, d)
  {
    var k := s.tickets[i];
    DropWithin(hub, p, s.tickets, i, d);
    assert TicketWithin(hub, p, k, d);
    if k.name == d && !Widening(hub, s.tables, k) && ActiveSpec(s.tables, d).Some? {
      NotWiderChains(p, hub.parse(ActiveSpec(s.tables, d).value), hub.parse(k.stage.spec));
    }
  }

  lemma StepWithin(hub: Hub, p: Agent, s: Desk, e: Event, d: Name)
    requires d.kind == "agent" && DeskInv(hub, s) && Within(hub, p, s.tables, d) && TicketsWithin(hub, p, s.tickets, d)
    requires (e.Arrive? && e.name == d ==> !IsAdmin(hub.admins, e.caller)) && StillChecked(hub, s, e)
    ensures Within(hub, p, Step(hub, s, e).tables, d) && TicketsWithin(hub, p, Step(hub, s, e).tickets, d)
  {
    match e
    case Edit(op) => if !op.Publish? { EditWithin(hub, p, s.tables, op, d); }
    case Arrive(_, _, _) =>
    case ReadDraft(i) => ReadWithin(hub, p, s, i, d);
    case Compare(i, valid) =>
      if i < |s.tickets| && s.tickets[i].stage.Drafted? {
        CompareWithin(hub, p, s, i, valid, d);
      }
    case Commit(i) => CommitStepWithin(hub, p, s, i, d);
  }

  lemma ReadWithin(hub: Hub, p: Agent, s: Desk, i: nat, d: Name)
    requires Within(hub, p, s.tables, d) && TicketsWithin(hub, p, s.tickets, d)
    ensures Within(hub, p, Step(hub, s, ReadDraft(i)).tables, d) && TicketsWithin(hub, p, Step(hub, s, ReadDraft(i)).tickets, d)
  {
    if i < |s.tickets| {
      assert TicketWithin(hub, p, s.tickets[i], d);
      DropWithin(hub, p, s.tickets, i, d);
    }
  }

  lemma CommitStepWithin(hub: Hub, p: Agent, s: Desk, i: nat, d: Name)
    requires DeskInv(hub, s) && Within(hub, p, s.tables, d) && TicketsWithin(hub, p, s.tickets, d)
    requires StillChecked(hub, s, Commit(i))
    ensures Within(hub, p, Step(hub, s, Commit(i)).tables, d) && TicketsWithin(hub, p, Step(hub, s, Commit(i)).tickets, d)
  {
    if i < |s.tickets| && s.tickets[i].stage.Passed? {
      CommitWithin(hub, p, s, i, d);
      DropWithin(hub, p, s.tickets, i, d);
    }
  }

  lemma {:induction false} StepsWithin(hub: Hub, p: Agent, s: Desk, events: seq<Event>, d: Name)
    requires d.kind == "agent" && DeskInv(hub, s) && Within(hub, p, s.tables, d) && TicketsWithin(hub, p, s.tickets, d)
    requires ByEditors(hub, events, d)
    requires forall i :: 0 <= i < |events| ==> StillChecked(hub, Steps(hub, s, events[..i]), events[i])
    ensures Within(hub, p, Steps(hub, s, events).tables, d) && TicketsWithin(hub, p, Steps(hub, s, events).tickets, d)
  {
    if events != [] {
      var k := |events| - 1;
      assert forall i :: 0 <= i < k ==> events[..k][..i] == events[..i];
      StepsWithin(hub, p, s, events[..k], d);
      StepsOk(hub, s, events[..k]);
      StepWithin(hub, p, Steps(hub, s, events[..k]), events[k], d);
    }
  }

  /** Editors alone never take an agent beyond where it was: over any interleaving of
      their publishes with edits, stale comparisons included, as long as no draft was
      widened after its check, the active version stays within the first one and runs
      no call the first could not. */
  lemma EditorsNeverGrow(hub: Hub, p: Agent, s: Desk, events: seq<Event>, d: Name)
    requires d.kind == "agent" && DeskInv(hub, s) && Within(hub, p, s.tables, d) && TicketsWithin(hub, p, s.tickets, d)
    requires ByEditors(hub, events, d)
    requires forall i :: 0 <= i < |events| ==> StillChecked(hub, Steps(hub, s, events[..i]), events[i])
    ensures Within(hub, p, Steps(hub, s, events).tables, d)
    ensures forall v, platform, name, args :: ActiveAt(Steps(hub, s, events).tables, d, v) ==>
              RunsNoMore(platform, p, hub.parse(Steps(hub, s, events).tables.versions[VersionKey(d, v)].spec), name, args)
  {
    StepsWithin(hub, p, s, events, d);
    var t := Steps(hub, s, events).tables;
    forall v, platform, name, args | ActiveAt(t, d, v)
      ensures RunsNoMore(platform, p, hub.parse(t.versions[VersionKey(d, v)].spec), name, args)
    {
      var n := hub.parse(t.versions[VersionKey(d, v)].spec);
      if Runs(platform, ScopeFor(platform, n), name, args) {
        NotWiderRefines(platform, p, n, name, args);
      }
    }
  }

  /** Nothing of `d` is active, and no publish of it is under way. */
  predicate Untouched(s: Desk, d: Name) {
    (forall k :: k in s.tables.versions && k.of == d ==> s.tables.versions[k].status != Active)
    && forall i :: 0 <= i < |s.tickets| ==> s.tickets[i].name != d
  }

  lemma StepUntouched(hub: Hub, s: Desk, e: Event, d: Name)
    requires Untouched(s, d) && (e.Arrive? && e.name == d ==> !IsAdmin(hub.admins, e.caller))
    ensures Untouched(Step(hub, s, e), d)
  {
    match e
    case Edit(op) =>
      if !op.Publish? {
        forall k | k in Next(hub.hash, s.tables, op).versions && k.of == d
          ensures Next(hub.hash, s.tables, op).versions[k].status != Active
        {
          if ActiveAt(Next(hub.hash, s.tables, op), d, k.number) {
            EditsActivateNothing(hub, s.tables, op, d, k.number);
          }
        }
      }
    case Arrive(name, _, caller) => if name == d { OnlyAdminsFirst(hub.admins, caller); }
    case ReadDraft(_) =>
    case Compare(_, _) =>
    case Commit(i) =>
      if i < |s.tickets| && s.tickets[i].stage.Passed? {
        OthersKept(hub.hash, s.tables, s.tickets[i]);
      }
  }

  lemma OthersKept(hash: string -> string, t: Tables, k: Ticket)
    ensures forall j: VersionKey :: j.of != k.name && j in Next(hash, t, Op.Publish(k.name, k.number)).versions ==>
              j in t.versions && Next(hash, t, Op.Publish(k.name, k.number)).versions[j] == t.versions[j]
  {
  }

  /** Without an active version only an admin's publish can make one. */
  lemma {:induction false} FirstPublishIsAdmins(hub: Hub, s: Desk, events: seq<Event>, d: Name)
    requires Untouched(s, d) && ByEditors(hub, events, d)
    ensures Untouched(Steps(hub, s, events), d)
  {
    if events != [] {
      FirstPublishIsAdmins(hub, s, events[..|events| - 1], d);
      StepUntouched(hub, Steps(hub, s, events[..|events| - 1]), events[|events| - 1], d);
    }
  }

  // ---------------------------------------------------------------- two runs that grow a grant

  /** A whole check by one caller, as the ticket numbered `i`. */
  function Checks(d: Name, number: nat, caller: Caller, i: nat): seq<Event> {
    [Arrive(d, number, caller), ReadDraft(i), Compare(i, true)]
  }

  /** A caller the active version names as editor, who is not an admin. */
  ghost predicate IsEditor(hub: Hub, t: Tables, d: Name, v: nat, caller: Caller) {
    && d.kind == "agent" && ActiveAt(t, d, v) && !IsAdmin(hub.admins, caller)
    && caller.roles * Members(hub.parse(t.versions[VersionKey(d, v)].spec).edit) != {}
  }

  lemma ThreeSteps(hub: Hub, s: Desk, a: Event, b: Event, c: Event)
    ensures Steps(hub, s, [a, b, c]) == Step(hub, Step(hub, Step(hub, s, a), b), c)
  {
    assert [a, b, c] == [a] + [b] + [c];
    StepsJoin(hub, s, [a] + [b], [c]);
    StepsJoin(hub, s, [a], [b]);
    OneStep(hub, s, a);
    OneStep(hub, Step(hub, s, a), b);
    OneStep(hub, Step(hub, Step(hub, s, a), b), c);
  }

  lemma EditorArrives(hub: Hub, t: Tables, d: Name, v: nat, caller: Caller)
    requires TablesInv(hub.hash, t) && IsEditor(hub, t, d, v, caller)
    ensures MayEdit(hub.admins, ActiveAgent(hub, t, d), caller) && !IsFree(hub, d, caller)
  {
    ActiveSpecIs(hub.hash, t, d, v);
    var active := hub.parse(t.versions[VersionKey(d, v)].spec);
    var r :| r in caller.roles * Members(active.edit);
    assert r in caller.roles * (hub.admins + Members(active.edit));
  }

  lemma CheckArrives(hub: Hub, s: Desk, d: Name, v: nat, number: nat, caller: Caller)
    requires TablesInv(hub.hash, s.tables) && IsEditor(hub, s.tables, d, v, caller)
    ensures Step(hub, s, Arrive(d, number, caller)) == s.(tickets := s.tickets + [Ticket(d, number, false, Arrived)])
  {
    EditorArrives(hub, s.tables, d, v, caller);
  }

  lemma CheckReads(hub: Hub, s: Desk, d: Name, number: nat)
    requires IsDraft(s.tables, d, number)
    ensures Step(hub, s.(tickets := s.tickets + [Ticket(d, number, false, Arrived)]), ReadDraft(|s.tickets|)) ==
            s.(tickets := s.tickets + [Ticket(d, number, false, Drafted(s.tables.versions[VersionKey(d, number)].spec))])
  {
    var spec := s.tables.versions[VersionKey(d, number)].spec;
    assert (s.tickets + [Ticket(d, number, false, Arrived)])[|s.tickets| := Ticket(d, number, false, Drafted(spec))] ==
           s.tickets + [Ticket(d, number, false, Drafted(spec))];
  }

  lemma CheckCompares(hub: Hub, s: Desk, d: Name, number: nat, spec: string)
    requires ActiveSpec(s.tables, d).Some? && NotWider(hub.parse(ActiveSpec(s.tables, d).value), hub.parse(spec))
    ensures Step(hub, s.(tickets := s.tickets + [Ticket(d, number, false, Drafted(spec))]), Compare(|s.tickets|, true)) ==
            s.(tickets := s.tickets + [Ticket(d, number, false, Passed(spec, ActiveSpec(s.tables, d)))])
  {
    var passed := Ticket(d, number, false, Passed(spec, ActiveSpec(s.tables, d)));
    assert (s.tickets + [Ticket(d, number, false, Drafted(spec))])[|s.tickets| := passed] == s.tickets + [passed];
  }

  /** What a check of draft `number` against version `v` leaves. */
  function PassedTicket(t: Tables, d: Name, v: nat, number: nat): Ticket
    requires VersionKey(d, v) in t.versions && VersionKey(d, number) in t.versions
  {
    Ticket(d, number, false, Passed(t.versions[VersionKey(d, number)].spec, Some(t.versions[VersionKey(d, v)].spec)))
  }

  /** An editor's draft that is not wider than the active version passes its check. */
  lemma ChecksPass(hub: Hub, s: Desk, d: Name, v: nat, number: nat, caller: Caller)
    requires TablesInv(hub.hash, s.tables) && IsEditor(hub, s.tables, d, v, caller) && IsDraft(s.tables, d, number)
    requires NotWider(hub.parse(s.tables.versions[VersionKey(d, v)].spec), hub.parse(s.tables.versions[VersionKey(d, number)].spec))
    ensures Steps(hub, s, Checks(d, number, caller, |s.tickets|)) ==
            s.(tickets := s.tickets + [PassedTicket(s.tables, d, v, number)])
  {
    var i := |s.tickets|;
    ActiveSpecIs(hub.hash, s.tables, d, v);
    ThreeSteps(hub, s, Arrive(d, number, caller), ReadDraft(i), Compare(i, true));
    CheckArrives(hub, s, d, v, number, caller);
    CheckReads(hub, s, d, number);
    CheckCompares(hub, s, d, number, s.tables.versions[VersionKey(d, number)].spec);
  }

  lemma DraftMayGo(hash: string -> string, t: Tables, d: Name, v: nat, number: nat)
    requires TablesInv(hash, t) && ActiveAt(t, d, v) && IsDraft(t, d, number)
    ensures Refused(t, Op.Publish(d, number)).None?
  {
    ActiveSpecIs(hash, t, d, v);
  }

  /** Every row keeps its spec, and the other drafts stay drafts. */
  ghost predicate RowsKept(t: Tables, t': Tables, d: Name, number: nat) {
    && (forall k :: k in t.versions ==> k in t'.versions && t'.versions[k].spec == t.versions[k].spec)
    && (forall w :: w != number && IsDraft(t, d, w) ==> IsDraft(t', d, w))
  }

  lemma CommitKeepsRows(hub: Hub, t: Tables, d: Name, number: nat)
    requires Refused(t, Op.Publish(d, number)).None?
    ensures RowsKept(t, Next(hub.hash, t, Op.Publish(d, number)), d, number)
  {
    var t' := Next(hub.hash, t, Op.Publish(d, number));
    forall k | k in t.versions
      ensures k in t'.versions && t'.versions[k].spec == t.versions[k].spec
    {
      CommitActivates(hub, t, d, number, k.of, k.number);
    }
  }

  lemma PublishGoes(hub: Hub, t: Tables, d: Name, v: nat, number: nat)
    requires TablesInv(hub.hash, t) && ActiveAt(t, d, v) && IsDraft(t, d, number)
    ensures Refused(t, Op.Publish(d, number)).None?
    ensures var t' := Next(hub.hash, t, Op.Publish(d, number));
            TablesInv(hub.hash, t') && ActiveAt(t', d, number) && RowsKept(t, t', d, number)
  {
    DraftMayGo(hub.hash, t, d, v, number);
    StepKeeps(hub.hash, t, Op.Publish(d, number));
    CommitActivates(hub, t, d, number, d, number);
    CommitKeepsRows(hub, t, d, number);
  }

  lemma CommitStep(hub: Hub, s: Desk, i: nat)
    requires i < |s.tickets| && s.tickets[i].stage.Passed?
    ensures Step(hub, s, Commit(i)) ==
            Desk(Next(hub.hash, s.tables, Op.Publish(s.tickets[i].name, s.tickets[i].number)), Without(s.tickets, i))
  {
  }

  /** The store carries out what passed. */
  lemma CommitGoes(hub: Hub, s: Desk, i: nat, d: Name, v: nat)
    requires TablesInv(hub.hash, s.tables) && i < |s.tickets| && s.tickets[i].stage.Passed? && !s.tickets[i].free
    requires s.tickets[i].name == d && ActiveAt(s.tables, d, v) && IsDraft(s.tables, d, s.tickets[i].number)
    ensures EditorCommits(s, Commit(i))
    ensures Step(hub, s, Commit(i)) ==
            Desk(Next(hub.hash, s.tables, Op.Publish(d, s.tickets[i].number)), Without(s.tickets, i))
  {
    DraftMayGo(hub.hash, s.tables, d, v, s.tickets[i].number);
    CommitStep(hub, s, i);
  }

  /** Two checks, then the commits in the other order. */
  function Stale(d: Name, a: nat, b: nat, caller: Caller): seq<Event> {
    Checks(d, a, caller, 0) + Checks(d, b, caller, 1) + [Commit(1)]
  }

  lemma BothPass(hub: Hub, t: Tables, d: Name, v: nat, a: nat, b: nat, caller: Caller)
    requires TablesInv(hub.hash, t) && IsEditor(hub, t, d, v, caller) && IsDraft(t, d, a) && IsDraft(t, d, b)
    requires NotWider(hub.parse(t.versions[VersionKey(d, v)].spec), hub.parse(t.versions[VersionKey(d, a)].spec))
    requires NotWider(hub.parse(t.versions[VersionKey(d, v)].spec), hub.parse(t.versions[VersionKey(d, b)].spec))
    ensures Steps(hub, Desk(t, []), Checks(d, a, caller, 0) + Checks(d, b, caller, 1)) ==
            Desk(t, [PassedTicket(t, d, v, a), PassedTicket(t, d, v, b)])
  {
    var one, two := PassedTicket(t, d, v, a), PassedTicket(t, d, v, b);
    ChecksPass(hub, Desk(t, []), d, v, a, caller);
    assert [] + [one] == [one] && [one] + [two] == [one, two];
    ChecksPass(hub, Desk(t, [one]), d, v, b, caller);
    StepsJoin(hub, Desk(t, []), Checks(d, a, caller, 0), Checks(d, b, caller, 1));
  }

  /** After the narrower draft is committed the other one is still to come. */
  lemma NarrowerIn(hub: Hub, t: Tables, d: Name, v: nat, a: nat, b: nat, caller: Caller)
    requires TablesInv(hub.hash, t) && IsEditor(hub, t, d, v, caller) && IsDraft(t, d, a) && IsDraft(t, d, b)
    requires NotWider(hub.parse(t.versions[VersionKey(d, v)].spec), hub.parse(t.versions[VersionKey(d, a)].spec))
    requires NotWider(hub.parse(t.versions[VersionKey(d, v)].spec), hub.parse(t.versions[VersionKey(d, b)].spec))
    ensures Steps(hub, Desk(t, []), Stale(d, a, b, caller)) ==
            Desk(Next(hub.hash, t, Op.Publish(d, b)), [PassedTicket(t, d, v, a)])
  {
    var s := Desk(t, [PassedTicket(t, d, v, a), PassedTicket(t, d, v, b)]);
    BothPass(hub, t, d, v, a, b, caller);
    StepsJoin(hub, Desk(t, []), Checks(d, a, caller, 0) + Checks(d, b, caller, 1), [Commit(1)]);
    OneStep(hub, s, Commit(1));
    CommitGoes(hub, s, 1, d, v);
  }

  /** A stale comparison: an editor checks a copy `a` of the active version and a
      strictly narrower draft `b`, commits `b`, and then `a`. No draft was touched, no
      admin took part, and the last commit widens what was active. */
  lemma StaleComparison(hub: Hub, t: Tables, d: Name, v: nat, a: nat, b: nat, caller: Caller)
    requires TablesInv(hub.hash, t) && IsEditor(hub, t, d, v, caller) && a != b && IsDraft(t, d, a) && IsDraft(t, d, b)
    requires t.versions[VersionKey(d, a)].spec == t.versions[VersionKey(d, v)].spec
    requires NotWider(hub.parse(t.versions[VersionKey(d, v)].spec), hub.parse(t.versions[VersionKey(d, b)].spec))
    requires !NotWider(hub.parse(t.versions[VersionKey(d, b)].spec), hub.parse(t.versions[VersionKey(d, v)].spec))
    ensures var s := Steps(hub, Desk(t, []), Stale(d, a, b, caller));
            && ActiveAt(s.tables, d, b) && EditorCommits(s, Commit(0))
            && StillChecked(hub, s, Commit(0)) && !StillCompared(hub, s, Commit(0))
            && ActiveAt(Step(hub, s, Commit(0)).tables, d, a)
            && !Shrinks(hub, s.tables, Step(hub, s, Commit(0)).tables, d)
  {
    NotWiderItself(hub.parse(t.versions[VersionKey(d, v)].spec));
    NarrowerIn(hub, t, d, v, a, b, caller);
    PublishGoes(hub, t, d, v, b);
    var s := Steps(hub, Desk(t, []), Stale(d, a, b, caller));
    assert IsDraft(s.tables, d, a);
    CommitGoes(hub, s, 0, d, b);
    CommitActivates(hub, s.tables, d, a, d, a);
    LastCommitWidens(hub, s, d, v, b);
  }

  lemma LastCommitWidens(hub: Hub, s: Desk, d: Name, v: nat, b: nat)
    requires TablesInv(hub.hash, s.tables) && EditorCommits(s, Commit(0)) && s.tickets[0].name == d && ActiveAt(s.tables, d, b)
    requires VersionKey(d, v) in s.tables.versions && RowSpec(s, 0) == s.tables.versions[VersionKey(d, v)].spec
    requires s.tickets[0].stage.checked == RowSpec(s, 0) && s.tickets[0].stage.against == Some(RowSpec(s, 0))
    requires !NotWider(hub.parse(s.tables.versions[VersionKey(d, b)].spec), hub.parse(RowSpec(s, 0)))
    ensures StillChecked(hub, s, Commit(0)) && !StillCompared(hub, s, Commit(0))
    ensures !Shrinks(hub, s.tables, Step(hub, s, Commit(0)).tables, d)
  {
    NotWiderItself(hub.parse(RowSpec(s, 0)));
    ActiveSpecIs(hub.hash, s.tables, d, b);
    CommitShrinksIff(hub, s, 0, b);
  }

  lemma RewriteAllowed(hash: string -> string, t: Tables, d: Name, v: nat, number: nat, spec: string)
    requires TablesInv(hash, t) && ActiveAt(t, d, v) && IsDraft(t, d, number)
    ensures Refused(t, UpdateDraft(d, number, spec)).None?
  {
    ActiveSpecIs(hash, t, d, v);
  }

  lemma RewritesRow(hash: string -> string, t: Tables, d: Name, v: nat, number: nat, spec: string)
    requires Refused(t, UpdateDraft(d, number, spec)).None? && ActiveAt(t, d, v)
    ensures var t' := Next(hash, t, UpdateDraft(d, number, spec));
            ActiveAt(t', d, v) && IsDraft(t', d, number) && t'.versions[VersionKey(d, number)].spec == spec
  {
  }

  lemma RewritesDraft(hub: Hub, t: Tables, d: Name, v: nat, number: nat, spec: string)
    requires TablesInv(hub.hash, t) && ActiveAt(t, d, v) && IsDraft(t, d, number)
    ensures var t' := Next(hub.hash, t, UpdateDraft(d, number, spec));
            && TablesInv(hub.hash, t') && ActiveAt(t', d, v) && IsDraft(t', d, number)
            && t'.versions[VersionKey(d, number)].spec == spec
  {
    RewriteAllowed(hub.hash, t, d, v, number, spec);
    RewritesRow(hub.hash, t, d, v, number, spec);
    StepKeeps(hub.hash, t, UpdateDraft(d, number, spec));
  }

  /** A check, a rewrite of the checked draft, and the commit. */
  function Race(d: Name, number: nat, caller: Caller, wider: string): seq<Event> {
    Checks(d, number, caller, 0) + [Edit(UpdateDraft(d, number, wider))] + [Commit(0)]
  }

  /** The rewritten draft is what the commit activates. */
  lemma RewrittenGoes(hub: Hub, t: Tables, d: Name, v: nat, number: nat, k: Ticket, wider: string)
    requires TablesInv(hub.hash, t) && ActiveAt(t, d, v) && IsDraft(t, d, number)
    requires k.name == d && k.number == number && k.stage.Passed? && !k.free
    ensures var t' := Step(hub, Step(hub, Desk(t, [k]), Edit(UpdateDraft(d, number, wider))), Commit(0)).tables;
            ActiveAt(t', d, number) && t'.versions[VersionKey(d, number)].spec == wider
  {
    var t1 := Next(hub.hash, t, UpdateDraft(d, number, wider));
    RewritesDraft(hub, t, d, v, number, wider);
    CommitGoes(hub, Desk(t1, [k]), 0, d, v);
    CommitActivates(hub, t1, d, number, d, number);
  }

  /** A rewritten draft: an editor takes any active version to any spec at all. */
  lemma DraftRace(hub: Hub, t: Tables, d: Name, v: nat, number: nat, caller: Caller, wider: string)
    requires TablesInv(hub.hash, t) && IsEditor(hub, t, d, v, caller) && IsDraft(t, d, number)
    requires t.versions[VersionKey(d, number)].spec == t.versions[VersionKey(d, v)].spec
    ensures var t' := Steps(hub, Desk(t, []), Race(d, number, caller, wider)).tables;
            ActiveAt(t', d, number) && t'.versions[VersionKey(d, number)].spec == wider
  {
    var k := PassedTicket(t, d, v, number);
    NotWiderItself(hub.parse(t.versions[VersionKey(d, v)].spec));
    ChecksPass(hub, Desk(t, []), d, v, number, caller);
    assert [] + [k] == [k];
    RaceJoins(hub, t, d, number, caller, wider);
    RewrittenGoes(hub, t, d, v, number, k, wider);
  }

  lemma RaceJoins(hub: Hub, t: Tables, d: Name, number: nat, caller: Caller, wider: string)
    ensures var checked := Steps(hub, Desk(t, []), Checks(d, number, caller, 0));
            Steps(hub, Desk(t, []), Race(d, number, caller, wider)) ==
            Step(hub, Step(hub, checked, Edit(UpdateDraft(d, number, wider))), Commit(0))
  {
    var checked := Steps(hub, Desk(t, []), Checks(d, number, caller, 0));
    var edit := Edit(UpdateDraft(d, number, wider));
    StepsJoin(hub, Desk(t, []), Checks(d, number, caller, 0) + [edit], [Commit(0)]);
    StepsJoin(hub, Desk(t, []), Checks(d, number, caller, 0), [edit]);
    OneStep(hub, checked, edit);
    OneStep(hub, Step(hub, checked, edit), Commit(0));
  }

  // ---------------------------------------------------------------- the handler

  datatype Answer = Forbidden | NoSuchVersion | NotADraft | InvalidSpec | Wider | StoreRefused | Published

  /** The number of the active version. */
  method FindActive(store: Store, d: Name) returns (r: Option<nat>)
    ensures r.Some? ==> ActiveAt(store.Abs(), d, r.value)
    ensures r.None? ==> forall v :: !ActiveAt(store.Abs(), d, v)
  {
    var rest := store.versions.Keys;
    while rest != {}
      invariant rest <= store.versions.Keys
      invariant forall v :: ActiveAt(store.Abs(), d, v) ==> VersionKey(d, v) in rest
      decreases |rest|
    {
      var k :| k in rest;
      if k.of == d && store.versions[k].status == Active {
        return Some(k.number);
      }
      rest := rest - {k};
    }
    return None;
  }

  /** What each answer means; the store moves only when the answer is that it did. */
  ghost predicate Answers(hub: Hub, t: Tables, d: Name, number: nat, caller: Caller, valid: bool, answer: Answer) {
    var mayEdit := MayEdit(hub.admins, ActiveAgent(hub, t, d), caller);
    var key := VersionKey(d, number);
    var widens := !IsFree(hub, d, caller) && ActiveSpec(t, d).Some? && IsDraft(t, d, number) &&
                  !NotWider(hub.parse(ActiveSpec(t, d).value), hub.parse(t.versions[key].spec));
    match answer
    case Forbidden => !mayEdit
    case NoSuchVersion => mayEdit && key !in t.versions
    case NotADraft => mayEdit && key in t.versions && t.versions[key].status != Draft
    case InvalidSpec => mayEdit && IsDraft(t, d, number) && !valid
    case Wider => mayEdit && valid && widens
    case StoreRefused => mayEdit && IsDraft(t, d, number) && valid && !widens && Refused(t, Op.Publish(d, number)).Some?
    case Published => mayEdit && IsDraft(t, d, number) && valid && !widens && Refused(t, Op.Publish(d, number)).None?
  }

  /** The handler, undisturbed: it is the four steps of one ticket in a row, and an
      editor's publish that goes through is not wider than what it replaces. */
  method HandlePublish(hub: Hub, store: Store, d: Name, number: nat, caller: Caller, valid: bool) returns (answer: Answer)
    requires store.hash == hub.hash && TablesInv(hub.hash, store.Abs())
    modifies store
    ensures Answers(hub, old(store.Abs()), d, number, caller, valid, answer)
    ensures answer != Published ==> store.Abs() == old(store.Abs())
    ensures answer == Published ==> store.Abs() == Next(hub.hash, old(store.Abs()), Op.Publish(d, number))
    ensures answer == Published && !IsFree(hub, d, caller) ==> Shrinks(hub, old(store.Abs()), store.Abs(), d)
    ensures store.Abs() == Steps(hub, Desk(old(store.Abs()), []), Undisturbed(d, number, caller, valid)).tables
  {
    var active := LoadActive(hub, store, d);
    answer := Check(hub, store, d, number, caller, valid, active);
    AnswerShrinks(hub, store.Abs(), d, number, caller, valid, answer);
    UndisturbedSteps(hub, store.Abs(), d, number, caller, valid, answer);
    if answer == Published {
      var problem := store.PublishDraft(d, number);
    }
  }

  /** The active version read as an agent. */
  method LoadActive(hub: Hub, store: Store, d: Name) returns (r: Option<Agent>)
    requires TablesInv(hub.hash, store.Abs())
    ensures r == ActiveAgent(hub, store.Abs(), d)
  {
    var active := FindActive(store, d);
    if active.None? {
      return None;
    }
    ActiveSpecIs(hub.hash, store.Abs(), d, active.value);
    r := Some(hub.parse(store.versions[VersionKey(d, active.value)].spec));
  }

  /** The checks in the handler's order. */
  method Check(hub: Hub, store: Store, d: Name, number: nat, caller: Caller, valid: bool, active: Option<Agent>) returns (answer: Answer)
    requires active == ActiveAgent(hub, store.Abs(), d)
    ensures Answers(hub, store.Abs(), d, number, caller, valid, answer)
  {
    var key := VersionKey(d, number);
    if !MayEdit(hub.admins, active, caller) {
      return Forbidden;
    }
    if key !in store.versions {
      return NoSuchVersion;
    }
    if store.versions[key].status != Draft {
      return NotADraft;
    }
    if !valid {
      return InvalidSpec;
    }
    if !IsFree(hub, d, caller) && active.Some? {
      var grown := Widens(active.value, hub.parse(store.versions[key].spec));
      if grown != [] {
        return Wider;
      }
    }
    if d !in store.defs || store.defs[d].status == RetiredDef {
      return StoreRefused;
    }
    return Published;
  }

  function Undisturbed(d: Name, number: nat, caller: Caller, valid: bool): seq<Event> {
    [Arrive(d, number, caller), ReadDraft(0), Compare(0, valid)] + [Commit(0)]
  }

  lemma UndisturbedSteps(hub: Hub, t: Tables, d: Name, number: nat, caller: Caller, valid: bool, answer: Answer)
    requires Answers(hub, t, d, number, caller, valid, answer)
    ensures Steps(hub, Desk(t, []), Undisturbed(d, number, caller, valid)).tables ==
            if answer == Published then Next(hub.hash, t, Op.Publish(d, number)) else t
  {
    var s := Desk(t, []);
    StepsJoin(hub, s, [Arrive(d, number, caller), ReadDraft(0), Compare(0, valid)], [Commit(0)]);
    ThreeSteps(hub, s, Arrive(d, number, caller), ReadDraft(0), Compare(0, valid));
    OneStep(hub, Step(hub, Step(hub, Step(hub, s, Arrive(d, number, caller)), ReadDraft(0)), Compare(0, valid)), Commit(0));
  }

  /** A published answer to an editor was not wider than what was active. */
  lemma AnswerShrinks(hub: Hub, t: Tables, d: Name, number: nat, caller: Caller, valid: bool, answer: Answer)
    requires TablesInv(hub.hash, t) && Answers(hub, t, d, number, caller, valid, answer)
    ensures answer == Published && !IsFree(hub, d, caller) ==> Shrinks(hub, t, Next(hub.hash, t, Op.Publish(d, number)), d)
  {
    if answer == Published && !IsFree(hub, d, caller) {
      forall v | ActiveAt(t, d, v)
        ensures ActiveSpec(t, d) == Some(t.versions[VersionKey(d, v)].spec)
      {
        ActiveSpecIs(hub.hash, t, d, v);
      }
      PublishShrinks(hub, t, d, number);
    }
  }

  lemma PublishShrinks(hub: Hub, t: Tables, d: Name, number: nat)
    requires Refused(t, Op.Publish(d, number)).None?
    requires forall v :: ActiveAt(t, d, v) ==>
               NotWider(hub.parse(t.versions[VersionKey(d, v)].spec), hub.parse(t.versions[VersionKey(d, number)].spec))
    ensures Shrinks(hub, t, Next(hub.hash, t, Op.Publish(d, number)), d)
  {
    forall w: nat
      ensures ActiveAt(Next(hub.hash, t, Op.Publish(d, number)), d, w) <==> w == number
    {
      CommitActivates(hub, t, d, number, d, w);
    }
    CommitActivates(hub, t, d, number, d, number);
  }
}
