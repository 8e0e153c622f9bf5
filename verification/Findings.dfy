/** What the validator reports, and the words of each report: the last check is skipped
    when an earlier report contains the word "cycle". */
module Findings {
  import opened Graphs
  import opened Workflows
  import opened Texts

  datatype Problem =
    | DuplicateIds(ids: seq<Id>)
    | UnknownSource(edge: Edge)
    | UnknownTarget(edge: Edge)
    | Cyclic
    | UnknownTool(id: Id, tool: string)
    | Unresolved(id: Id, ref: string)
    | Escalates(id: Id, mode: Mode, agent: string, registered: Mode)
    | ReviewsUnknown(id: Id, reviews: Id)
    | ReviewsItself(id: Id, agent: string, reviews: Id)
    | BadGuard(edge: Edge, kind: Kind)
    | Ungated(id: Id)

  /** The name part of `name` or `name@version`, and what follows the sign. */
  function RefName(ref: string): string {
    if ref == "" || ref[0] == '@' then "" else [ref[0]] + RefName(ref[1..])
  }

  function RefVersion(ref: string): string {
    if ref == "" then "" else if ref[0] == '@' then ref[1..] else RefVersion(ref[1..])
  }

  function ModeName(m: Mode): string {
    match m
    case Advisor => "advisor"
    case Plan => "plan"
    case Full => "full"
  }

  function KindName(k: Kind): string {
    match k
    case AgentTask => "agent_task"
    case Tool => "tool"
    case Condition => "condition"
    case Approval => "approval"
    case Parallel => "parallel"
    case Join => "join"
  }

  const Q: char := '\''

  function OfNode(id: Id): seq<Piece> {
    [Piece("node ", Q), Piece(id, Q)]
  }

  function OfEdge(e: Edge): seq<Piece> {
    [Piece("edge", ' '), Piece(e.src, ' '), Piece("->", ' '), Piece(e.dst, ':')]
  }

  function OfGuard(kind: Kind): seq<Piece> {
    match kind
    case Condition => [Piece(" a condition branches on ", Q), Piece("true", Q), Piece("/", Q), Piece("false", Q)]
    case Approval => [Piece(" an approval branches on ", Q), Piece("approved", Q), Piece("/", Q), Piece("rejected", Q)]
    case _ => [Piece(" ", Q), Piece(KindName(kind), Q), Piece(" nodes take no ", Q), Piece("when", Q)]
  }

  function Listed(ids: seq<Id>): seq<Piece> {
    if |ids| <= 1 then [] else [Piece(ids[0], ','), Piece("", ' ')] + Listed(ids[1..])
  }

  /** The report, up to its last fixed piece or name. */
  function Pieces(p: Problem): seq<Piece> {
    match p
    case DuplicateIds(ids) => [Piece("duplicate node ids:", ' ')] + Listed(ids)
    case UnknownSource(e) => [Piece("edge from unknown node ", Q), Piece(e.src, Q)]
    case UnknownTarget(e) => [Piece("edge to unknown node ", Q), Piece(e.dst, Q)]
    case Cyclic => []
    case UnknownTool(id, tool) => OfNode(id) + [Piece(": unknown tool ", Q), Piece(tool, Q)]
    case Unresolved(id, ref) =>
      OfNode(id) +
      if RefVersion(ref) != "" then [Piece(": cannot resolve", ' '), Piece(RefName(ref), '@')]
      else [Piece(": cannot resolve an active version of ", Q), Piece(RefName(ref), Q)]
    case Escalates(id, mode, agent, registered) =>
      OfNode(id) + [Piece(": mode ", Q), Piece(ModeName(mode), Q), Piece(" escalates agent ", Q), Piece(agent, Q)]
      + [Piece(" beyond its registered mode ", Q), Piece(ModeName(registered), Q)]
    case ReviewsUnknown(id, reviews) => OfNode(id) + [Piece(": reviews unknown agent_task ", Q), Piece(reviews, Q)]
    case ReviewsItself(id, agent, reviews) =>
      OfNode(id) + [Piece(": reviewer ", Q), Piece(agent, Q), Piece(" is the executor of ", Q), Piece(reviews, Q)]
    case BadGuard(e, kind) =>
      OfEdge(e) + OfGuard(kind)
    case Ungated(id) => OfNode(id)
  }

  function Tail(p: Problem): string {
    match p
    case DuplicateIds(ids) => if ids == [] then "" else ids[|ids| - 1]
    case Cyclic => "workflow has a cycle"
    case Unresolved(_, ref) => RefVersion(ref)
    case ReviewsItself(_, _, _) => " (executor and reviewer must differ)"
    case _ => ""
  }

  function TextOf(p: Problem): string {
    Flat(Pieces(p), Tail(p))
  }

  /** The names a report carries. */
  function NamesIn(p: Problem): set<string> {
    match p
    case DuplicateIds(ids) => set i | i in ids
    case UnknownSource(e) => {e.src}
    case UnknownTarget(e) => {e.dst}
    case Cyclic => {}
    case UnknownTool(id, tool) => {id, tool}
    case Unresolved(id, ref) => {id, RefName(ref), RefVersion(ref)}
    case Escalates(id, _, agent, _) => {id, agent}
    case ReviewsUnknown(id, reviews) => {id, reviews}
    case ReviewsItself(id, agent, reviews) => {id, agent, reviews}
    case BadGuard(e, _) => {e.src, e.dst}
    case Ungated(id) => {id}
  }

  const CYCLE := "cycle"

  predicate Mentions(p: Problem) {
    p.Cyclic? || exists n :: n in NamesIn(p) && Contains(n, CYCLE)
  }

  const ENDS: set<char> := {Q, ' ', ':', ',', '@'}

  /** A fixed piece lacks one of the letters of the word. */
  predicate Fixed(s: string) {
    'y' !in s || 'c' !in s
  }

  lemma FixedLacks(s: string)
    requires Fixed(s)
    ensures !Contains(s, CYCLE)
  {
    assert CYCLE[1] == 'y' && CYCLE[0] == 'c';
    if 'y' !in s {
      Lacks(s, CYCLE, 'y');
    } else {
      Lacks(s, CYCLE, 'c');
    }
  }

  lemma EndsAvoid(c: char)
    requires c in ENDS
    ensures c !in CYCLE
  {
    assert CYCLE == ['c', 'y', 'c', 'l', 'e'];
  }

  /** Every piece is fixed or one of the names. */
  predicate PiecesOk(pieces: seq<Piece>, names: set<string>) {
    forall i :: 0 <= i < |pieces| ==> pieces[i].end in ENDS && (Fixed(pieces[i].text) || pieces[i].text in names)
  }

  predicate Holds(pieces: seq<Piece>, name: string) {
    exists i :: 0 <= i < |pieces| && pieces[i].text == name
  }

  lemma BothOk(a: seq<Piece>, b: seq<Piece>, names: set<string>)
    requires PiecesOk(a, names) && PiecesOk(b, names)
    ensures PiecesOk(a + b, names)
    ensures forall n :: Holds(a, n) || Holds(b, n) ==> Holds(a + b, n)
  {
    forall n | Holds(a, n) || Holds(b, n)
      ensures Holds(a + b, n)
    {
      if i :| 0 <= i < |a| && a[i].text == n {
        assert (a + b)[i].text == n;
      } else {
        var i :| 0 <= i < |b| && b[i].text == n;
        assert (a + b)[|a| + i].text == n;
      }
    }
  }

  lemma NodeOk(id: Id, names: set<string>)
    requires id in names
    ensures PiecesOk(OfNode(id), names) && Holds(OfNode(id), id)
  {
    assert 'y' !in "node ";
    assert OfNode(id)[1].text == id;
  }

  lemma EdgeOk(e: Edge)
    ensures PiecesOk(OfEdge(e), {e.src, e.dst}) && Holds(OfEdge(e), e.src) && Holds(OfEdge(e), e.dst)
  {
    assert 'y' !in "edge" && 'y' !in "->";
    assert OfEdge(e)[1].text == e.src && OfEdge(e)[3].text == e.dst;
  }

  lemma GuardOk(kind: Kind, names: set<string>)
    ensures PiecesOk(OfGuard(kind), names)
  {
    assert 'y' !in " a condition branches on " && 'y' !in "true" && 'y' !in "/" && 'y' !in "false";
    assert 'y' !in " an approval branches on " && 'y' !in "approved" && 'y' !in "rejected";
    assert 'y' !in " " && 'y' !in KindName(kind) && 'y' !in " nodes take no " && 'y' !in "when";
  }

  lemma {:induction false} ListedOk(ids: seq<Id>, names: set<string>)
    requires forall i :: i in ids ==> i in names
    ensures PiecesOk(Listed(ids), names)
    ensures forall i :: i in ids ==> Holds(Listed(ids), i) || i == ids[|ids| - 1]
  {
    if |ids| > 1 {
      ListedOk(ids[1..], names);
      var head := [Piece(ids[0], ','), Piece("", ' ')];
      assert PiecesOk(head, names) && head[0].text == ids[0];
      assert Holds(head, ids[0]);
      BothOk(head, Listed(ids[1..]), names);
    }
  }

  /** One fixed piece and one name. */
  lemma PairOk(fixed: string, c: char, name: string, d: char, names: set<string>)
    requires Fixed(fixed) && c in ENDS && d in ENDS && (name in names || Fixed(name))
    ensures PiecesOk([Piece(fixed, c), Piece(name, d)], names)
    ensures Holds([Piece(fixed, c), Piece(name, d)], name)
  {
    assert [Piece(fixed, c), Piece(name, d)][1].text == name;
  }

  /** What `TextMentions` needs of a report's pieces. */
  predicate Carries(p: Problem) {
    Carried(Pieces(p), Tail(p), NamesIn(p))
  }

  predicate Carried(pieces: seq<Piece>, tail: string, names: set<string>) {
    && PiecesOk(pieces, names)
    && (Fixed(tail) || tail in names)
    && (forall n :: n in names ==> Holds(pieces, n) || n == tail)
  }

  lemma DuplicatesCarry(ids: seq<Id>)
    ensures Carries(DuplicateIds(ids))
  {
    var p := DuplicateIds(ids);
    var head := [Piece("duplicate node ids:", ' ')];
    assert 'y' !in "duplicate node ids:";
    assert PiecesOk(head, NamesIn(p));
    ListedOk(ids, NamesIn(p));
    BothOk(head, Listed(ids), NamesIn(p));
  }

  lemma EdgesCarry(e: Edge, kind: Kind)
    ensures Carries(UnknownSource(e)) && Carries(UnknownTarget(e)) && Carries(BadGuard(e, kind))
  {
    assert 'y' !in "edge from unknown node " && 'y' !in "edge to unknown node ";
    PairOk("edge from unknown node ", Q, e.src, Q, {e.src});
    PairOk("edge to unknown node ", Q, e.dst, Q, {e.dst});
    EdgeOk(e);
    GuardOk(kind, {e.src, e.dst});
    BothOk(OfEdge(e), OfGuard(kind), {e.src, e.dst});
  }

  /** A node, a fixed piece and one more name. */
  lemma FourCarried(id: Id, fixed: string, name: string)
    requires Fixed(fixed)
    ensures Carried(OfNode(id) + [Piece(fixed, Q), Piece(name, Q)], "", {id, name})
  {
    assert 'y' !in "";
    NodeOk(id, {id, name});
    PairOk(fixed, Q, name, Q, {id, name});
    BothOk(OfNode(id), [Piece(fixed, Q), Piece(name, Q)], {id, name});
  }

  lemma ToolCarries(id: Id, tool: string)
    ensures Carries(UnknownTool(id, tool))
  {
    assert 'y' !in ": unknown tool ";
    FourCarried(id, ": unknown tool ", tool);
  }

  lemma UngatedCarries(id: Id)
    ensures Carries(Ungated(id))
  {
    assert 'y' !in "";
    NodeOk(id, {id});
  }

  lemma UnresolvedCarries(id: Id, ref: string)
    ensures Carries(Unresolved(id, ref))
  {
    var names := {id, RefName(ref), RefVersion(ref)};
    NodeOk(id, names);
    if RefVersion(ref) != "" {
      assert 'y' !in ": cannot resolve";
      PairOk(": cannot resolve", ' ', RefName(ref), '@', names);
      BothOk(OfNode(id), [Piece(": cannot resolve", ' '), Piece(RefName(ref), '@')], names);
    } else {
      assert 'y' !in ": cannot resolve an active version of ";
      PairOk(": cannot resolve an active version of ", Q, RefName(ref), Q, names);
      BothOk(OfNode(id), [Piece(": cannot resolve an active version of ", Q), Piece(RefName(ref), Q)], names);
    }
  }

  /** Two fixed pieces, each with the name after it. */
  lemma QuadOk(f: string, n: string, g: string, m: string, names: set<string>)
    requires Fixed(f) && Fixed(g) && (n in names || Fixed(n)) && (m in names || Fixed(m))
    ensures var q := [Piece(f, Q), Piece(n, Q), Piece(g, Q), Piece(m, Q)];
            PiecesOk(q, names) && Holds(q, n) && Holds(q, m)
  {
    var q := [Piece(f, Q), Piece(n, Q), Piece(g, Q), Piece(m, Q)];
    assert q[1].text == n && q[3].text == m;
  }

  lemma SixCarried(id: Id, f: string, n: string, g: string, m: string, h: string, k: string)
    requires Fixed(f) && Fixed(n) && Fixed(g) && Fixed(h) && Fixed(k)
    ensures Carried(OfNode(id) + [Piece(f, Q), Piece(n, Q), Piece(g, Q), Piece(m, Q)] + [Piece(h, Q), Piece(k, Q)], "", {id, m})
  {
    var names := {id, m};
    var a, b := [Piece(f, Q), Piece(n, Q), Piece(g, Q), Piece(m, Q)], [Piece(h, Q), Piece(k, Q)];
    NodeOk(id, names);
    QuadOk(f, n, g, m, names);
    PairOk(h, Q, k, Q, names);
    BothOk(OfNode(id), a, names);
    BothOk(OfNode(id) + a, b, names);
    assert 'y' !in "";
  }

  lemma EscalatesCarries(id: Id, mode: Mode, agent: string, registered: Mode)
    ensures Carries(Escalates(id, mode, agent, registered))
  {
    EscalatesFixed(mode);
    EscalatesFixed(registered);
    SixCarried(id, ": mode ", ModeName(mode), " escalates agent ", agent, " beyond its registered mode ", ModeName(registered));
  }

  lemma EscalatesFixed(mode: Mode)
    ensures Fixed(": mode ") && Fixed(ModeName(mode)) && Fixed(" escalates agent ") && Fixed(" beyond its registered mode ")
  {
    assert 'y' !in ": mode " && 'y' !in ModeName(mode);
    assert 'y' !in " escalates agent " && 'c' !in " beyond its registered mode ";
  }

  lemma ReviewsCarry(id: Id, reviews: Id)
    ensures Carries(ReviewsUnknown(id, reviews))
  {
    assert 'y' !in ": reviews unknown agent_task ";
    FourCarried(id, ": reviews unknown agent_task ", reviews);
  }

  lemma ReviewerCarries(id: Id, agent: string, reviews: Id)
    ensures Carries(ReviewsItself(id, agent, reviews))
  {
    var names := {id, agent, reviews};
    ReviewerFixed();
    NodeOk(id, names);
    QuadOk(": reviewer ", agent, " is the executor of ", reviews, names);
    BothOk(OfNode(id), [Piece(": reviewer ", Q), Piece(agent, Q), Piece(" is the executor of ", Q), Piece(reviews, Q)], names);
  }

  lemma ReviewerFixed()
    ensures Fixed(": reviewer ") && Fixed(" is the executor of ") && Fixed(" (executor and reviewer must differ)")
  {
    assert 'y' !in ": reviewer " && 'y' !in " is the executor of " && 'y' !in " (executor and reviewer must differ)";
  }

  lemma AllCarry(p: Problem)
    requires !p.Cyclic?
    ensures Carries(p)
  {
    match p
    case DuplicateIds(ids) => DuplicatesCarry(ids);
    case UnknownSource(e) => EdgesCarry(e, Join);
    case UnknownTarget(e) => EdgesCarry(e, Join);
    case UnknownTool(id, tool) => ToolCarries(id, tool);
    case Unresolved(id, ref) => UnresolvedCarries(id, ref);
    case Escalates(id, mode, agent, registered) => EscalatesCarries(id, mode, agent, registered);
    case ReviewsUnknown(id, reviews) => ReviewsCarry(id, reviews);
    case ReviewsItself(id, agent, reviews) => ReviewerCarries(id, agent, reviews);
    case BadGuard(e, kind) => EdgesCarry(e, kind);
    case Ungated(id) => UngatedCarries(id);
  }

  lemma CarriedMentions(p: Problem)
    requires !p.Cyclic? && Carries(p)
    ensures Contains(TextOf(p), CYCLE) <==> Mentions(p)
  {
    var pieces := Pieces(p);
    forall x | x in pieces
      ensures x.end !in CYCLE
      ensures Contains(x.text, CYCLE) ==> x.text in NamesIn(p)
    {
      EndsAvoid(x.end);
      if Fixed(x.text) {
        FixedLacks(x.text);
      }
    }
    FlatContains(pieces, Tail(p), CYCLE);
    if Fixed(Tail(p)) {
      FixedLacks(Tail(p));
    }
    forall n | n in NamesIn(p) && Contains(n, CYCLE)
      ensures Contains(Tail(p), CYCLE) || exists x :: x in pieces && Contains(x.text, CYCLE)
    {
      if n != Tail(p) {
        var i :| 0 <= i < |pieces| && pieces[i].text == n;
        assert pieces[i] in pieces;
      }
    }
  }

  /** The text of a report contains "cycle" exactly for the cycle report, and for those
      that carry a name containing it. */
  lemma TextMentions(p: Problem)
    ensures Contains(TextOf(p), CYCLE) <==> Mentions(p)
  {
    if p.Cyclic? {
      assert OccursAt("workflow has a cycle", CYCLE, 15);
    } else {
      AllCarry(p);
      CarriedMentions(p);
    }
  }
}
