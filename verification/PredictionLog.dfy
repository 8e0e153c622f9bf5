/** Self-scoring of logged predictions: syncs walk finished runs in creation order and
    write each run's outcomes onto the predictions made before it. Predictions may be
    logged between any two runs of a sync. Times are naturals, 0 standing for a
    missing created_at (the empty string, which sorts before every other). */
module PredictionLog {

  import opened Wrappers

  datatype Verdict = Passed | Failed

  datatype Prediction = Prediction(scenario: string, createdAt: nat, actual: Option<Verdict>)

  datatype Card = Card(id: string, terminal: bool, createdAt: nat)

  /** A scenario of a run's summary; absent ids and names are empty. */
  datatype Scenario = Scenario(id: string, name: string, status: string)

  /** A run whose detail has a summary. */
  datatype Detail = Detail(createdAt: nat, scenarios: seq<Scenario>)

  datatype Event =
    | Log(scenario: string, now: nat)
    | BeginSync(cards: seq<Card>)
    | NextRun(detail: Option<Detail>)
    | Abort
    | DiesUnmarked(run: Detail)

  /** The rows and the marker, the runs the sync at work still has to visit, and, as
      history, the runs ingested so far and how many of them each prediction followed. */
  datatype State = State(log: seq<Prediction>, marker: nat, todo: seq<Card>, ingested: seq<Detail>, since: seq<nat>)

  // ---------------------------------------------------------------- one run's outcomes

  function Key(sc: Scenario): string {
    if sc.id != "" then sc.id else if sc.name != "" then sc.name else "?"
  }

  function Grade(status: string): Option<Verdict> {
    if status == "passed" then Some(Passed) else if status == "failed" then Some(Failed) else None
  }

  /** The last graded scenario under a key wins. */
  function Actuals(scenarios: seq<Scenario>): map<string, Verdict> {
    if scenarios == [] then map[]
    else
      var last := scenarios[|scenarios| - 1];
      var rest := Actuals(scenarios[..|scenarios| - 1]);
      if Grade(last.status).Some? then rest[Key(last) := Grade(last.status).value] else rest
  }

  predicate Precedes(at: nat, run: nat) {
    run == 0 || at < run
  }

  /** Whether a run decides a prediction made for the scenario at that time. */
  predicate Counts(scenario: string, at: nat, run: Detail) {
    Precedes(at, run.createdAt) && scenario in Actuals(run.scenarios)
  }

  function ScoreRow(p: Prediction, actuals: map<string, Verdict>, run: nat): Prediction {
    if p.actual.None? && p.scenario in actuals && Precedes(p.createdAt, run)
    then p.(actual := Some(actuals[p.scenario])) else p
  }

  function ScoreAll(log: seq<Prediction>, actuals: map<string, Verdict>, run: nat): (r: seq<Prediction>) {
    seq(|log|, i requires 0 <= i < |log| => ScoreRow(log[i], actuals, run))
  }

  // ---------------------------------------------------------------- creation order

  predicate InOrder(cards: seq<Card>) {
    forall i, j :: 0 <= i < j < |cards| ==> cards[i].createdAt <= cards[j].createdAt
  }

  /** Behind every card created no later. */
  function Insert(cards: seq<Card>, c: Card): (r: seq<Card>)
    ensures |r| == |cards| + 1
    ensures r[|r| - 1] == c || (cards != [] && r[|r| - 1] == cards[|cards| - 1])
  {
    if cards == [] || cards[|cards| - 1].createdAt <= c.createdAt then cards + [c]
    else Insert(cards[..|cards| - 1], c) + [cards[|cards| - 1]]
  }

  function Sort(cards: seq<Card>): seq<Card> {
    if cards == [] then [] else Insert(Sort(cards[..|cards| - 1]), cards[|cards| - 1])
  }

  lemma {:induction false} InsertSorts(cards: seq<Card>, c: Card)
    requires InOrder(cards)
    ensures InOrder(Insert(cards, c)) && multiset(Insert(cards, c)) == multiset(cards) + multiset{c}
  {
    if cards == [] || cards[|cards| - 1].createdAt <= c.createdAt {
      OneMoreInOrder(cards, c);
    } else {
      var k := |cards| - 1;
      InsertSorts(cards[..k], c);
      OneMoreInOrder(Insert(cards[..k], c), cards[k]);
      assert cards == cards[..k] + [cards[k]];
    }
  }

  lemma OneMoreInOrder(cards: seq<Card>, c: Card)
    requires InOrder(cards) && (cards != [] ==> cards[|cards| - 1].createdAt <= c.createdAt)
    ensures InOrder(cards + [c])
  {
  }

  lemma {:induction false} SortSorts(cards: seq<Card>)
    ensures InOrder(Sort(cards)) && multiset(Sort(cards)) == multiset(cards)
  {
    if cards != [] {
      var k := |cards| - 1;
      SortSorts(cards[..k]);
      InsertSorts(Sort(cards[..k]), cards[k]);
      assert cards == cards[..k] + [cards[k]];
    }
  }

  lemma SortKeeps(cards: seq<Card>, c: Card)
    ensures c in Sort(cards) <==> c in cards
  {
    SortSorts(cards);
    assert c in Sort(cards) <==> c in multiset(Sort(cards));
    assert c in cards <==> c in multiset(cards);
  }

  function CreatedAt(cards: seq<Card>, t: nat): seq<Card> {
    if cards == [] then []
    else CreatedAt(cards[..|cards| - 1], t) + if cards[|cards| - 1].createdAt == t then [cards[|cards| - 1]] else []
  }

  lemma {:induction false} InsertIsStable(cards: seq<Card>, c: Card, t: nat)
    ensures CreatedAt(Insert(cards, c), t) == CreatedAt(cards + [c], t)
  {
    assert (cards + [c])[..|cards|] == cards;
    if cards != [] && cards[|cards| - 1].createdAt > c.createdAt {
      var k := |cards| - 1;
      InsertIsStable(cards[..k], c, t);
      assert (cards[..k] + [c])[..k] == cards[..k];
      assert Insert(cards, c)[..|cards|] == Insert(cards[..k], c);
    }
  }

  /** Runs created at the same time keep the reader's order. */
  lemma {:induction false} SortIsStable(cards: seq<Card>, t: nat)
    ensures CreatedAt(Sort(cards), t) == CreatedAt(cards, t)
  {
    if cards != [] {
      var k := |cards| - 1;
      SortIsStable(cards[..k], t);
      InsertIsStable(Sort(cards[..k]), cards[k], t);
      assert (Sort(cards[..k]) + [cards[k]])[..|Sort(cards[..k])|] == Sort(cards[..k]);
    }
  }

  function New(cards: seq<Card>, marker: nat): (r: seq<Card>)
    ensures forall c :: c in r <==> c in cards && c.terminal && c.createdAt > marker
  {
    if cards == [] then []
    else
      var c := cards[|cards| - 1];
      assert cards == cards[..|cards| - 1] + [c];
      New(cards[..|cards| - 1], marker) + if c.terminal && c.createdAt > marker then [c] else []
  }

  // ---------------------------------------------------------------- the events

  /** The run's outcomes are written; the marker moves afterwards. */
  function Score(s: State, run: Detail): State {
    s.(log := ScoreAll(s.log, Actuals(run.scenarios), run.createdAt), ingested := s.ingested + [run])
  }

  function Ingest(s: State, run: Detail): State {
    Score(s, run).(marker := run.createdAt)
  }

  function Next(s: State, e: Event): State {
    match e
    case Log(scenario, now) =>
      s.(log := s.log + [Prediction(scenario, now, None)], since := s.since + [|s.ingested|])
    case BeginSync(cards) =>
      if s.todo == [] then s.(todo := Sort(New(cards, s.marker))) else s
    case NextRun(detail) =>
      if s.todo == [] then s
      else
        var after := s.(todo := s.todo[1..]);
        if detail.Some? then Ingest(after, detail.value) else after
    case Abort => s.(todo := [])
    case DiesUnmarked(run) => if s.todo == [] then s else Score(s, run).(todo := [])
  }

  function Start(): State {
    State([], 0, [], [], [])
  }

  function Continue(s: State, events: seq<Event>): State {
    if events == [] then s else Next(Continue(s, events[..|events| - 1]), events[|events| - 1])
  }

  function Run(events: seq<Event>): State {
    Continue(Start(), events)
  }

  lemma {:induction false} ContinueJoins(s: State, a: seq<Event>, b: seq<Event>)
    ensures Continue(s, a + b) == Continue(Continue(s, a), b)
  {
    if b == [] {
      assert a + b == a;
    } else {
      var k := |b| - 1;
      assert (a + b)[..|a + b| - 1] == a + b[..k];
      ContinueJoins(s, a, b[..k]);
    }
  }

  // ---------------------------------------------------------------- which run scores a prediction

  /** The first of the runs that decides the prediction; past the end when none does. */
  function FirstIndex(scenario: string, at: nat, runs: seq<Detail>): (k: nat)
    ensures k <= |runs|
    ensures k < |runs| ==> Counts(scenario, at, runs[k])
    ensures forall j :: 0 <= j < k ==> !Counts(scenario, at, runs[j])
  {
    if runs == [] then 0
    else
      var n := |runs| - 1;
      var k := FirstIndex(scenario, at, runs[..n]);
      if k < n || Counts(scenario, at, runs[n]) then k else n + 1
  }

  function Outcome(scenario: string, at: nat, runs: seq<Detail>): Option<Verdict> {
    var k := FirstIndex(scenario, at, runs);
    if k < |runs| then Some(Actuals(runs[k].scenarios)[scenario]) else None
  }

  ghost predicate LogInv(s: State) {
    && |s.since| == |s.log|
    && (forall i :: 0 <= i < |s.log| ==> s.since[i] <= |s.ingested|)
    && (forall i :: 0 <= i < |s.log| ==> RowInv(s, i))
  }

  ghost predicate RowInv(s: State, i: nat)
    requires i < |s.log| && i < |s.since| && s.since[i] <= |s.ingested|
  {
    s.log[i].actual == Outcome(s.log[i].scenario, s.log[i].createdAt, s.ingested[s.since[i]..])
  }

  lemma OutcomeOfOneMore(scenario: string, at: nat, runs: seq<Detail>, run: Detail)
    ensures Outcome(scenario, at, runs + [run]) ==
            if Outcome(scenario, at, runs).Some? then Outcome(scenario, at, runs)
            else if Counts(scenario, at, run) then Some(Actuals(run.scenarios)[scenario])
            else None
  {
    assert (runs + [run])[..|runs|] == runs;
  }

  lemma ScoreKeeps(s: State, run: Detail)
    requires LogInv(s)
    ensures LogInv(Score(s, run))
  {
    var t := Score(s, run);
    forall i | 0 <= i < |t.log|
      ensures RowInv(t, i)
    {
      assert RowInv(s, i);
      assert t.ingested[t.since[i]..] == s.ingested[s.since[i]..] + [run];
      OutcomeOfOneMore(s.log[i].scenario, s.log[i].createdAt, s.ingested[s.since[i]..], run);
    }
  }

  lemma NextKeeps(s: State, e: Event)
    requires LogInv(s)
    ensures LogInv(Next(s, e))
  {
    var t := Next(s, e);
    match e
    case Log(scenario, now) =>
      forall i | 0 <= i < |t.log|
        ensures RowInv(t, i)
      {
        if i < |s.log| {
          assert RowInv(s, i);
        }
      }
    case BeginSync(_) =>
      forall i | 0 <= i < |t.log| ensures RowInv(t, i) { assert RowInv(s, i); }
    case NextRun(detail) =>
      var u := if s.todo == [] then s else s.(todo := s.todo[1..]);
      forall i | 0 <= i < |u.log| ensures RowInv(u, i) { assert RowInv(s, i); }
      if s.todo != [] && detail.Some? {
        ScoreKeeps(u, detail.value);
        forall i | 0 <= i < |t.log| ensures RowInv(t, i) { assert RowInv(Score(u, detail.value), i); }
      }
    case Abort =>
      forall i | 0 <= i < |t.log| ensures RowInv(t, i) { assert RowInv(s, i); }
    case DiesUnmarked(run) =>
      ScoreKeeps(s, run);
      forall i | 0 <= i < |t.log| ensures RowInv(t, i) { assert s.todo != [] ==> RowInv(Score(s, run), i); }
  }

  /** Over every interleaving: a prediction holds its scenario's status in the first
      run ingested since it was logged that was created after it, and nothing as
      long as there is none. */
  lemma {:induction false} FirstRunSinceScores(events: seq<Event>)
    ensures LogInv(Run(events))
  {
    if events != [] {
      FirstRunSinceScores(events[..|events| - 1]);
      NextKeeps(Run(events[..|events| - 1]), events[|events| - 1]);
    }
  }

  /** Rows are only added; a scored row never changes again. */
  ghost predicate OnlyScores(s: State, t: State) {
    && |s.log| <= |t.log| && |s.since| <= |t.since| && s.since == t.since[..|s.since|]
    && |s.ingested| <= |t.ingested| && s.ingested == t.ingested[..|s.ingested|]
    && (forall i :: 0 <= i < |s.log| ==>
          t.log[i].scenario == s.log[i].scenario && t.log[i].createdAt == s.log[i].createdAt)
    && (forall i :: 0 <= i < |s.log| && s.log[i].actual.Some? ==> t.log[i] == s.log[i])
  }

  lemma StepOnlyScores(s: State, e: Event)
    ensures OnlyScores(s, Next(s, e))
  {
  }

  lemma ScoresChain(s: State, t: State, u: State)
    requires OnlyScores(s, t) && OnlyScores(t, u)
    ensures OnlyScores(s, u)
  {
    assert u.since[..|s.since|] == u.since[..|t.since|][..|s.since|];
    assert u.ingested[..|s.ingested|] == u.ingested[..|t.ingested|][..|s.ingested|];
  }

  /** No event rescores a prediction, from any state. */
  lemma {:induction false} NeverRescored(s: State, events: seq<Event>)
    ensures OnlyScores(s, Continue(s, events))
  {
    if events != [] {
      var t, e := Continue(s, events[..|events| - 1]), events[|events| - 1];
      NeverRescored(s, events[..|events| - 1]);
      StepOnlyScores(t, e);
      ScoresChain(s, t, Next(t, e));
    }
  }

  // ---------------------------------------------------------------- the earliest run

  /** The detail carries the created_at its card was listed with, and the marker
      moves with every run that scores. */
  ghost predicate Faithful(s: State, e: Event) {
    && !e.DiesUnmarked?
    && (e.NextRun? && e.detail.Some? && s.todo != [] ==> e.detail.value.createdAt == s.todo[0].createdAt)
  }

  ghost predicate FaithfulRun(events: seq<Event>) {
    events != [] ==>
      && FaithfulRun(events[..|events| - 1])
      && Faithful(Run(events[..|events| - 1]), events[|events| - 1])
  }

  ghost predicate OrderInv(s: State) {
    && (forall j, k :: 0 <= j < k < |s.ingested| ==> s.ingested[j].createdAt <= s.ingested[k].createdAt)
    && s.marker == (if s.ingested == [] then 0 else s.ingested[|s.ingested| - 1].createdAt)
    && (forall j :: 0 <= j < |s.ingested| ==> s.ingested[j].createdAt > 0)
    && InOrder(s.todo)
    && (forall c :: c in s.todo ==> c.createdAt >= s.marker && c.createdAt > 0)
  }

  /** What a sync visits is in order and newer than the marker. */
  lemma VisitsSorted(cards: seq<Card>, marker: nat)
    ensures InOrder(Sort(New(cards, marker)))
    ensures forall c :: c in Sort(New(cards, marker)) ==> c.createdAt > marker
  {
    var unseen := New(cards, marker);
    SortSorts(unseen);
    forall c | c in Sort(unseen)
      ensures c in unseen
    {
      SortKeeps(unseen, c);
    }
  }

  lemma OrderKept(s: State, e: Event)
    requires OrderInv(s) && Faithful(s, e)
    ensures OrderInv(Next(s, e)) && s.marker <= Next(s, e).marker
  {
    match e
    case Log(_, _) =>
    case BeginSync(cards) =>
      if s.todo == [] {
        VisitsSorted(cards, s.marker);
      }
    case NextRun(detail) =>
      if s.todo != [] {
        assert s.todo[0] in s.todo;
        assert forall c :: c in s.todo[1..] ==> c in s.todo && c.createdAt >= s.todo[0].createdAt;
      }
    case Abort =>
  }

  /** Whatever is logged, aborted or skipped in between, runs are ingested in creation
      order and the marker is the creation time of the last one. */
  lemma {:induction false} IngestsInOrder(events: seq<Event>)
    requires FaithfulRun(events)
    ensures OrderInv(Run(events))
  {
    if events != [] {
      IngestsInOrder(events[..|events| - 1]);
      OrderKept(Run(events[..|events| - 1]), events[|events| - 1]);
    }
  }

  /** Whether ingested run j decides row i. */
  ghost predicate Decides(s: State, i: nat, j: nat)
    requires i < |s.log| && j < |s.ingested|
  {
    Counts(s.log[i].scenario, s.log[i].createdAt, s.ingested[j])
  }

  /** When it was logged, no ingested run decided it already. */
  ghost predicate Timely(s: State, i: nat)
    requires LogInv(s) && i < |s.log|
  {
    forall j :: 0 <= j < s.since[i] ==> !Decides(s, i, j)
  }

  /** The place, among all ingested runs, of the one that scores row i. */
  ghost function Scorer(s: State, i: nat): (k: nat)
    requires LogInv(s) && i < |s.log|
    ensures s.since[i] <= k <= |s.ingested|
  {
    s.since[i] + FirstIndex(s.log[i].scenario, s.log[i].createdAt, s.ingested[s.since[i]..])
  }

  /** Run k decides row i and none that decides it was created, or ingested, earlier;
      past the end, no run decides it. */
  ghost predicate Earliest(s: State, i: nat, k: nat)
    requires i < |s.log| && k <= |s.ingested|
  {
    && (k < |s.ingested| ==> Decides(s, i, k))
    && (forall j :: 0 <= j < |s.ingested| && Decides(s, i, j) ==>
          k <= j && s.ingested[k].createdAt <= s.ingested[j].createdAt)
  }

  lemma ScorerIsFirstSince(s: State, i: nat)
    requires LogInv(s) && i < |s.log|
    ensures Scorer(s, i) < |s.ingested| ==> Decides(s, i, Scorer(s, i))
    ensures forall j :: s.since[i] <= j < Scorer(s, i) ==> !Decides(s, i, j)
    ensures s.log[i].actual ==
            if Scorer(s, i) < |s.ingested|
            then Some(Actuals(s.ingested[Scorer(s, i)].scenarios)[s.log[i].scenario]) else None
  {
    assert RowInv(s, i);
    var from, tail := s.since[i], s.ingested[s.since[i]..];
    forall j | from <= j < Scorer(s, i)
      ensures !Decides(s, i, j)
    {
      assert s.ingested[j] == tail[j - from];
    }
  }

  /** A prediction is scored against the earliest ingested run created after it exactly
      when none of the runs ingested before it was logged was created after it. */
  lemma EarliestRunScores(events: seq<Event>, i: nat)
    requires FaithfulRun(events) && i < |Run(events).log|
    ensures LogInv(Run(events))
    ensures Earliest(Run(events), i, Scorer(Run(events), i)) <==> Timely(Run(events), i)
    ensures Run(events).log[i].actual ==
            if Scorer(Run(events), i) < |Run(events).ingested|
            then Some(Actuals(Run(events).ingested[Scorer(Run(events), i)].scenarios)[Run(events).log[i].scenario])
            else None
  {
    FirstRunSinceScores(events);
    IngestsInOrder(events);
    ScorerIsFirstSince(Run(events), i);
    EarliestIffTimely(Run(events), i);
  }

  lemma EarliestIffTimely(s: State, i: nat)
    requires OrderInv(s) && LogInv(s) && i < |s.log|
    ensures Earliest(s, i, Scorer(s, i)) <==> Timely(s, i)
  {
    ScorerIsFirstSince(s, i);
  }

  /** A clock that is not behind the runs already ingested is enough, and it stays so. */
  lemma ClocksAgree(events: seq<Event>, scenario: string, now: nat, later: seq<Event>)
    requires FaithfulRun(events) && now >= Run(events).marker
    ensures LogInv(Run(events + [Log(scenario, now)] + later))
    ensures |Run(events).log| < |Run(events + [Log(scenario, now)] + later).log|
    ensures Timely(Run(events + [Log(scenario, now)] + later), |Run(events).log|)
  {
    var logged := events + [Log(scenario, now)];
    Also(events, Log(scenario, now));
    FirstRunSinceScores(events);
    FirstRunSinceScores(logged);
    FirstRunSinceScores(logged + later);
    IngestsInOrder(events);
    ContinueJoins(Start(), logged, later);
    NeverRescored(Run(logged), later);
    MarkerIsNewest(Run(events));
    TimelyFrom(Run(logged), Run(logged + later), |Run(events).log|);
  }

  lemma TimelyFrom(s: State, t: State, i: nat)
    requires LogInv(s) && LogInv(t) && OnlyScores(s, t) && i < |s.log|
    requires forall j :: 0 <= j < s.since[i] ==> 0 < s.ingested[j].createdAt <= s.log[i].createdAt
    ensures Timely(t, i)
  {
    forall j | 0 <= j < t.since[i]
      ensures !Decides(t, i, j)
    {
      assert t.ingested[j] == s.ingested[j];
    }
  }

  /** With a clock behind the runs, the promise fails: the run created first after the
      prediction passed, but the prediction is scored as failed. */
  lemma SkewedClock()
    ensures exists events ::
              && FaithfulRun(events) && |Run(events).log| == 1 && LogInv(Run(events))
              && !Timely(Run(events), 0) && Run(events).log[0].actual == Some(Failed)
              && Outcome("a", Run(events).log[0].createdAt, Run(events).ingested) == Some(Passed)
  {
    var r1, r2 := RunOfA(10, "passed"), RunOfA(20, "failed");
    OneScenario("a", "passed");
    OneScenario("a", "failed");
    var events := SkewedRun(r1, r2);
    FirstRunSinceScores(events);
    assert Decides(Run(events), 0, 0);
    FirstOfTwo(r1, r2);
  }

  lemma FirstOfTwo(r1: Detail, r2: Detail)
    requires Counts("a", 5, r1)
    ensures FirstIndex("a", 5, [r1, r2]) == 0
  {
  }

  lemma SkewedRun(r1: Detail, r2: Detail) returns (events: seq<Event>)
    requires r1.createdAt == 10 && r2.createdAt == 20 && Actuals(r2.scenarios) == map["a" := Failed]
    ensures FaithfulRun(events)
    ensures Run(events) == State([Prediction("a", 5, Some(Failed))], 20, [], [r1, r2], [1])
  {
    var c1, c2 := Card("1", true, 10), Card("2", true, 20);
    OneCard(c1, 0);
    OneNewCard(c1, c2, 10);
    var s1 := State([], 0, [c1], [], []);
    var s2 := State([], 10, [], [r1], []);
    var s3 := State([Prediction("a", 5, None)], 10, [], [r1], [1]);
    var s4 := s3.(todo := [c2]);
    events := Reach([], Start(), BeginSync([c1]), s1);
    IngestNone(s1, r1);
    events := Reach(events, s1, NextRun(Some(r1)), s2);
    events := Reach(events, s2, Log("a", 5), s3);
    events := Reach(events, s3, BeginSync([c1, c2]), s4);
    IngestOne(s4, r2, Failed);
    events := Reach(events, s4, NextRun(Some(r2)),
                    State([Prediction("a", 5, Some(Failed))], 20, [], [r1, r2], [1]));
  }

  function RunOfA(at: nat, status: string): Detail {
    Detail(at, [Scenario("a", "", status)])
  }

  lemma IngestNone(s: State, run: Detail)
    requires s.log == [] && |s.todo| == 1
    ensures Next(s, NextRun(Some(run))) == State([], run.createdAt, [], s.ingested + [run], s.since)
  {
  }

  lemma IngestOne(s: State, run: Detail, v: Verdict)
    requires s.log == [Prediction("a", 5, None)] && |s.todo| == 1
    requires Actuals(run.scenarios) == map["a" := v] && run.createdAt > 5
    ensures Next(s, NextRun(Some(run))) ==
            State([Prediction("a", 5, Some(v))], run.createdAt, [], s.ingested + [run], s.since)
  {
    assert ScoreAll(s.log, map["a" := v], run.createdAt) == [Prediction("a", 5, Some(v))];
  }

  lemma Reach(events: seq<Event>, s: State, e: Event, t: State) returns (longer: seq<Event>)
    requires FaithfulRun(events) && Run(events) == s && Faithful(s, e) && Next(s, e) == t
    ensures longer == events + [e] && FaithfulRun(longer) && Run(longer) == t
  {
    Also(events, e);
    longer := events + [e];
  }

  lemma Also(events: seq<Event>, e: Event)
    ensures Run(events + [e]) == Next(Run(events), e)
    ensures FaithfulRun(events) && Faithful(Run(events), e) ==> FaithfulRun(events + [e])
  {
    assert (events + [e])[..|events|] == events;
  }

  lemma OneCard(c: Card, marker: nat)
    requires c.terminal && c.createdAt > marker
    ensures Sort(New([c], marker)) == [c]
  {
    assert [c][..0] == [];
    assert New([c], marker) == [c];
    assert Sort([c]) == Insert(Sort([]), c);
  }

  lemma OneNewCard(old1: Card, c: Card, marker: nat)
    requires c.terminal && old1.createdAt <= marker < c.createdAt
    ensures Sort(New([old1, c], marker)) == [c]
  {
    assert [old1, c][..1] == [old1] && [old1][..0] == [];
    assert New([old1], marker) == [];
    assert New([old1, c], marker) == [c];
    assert [c][..0] == [];
    assert Sort([c]) == Insert(Sort([]), c);
  }

  lemma OneScenario(key: string, status: string)
    requires key != "" && Grade(status).Some?
    ensures Actuals([Scenario(key, "", status)]) == map[key := Grade(status).value]
  {
    assert [Scenario(key, "", status)][..0] == [];
  }

  /** A sync visits a run exactly when the run has ended, has a creation time, and was
      created after every run ingested before the sync. */
  lemma VisitsExactly(events: seq<Event>, cards: seq<Card>, c: Card)
    requires FaithfulRun(events) && Run(events).todo == []
    ensures c in Run(events + [BeginSync(cards)]).todo <==>
            && c in cards && c.terminal && c.createdAt > 0
            && forall j :: 0 <= j < |Run(events).ingested| ==> Run(events).ingested[j].createdAt < c.createdAt
  {
    IngestsInOrder(events);
    Also(events, BeginSync(cards));
    SortKeeps(New(cards, Run(events).marker), c);
    MarkerIsNewest(Run(events));
  }

  /** So a run that another one, created no earlier, has overtaken is never visited
      again, whatever happens later. */
  lemma OvertakenIsLost(events: seq<Event>, later: seq<Event>, cards: seq<Card>, c: Card)
    requires FaithfulRun(events + later) && Run(events + later).todo == []
    requires exists j :: 0 <= j < |Run(events).ingested| && Run(events).ingested[j].createdAt >= c.createdAt
    ensures c !in Run(events + later + [BeginSync(cards)]).todo
  {
    var j :| 0 <= j < |Run(events).ingested| && Run(events).ingested[j].createdAt >= c.createdAt;
    ContinueJoins(Start(), events, later);
    NeverRescored(Run(events), later);
    VisitsExactly(events + later, cards, c);
    assert Run(events + later).ingested[j] == Run(events).ingested[j];
  }

  // ---------------------------------------------------------------- a death before the marker moves

  /** Scoring the same run again changes no prediction. */
  lemma ScoringTwice(log: seq<Prediction>, actuals: map<string, Verdict>, run: nat)
    ensures ScoreAll(ScoreAll(log, actuals, run), actuals, run) == ScoreAll(log, actuals, run)
  {
  }

  lemma DieNext(s: State, run: Detail)
    requires s.todo != []
    ensures Next(s, DiesUnmarked(run)) == Score(s, run).(todo := [])
  {
  }

  lemma IngestNext(s: State, run: Detail)
    requires s.todo != []
    ensures Next(s, NextRun(Some(run))) == Ingest(s.(todo := s.todo[1..]), run)
  {
  }

  /** A sync that dies between the scores and the marker is repaired by the next one:
      when that offers the same runs, the log and the marker are as without the death. */
  lemma DeathIsRepaired(s: State, run: Detail, cards: seq<Card>)
    requires s.todo != [] && Sort(New(cards, s.marker)) == s.todo
    ensures var again := Next(Next(Next(s, DiesUnmarked(run)), BeginSync(cards)), NextRun(Some(run)));
            var once := Next(s, NextRun(Some(run)));
            again.log == once.log && again.marker == once.marker && again.todo == once.todo
  {
    DieNext(s, run);
    BeginVisits(Score(s, run).(todo := []), cards);
    IngestNext(Score(s, run), run);
    IngestNext(s, run);
    ScoringTwice(s.log, Actuals(run.scenarios), run.createdAt);
  }

  /** Two syncs; the first dies with the newer run scored but not marked. */
  function Reordering(c1: Card, c2: Card, newer: Detail, older: Detail): seq<Event> {
    [BeginSync([c2])] + [DiesUnmarked(newer)] + [BeginSync([c1, c2])] + [NextRun(Some(older))]
  }

  /** When an older run is listed meanwhile, it is ingested after the newer one. */
  lemma DeathReorders(c1: Card, c2: Card, newer: Detail, older: Detail)
    requires c1.terminal && c2.terminal && 0 < c1.createdAt == older.createdAt < c2.createdAt == newer.createdAt
    ensures Run(Reordering(c1, c2, newer, older)).ingested == [newer, older]
  {
    var s1, s2, s3 := State([], 0, [c2], [], []), State([], 0, [], [newer], []), State([], 0, [c1, c2], [newer], []);
    DyingSync(c1, c2, newer, s1, s2, s3);
    IngestNext(s3, older);
    FourNext(BeginSync([c2]), DiesUnmarked(newer), BeginSync([c1, c2]), NextRun(Some(older)), s1, s2, s3);
  }

  lemma DyingSync(c1: Card, c2: Card, newer: Detail, s1: State, s2: State, s3: State)
    requires c1.terminal && c2.terminal && 0 < c1.createdAt < c2.createdAt
    requires s1 == State([], 0, [c2], [], []) && s2 == State([], 0, [], [newer], []) && s3 == State([], 0, [c1, c2], [newer], [])
    ensures Next(Start(), BeginSync([c2])) == s1 && Next(s1, DiesUnmarked(newer)) == s2 && Next(s2, BeginSync([c1, c2])) == s3
  {
    OneCard(c2, 0);
    BeginVisits(Start(), [c2]);
    DieEmpty(c2, newer);
    TwoCards(c1, c2);
    BeginVisits(s2, [c1, c2]);
  }

  lemma FourNext(e1: Event, e2: Event, e3: Event, e4: Event, s1: State, s2: State, s3: State)
    requires Next(Start(), e1) == s1 && Next(s1, e2) == s2 && Next(s2, e3) == s3
    ensures Run([e1] + [e2] + [e3] + [e4]) == Next(s3, e4)
  {
    Also([], e1);
    Also([e1], e2);
    Also([e1] + [e2], e3);
    Also([e1] + [e2] + [e3], e4);
    assert [] + [e1] == [e1];
  }

  lemma DieEmpty(c: Card, run: Detail)
    ensures Next(State([], 0, [c], [], []), DiesUnmarked(run)) == State([], 0, [], [run], [])
  {
    DieNext(State([], 0, [c], [], []), run);
    assert ScoreAll([], Actuals(run.scenarios), run.createdAt) == [];
  }

  /** One sync over two runs, the first without a summary yet. */
  function SkipsFirst(first: Card, second: Card, detail: Detail): seq<Event> {
    [BeginSync([first, second])] + [NextRun(None)] + [NextRun(Some(detail))]
  }

  /** It offers the first run, skips it, and loses it: no later sync visits it, also
      when its summary has come. */
  lemma SkippedIsLost(first: Card, second: Card, detail: Detail, later: seq<Event>, cards: seq<Card>)
    requires first.terminal && second.terminal && 0 < first.createdAt <= second.createdAt == detail.createdAt
    requires FaithfulRun(SkipsFirst(first, second, detail) + later)
    requires Run(SkipsFirst(first, second, detail) + later).todo == []
    ensures first in Run([BeginSync([first, second])]).todo && FaithfulRun(SkipsFirst(first, second, detail))
    ensures first !in Run(SkipsFirst(first, second, detail) + later + [BeginSync(cards)]).todo
  {
    SkipsThenIngests(first, second, detail);
    assert Run(SkipsFirst(first, second, detail)).ingested[0] == detail;
    OvertakenIsLost(SkipsFirst(first, second, detail), later, cards, first);
  }

  lemma SkipsThenIngests(first: Card, second: Card, detail: Detail)
    requires first.terminal && second.terminal && 0 < first.createdAt <= second.createdAt == detail.createdAt
    ensures first in Run([BeginSync([first, second])]).todo
    ensures FaithfulRun(SkipsFirst(first, second, detail)) && Run(SkipsFirst(first, second, detail)).ingested == [detail]
  {
    var s1, s2 := State([], 0, [first, second], [], []), State([], 0, [second], [], []);
    SkipStates(first, second, detail, s1, s2);
    FirstThree(BeginSync([first, second]), NextRun(None), NextRun(Some(detail)), s1, s2, State([], detail.createdAt, [], [detail], []));
  }

  lemma SkipStates(first: Card, second: Card, detail: Detail, s1: State, s2: State)
    requires first.terminal && second.terminal && 0 < first.createdAt <= second.createdAt == detail.createdAt
    requires s1 == State([], 0, [first, second], [], []) && s2 == State([], 0, [second], [], [])
    ensures Next(Start(), BeginSync([first, second])) == s1 && Next(s1, NextRun(None)) == s2
    ensures Next(s2, NextRun(Some(detail))) == State([], detail.createdAt, [], [detail], [])
    ensures Faithful(Start(), BeginSync([first, second])) && Faithful(s1, NextRun(None)) && Faithful(s2, NextRun(Some(detail)))
  {
    BeginTwo(first, second);
    SkipNext(s1);
    IngestLast(second, detail);
  }

  lemma BeginTwo(first: Card, second: Card)
    requires first.terminal && second.terminal && 0 < first.createdAt <= second.createdAt
    ensures Next(Start(), BeginSync([first, second])) == State([], 0, [first, second], [], [])
  {
    TwoCards(first, second);
    BeginVisits(Start(), [first, second]);
  }

  lemma BeginVisits(s: State, cards: seq<Card>)
    requires s.todo == []
    ensures Next(s, BeginSync(cards)) == s.(todo := Sort(New(cards, s.marker)))
  {
  }

  lemma IngestLast(c: Card, detail: Detail)
    ensures Next(State([], 0, [c], [], []), NextRun(Some(detail))) == State([], detail.createdAt, [], [detail], [])
  {
    IngestNone(State([], 0, [c], [], []), detail);
  }

  lemma FirstThree(e1: Event, e2: Event, e3: Event, s1: State, s2: State, s3: State)
    requires Faithful(Start(), e1) && Next(Start(), e1) == s1
    requires Faithful(s1, e2) && Next(s1, e2) == s2 && Faithful(s2, e3) && Next(s2, e3) == s3
    ensures Run([e1]) == s1 && FaithfulRun([e1] + [e2] + [e3]) && Run([e1] + [e2] + [e3]) == s3
  {
    Also([], e1);
    Also([e1], e2);
    Also([e1] + [e2], e3);
    assert [] + [e1] == [e1];
  }

  lemma SkipNext(s: State)
    requires s.todo != []
    ensures Next(s, NextRun(None)) == s.(todo := s.todo[1..])
  {
  }

  lemma TwoCards(first: Card, second: Card)
    requires first.terminal && second.terminal && 0 < first.createdAt <= second.createdAt
    ensures Sort(New([first, second], 0)) == [first, second]
  {
    assert [first, second][..1] == [first] && [first][..0] == [];
    assert New([first], 0) == [first] && New([first, second], 0) == [first, second];
    OneCard(first, 0);
    assert Sort([first]) == [first];
  }

  lemma MarkerIsNewest(s: State)
    requires OrderInv(s)
    ensures forall j :: 0 <= j < |s.ingested| ==> s.ingested[j].createdAt <= s.marker
  {
  }

  // ---------------------------------------------------------------- the service

  /** What one undisturbed sync does, as events. */
  function Visits(todo: seq<Card>, details: map<string, Detail>): seq<Event> {
    if todo == [] then []
    else Visits(todo[..|todo| - 1], details) + [NextRun(Lookup(details, todo[|todo| - 1].id))]
  }

  function Lookup(details: map<string, Detail>, id: string): Option<Detail> {
    if id in details then Some(details[id]) else None
  }

  lemma VisitsOneMore(todo: seq<Card>, i: nat, details: map<string, Detail>)
    requires i < |todo|
    ensures Visits(todo[..i + 1], details) == Visits(todo[..i], details) + [NextRun(Lookup(details, todo[i].id))]
  {
    assert todo[..i + 1][..i] == todo[..i];
  }

  lemma VisitPops(s: State, detail: Option<Detail>)
    requires s.todo != []
    ensures Next(s, NextRun(detail)).todo == s.todo[1..]
    ensures |Next(s, NextRun(detail)).ingested| == |s.ingested| + if detail.Some? then 1 else 0
  {
  }

  class Insight {
    var log: seq<Prediction>
    var lastSeen: nat
    ghost var events: seq<Event>

    ghost predicate Mirrors()
      reads this
    {
      log == Run(events).log && lastSeen == Run(events).marker
    }

    /** Between syncs no run is left to visit. */
    ghost predicate Valid()
      reads this
    {
      Mirrors() && Run(events).todo == []
    }

    constructor ()
      ensures Valid() && events == []
    {
      log, lastSeen, events := [], 0, [];
    }

    method LogPrediction(scenario: string, now: nat)
      requires Valid()
      modifies this
      ensures Valid() && events == old(events) + [Log(scenario, now)]
    {
      log := log + [Prediction(scenario, now, None)];
      events := events + [Log(scenario, now)];
      assert events[..|events| - 1] == old(events);
    }

    /** One UPDATE per scenario, in whatever order the scenarios come. */
    method ScorePredictions(actuals: map<string, Verdict>, run: nat)
      modifies this`log
      ensures log == ScoreAll(old(log), actuals, run)
    {
      var rest := actuals.Keys;
      while rest != {}
        invariant rest <= actuals.Keys
        invariant |log| == |old(log)|
        invariant forall i :: 0 <= i < |log| ==>
          log[i] == if old(log)[i].scenario in rest then old(log)[i] else ScoreRow(old(log)[i], actuals, run)
        decreases |rest|
      {
        var scenario :| scenario in rest;
        var status := actuals[scenario];
        var before := log;
        log := seq(|before|, i requires 0 <= i < |before| =>
          if before[i].scenario == scenario && before[i].actual.None? && Precedes(before[i].createdAt, run)
          then before[i].(actual := Some(status)) else before[i]);
        rest := rest - {scenario};
      }
    }

    /** Ingests one run, or passes over one without a summary, which moves nothing. */
    method Visit(detail: Option<Detail>)
      requires Mirrors() && Run(events).todo != []
      modifies this
      ensures Mirrors() && events == old(events) + [NextRun(detail)]
    {
      Also(events, NextRun(detail));
      if detail.Some? {
        var actuals := Actuals(detail.value.scenarios);
        if actuals != map[] {
          ScorePredictions(actuals, detail.value.createdAt);
        } else {
          assert ScoreAll(log, actuals, detail.value.createdAt) == log;
        }
        lastSeen := detail.value.createdAt;
      }
      events := events + [NextRun(detail)];
    }

    /** Scores run by run, in creation order. */
    method Sync(cards: seq<Card>, details: map<string, Detail>) returns (ingested: nat)
      requires Valid()
      modifies this
      ensures Valid()
      ensures events == old(events) + [BeginSync(cards)] + Visits(Sort(New(cards, old(lastSeen))), details)
      ensures ingested == |Run(events).ingested| - |Run(old(events)).ingested|
    {
      var unseen := Sort(New(cards, lastSeen));
      ghost var begun := events + [BeginSync(cards)];
      Also(events, BeginSync(cards));
      events := begun;
      ingested := 0;
      var i := 0;
      while i < |unseen|
        invariant 0 <= i <= |unseen|
        invariant events == begun + Visits(unseen[..i], details)
        invariant Mirrors() && Run(events).todo == unseen[i..]
        invariant ingested == |Run(events).ingested| - |Run(begun).ingested|
      {
        var detail := Lookup(details, unseen[i].id);
        VisitsOneMore(unseen, i, details);
        VisitPops(Run(events), detail);
        Also(events, NextRun(detail));
        Visit(detail);
        if detail.Some? {
          ingested := ingested + 1;
        }
        i := i + 1;
      }
      assert unseen[..|unseen|] == unseen;
    }
  }
}
