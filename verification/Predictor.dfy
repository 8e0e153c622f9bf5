/** The frequency baseline: recency-weighted, Beta-smoothed failure frequency over
    the last runs of a scenario, and its flip score. Arithmetic is exact here. */
module Predictor {

  const ALPHA := 1.0
  const BETA := 1.0
  const DECAY := 0.92
  const WINDOW: nat := 50

  datatype Outcome = Passed | Failed | Other

  /** Passes (false) and failures (true) only, oldest first. */
  function Graded(history: seq<Outcome>): seq<bool> {
    if history == [] then []
    else
      var last := history[|history| - 1];
      Graded(history[..|history| - 1]) + if last == Other then [] else [last == Failed]
  }

  /** How many of the oldest graded runs the window drops. */
  function Dropped(s: seq<bool>): nat {
    if |s| <= WINDOW then 0 else |s| - WINDOW
  }

  function Recent(history: seq<Outcome>): seq<bool> {
    Graded(history)[Dropped(Graded(history))..]
  }

  function Weight(age: nat): (w: real)
    ensures w > 0.0
  {
    if age == 0 then 1.0 else DECAY * Weight(age - 1)
  }

  /** Total weight of the runs and weight of the failed ones; the last run has the given age. */
  function Total(s: seq<bool>, age: nat): (t: real)
    ensures t >= 0.0
  {
    if s == [] then 0.0 else Total(s[..|s| - 1], age + 1) + Weight(age)
  }

  function FailedMass(s: seq<bool>, age: nat): real {
    if s == [] then 0.0
    else FailedMass(s[..|s| - 1], age + 1) + if s[|s| - 1] then Weight(age) else 0.0
  }

  lemma {:induction false} WeightPositive(age: nat)
    ensures 0.0 < Weight(age) <= 1.0
  {
    if age > 0 {
      WeightPositive(age - 1);
    }
  }

  /** Older runs weigh strictly less. */
  lemma {:induction false} WeightFalls(newer: nat, older: nat)
    requires newer < older
    ensures Weight(older) < Weight(newer)
  {
    WeightPositive(older - 1);
    assert Weight(older) == DECAY * Weight(older - 1);
    if newer < older - 1 {
      WeightFalls(newer, older - 1);
    }
  }

  /** The geometric bound: n runs starting at some age weigh 12.5 (w(age) - w(age+n)). */
  lemma {:induction false} TotalIsGeometric(s: seq<bool>, age: nat)
    ensures Total(s, age) == 12.5 * (Weight(age) - Weight(age + |s|))
  {
    if s != [] {
      TotalIsGeometric(s[..|s| - 1], age + 1);
      assert Weight(age + 1) == DECAY * Weight(age);
    }
  }

  lemma {:induction false} FailedWithin(s: seq<bool>, age: nat)
    ensures 0.0 <= FailedMass(s, age) <= Total(s, age)
  {
    WeightPositive(age);
    if s != [] {
      FailedWithin(s[..|s| - 1], age + 1);
    }
  }

  // ---------------------------------------------------------------- quotients

  lemma Scaled(x: real, y: real, d: real)
    requires d > 0.0
    ensures x < y <==> x * d < y * d
  {
    assert (y - x) * d == y * d - x * d;
  }

  lemma Compared(x: real, y: real, d: real)
    requires d > 0.0
    ensures x / d < y / d <==> x < y
  {
    assert x / d * d == x && y / d * d == y;
    Scaled(x / d, y / d, d);
  }

  lemma Between(lo: real, n: real, hi: real, d: real)
    requires d > 0.0 && lo * d < n < hi * d
    ensures lo < n / d < hi
  {
    assert n / d * d == n;
    Scaled(lo, n / d, d);
    Scaled(n / d, hi, d);
  }

  // ---------------------------------------------------------------- never certain

  function PFail(history: seq<Outcome>): real {
    var s := Recent(history);
    (FailedMass(s, 0) + ALPHA) / (Total(s, 0) + ALPHA + BETA)
  }

  /** However long and one-sided the history, the estimate stays strictly between
      2/29 and 27/29: no run history ever makes the baseline certain. */
  lemma NeverCertain(history: seq<Outcome>)
    ensures 2.0 / 29.0 < PFail(history) < 27.0 / 29.0
  {
    var s := Recent(history);
    var f, t := FailedMass(s, 0), Total(s, 0);
    FailedWithin(s, 0);
    TotalIsGeometric(s, 0);
    WeightPositive(|s|);
    assert t < 12.5 * Weight(0);
    Bounds(f, t);
  }

  lemma Bounds(f: real, t: real)
    requires 0.0 <= f <= t < 12.5
    ensures 2.0 / 29.0 < (f + ALPHA) / (t + ALPHA + BETA) < 27.0 / 29.0
  {
    Between(2.0 / 29.0, f + 1.0, 27.0 / 29.0, t + 2.0);
  }

  // ---------------------------------------------------------------- symmetry

  function Flip(o: Outcome): Outcome {
    match o
    case Passed => Failed
    case Failed => Passed
    case Other => Other
  }

  function FlipAll(s: seq<Outcome>): (r: seq<Outcome>) {
    seq(|s|, i requires 0 <= i < |s| => Flip(s[i]))
  }

  predicate Opposite(s: seq<bool>, t: seq<bool>) {
    |s| == |t| && forall i :: 0 <= i < |s| ==> s[i] == !t[i]
  }

  lemma {:induction false} GradedFlips(history: seq<Outcome>)
    ensures Opposite(Graded(FlipAll(history)), Graded(history))
  {
    if history != [] {
      var k := |history| - 1;
      assert FlipAll(history)[..k] == FlipAll(history[..k]);
      GradedFlips(history[..k]);
    }
  }

  lemma {:induction false} MassFlips(s: seq<bool>, t: seq<bool>, age: nat)
    requires Opposite(s, t)
    ensures Total(s, age) == Total(t, age)
    ensures FailedMass(s, age) == Total(t, age) - FailedMass(t, age)
  {
    if s != [] {
      MassFlips(s[..|s| - 1], t[..|s| - 1], age + 1);
    }
  }

  /** Swapping passes and failures swaps the estimate around one half. */
  lemma SwappingOutcomesComplements(history: seq<Outcome>)
    ensures PFail(FlipAll(history)) == 1.0 - PFail(history)
  {
    GradedFlips(history);
    var s, t := Recent(history), Recent(FlipAll(history));
    MassFlips(t, s, 0);
    FailedWithin(s, 0);
    Complement(FailedMass(s, 0) + ALPHA, Total(s, 0) + ALPHA + BETA);
  }

  lemma Complement(n: real, d: real)
    requires d > 0.0
    ensures (d - n) / d == 1.0 - n / d
  {
    assert (d - n) / d * d == d - n;
    assert n / d * d == n;
    assert (1.0 - n / d) * d == d - n / d * d;
    Scaled((d - n) / d, 1.0 - n / d, d);
    Scaled(1.0 - n / d, (d - n) / d, d);
  }

  // ---------------------------------------------------------------- newer failures count more

  /** Where run i of the history stands among the graded ones. */
  function Place(history: seq<Outcome>, i: nat): nat
    requires i < |history|
  {
    |Graded(history[..i])|
  }

  lemma {:induction false} GradedChange(history: seq<Outcome>, i: nat)
    requires i < |history| && history[i] == Passed
    ensures Place(history, i) < |Graded(history)|
    ensures !Graded(history)[Place(history, i)]
    ensures Graded(history[i := Failed]) == Graded(history)[Place(history, i) := true]
  {
    var k := |history| - 1;
    if i == k {
      assert history[i := Failed][..k] == history[..k];
    } else {
      assert history[i := Failed][..k] == history[..k][i := Failed];
      assert history[..k][..i] == history[..i];
      GradedChange(history[..k], i);
    }
  }

  lemma {:induction false} MassOfChange(s: seq<bool>, i: nat, age: nat)
    requires i < |s| && !s[i]
    ensures Total(s[i := true], age) == Total(s, age)
    ensures FailedMass(s[i := true], age) == FailedMass(s, age) + Weight(age + |s| - 1 - i)
  {
    var k := |s| - 1;
    TotalIsGeometric(s, age);
    TotalIsGeometric(s[i := true], age);
    if i == k {
      assert s[i := true][..k] == s[..k];
    } else {
      assert s[i := true][..k] == s[..k][i := true];
      MassOfChange(s[..k], i, age + 1);
    }
  }

  /** How many graded runs came after run i. */
  function Age(history: seq<Outcome>, i: nat): (r: int)
    requires i < |history|
  {
    |Graded(history)| - 1 - Place(history, i)
  }

  /** What one pass turned into a failure does to the estimate: nothing outside the
      window; inside it the failed mass grows by the weight of the run's age. */
  lemma EstimateOfChange(history: seq<Outcome>, i: nat)
    requires i < |history| && history[i] == Passed
    ensures Age(history, i) >= 0
    ensures Age(history, i) >= WINDOW ==> PFail(history[i := Failed]) == PFail(history)
    ensures Age(history, i) < WINDOW ==>
      PFail(history[i := Failed]) ==
      (FailedMass(Recent(history), 0) + Weight(Age(history, i)) + ALPHA) / (Total(Recent(history), 0) + ALPHA + BETA)
  {
    GradedChange(history, i);
    var g, j := Graded(history), Place(history, i);
    var base := Dropped(g);
    FailedWithin(Recent(history), 0);
    if Age(history, i) < WINDOW {
      assert Recent(history[i := Failed]) == Recent(history)[j - base := true];
      MassOfChange(Recent(history), j - base, 0);
    } else {
      assert Recent(history[i := Failed]) == Recent(history);
    }
  }

  /** For every history: a pass turned into a failure raises the estimate exactly
      when the run is in the window. */
  lemma FailureRaises(history: seq<Outcome>, i: nat)
    requires i < |history| && history[i] == Passed
    ensures PFail(history) <= PFail(history[i := Failed])
    ensures PFail(history) < PFail(history[i := Failed]) <==> Age(history, i) < WINDOW
  {
    EstimateOfChange(history, i);
    if Age(history, i) < WINDOW {
      var s := Recent(history);
      FailedWithin(s, 0);
      WeightPositive(Age(history, i));
      Compared(FailedMass(s, 0) + ALPHA, FailedMass(s, 0) + Weight(Age(history, i)) + ALPHA, Total(s, 0) + ALPHA + BETA);
    }
  }

  /** The newer of two passes raises it more, as long as it is in the window. */
  lemma FailuresRaiseByRecency(history: seq<Outcome>, older: nat, newer: nat)
    requires older < newer < |history|
    requires history[older] == Passed && history[newer] == Passed
    requires Age(history, newer) < WINDOW
    ensures PFail(history[older := Failed]) < PFail(history[newer := Failed])
  {
    var s := Recent(history);
    FailedWithin(s, 0);
    assert history[..newer][..older] == history[..older];
    GradedChange(history[..newer], older);
    EstimateOfChange(history, older);
    EstimateOfChange(history, newer);
    FailureRaises(history, newer);
    if Age(history, older) < WINDOW {
      WeightFalls(Age(history, newer), Age(history, older));
      Compared(FailedMass(s, 0) + Weight(Age(history, older)) + ALPHA,
               FailedMass(s, 0) + Weight(Age(history, newer)) + ALPHA,
               Total(s, 0) + ALPHA + BETA);
    }
  }

  // ---------------------------------------------------------------- flakiness

  function Flips(s: seq<bool>): nat {
    if |s| < 2 then 0
    else Flips(s[..|s| - 1]) + if s[|s| - 2] != s[|s| - 1] then 1 else 0
  }

  function Failures(s: seq<bool>): nat {
    if s == [] then 0 else Failures(s[..|s| - 1]) + if s[|s| - 1] then 1 else 0
  }

  /** Flips per transition, when both outcomes occur. */
  function FlipScore(s: seq<bool>): real {
    if |s| > 1 && 0 < Failures(s) < |s| then Flips(s) as real / (|s| - 1) as real else 0.0
  }

  /** A history without flips is all the one outcome. */
  lemma {:induction false} FlipsSeparate(s: seq<bool>)
    requires s != []
    ensures Flips(s) <= |s| - 1
    ensures Flips(s) == 0 <==> Failures(s) == if s[|s| - 1] then |s| else 0
    ensures Failures(s) <= |s|
    ensures s[|s| - 1] ==> Failures(s) > 0
    ensures !s[|s| - 1] ==> Failures(s) < |s|
  {
    if |s| >= 2 {
      FlipsSeparate(s[..|s| - 1]);
    }
  }

  /** The flip score is in [0, 1], and 0 exactly for one-sided histories. */
  lemma FlakyIsAFraction(s: seq<bool>)
    ensures 0.0 <= FlipScore(s) <= 1.0
    ensures FlipScore(s) == 0.0 <==> (Failures(s) == 0 || Failures(s) == |s|)
  {
    if s != [] {
      FlipsSeparate(s);
      if |s| > 1 && 0 < Failures(s) < |s| {
        Fraction(Flips(s), |s| - 1);
      }
    }
  }

  lemma Fraction(n: nat, d: nat)
    requires 0 < n <= d
    ensures 0.0 < n as real / d as real <= 1.0
  {
    var x, y := n as real, d as real;
    assert x / y * y == x;
    Scaled(0.0, x / y, y);
    Scaled(1.0, x / y, y);
  }

  // ---------------------------------------------------------------- the loops

  /** Weighs the runs newest first; each step back decays once. */
  method Accumulate(s: seq<bool>) returns (failed: real, total: real)
    ensures failed == FailedMass(s, 0) && total == Total(s, 0)
  {
    failed, total := 0.0, 0.0;
    var w, age := 1.0, 0;
    assert s[..|s|] == s;
    while age < |s|
      invariant 0 <= age <= |s| && w == Weight(age)
      invariant failed + FailedMass(s[..|s| - age], age) == FailedMass(s, 0)
      invariant total + Total(s[..|s| - age], age) == Total(s, 0)
    {
      var i := |s| - 1 - age;
      assert s[..|s| - age][..i] == s[..i];
      total := total + w;
      if s[i] {
        failed := failed + w;
      }
      w := DECAY * w;
      age := age + 1;
    }
  }

  method CountFlips(s: seq<bool>) returns (flips: nat, failures: nat)
    ensures flips == Flips(s) && failures == Failures(s)
  {
    flips, failures := 0, 0;
    var i := 0;
    while i < |s|
      invariant 0 <= i <= |s|
      invariant flips == Flips(s[..i]) && failures == Failures(s[..i])
    {
      assert s[..i + 1][..i] == s[..i];
      if i > 0 && s[i - 1] != s[i] {
        flips := flips + 1;
      }
      if s[i] {
        failures := failures + 1;
      }
      i := i + 1;
    }
    assert s[..|s|] == s;
  }

  method PredictOutcomes(history: seq<Outcome>) returns (pFail: real, pFlaky: real, n: nat)
    ensures pFail == PFail(history) && 2.0 / 29.0 < pFail < 27.0 / 29.0
    ensures n == |Recent(history)| <= WINDOW
    ensures pFlaky == FlipScore(Recent(history)) && 0.0 <= pFlaky <= 1.0
  {
    var s := Recent(history);
    n := |s|;
    var failed, total := Accumulate(s);
    FailedWithin(s, 0);
    NeverCertain(history);
    pFail := (failed + ALPHA) / (total + ALPHA + BETA);
    var flips, failures := CountFlips(s);
    FlakyIsAFraction(s);
    pFlaky := if n > 1 && 0 < failures < n then flips as real / (n - 1) as real else 0.0;
  }
}
