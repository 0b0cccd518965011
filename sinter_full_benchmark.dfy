/**
 * The production benchmark's task list: for every distance and error rate, a
 * standard-noise task followed by its drift-plus-burst twin, both over the
 * same number of rounds.
 */
module FullBenchmark {
  import opened NoiseModels
  import opened Tasks

  /** The rounds of every task of distance d: 20·d, clamped to [100, 200]. */
  function FullRounds(d: nat): (r: nat)
    ensures 100 <= r <= 200
    ensures d <= 5 ==> r == 100
    ensures d >= 10 ==> r == 200
    ensures 5 <= d <= 10 ==> r == 20 * d
  {
    var capped := if 200 < d * 20 then 200 else d * 20;
    if 100 < capped then capped else 100
  }

  /** The two tasks of one (d, p): the standard task, then the stress task. */
  function FullPair(d: nat, p: real, drift: real, burst: real, g: Generators): seq<Task>
  {
    var rounds := FullRounds(d);
    [ Task(g.generate(StandardRequest(d, p, Some(rounds))),
           Metadata(d, p, StandardNoise, Some(rounds), None, None)),
      Task(StressCircuit(g.generate, g.schedule, d, p, drift, burst, Some(rounds)),
           Metadata(d, p, DriftAndBurstOf(drift, burst), Some(rounds), Some(drift), Some(burst))) ]
  }

  function PairsOf(d: nat, drift: real, burst: real, g: Generators): real -> seq<Task>
  {
    p => FullPair(d, p, drift, burst, g)
  }

  function FullRow(ps: seq<real>, drift: real, burst: real, g: Generators): nat -> seq<Task>
  {
    (d: nat) => FlatMap(ps, PairsOf(d, drift, burst, g))
  }

  function FullTasks(ds: seq<nat>, ps: seq<real>, drift: real, burst: real, g: Generators): seq<Task>
  {
    FlatMap(ds, FullRow(ps, drift, burst, g))
  }

  /**
   * generate_full_tasks. The list depends on rounds_per_d not at all: the
   * specification it meets does not mention it.
   */
  method GenerateFullTasks(g: Generators, distances: seq<nat>, errorRates: seq<real>,
                           roundsPerD: int := 100, driftStrength: real := 0.3, burstProb: real := 0.05)
    returns (tasks: seq<Task>)
    ensures tasks == FullTasks(distances, errorRates, driftStrength, burstProb, g)
  {
    var row := FullRow(errorRates, driftStrength, burstProb, g);
    tasks := [];
    for i := 0 to |distances|
      invariant tasks == FlatMap(distances[..i], row)
    {
      var d := distances[i];
      ghost var done := tasks;
      var pairs := PairsOf(d, driftStrength, burstProb, g);
      var rounds := FullRounds(d);
      for j := 0 to |errorRates|
        invariant tasks == done + FlatMap(errorRates[..j], pairs)
      {
        var p := errorRates[j];
        var circuitStd := g.generate(CircuitRequest(RotatedMemoryZ, d, rounds, p, p, p, p));
        ghost var before := tasks;
        tasks := tasks + [Task(circuitStd, Metadata(d, p, StandardNoise, Some(rounds), None, None))];
        var circuitStress := GenerateStressCircuit(g.generate, g.schedule, d, p, driftStrength, burstProb, Some(rounds));
        tasks := tasks + [Task(circuitStress, Metadata(d, p, DriftAndBurstOf(driftStrength, burstProb), Some(rounds), Some(driftStrength), Some(burstProb)))];
        PairStep(done, before, errorRates, j, d, driftStrength, burstProb, g);
      }
      assert errorRates[..|errorRates|] == errorRates;
      assert row(d) == FlatMap(errorRates, pairs);
      FlatMapSnoc(distances, row, i);
    }
    assert distances[..|distances|] == distances;
  }

  /** The inner loop body appends the pair of (d, ps[j]), extending the list by one step of the specification. */
  lemma PairStep(done: seq<Task>, before: seq<Task>, ps: seq<real>, j: nat, d: nat, drift: real, burst: real, g: Generators)
    requires j < |ps| && before == done + FlatMap(ps[..j], PairsOf(d, drift, burst, g))
    ensures var p, rounds := ps[j], FullRounds(d);
      before + [Task(g.generate(CircuitRequest(RotatedMemoryZ, d, rounds, p, p, p, p)),
                     Metadata(d, p, StandardNoise, Some(rounds), None, None))]
             + [Task(StressCircuit(g.generate, g.schedule, d, p, drift, burst, Some(rounds)),
                     Metadata(d, p, DriftAndBurstOf(drift, burst), Some(rounds), Some(drift), Some(burst)))]
      == done + FlatMap(ps[..j + 1], PairsOf(d, drift, burst, g))
  {
    var pairs := PairsOf(d, drift, burst, g);
    FlatMapSnoc(ps, pairs, j);
    var p, rounds := ps[j], FullRounds(d);
    var std := Task(g.generate(CircuitRequest(RotatedMemoryZ, d, rounds, p, p, p, p)),
                    Metadata(d, p, StandardNoise, Some(rounds), None, None));
    var stress := Task(StressCircuit(g.generate, g.schedule, d, p, drift, burst, Some(rounds)),
                       Metadata(d, p, DriftAndBurstOf(drift, burst), Some(rounds), Some(drift), Some(burst)));
    assert pairs(p) == [std, stress];
    assert before + [std] + [stress] == done + (FlatMap(ps[..j], pairs) + [std, stress]);
  }

  // ---------------------------------------------------------------------------
  // Shape of the list

  lemma RowLength(ps: seq<real>, d: nat, drift: real, burst: real, g: Generators)
    ensures |FullRow(ps, drift, burst, g)(d)| == 2 * |ps|
  {
    var pairs := PairsOf(d, drift, burst, g);
    assert forall p :: |pairs(p)| == 2;
    FlatMapLength(ps, pairs, 2);
  }

  lemma CountArithmetic(n: nat, m: nat)
    ensures n * (2 * m) == 2 * n * m
  {
  }

  /** Exactly two tasks per (d, p): 2·|distances|·|error_rates| in all. */
  lemma FullCount(ds: seq<nat>, ps: seq<real>, drift: real, burst: real, g: Generators)
    ensures |FullTasks(ds, ps, drift, burst, g)| == 2 * |ds| * |ps|
  {
    var row := FullRow(ps, drift, burst, g);
    forall d | d in ds
      ensures |row(d)| == 2 * |ps|
    {
      RowLength(ps, d, drift, burst, g);
    }
    FlatMapLength(ds, row, 2 * |ps|);
    CountArithmetic(|ds|, |ps|);
  }

  /**
   * Task 2·(i·|error_rates| + j) + b is task b of the pair of the i-th
   * distance and j-th error rate: distance outer, error rate inner, and the
   * standard task (b = 0) before the stress task (b = 1).
   */
  lemma FullAt(ds: seq<nat>, ps: seq<real>, drift: real, burst: real, g: Generators, i: nat, j: nat, b: nat)
    requires i < |ds| && j < |ps| && b < 2
    ensures 2 * (i * |ps| + j) + b < |FullTasks(ds, ps, drift, burst, g)|
    ensures FullTasks(ds, ps, drift, burst, g)[2 * (i * |ps| + j) + b] == FullPair(ds[i], ps[j], drift, burst, g)[b]
  {
    var row := FullRow(ps, drift, burst, g);
    forall d | d in ds
      ensures |row(d)| == 2 * |ps|
    {
      RowLength(ps, d, drift, burst, g);
    }
    var pairs := PairsOf(ds[i], drift, burst, g);
    FlatMapAt(ps, pairs, 2, j, b);
    assert row(ds[i]) == FlatMap(ps, pairs);
    FlatMapAt(ds, row, 2 * |ps|, i, j * 2 + b);
    PairIndex(i, j, b, |ps|);
  }

  lemma PairIndex(i: nat, j: nat, b: nat, n: nat)
    ensures i * (2 * n) + (j * 2 + b) == 2 * (i * n + j) + b
  {
  }

  /**
   * Position k, for even k, holds a standard task (label "Standard", no drift
   * or burst field, 100 to 200 rounds) and position k + 1 its stress twin with
   * the same d, p and rounds, labelled with the drift and burst it carries.
   */
  ghost predicate PairAt(s: seq<Task>, k: nat, drift: real, burst: real)
  {
    && k + 1 < |s|
    && var std := s[k].metadata;
    && std.stress == StandardNoise && std.driftStrength.None? && std.burstProb.None?
    && std.rounds.Some? && 100 <= std.rounds.value <= 200
    && s[k + 1].metadata == Metadata(std.d, std.p, DriftAndBurstOf(drift, burst), std.rounds, Some(drift), Some(burst))
  }

  ghost predicate Paired(s: seq<Task>, drift: real, burst: real)
  {
    && |s| % 2 == 0
    && forall k: nat :: k < |s| && k % 2 == 0 ==> PairAt(s, k, drift, burst)
  }

  lemma PairedAppend(a: seq<Task>, b: seq<Task>, drift: real, burst: real)
    requires Paired(a, drift, burst) && Paired(b, drift, burst)
    ensures Paired(a + b, drift, burst)
  {
    forall k: nat | k < |a + b| && k % 2 == 0
      ensures PairAt(a + b, k, drift, burst)
    {
      if k < |a| {
        assert PairAt(a, k, drift, burst);
        assert (a + b)[k] == a[k] && (a + b)[k + 1] == a[k + 1];
      } else {
        var m: nat := k - |a|;
        assert PairAt(b, m, drift, burst);
        assert (a + b)[k] == b[m] && (a + b)[k + 1] == b[m + 1];
      }
    }
  }

  lemma {:induction false} PairedFlatMap<A>(xs: seq<A>, f: A -> seq<Task>, drift: real, burst: real)
    requires forall x :: x in xs ==> Paired(f(x), drift, burst)
    ensures Paired(FlatMap(xs, f), drift, burst)
  {
    if xs != [] {
      var n := |xs| - 1;
      assert forall x :: x in xs[..n] ==> x in xs;
      PairedFlatMap(xs[..n], f, drift, burst);
      PairedAppend(FlatMap(xs[..n], f), f(xs[n]), drift, burst);
    }
  }

  /**
   * The list splits into pairs that main counts as halves: every even
   * position starts a (standard, stress) pair sharing d, p and rounds, with
   * rounds between 100 and 200.
   */
  lemma FullTasksPaired(ds: seq<nat>, ps: seq<real>, drift: real, burst: real, g: Generators)
    ensures Paired(FullTasks(ds, ps, drift, burst, g), drift, burst)
  {
    forall d: nat
      ensures Paired(FullRow(ps, drift, burst, g)(d), drift, burst)
    {
      forall p: real
        ensures Paired(PairsOf(d, drift, burst, g)(p), drift, burst)
      {
        assert PairAt(FullPair(d, p, drift, burst, g), 0, drift, burst);
      }
      PairedFlatMap(ps, PairsOf(d, drift, burst, g), drift, burst);
    }
    PairedFlatMap(ds, FullRow(ps, drift, burst, g), drift, burst);
  }
}
