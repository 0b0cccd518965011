/**
 * The benchmark task generators: loops that pair each circuit with the
 * metadata record that labels its results. A task's detector error model is
 * derived from its circuit by the simulator and is not part of this model.
 */
module Tasks {
  import opened NoiseModels

  /** The "stress" label of a task's metadata, one alternative per label form. */
  datatype Stress =
    | NoStress                                  // "None"
    | DriftPlusBurst                            // "Drift+Burst"
    | DriftOf(drift: real)                      // "Drift={drift}"
    | StandardNoise                             // "Standard"
    | DriftAndBurstOf(drift: real, burst: real) // "Drift={drift}+Burst={burst}"

  /** The metadata record; a field that is None is absent from the record. */
  datatype Metadata = Metadata(d: nat, p: real, stress: Stress, rounds: Option<nat>,
                               driftStrength: Option<real>, burstProb: Option<real>)

  datatype Task = Task(circuit: seq<Instruction>, metadata: Metadata)

  /** The external circuit generator and the drift schedule the circuits are built with. */
  datatype Generators = Generators(generate: CircuitRequest -> seq<Instruction>, schedule: (Drift, nat) -> real)

  function OrDefault<T>(o: Option<T>, fallback: T): T
  {
    match o
    case None => fallback
    case Some(v) => v
  }

  /** The concatenation of f(x) over xs, in order. */
  function FlatMap<A, B>(xs: seq<A>, f: A -> seq<B>): seq<B>
  {
    if xs == [] then [] else FlatMap(xs[..|xs| - 1], f) + f(xs[|xs| - 1])
  }

  lemma {:induction false} FlatMapLength<A, B>(xs: seq<A>, f: A -> seq<B>, k: nat)
    requires forall x :: x in xs ==> |f(x)| == k
    ensures |FlatMap(xs, f)| == |xs| * k
  {
    if xs != [] {
      var n := |xs| - 1;
      var init := xs[..n];
      assert forall x :: x in init ==> x in xs;
      FlatMapLength(init, f, k);
      assert xs[n] in xs;
      assert |FlatMap(xs, f)| == |FlatMap(init, f)| + |f(xs[n])|;
      MulSucc(n, k);
    }
  }

  lemma FlatMapSnoc<A, B>(xs: seq<A>, f: A -> seq<B>, i: nat)
    requires i < |xs|
    ensures FlatMap(xs[..i + 1], f) == FlatMap(xs[..i], f) + f(xs[i])
  {
    assert xs[..i + 1][..i] == xs[..i];
  }

  lemma MulSucc(n: nat, k: nat)
    ensures (n + 1) * k == n * k + k
  {
  }

  lemma GridBound(i: nat, j: nat, n: nat, k: nat)
    requires i < n && j < k
    ensures i * k + j < n * k
  {
    assert (i + 1) * k == i * k + k;
    assert (i + 1) * k <= n * k;
  }

  /** With k items per element, item j of element i sits at position i·k + j. */
  lemma {:induction false} FlatMapAt<A, B>(xs: seq<A>, f: A -> seq<B>, k: nat, i: nat, j: nat)
    requires forall x :: x in xs ==> |f(x)| == k
    requires i < |xs| && j < k
    ensures i * k + j < |FlatMap(xs, f)|
    ensures FlatMap(xs, f)[i * k + j] == f(xs[i])[j]
  {
    var n := |xs| - 1;
    var init := FlatMap(xs[..n], f);
    assert FlatMap(xs, f) == init + f(xs[n]);
    assert forall x :: x in xs[..n] ==> x in xs;
    FlatMapLength(xs[..n], f, k);
    FlatMapLength(xs, f, k);
    if i < n {
      FlatMapAt(xs[..n], f, k, i, j);
      GridBound(i, j, n, k);
      assert xs[..n][i] == xs[i];
    } else {
      assert i * k + j == |init| + j;
    }
  }

  // ---------------------------------------------------------------------------
  // generate_standard_tasks

  const DefaultDistances: seq<nat> := [3, 5, 7]
  const DefaultErrorRates: seq<real> := [0.001, 0.003, 0.005]

  function StandardTask(d: nat, p: real, g: Generators): Task
  {
    Task(GenerateStandardCircuit(d, p, None, g.generate), Metadata(d, p, NoStress, None, None, None))
  }

  /** The tasks of one distance, one per error rate. */
  function StandardRow(ps: seq<real>, g: Generators): nat -> seq<Task>
  {
    (d: nat) => seq(|ps|, j requires 0 <= j < |ps| => StandardTask(d, ps[j], g))
  }

  function StandardTasks(distances: Option<seq<nat>>, errorRates: Option<seq<real>>, g: Generators): seq<Task>
  {
    FlatMap(OrDefault(distances, DefaultDistances), StandardRow(OrDefault(errorRates, DefaultErrorRates), g))
  }

  /** generate_standard_tasks: distance in the outer loop, error rate in the inner one. */
  method GenerateStandardTasks(distances: Option<seq<nat>>, errorRates: Option<seq<real>>, g: Generators) returns (tasks: seq<Task>)
    ensures tasks == StandardTasks(distances, errorRates, g)
  {
    var ds := OrDefault(distances, DefaultDistances);
    var ps := OrDefault(errorRates, DefaultErrorRates);
    var row := StandardRow(ps, g);
    tasks := [];
    for i := 0 to |ds|
      invariant tasks == FlatMap(ds[..i], row)
    {
      var d := ds[i];
      assert ds[..i + 1][..i] == ds[..i];
      for j := 0 to |ps|
        invariant tasks == FlatMap(ds[..i], row) + row(d)[..j]
      {
        var p := ps[j];
        var circuit := GenerateStandardCircuit(d, p, None, g.generate);
        tasks := tasks + [Task(circuit, Metadata(d, p, NoStress, None, None, None))];
        assert row(d)[..j + 1] == row(d)[..j] + [StandardTask(d, p, g)];
      }
      assert row(d)[..|ps|] == row(d);
    }
    assert ds[..|ds|] == ds;
  }

  /**
   * The task for the i-th distance and j-th error rate sits at position
   * i·|error_rates| + j (distance in the outer loop), labelled "None" with no
   * other field.
   */
  lemma StandardAt(ds: seq<nat>, ps: seq<real>, g: Generators, i: nat, j: nat)
    requires i < |ds| && j < |ps|
    ensures i * |ps| + j < |StandardTasks(Some(ds), Some(ps), g)|
    ensures StandardTasks(Some(ds), Some(ps), g)[i * |ps| + j] ==
      Task(GenerateStandardCircuit(ds[i], ps[j], None, g.generate), Metadata(ds[i], ps[j], NoStress, None, None, None))
  {
    var row := StandardRow(ps, g);
    assert StandardTasks(Some(ds), Some(ps), g) == FlatMap(ds, row);
    FlatMapAt(ds, row, |ps|, i, j);
  }

  /** There are |distances|·|error_rates| standard tasks. */
  lemma StandardCount(ds: seq<nat>, ps: seq<real>, g: Generators)
    ensures |StandardTasks(Some(ds), Some(ps), g)| == |ds| * |ps|
  {
    FlatMapLength(ds, StandardRow(ps, g), |ps|);
  }

  /** The defaults give the nine tasks of d ∈ {3, 5, 7} × p ∈ {0.001, 0.003, 0.005}. */
  lemma DefaultStandardTasks(g: Generators)
    ensures |StandardTasks(None, None, g)| == 9
    ensures StandardTasks(None, None, g)[0].metadata == Metadata(3, 0.001, NoStress, None, None, None)
    ensures StandardTasks(None, None, g)[8].metadata == Metadata(7, 0.005, NoStress, None, None, None)
  {
    var row := StandardRow(DefaultErrorRates, g);
    FlatMapLength(DefaultDistances, row, 3);
    FlatMapAt(DefaultDistances, row, 3, 0, 0);
    FlatMapAt(DefaultDistances, row, 3, 2, 2);
  }

  // ---------------------------------------------------------------------------
  // generate_sweep_tasks

  const DefaultDriftStrengths: seq<real> := [0.0, 0.1, 0.2, 0.3, 0.4]

  /** One sweep task: the stress circuit at the default burst probability and rounds. */
  function SweepTask(d: nat, drift: real, baseP: real, g: Generators): Task
  {
    Task(StressCircuit(g.generate, g.schedule, d, baseP, driftStrength := drift),
         Metadata(d, baseP, DriftOf(drift), None, Some(drift), None))
  }

  function SweepTasks(d: nat, driftStrengths: Option<seq<real>>, baseP: real, g: Generators): seq<Task>
  {
    var drifts := OrDefault(driftStrengths, DefaultDriftStrengths);
    seq(|drifts|, i requires 0 <= i < |drifts| => SweepTask(d, drifts[i], baseP, g))
  }

  /** generate_sweep_tasks: one stress task per drift amplitude, in order. */
  method GenerateSweepTasks(d: nat, driftStrengths: Option<seq<real>>, g: Generators, baseP: real := 0.003) returns (tasks: seq<Task>)
    ensures tasks == SweepTasks(d, driftStrengths, baseP, g)
  {
    var drifts := OrDefault(driftStrengths, DefaultDriftStrengths);
    tasks := [];
    for i := 0 to |drifts|
      invariant tasks == seq(i, k requires 0 <= k < i => SweepTask(d, drifts[k], baseP, g))
    {
      var drift := drifts[i];
      var circuit := GenerateStressCircuit(g.generate, g.schedule, d, baseP, driftStrength := drift);
      tasks := tasks + [Task(circuit, Metadata(d, baseP, DriftOf(drift), None, Some(drift), None))];
    }
  }

  /**
   * Each sweep task records its own amplitude and no burst field, and its
   * circuit is the bare surgery of the noiseless 3·d-round circuit, whatever
   * the generator.
   */
  lemma SweepMetadata(d: nat, drifts: seq<real>, baseP: real, g: Generators)
    ensures |SweepTasks(d, Some(drifts), baseP, g)| == |drifts|
    ensures forall i :: 0 <= i < |drifts| ==>
      var t := SweepTasks(d, Some(drifts), baseP, g)[i];
      && t.metadata == Metadata(d, baseP, DriftOf(drifts[i]), None, Some(drifts[i]), None)
      && t.circuit == Surgery(g.generate(NoiselessRequest(d, 3 * d)), ProbabilityAt(g.schedule, Drift(baseP, drifts[i], 3 * d)))
  {
  }

  /** Sweep circuits hold no correlated error when the generated circuit holds none. */
  lemma SweepHasNoBurst(d: nat, drifts: seq<real>, baseP: real, g: Generators)
    requires forall k :: 0 <= k < |g.generate(NoiselessRequest(d, 3 * d))| ==>
      g.generate(NoiselessRequest(d, 3 * d))[k].op != CorrelatedError
    ensures forall i :: 0 <= i < |SweepTasks(d, Some(drifts), baseP, g)| ==>
      var t := SweepTasks(d, Some(drifts), baseP, g)[i];
      forall k :: 0 <= k < |t.circuit| ==> t.circuit[k].op != CorrelatedError
  {
    SweepMetadata(d, drifts, baseP, g);
    var base := g.generate(NoiselessRequest(d, 3 * d));
    forall i | 0 <= i < |drifts|
      ensures var c := Surgery(base, ProbabilityAt(g.schedule, Drift(baseP, drifts[i], 3 * d)));
        forall k :: 0 <= k < |c| ==> c[k].op != CorrelatedError
    {
      SurgeryAddsNoBurst(base, ProbabilityAt(g.schedule, Drift(baseP, drifts[i], 3 * d)));
    }
  }

  /** The default sweep has the five amplitudes 0.0 to 0.4. */
  lemma DefaultSweepTasks(d: nat, baseP: real, g: Generators)
    ensures |SweepTasks(d, None, baseP, g)| == 5
    ensures forall i :: 0 <= i < 5 ==> SweepTasks(d, None, baseP, g)[i].metadata.driftStrength == Some(DefaultDriftStrengths[i])
  {
  }

  // ---------------------------------------------------------------------------
  // generate_undeniable_tasks

  const DefaultUndeniableDistances: seq<nat> := [5, 7, 9]

  function UndeniableTask(d: nat, baseP: real, drift: real, burst: real, g: Generators): Task
  {
    Task(StressCircuit(g.generate, g.schedule, d, baseP, driftStrength := drift, burstProb := burst),
         Metadata(d, baseP, DriftPlusBurst, None, Some(drift), Some(burst)))
  }

  function UndeniableTasks(distances: Option<seq<nat>>, baseP: real, drift: real, burst: real, g: Generators): seq<Task>
  {
    var ds := OrDefault(distances, DefaultUndeniableDistances);
    seq(|ds|, i requires 0 <= i < |ds| => UndeniableTask(ds[i], baseP, drift, burst, g))
  }

  /** generate_undeniable_tasks: one drift-plus-burst stress task per distance, in order. */
  method GenerateUndeniableTasks(distances: Option<seq<nat>>, g: Generators,
                                 baseP: real := 0.003, driftStrength: real := 0.3, burstProb: real := 0.05)
    returns (tasks: seq<Task>)
    ensures tasks == UndeniableTasks(distances, baseP, driftStrength, burstProb, g)
  {
    var ds := OrDefault(distances, DefaultUndeniableDistances);
    tasks := [];
    for i := 0 to |ds|
      invariant tasks == seq(i, k requires 0 <= k < i => UndeniableTask(ds[k], baseP, driftStrength, burstProb, g))
    {
      var d := ds[i];
      var circuit := GenerateStressCircuit(g.generate, g.schedule, d, baseP, driftStrength := driftStrength, burstProb := burstProb);
      tasks := tasks + [Task(circuit, Metadata(d, baseP, DriftPlusBurst, None, Some(driftStrength), Some(burstProb)))];
    }
  }

  /**
   * One task per distance, labelled "Drift+Burst" with p = base_p and the
   * given drift and burst; with a positive burst probability every circuit
   * opens with the burst on the middle qubits of its own distance.
   */
  lemma UndeniableShape(ds: seq<nat>, baseP: real, drift: real, burst: real, g: Generators)
    ensures |UndeniableTasks(Some(ds), baseP, drift, burst, g)| == |ds|
    ensures forall i :: 0 <= i < |ds| ==>
      var t := UndeniableTasks(Some(ds), baseP, drift, burst, g)[i];
      && t.metadata == Metadata(ds[i], baseP, DriftPlusBurst, None, Some(drift), Some(burst))
      && (burst > 0.0 ==> |t.circuit| > 0 && t.circuit[0] == Burst(ds[i], burst))
  {
  }

  /** The defaults give the three distances 5, 7 and 9. */
  lemma DefaultUndeniableTasks(baseP: real, drift: real, burst: real, g: Generators)
    ensures |UndeniableTasks(None, baseP, drift, burst, g)| == 3
    ensures forall i :: 0 <= i < 3 ==> UndeniableTasks(None, baseP, drift, burst, g)[i].metadata.d == 5 + 2 * i
  {
  }
}
