/**
 * The noise synthesizer: circuit surgery that injects time-varying noise
 * after every gate of a noiseless, flattened surface-code circuit, and an
 * optional correlated burst before the first round.
 *
 * The circuit generator is external (a function from a request to the
 * flattened instruction list), and so is the sinusoidal drift: the
 * probability used at a round is an uninterpreted function of the round.
 */
module NoiseModels {

  datatype Option<T> = None | Some(value: T)

  datatype GateTarget = QubitTarget(q: nat) | ZTarget(q: nat) | RecordTarget(lookback: nat)

  /**
   * Instruction names: the ones the surgery tells apart (TICK, the reset and
   * measurement class R/M/MR, the two-qubit class CX/CZ, the one-qubit class
   * H/S/X/Z/Y, the noise channels it emits), and every other name.
   */
  datatype Op = Tick | R | M | MR | CX | CZ | H | S | X | Z | Y
              | XError | Depolarize1 | Depolarize2 | CorrelatedError | Other(name: OtherName)

  /** The names that have their own alternative of Op (with E, stim's short name for CORRELATED_ERROR). */
  const Reserved: set<string> := {"TICK", "R", "M", "MR", "CX", "CZ", "H", "S", "X", "Z", "Y",
                                   "X_ERROR", "DEPOLARIZE1", "DEPOLARIZE2", "CORRELATED_ERROR", "E"}

  /** Any other instruction name: an Other can never stand for a TICK or a gate the surgery rewrites. */
  type OtherName = s: string | !IsReserved(s) witness "DETECTOR"

  predicate IsReserved(s: string)
  {
    s in Reserved
  }

  /** One flat circuit instruction: a name, its targets and its parenthesised arguments. */
  datatype Instruction = Instruction(op: Op, targets: seq<GateTarget>, args: seq<real>)

  /** What a circuit is generated from: the code task, its size and its four noise channels. */
  datatype CircuitRequest = CircuitRequest(
    code: string, distance: nat, rounds: nat,
    afterCliffordDepolarization: real, beforeRoundDataDepolarization: real,
    beforeMeasureFlipProbability: real, afterResetFlipProbability: real)

  const RotatedMemoryZ := "surface_code:rotated_memory_z"

  /** The number of rounds a circuit generator uses: the given one, 3·d when omitted. */
  function Rounds(d: nat, rounds: Option<nat>): (r: nat)
    ensures rounds.None? ==> r == 3 * d
    ensures rounds.Some? ==> r == rounds.value
  {
    match rounds
    case None => d * 3
    case Some(n) => n
  }

  /** generate_standard_circuit's request: uniform noise p on all four channels. */
  function StandardRequest(d: nat, p: real, rounds: Option<nat>): (r: CircuitRequest)
    ensures r.code == RotatedMemoryZ && r.distance == d && r.rounds == Rounds(d, rounds)
    ensures r.afterCliffordDepolarization == r.beforeRoundDataDepolarization == p
    ensures r.beforeMeasureFlipProbability == r.afterResetFlipProbability == p
  {
    CircuitRequest(RotatedMemoryZ, d, Rounds(d, rounds), p, p, p, p)
  }

  /** generate_stress_circuit's base request: the same code, distance and rounds, without noise. */
  function NoiselessRequest(d: nat, rounds: nat): (r: CircuitRequest)
    ensures r.code == RotatedMemoryZ && r.distance == d && r.rounds == rounds
    ensures r.afterCliffordDepolarization == r.beforeRoundDataDepolarization == 0.0
    ensures r.beforeMeasureFlipProbability == r.afterResetFlipProbability == 0.0
  {
    CircuitRequest(RotatedMemoryZ, d, rounds, 0.0, 0.0, 0.0, 0.0)
  }

  /** The noise channel injected after an instruction, by instruction class. */
  function NoiseFor(op: Op): Option<Op>
  {
    match op
    case R | M | MR => Some(XError)
    case CX | CZ => Some(Depolarize2)
    case H | S | X | Z | Y => Some(Depolarize1)
    case _ => None
  }

  predicate IsNoise(instr: Instruction)
  {
    instr.op.XError? || instr.op.Depolarize1? || instr.op.Depolarize2?
  }

  /** A circuit without noise-channel instructions, as a noiseless generated circuit is. */
  predicate NoiseFree(c: seq<Instruction>)
  {
    forall k :: 0 <= k < |c| ==> !IsNoise(c[k])
  }

  function Ticks(c: seq<Instruction>): nat
  {
    if c == [] then 0 else Ticks(c[..|c| - 1]) + if c[|c| - 1].op == Tick then 1 else 0
  }

  /** What one input instruction becomes when the round counter is `round`. */
  function Rewrite(instr: Instruction, round: nat, pNow: nat -> real): seq<Instruction>
  {
    if instr.op == Tick then [Instruction(Tick, [], [])]
    else match NoiseFor(instr.op)
      case Some(noise) => [Instruction(instr.op, instr.targets, []), Instruction(noise, instr.targets, [pNow(round)])]
      case None => [instr]
  }

  /** The rewritten circuit: each instruction sees the number of TICKs before it as its round. */
  function Surgery(c: seq<Instruction>, pNow: nat -> real): seq<Instruction>
  {
    if c == [] then []
    else
      var n := |c| - 1;
      Surgery(c[..n], pNow) + Rewrite(c[n], Ticks(c[..n]), pNow)
  }

  /** The burst: one correlated Z error on the d qubits from d²/2 on. */
  function Burst(d: nat, burstProb: real): Instruction
  {
    Instruction(CorrelatedError, seq(d, k requires 0 <= k < d => ZTarget(d * d / 2 + k)), [burstProb])
  }

  function BurstPrefix(d: nat, burstProb: real): seq<Instruction>
  {
    if burstProb > 0.0 then [Burst(d, burstProb)] else []
  }

  // ---------------------------------------------------------------------------
  // The surgery, as the source performs it

  /**
   * The instruction loop and burst injection of generate_stress_circuit, over
   * the flattened base circuit, with `pNow(r)` the drifted probability at round r.
   */
  method InjectNoise(circuit: seq<Instruction>, d: nat, burstProb: real, pNow: nat -> real) returns (out: seq<Instruction>)
    ensures out == BurstPrefix(d, burstProb) + Surgery(circuit, pNow)
  {
    var newCircuit: seq<Instruction> := [];
    var currentRound: nat := 0;
    for i := 0 to |circuit|
      invariant newCircuit == Surgery(circuit[..i], pNow)
      invariant currentRound == Ticks(circuit[..i])
    {
      SurgeryStep(circuit, i, pNow);
      var instruction := circuit[i];
      if instruction.op == Tick {
        currentRound := currentRound + 1;
        newCircuit := newCircuit + [Instruction(Tick, [], [])];
      } else {
        var p := pNow(currentRound);
        var targets := instruction.targets;
        if instruction.op in {R, M, MR} {
          newCircuit := newCircuit + [Instruction(instruction.op, targets, [])];
          newCircuit := newCircuit + [Instruction(XError, targets, [p])];
        } else if instruction.op in {CX, CZ, H, S, X, Z, Y} {
          newCircuit := newCircuit + [Instruction(instruction.op, targets, [])];
          if instruction.op in {CX, CZ} {
            newCircuit := newCircuit + [Instruction(Depolarize2, targets, [p])];
          } else {
            newCircuit := newCircuit + [Instruction(Depolarize1, targets, [p])];
          }
        } else {
          newCircuit := newCircuit + [instruction];
        }
      }
    }
    assert circuit[..|circuit|] == circuit;
    if burstProb > 0.0 {
      newCircuit := [Burst(d, burstProb)] + newCircuit;
    }
    out := newCircuit;
  }

  /** One iteration of the surgery loop: the prefix grows by what instruction i becomes at its TICK count. */
  lemma SurgeryStep(c: seq<Instruction>, i: nat, pNow: nat -> real)
    requires i < |c|
    ensures Surgery(c[..i + 1], pNow) == Surgery(c[..i], pNow) + Rewrite(c[i], Ticks(c[..i]), pNow)
    ensures Ticks(c[..i + 1]) == Ticks(c[..i]) + if c[i].op == Tick then 1 else 0
  {
    assert c[..i + 1][..i] == c[..i];
  }

  /** The drift parameters the probability schedule depends on besides the round. */
  datatype Drift = Drift(baseP: real, strength: real, rounds: nat)

  /** The probability at each round, under a schedule and its drift parameters. */
  function ProbabilityAt(schedule: (Drift, nat) -> real, drift: Drift): nat -> real
  {
    (n: nat) => schedule(drift, n)
  }

  /**
   * The circuit generate_stress_circuit returns: the noiseless circuit of the
   * rounds actually used (3·d when omitted), rewritten with the probability
   * schedule(drift, r) at round r, behind the burst when burstProb > 0. The
   * defaults are those of the source: drift 0.2, no burst, 3·d rounds.
   */
  function StressCircuit(generate: CircuitRequest -> seq<Instruction>, schedule: (Drift, nat) -> real,
                         d: nat, baseP: real, driftStrength: real := 0.2, burstProb: real := 0.0,
                         rounds: Option<nat> := None): seq<Instruction>
  {
    var r := Rounds(d, rounds);
    BurstPrefix(d, burstProb) + Surgery(generate(NoiselessRequest(d, r)), ProbabilityAt(schedule, Drift(baseP, driftStrength, r)))
  }

  /** generate_stress_circuit: request the noiseless circuit, then inject the noise. */
  method GenerateStressCircuit(generate: CircuitRequest -> seq<Instruction>, schedule: (Drift, nat) -> real,
                               d: nat, baseP: real, driftStrength: real := 0.2, burstProb: real := 0.0,
                               rounds: Option<nat> := None)
    returns (out: seq<Instruction>)
    ensures out == StressCircuit(generate, schedule, d, baseP, driftStrength, burstProb, rounds)
    ensures burstProb > 0.0 ==> |out| > 0 && out[0] == Burst(d, burstProb)
  {
    var r := Rounds(d, rounds);
    var circuit := generate(NoiselessRequest(d, r));
    out := InjectNoise(circuit, d, burstProb, ProbabilityAt(schedule, Drift(baseP, driftStrength, r)));
  }

  /**
   * With every default taken, the stress circuit is the drift-0.2 surgery of
   * the noiseless 3·d-round circuit, with no burst in front.
   */
  lemma StressDefaults(generate: CircuitRequest -> seq<Instruction>, schedule: (Drift, nat) -> real, d: nat, baseP: real)
    ensures StressCircuit(generate, schedule, d, baseP)
         == Surgery(generate(NoiselessRequest(d, 3 * d)), ProbabilityAt(schedule, Drift(baseP, 0.2, 3 * d)))
  {
  }

  /** generate_standard_circuit: the generator's circuit for uniform noise p. */
  function GenerateStandardCircuit(d: nat, p: real, rounds: Option<nat>, generate: CircuitRequest -> seq<Instruction>): (c: seq<Instruction>)
    ensures c == generate(CircuitRequest(RotatedMemoryZ, d, if rounds.None? then 3 * d else rounds.value, p, p, p, p))
  {
    generate(StandardRequest(d, p, rounds))
  }

  // ---------------------------------------------------------------------------
  // Properties of the surgery

  lemma {:induction false} TicksAppend(a: seq<Instruction>, b: seq<Instruction>)
    ensures Ticks(a + b) == Ticks(a) + Ticks(b)
    decreases |b|
  {
    if b == [] {
      assert a + b == a;
    } else {
      var n := |b| - 1;
      assert (a + b)[..|a + b| - 1] == a + b[..n];
      assert (a + b)[|a + b| - 1] == b[n];
      TicksAppend(a, b[..n]);
    }
  }

  /** What one instruction becomes holds a TICK exactly when it was one. */
  lemma TicksOfRewrite(instr: Instruction, round: nat, pNow: nat -> real)
    ensures Ticks(Rewrite(instr, round, pNow)) == if instr.op == Tick then 1 else 0
  {
    var rewritten := Rewrite(instr, round, pNow);
    var first := [rewritten[0]];
    assert first[..0] == [];
    assert Ticks(first) == if rewritten[0].op == Tick then 1 else 0;
    if |rewritten| == 2 {
      assert rewritten[..1] == first;
    } else {
      assert rewritten == first;
    }
  }

  /** Every TICK is re-emitted and nothing else is a TICK: the output has as many rounds as the input. */
  lemma {:induction false} TicksPreserved(c: seq<Instruction>, pNow: nat -> real)
    ensures Ticks(Surgery(c, pNow)) == Ticks(c)
  {
    if c != [] {
      var n := |c| - 1;
      TicksPreserved(c[..n], pNow);
      TicksAppend(Surgery(c[..n], pNow), Rewrite(c[n], Ticks(c[..n]), pNow));
      TicksOfRewrite(c[n], Ticks(c[..n]), pNow);
    }
  }

  /**
   * Every gate of a noisy class is immediately followed by its class's noise
   * channel on identical targets, with the probability of the round it is in
   * (the number of TICKs before it in the output).
   */
  lemma NoiseFollowsGate(c: seq<Instruction>, pNow: nat -> real)
    ensures var out := Surgery(c, pNow);
      forall j :: 0 <= j < |out| && NoiseFor(out[j].op).Some? ==>
        j + 1 < |out| && out[j + 1] == Instruction(NoiseFor(out[j].op).value, out[j].targets, [pNow(Ticks(out[..j]))])
  {
    forall j | 0 <= j < |Surgery(c, pNow)| && NoiseFor(Surgery(c, pNow)[j].op).Some?
      ensures var out := Surgery(c, pNow);
        j + 1 < |out| && out[j + 1] == Instruction(NoiseFor(out[j].op).value, out[j].targets, [pNow(Ticks(out[..j]))])
    {
      NoiseFollowsGateAt(c, pNow, j);
    }
  }

  /** Within what one instruction becomes, a noisy-class gate comes first and its noise second. */
  lemma RewriteFollows(instr: Instruction, round: nat, pNow: nat -> real)
    ensures var rewritten := Rewrite(instr, round, pNow);
      && 1 <= |rewritten| <= 2
      && (NoiseFor(rewritten[0].op).Some? ==>
            |rewritten| == 2 && rewritten[1] == Instruction(NoiseFor(rewritten[0].op).value, rewritten[0].targets, [pNow(round)]))
      && (|rewritten| == 2 ==> NoiseFor(rewritten[1].op).None?)
  {
  }

  lemma {:induction false} NoiseFollowsGateAt(c: seq<Instruction>, pNow: nat -> real, j: nat)
    requires j < |Surgery(c, pNow)| && NoiseFor(Surgery(c, pNow)[j].op).Some?
    ensures var out := Surgery(c, pNow);
      j + 1 < |out| && out[j + 1] == Instruction(NoiseFor(out[j].op).value, out[j].targets, [pNow(Ticks(out[..j]))])
  {
    var n := |c| - 1;
    var before := Surgery(c[..n], pNow);
    var rewritten := Rewrite(c[n], Ticks(c[..n]), pNow);
    var out := Surgery(c, pNow);
    assert out == before + rewritten;
    RewriteFollows(c[n], Ticks(c[..n]), pNow);
    if j < |before| {
      assert before[j] == out[j];
      NoiseFollowsGateAt(c[..n], pNow, j);
      assert out[j + 1] == before[j + 1];
      assert out[..j] == before[..j];
    } else {
      assert out[j] == rewritten[j - |before|];
      assert j == |before|;
      assert out[..j] == before;
      TicksPreserved(c[..n], pNow);
      assert out[j + 1] == rewritten[1];
    }
  }

  /** The first instruction a noiseless instruction becomes is not noise, and a second one is its noise. */
  lemma RewriteShape(instr: Instruction, round: nat, pNow: nat -> real)
    requires !IsNoise(instr)
    ensures var rewritten := Rewrite(instr, round, pNow);
      && 1 <= |rewritten| <= 2 && !IsNoise(rewritten[0])
      && (|rewritten| == 2 ==> NoiseFor(rewritten[0].op) == Some(rewritten[1].op) && rewritten[0].targets == rewritten[1].targets)
  {
  }

  lemma {:induction false} NoiseAfterGateAt(c: seq<Instruction>, pNow: nat -> real, j: nat)
    requires NoiseFree(c)
    requires j < |Surgery(c, pNow)| && IsNoise(Surgery(c, pNow)[j])
    ensures var out := Surgery(c, pNow);
      0 < j && NoiseFor(out[j - 1].op) == Some(out[j].op) && out[j - 1].targets == out[j].targets
  {
    var n := |c| - 1;
    var before := Surgery(c[..n], pNow);
    var rewritten := Rewrite(c[n], Ticks(c[..n]), pNow);
    var out := Surgery(c, pNow);
    assert out == before + rewritten;
    RewriteShape(c[n], Ticks(c[..n]), pNow);
    if j < |before| {
      assert NoiseFree(c[..n]);
      assert before[j] == out[j];
      NoiseAfterGateAt(c[..n], pNow, j);
      assert before[j - 1] == out[j - 1];
    } else {
      assert out[j] == rewritten[j - |before|];
      assert j == |before| + 1;
      assert out[j - 1] == rewritten[0];
    }
  }

  /** In a noiseless input, every noise instruction of the output directly follows a gate of its class, on the same targets. */
  lemma NoiseOnlyAfterGate(c: seq<Instruction>, pNow: nat -> real)
    requires NoiseFree(c)
    ensures forall j {:trigger IsNoise(Surgery(c, pNow)[j])} :: 0 <= j < |Surgery(c, pNow)| && IsNoise(Surgery(c, pNow)[j]) ==>
      var out := Surgery(c, pNow);
      0 < j && NoiseFor(out[j - 1].op) == Some(out[j].op) && out[j - 1].targets == out[j].targets
  {
    forall j | 0 <= j < |Surgery(c, pNow)| && IsNoise(Surgery(c, pNow)[j])
      ensures var out := Surgery(c, pNow);
        0 < j && NoiseFor(out[j - 1].op) == Some(out[j].op) && out[j - 1].targets == out[j].targets
    {
      NoiseAfterGateAt(c, pNow, j);
    }
  }

  /** Removes the noise-channel instructions. */
  function EraseNoise(c: seq<Instruction>): seq<Instruction>
  {
    if c == [] then []
    else EraseNoise(c[..|c| - 1]) + if IsNoise(c[|c| - 1]) then [] else [c[|c| - 1]]
  }

  /** An instruction as the surgery re-emits it: TICKs and noisy-class gates lose their arguments. */
  function Reemitted(instr: Instruction): Instruction
  {
    if instr.op == Tick then Instruction(Tick, [], [])
    else if NoiseFor(instr.op).Some? then Instruction(instr.op, instr.targets, [])
    else instr
  }

  lemma {:induction false} EraseAppend(a: seq<Instruction>, b: seq<Instruction>)
    ensures EraseNoise(a + b) == EraseNoise(a) + EraseNoise(b)
    decreases |b|
  {
    if b == [] {
      assert a + b == a;
    } else {
      var n := |b| - 1;
      assert (a + b)[..|a + b| - 1] == a + b[..n];
      assert (a + b)[|a + b| - 1] == b[n];
      EraseAppend(a, b[..n]);
    }
  }

  lemma EraseOfRewrite(instr: Instruction, round: nat, pNow: nat -> real)
    requires !IsNoise(instr)
    ensures EraseNoise(Rewrite(instr, round, pNow)) == [Reemitted(instr)]
  {
    var rewritten := Rewrite(instr, round, pNow);
    RewriteShape(instr, round, pNow);
    var first := [rewritten[0]];
    assert first[..0] == [];
    assert EraseNoise(first) == first;
    if |rewritten| == 2 {
      assert rewritten[..1] == first;
    } else {
      assert rewritten == first;
    }
  }

  /**
   * Deleting the injected noise from the output of a noiseless input gives
   * back the input, instruction for instruction, up to the arguments that
   * re-emission drops.
   */
  lemma {:induction false} EraseRecovers(c: seq<Instruction>, pNow: nat -> real)
    requires NoiseFree(c)
    ensures EraseNoise(Surgery(c, pNow)) == seq(|c|, k requires 0 <= k < |c| => Reemitted(c[k]))
  {
    if c != [] {
      var n := |c| - 1;
      assert NoiseFree(c[..n]);
      EraseRecovers(c[..n], pNow);
      EraseAppend(Surgery(c[..n], pNow), Rewrite(c[n], Ticks(c[..n]), pNow));
      EraseOfRewrite(c[n], Ticks(c[..n]), pNow);
      ReemittedSnoc(c);
    }
  }

  lemma ReemittedSnoc(c: seq<Instruction>)
    requires c != []
    ensures var n := |c| - 1;
      seq(|c|, k requires 0 <= k < |c| => Reemitted(c[k])) ==
      seq(n, k requires 0 <= k < n => Reemitted(c[..n][k])) + [Reemitted(c[n])]
  {
  }

  /** When TICKs and the gates of the noisy classes carry no arguments, erasing the noise gives back the input exactly. */
  lemma ExactRecovery(c: seq<Instruction>, pNow: nat -> real)
    requires NoiseFree(c)
    requires forall k :: 0 <= k < |c| && c[k].op == Tick ==> c[k].targets == []
    requires forall k :: 0 <= k < |c| && (c[k].op == Tick || NoiseFor(c[k].op).Some?) ==> c[k].args == []
    ensures EraseNoise(Surgery(c, pNow)) == c
  {
    EraseRecovers(c, pNow);
    ReemittedAllBare(c);
  }

  lemma ReemittedAllBare(c: seq<Instruction>)
    requires forall k :: 0 <= k < |c| && c[k].op == Tick ==> c[k].targets == []
    requires forall k :: 0 <= k < |c| && (c[k].op == Tick || NoiseFor(c[k].op).Some?) ==> c[k].args == []
    ensures seq(|c|, k requires 0 <= k < |c| => Reemitted(c[k])) == c
  {
    var reemitted := seq(|c|, k requires 0 <= k < |c| => Reemitted(c[k]));
    forall k | 0 <= k < |c|
      ensures reemitted[k] == c[k]
    {
      ReemittedBare(c[k]);
    }
  }

  lemma ReemittedBare(instr: Instruction)
    requires instr.op == Tick ==> instr.targets == []
    requires instr.op == Tick || NoiseFor(instr.op).Some? ==> instr.args == []
    ensures Reemitted(instr) == instr
  {
  }

  /** The surgery emits no correlated error of its own: the burst is the only one it adds. */
  lemma {:induction false} SurgeryAddsNoBurst(c: seq<Instruction>, pNow: nat -> real)
    requires forall k :: 0 <= k < |c| ==> c[k].op != CorrelatedError
    ensures var out := Surgery(c, pNow);
      forall k :: 0 <= k < |out| ==> out[k].op != CorrelatedError
  {
    if c != [] {
      var n := |c| - 1;
      SurgeryAddsNoBurst(c[..n], pNow);
      var before := Surgery(c[..n], pNow);
      var rewritten := Rewrite(c[n], Ticks(c[..n]), pNow);
      assert forall k :: 0 <= k < |rewritten| ==> rewritten[k].op != CorrelatedError;
      forall k | 0 <= k < |before + rewritten|
        ensures (before + rewritten)[k].op != CorrelatedError
      {
        if k < |before| {
          assert Surgery(c[..n], pNow)[k].op != CorrelatedError;
        }
      }
    }
  }

  /** The burst acts on exactly d distinct qubits, the d consecutive ones from d²/2, each through Z. */
  lemma BurstTargets(d: nat, burstProb: real)
    ensures var b := Burst(d, burstProb);
      && b.op == CorrelatedError && b.args == [burstProb] && |b.targets| == d
      && (forall k :: 0 <= k < d ==> b.targets[k] == ZTarget(d * d / 2 + k))
      && (forall i, j :: 0 <= i < j < d ==> b.targets[i] != b.targets[j])
  {
  }
}
