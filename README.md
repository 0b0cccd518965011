# A verified model of the qec decoding pipeline

This project models the discrete core of the `qec` benchmarking package in Dafny. That package benchmarks quantum-error-correction decoders under drifting and bursty noise. The model has five parts.

- **Matrix builder** (`dem_to_matrices`, `dem_matrices.dfy`):
  - a flattened detector error model becomes H (detectors × error mechanisms), L (observables × error mechanisms) and the prior vector;
  - each error instruction is one column, numbered in the order it appears;
  - the builder is a loop that accumulates triplet lists; it is proved equal to a reference definition in which entry (r, c) counts the mentions of detector r (or observable r) by mechanism c, modulo 256, because the matrices hold uint8 entries with duplicates summed.
- **Decoder objects** (`decoder.dfy`, `union_find_decoder.dfy`, `latency.dfy`):
  - the BP+OSD decoder and the union-find decoder each keep a latency log that grows by one entry per decode;
  - the BP+OSD logical correction is (L · e) mod 2, proved to be the parity of the fired mechanisms that flip each observable an odd number of times, and linear over GF(2);
  - the union-find decoder always answers with the zero correction, and its construction fails with ImportError when fusion-blossom is missing.
- **Compiled decoders** (`compiled_decoder.dfy`, `bits.dfy`):
  - the sinter batch path unpacks each bit-packed shot least-significant-bit first to exactly num_detectors bits, decodes the shots in order into a predictions array, and re-packs each row into ceil(num_observables / 8) bytes;
  - the batch path is written once, over a tagged choice of the wrapped decoder, and both sinter factories instantiate it;
  - packing and unpacking are proved inverse in both directions, with zero padding.
- **Stress circuits** (`noise_models.dfy`):
  - the circuit surgery walks a flattened, noiseless surface-code circuit, counting TICKs;
  - after each reset or measurement it emits X_ERROR, after CX/CZ DEPOLARIZE2, and after H/S/X/Z/Y DEPOLARIZE1, on the same targets, with the drifted probability of the current TICK count;
  - when burst_prob > 0 it prepends one CORRELATED_ERROR on d qubits;
  - the circuit generator and the drift schedule are function parameters.
- **Task lists** (`tasks.dfy`, `sinter_full_benchmark.dfy`): the loops that pair circuits with their metadata records, proved against list specifications with counts, positions, labels and the pairing of standard and stress tasks.

Every source loop is a Dafny `method` with a loop proved against a specification function. Every object that mutates its latency log is a `class` with `modifies` clauses.

## Model

| member | source | states |
|---|---|---|
| DemMatrices.DemToMatrices | src/asr_mp/dem_utils.py:41-76 | For a well-formed model, the result is the reference matrices: H and L have one row per detector and per observable and one column per error instruction; prior c is the probability of the c-th error instruction. |
| DemMatrices.ColumnOfInstruction | src/asr_mp/dem_utils.py:47-60 | An error instruction at position k becomes the column numbered by the count of error instructions before it. |
| DemMatrices.ColumnCount | src/asr_mp/dem_utils.py:47-62 | The number of columns equals the number of error instructions; other instructions add no column. |
| DemMatrices.IncidenceCount | src/asr_mp/dem_utils.py:53-59 | The triplet list holds (r, c) exactly as often as mechanism c names row r of the matching kind, and never for a column beyond the mechanisms. |
| DemMatrices.DensifyIncidences | src/asr_mp/dem_utils.py:64-74 | Building the matrix from the recorded triplets, with duplicates summed in uint8, gives the reference H and L. |
| DemMatrices.Shapes | src/asr_mp/dem_utils.py:62-76 | H is num_detectors × errors and L is num_observables × errors, so they have the same number of columns; there is one prior per error. |
| DemMatrices.NoErrors | src/asr_mp/dem_utils.py:62-76 | A model without error instructions gives empty priors and zero-column H and L. |
| DemMatrices.BinaryWhenDistinct | src/asr_mp/dem_utils.py:53-68 | When a mechanism names no detector or observable twice, its column is the 0/1 incidence vector of its detectors (in H) and of its observables (in L). This holds whatever the number of `^` parts of a decomposed mechanism. |
| DemMatrices.SeparatorsIgnored | src/asr_mp/dem_utils.py:53-59 | Removing every target that is neither a detector nor an observable leaves H, L and the priors unchanged. |
| Latency.Average | src/asr_mp/decoder.py:116-120 | The mean of an empty log is 0.0. |
| Latency.AverageBounds | src/asr_mp/decoder.py:120 | The mean of a non-empty log lies between any lower and upper bound of its entries. |
| Latency.AverageOfConstant | src/asr_mp/decoder.py:120 | A log of one repeated time has that time as its mean. |
| AsrMp.LogicalCorrection | src/asr_mp/decoder.py:114 | (L · e) mod 2 has one bit per row of L, that is, per observable. |
| AsrMp.CorrectionIsParity | src/asr_mp/decoder.py:114 | Bit o of the correction is the parity of the fired mechanisms that flip observable o an odd number of times. |
| AsrMp.ZeroEstimate | src/asr_mp/decoder.py:113-114 | An all-zero error estimate gives an all-zero correction. |
| AsrMp.CorrectionLinear | src/asr_mp/decoder.py:114 | The correction of the XOR of two estimates is the XOR of their corrections. |
| AsrMp.AsrMpDecoder.constructor | src/asr_mp/decoder.py:47-86 | The decoder holds the reference matrices of its model, the given solver and configuration (defaults product_sum, 50, osd_cs, 35, 0.001), and an empty log. |
| AsrMp.AsrMpDecoder.Decode | src/asr_mp/decoder.py:88-101 | The estimate is the solver's answer, one bit per error mechanism, and the log gains exactly the call's elapsed time. |
| AsrMp.AsrMpDecoder.Correction | src/asr_mp/decoder.py:113-114 | The correction of a syndrome has num_observables bits. |
| AsrMp.AsrMpDecoder.GetLogicalCorrection | src/asr_mp/decoder.py:103-114 | The result is (L · solve(s)) mod 2, of length num_observables, and the log grows by one entry. |
| AsrMp.AsrMpDecoder.GetAverageLatency | src/asr_mp/decoder.py:116-120 | 0.0 when nothing was decoded since construction or the last reset. |
| AsrMp.AsrMpDecoder.ResetLatencies | src/asr_mp/decoder.py:122-124 | The log is empty afterwards. |
| UnionFind.Construct | src/asr_mp/union_find_decoder.py:33-55 | Construction succeeds exactly when fusion-blossom is available, otherwise yields ImportError with its message; a constructed decoder is fresh, with the model's detector and observable counts and an empty log. |
| UnionFind.UnionFindDecoder.constructor | src/asr_mp/union_find_decoder.py:49-55 | Records the model and its detector and observable counts; the log starts empty. |
| UnionFind.UnionFindDecoder.Decode | src/asr_mp/union_find_decoder.py:63-80 | Whatever the syndrome, the correction is num_observables zero bits, and the log gains one entry. |
| UnionFind.UnionFindDecoder.GetAverageLatency | src/asr_mp/union_find_decoder.py:82-86 | 0.0 on an empty log. |
| UnionFind.UnionFindDecoder.ResetLatencies | src/asr_mp/union_find_decoder.py:88-90 | The log is empty afterwards. |
| Bits.PackRow | src/asr_mp/decoder.py:177 | A packed row of k bits has ceil(k / 8) bytes. |
| Bits.UnpackRow | src/asr_mp/decoder.py:163-168 | Unpacking a shot with count = num_detectors gives exactly num_detectors bits, whatever the row's width. Bits past the end of a short row read as 0, so the row is zero-filled, not rejected. |
| Bits.UnpackIgnoresWidth | src/asr_mp/decoder.py:163-168 | Only the first ceil(count / 8) bytes are read: a wider row's extra bytes are dropped and a narrower row is zero-filled to that width; no width is an error. |
| Bits.RoundTrip | src/asr_mp/decoder.py:163-177 | Packing k bits LSB-first and unpacking k bits gives back the bits, for every k. |
| Bits.PaddingIsZero | src/asr_mp/decoder.py:177 | The bits of a packed row past the packed bits are zero. |
| Bits.PackUnpack | src/asr_mp/decoder.py:163-177 | Unpacking all 8·n bits of n bytes and packing them again gives back the bytes. |
| Compiled.PackedLayout | src/asr_mp/decoder.py:170-177 | Packed predictions have one row per shot of ceil(m / 8) bytes; row i unpacks to prediction i, and its padding bits are zero. |
| Compiled.CompiledDecoder.Latencies | src/asr_mp/decoder.py:179-182 | The latencies property is the wrapped decoder's own log, for either backend. |
| Compiled.CompiledDecoder.constructor | src/asr_mp/decoder.py:134-143 | Given a wrapped decoder built from the same model, the compiled decoder is bound to both and is Valid: a BP+OSD decoder carries that model's reference matrices, a union-find decoder its detector and observable counts. |
| Compiled.CompiledDecoder.PerShot | src/asr_mp/decoder.py:173-175 | The per-shot prediction has num_observables bits. |
| Compiled.CompiledDecoder.DecodeShot | src/asr_mp/decoder.py:173-175 | One shot is decoded by the wrapped decoder's own call, which adds exactly one log entry. |
| Compiled.CompiledDecoder.DecodeShotsBitPacked | src/asr_mp/decoder.py:162-177 | The output is the packed per-shot predictions in shot order: one row per input row, ceil(num_observables / 8) bytes each; row i unpacks to the prediction for the first num_detectors bits of input row i. The log grows by one entry per shot, in order. |
| Compiled.ZeroShots | src/asr_mp/decoder.py:162-177 | All-zero shots give all-zero packed bytes, for union-find always and for BP+OSD when the solver maps the zero syndrome to the zero estimate. |
| Compiled.UnionFindPacksZeros | src/asr_mp/union_find_decoder.py:107-121 | The union-find batch output has one row per shot and every byte is zero. |
| Compiled.TesseractBposd.CompileDecoderForDem | src/asr_mp/decoder.py:199-214 | A fresh compiled decoder bound to the model, wrapping a fresh BP+OSD decoder with the default configuration and an empty log. |
| Compiled.TesseractBposd.DecodeViaFiles | src/asr_mp/decoder.py:216-218 | Always NotImplementedError with its message. |
| Compiled.UnionFindSinterDecoder.CompileDecoderForDem | src/asr_mp/union_find_decoder.py:132-139 | A fresh compiled decoder bound to the model exactly when fusion-blossom is available, else the ImportError of the wrapped construction. |
| Compiled.UnionFindSinterDecoder.DecodeViaFiles | src/asr_mp/union_find_decoder.py:141-143 | Always NotImplementedError with its message. |
| NoiseModels.Rounds | src/asr_mp/noise_models.py:44-45 | Rounds default to 3·d when omitted and are the given number otherwise. |
| NoiseModels.StandardRequest | src/asr_mp/noise_models.py:117-128 | The standard circuit is requested as rotated_memory_z at distance d, with the defaulted rounds and p on all four noise channels. |
| NoiseModels.NoiselessRequest | src/asr_mp/noise_models.py:47-56 | The stress circuit's base is the same code, distance and rounds, with all four noise channels at 0. |
| NoiseModels.GenerateStandardCircuit | src/asr_mp/noise_models.py:101-128 | The generator's circuit for rounds 3·d when omitted and uniform noise p. |
| NoiseModels.InjectNoise | src/asr_mp/noise_models.py:62-96 | The loop's output is the burst (when burst_prob > 0) followed by the surgery specification, with each instruction rewritten at the TICK count before it. |
| NoiseModels.GenerateStressCircuit | src/asr_mp/noise_models.py:15-98 | The stress circuit is the surgery of the noiseless base circuit at the defaulted rounds, behind the burst, and it opens with the burst when burst_prob > 0. drift_strength defaults to 0.2, burst_prob to 0.0 and rounds to 3·d. |
| NoiseModels.StressDefaults | src/asr_mp/noise_models.py:15-20 | With every default taken, the circuit is the drift-0.2 surgery of the noiseless 3·d-round circuit, with no burst. |
| NoiseModels.TicksPreserved | src/asr_mp/noise_models.py:66-70 | The output holds exactly as many TICKs as the input. |
| NoiseModels.NoiseFollowsGate | src/asr_mp/noise_models.py:72-86 | Every R/M/MR, CX/CZ or H/S/X/Z/Y of the output is immediately followed by its class's channel, on identical targets, with the probability at the number of TICKs before it. |
| NoiseModels.NoiseAfterGateAt | src/asr_mp/noise_models.py:78-88 | For a noiseless input, a noise instruction at output position j directly follows a gate of its class on the same targets. |
| NoiseModels.NoiseOnlyAfterGate | src/asr_mp/noise_models.py:78-88 | For a noiseless input, every noise instruction of the output directly follows a gate of its class on the same targets. |
| NoiseModels.EraseRecovers | src/asr_mp/noise_models.py:66-88 | Deleting the noise instructions from the output of a noiseless input gives the input back, with TICKs and the noisy-class gates re-emitted without arguments. |
| NoiseModels.ExactRecovery | src/asr_mp/noise_models.py:66-88 | For a noiseless input in which every TICK has no targets and no arguments, and every R/M/MR, CX/CZ or H/S/X/Z/Y gate has no arguments, deleting the noise gives back the input exactly. |
| NoiseModels.SurgeryAddsNoBurst | src/asr_mp/noise_models.py:66-96 | The surgery emits no correlated error of its own; the burst is the only one added. |
| NoiseModels.BurstTargets | src/asr_mp/noise_models.py:91-96 | The burst is one CORRELATED_ERROR with argument burst_prob on exactly d distinct Z targets, qubits d²/2 to d²/2 + d − 1. |
| Tasks.GenerateStandardTasks | src/asr_mp/noise_models.py:183-213 | The loops produce the standard task list, with distance outer and error rate inner and defaults for omitted lists. |
| Tasks.StandardAt | src/asr_mp/noise_models.py:203-211 | The task for the i-th distance and j-th rate is at position i·\|rates\| + j; it holds the standard circuit, and its metadata is exactly d, p and stress "None". |
| Tasks.StandardCount | src/asr_mp/noise_models.py:203-213 | There are \|distances\|·\|error_rates\| tasks. |
| Tasks.DefaultStandardTasks | src/asr_mp/noise_models.py:197-200 | The defaults give 9 tasks, from (3, 0.001) to (7, 0.005). |
| Tasks.GenerateSweepTasks | src/asr_mp/noise_models.py:216-252 | One task per drift amplitude, in order, at the default base_p 0.003 and with defaults for an omitted list. |
| Tasks.SweepMetadata | src/asr_mp/noise_models.py:238-248 | For any generator, sweep task i has metadata d, base_p, "Drift=" with amplitude i, amplitude i and no burst field; its circuit is the bare surgery of the 3·d-round noiseless circuit at that amplitude. |
| Tasks.SweepHasNoBurst | src/asr_mp/noise_models.py:238-248 | No sweep circuit holds a correlated error when the generated base circuit holds none. |
| Tasks.DefaultSweepTasks | src/asr_mp/noise_models.py:234-235 | The default sweep has five tasks, with amplitudes 0.0, 0.1, 0.2, 0.3 and 0.4. |
| Tasks.GenerateUndeniableTasks | src/asr_mp/noise_models.py:131-180 | One drift-plus-burst task per distance, in order, with defaults base_p 0.003, drift 0.3 and burst 0.05. |
| Tasks.UndeniableShape | src/asr_mp/noise_models.py:159-180 | One task per distance with metadata d, p = base_p, "Drift+Burst", the drift and the burst; with a positive burst probability each circuit opens with the burst of its distance. |
| Tasks.DefaultUndeniableTasks | src/asr_mp/noise_models.py:156-157 | The defaults give three tasks for distances 5, 7 and 9. |
| FullBenchmark.FullRounds | benchmarks/sinter_full_benchmark.py:59 | Rounds lie in [100, 200]: 100 up to d = 5, 20·d from 5 to 10, and 200 from 10 on. |
| FullBenchmark.GenerateFullTasks | benchmarks/sinter_full_benchmark.py:35-108 | The nested loops produce the full task list; that list does not depend on rounds_per_d. |
| FullBenchmark.FullCount | benchmarks/sinter_full_benchmark.py:57-106 | Exactly 2·\|distances\|·\|error_rates\| tasks. |
| FullBenchmark.FullAt | benchmarks/sinter_full_benchmark.py:57-106 | Position 2·(i·\|rates\| + j) + b holds task b of the pair for the i-th distance and j-th rate: distance outer, rate inner, standard before stress. |
| FullBenchmark.FullTasksPaired | benchmarks/sinter_full_benchmark.py:72-102 | Every even position starts a pair: a "Standard" task without drift or burst fields, then a stress task with the same d, p and rounds (between 100 and 200), labelled with the drift and burst and carrying both as fields. |

## Left out

- Floating point is not modelled.
  - Probabilities, drift amplitudes and latencies are exact reals.
  - `get_average_latency` is the exact mean, without float rounding.
  - `get_channel_llrs` (log-likelihood ratios) is not modelled; it is pure floating-point arithmetic.
- The sinusoidal drift `base_p·(1 + drift·sin(2π·round/period))` is the uninterpreted `schedule` parameter. Its arguments are base_p, the amplitude, the rounds and the TICK count. The counter counts TICKs, not syndrome rounds, and the model keeps that.
- The BP+OSD solver (ldpc) is the `solve` parameter. The model assumes it answers every syndrome with one bit per error mechanism. Its configuration is recorded but has no modelled effect.
- fusion-blossom's availability is a boolean parameter. The unused matching-graph placeholder has no observable effect, so it is left out.
- stim and sinter are external:
  - circuit generation is the `generate` parameter, and it is total: stim's `Circuit.generated` rejects distance < 2, rounds < 1 and noise parameters outside [0, 1], and that validation is not modelled (it is also what keeps `period = rounds / 2.0` in the drift from dividing by zero); `flattened()` is assumed already applied;
  - the models given to the builder are already flattened, with absolute detector ids;
  - `detector_error_model`, `sinter.Task` and `sinter.collect` are external;
  - a task is its circuit and its metadata record.
- Compiled.CompiledDecoder.constructor takes the wrapped decoder as an argument instead of building it with `ASRMPDecoder(dem)` or `UnionFindDecoder(dem)`, and requires that it was built from the same model. The building is modelled in the two `CompileDecoderForDem` factories, which ensure `fresh(c.Repr())` and `Valid()`. A direct construction such as the profiling script's goes through the same two steps.
- The output circuit is modelled unfused. stim's `Circuit.append` fuses an instruction into an identical preceding one, and the model does not.
- Metadata labels are modelled as a datatype with one case per label form. Python's float-to-text formatting inside "Drift={drift}" is not modelled.
- Time is a parameter: the elapsed time of each decode (the `perf_counter` difference) is passed in.
- The uint8 arithmetic of `(L @ e) % 2` is modelled as the sum over naturals. The uint8 sum wraps modulo 256, which is even, so the parity is the same.
- The scipy sparse representation is modelled as a dense `seq<seq<nat>>`.
- The module-level `warnings.filterwarnings("ignore")` is ambient process state and is not modelled.
- The package `__init__.py` only re-exports names, so it is not part of this model.
- CLI, CSV output, printing, plots and notebooks are not part of this model.
- AsrMp.AsrMpDecoder.Decode requires a syndrome of num_detectors bits. The source passes any array to the solver, and the solver's behaviour on other lengths is not part of this model. The batch path always supplies exactly num_detectors bits.
- NoiseModels.InjectNoise accepts any probability. stim's `Circuit.append` raises on a noise probability outside [0, 1]: on X_ERROR/DEPOLARIZE1/DEPOLARIZE2 when the drifted p_now leaves [0, 1] (say drift_strength above 1), and on CORRELATED_ERROR when burst_prob > 1. The model has no such error path; this validation lives inside stim.
- NoiseModels.GenerateStressCircuit returns a circuit for every schedule and burst_prob, for the same reason: the model does not include stim's range check on probabilities.
- Bits.UnpackRow follows numpy rather than rejecting a syndrome row of the wrong width. The batch decoders silently drop the bytes past ceil(num_detectors / 8) and zero-fill a short row, as the source's np.unpackbits call does.
- DemMatrices.DemToMatrices requires every detector and observable id to be below the model's counts. stim's counts guarantee this, and scipy would reject an out-of-range index.
- NoiseModels.EraseRecovers and NoiseModels.NoiseOnlyAfterGate require a noiseless input. The surgery is always applied to the circuit generated with all noise at 0.
