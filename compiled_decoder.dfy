/**
 * Compiled decoders as the sampling driver uses them: a decoder bound to one
 * error model, decoding batches of bit-packed shots. The batch path is the
 * same for both backends apart from the per-shot call, so it is written once
 * over a tagged choice of the wrapped single-shot decoder.
 */
module Compiled {
  import opened Bits
  import opened DemMatrices
  import opened AsrMp
  import opened UnionFind

  /** The single-shot decoder a compiled decoder wraps. */
  datatype Inner = Bp(asr: AsrMpDecoder) | Uf(uf: UnionFindDecoder)

  /** np.unpackbits(rows, axis=1, count=count, bitorder="little"): one syndrome per shot. */
  function UnpackShots(rows: seq<seq<Byte>>, count: nat): seq<seq<Bit>>
  {
    seq(|rows|, i requires 0 <= i < |rows| => UnpackRow(rows[i], count))
  }

  /** np.packbits(predictions, axis=1, bitorder="little"). */
  function PackPredictions(predictions: seq<seq<Bit>>): seq<seq<Byte>>
  {
    seq(|predictions|, i requires 0 <= i < |predictions| => PackRow(predictions[i]))
  }

  /**
   * The packed predictions of m-bit rows: one row per shot, ceil(m / 8) bytes
   * each, row i unpacks to prediction i, and the padding bits are zero.
   */
  lemma PackedLayout(predictions: seq<seq<Bit>>, m: nat, i: nat)
    requires forall k :: 0 <= k < |predictions| ==> |predictions[k]| == m
    requires i < |predictions|
    ensures |PackPredictions(predictions)| == |predictions|
    ensures |PackPredictions(predictions)[i]| == (m + 7) / 8
    ensures UnpackRow(PackPredictions(predictions)[i], m) == predictions[i]
    ensures var all := UnpackRow(PackPredictions(predictions)[i], 8 * ((m + 7) / 8));
      forall k :: m <= k < |all| ==> all[k] == 0
  {
    RoundTrip(predictions[i]);
    var all := UnpackRow(PackPredictions(predictions)[i], 8 * ((m + 7) / 8));
    forall k | m <= k < |all|
      ensures all[k] == 0
    {
      PaddingIsZero(predictions[i], k);
    }
  }

  lemma PackedRows(predictions: seq<seq<Bit>>, m: nat)
    requires forall k :: 0 <= k < |predictions| ==> |predictions[k]| == m
    ensures |PackPredictions(predictions)| == |predictions|
    ensures forall i :: 0 <= i < |predictions| ==>
      |PackPredictions(predictions)[i]| == (m + 7) / 8 && UnpackRow(PackPredictions(predictions)[i], m) == predictions[i]
  {
    forall i | 0 <= i < |predictions|
      ensures |PackPredictions(predictions)[i]| == (m + 7) / 8 && UnpackRow(PackPredictions(predictions)[i], m) == predictions[i]
    {
      PackedLayout(predictions, m, i);
    }
  }

  lemma ClocksSnoc(clock: nat -> real, i: nat)
    ensures seq(i + 1, k requires 0 <= k < i + 1 => clock(k)) == seq(i, k requires 0 <= k < i => clock(k)) + [clock(i)]
  {
  }

  lemma {:induction false} PackZeros(n: nat)
    ensures PackRow(Zeros(n)) == seq((n + 7) / 8, _ => 0)
    decreases n
  {
    if n > 0 {
      var k := if n < 8 then n else 8;
      assert Zeros(n)[..k] == Zeros(k);
      assert Zeros(n)[k..] == Zeros(n - k);
      PackZeros(n - k);
      assert PackByte(Zeros(k)) == 0 by {
        PackByteOfBits(0, k);
        forall j | 0 <= j < k
          ensures BitsOf(0, k)[j] == 0
        {
          BitAtZero(j);
        }
        assert BitsOf(0, k) == Zeros(k);
      }
    }
  }

  lemma UnpackZeroBytes(width: nat, count: nat)
    ensures UnpackRow(seq(width, _ => 0), count) == Zeros(count)
  {
    var bits := UnpackRow(seq(width, _ => 0), count);
    forall i | 0 <= i < count
      ensures bits[i] == 0
    {
      BitAtZero(i % 8);
    }
  }

  /** TesseractCompiledDecoder / UnionFindCompiledDecoder. */
  class CompiledDecoder {
    const dem: ErrorModel
    const inner: Inner

    ghost function Repr(): set<object>
    {
      match inner
      case Bp(d) => {d}
      case Uf(d) => {d}
    }

    ghost predicate Valid()
    {
      match inner
      case Bp(d) => d.Valid() && d.dem == dem
      case Uf(d) => d.dem == dem && d.numDetectors == dem.numDetectors && d.numObservables == dem.numObservables
    }

    /**
     * Binds a model and a wrapped decoder built from that same model. The
     * wrapped decoder is constructed by the caller and handed in.
     */
    constructor (dem: ErrorModel, inner: Inner)
      requires match inner
        case Bp(d) => d.Valid() && d.dem == dem
        case Uf(d) => d.dem == dem && d.numDetectors == dem.numDetectors && d.numObservables == dem.numObservables
      ensures this.dem == dem && this.inner == inner
      ensures Valid()
    {
      this.dem := dem;
      this.inner := inner;
    }

    /** The latencies property: the wrapped decoder's own log, not a copy kept by the wrapper. */
    function Latencies(): (l: seq<real>)
      reads Repr()
      ensures inner.Bp? ==> l == inner.asr.latencies
      ensures inner.Uf? ==> l == inner.uf.latencies
    {
      match inner
      case Bp(d) => d.latencies
      case Uf(d) => d.latencies
    }

    /** The logical correction the wrapped decoder gives one shot. */
    function PerShot(syndrome: seq<Bit>): (c: seq<Bit>)
      requires Valid()
      ensures |c| == dem.numObservables
    {
      match inner
      case Bp(d) => d.Correction(syndrome)
      case Uf(d) => Zeros(d.numObservables)
    }

    /** The unpacked predictions of a batch: the correction of each shot, in shot order. */
    function Predictions(rows: seq<seq<Byte>>): seq<seq<Bit>>
      requires Valid()
    {
      seq(|rows|, i requires 0 <= i < |rows| => PerShot(UnpackRow(rows[i], dem.numDetectors)))
    }

    /** The per-shot call of the batch loop: get_logical_correction or decode. */
    method DecodeShot(syndrome: seq<Bit>, elapsed: real) returns (c: seq<Bit>)
      requires Valid() && |syndrome| == dem.numDetectors
      modifies Repr()
      ensures c == PerShot(syndrome)
      ensures Latencies() == old(Latencies()) + [elapsed]
    {
      match inner
      case Bp(d) =>
        c := d.GetLogicalCorrection(syndrome, elapsed);
      case Uf(d) =>
        c := d.Decode(syndrome, elapsed);
    }

    /**
     * decode_shots_bit_packed: unpack each row to exactly num_detectors bits,
     * decode the shots in order into the predictions array, and pack each
     * prediction row into ceil(num_observables / 8) bytes. `clock(i)` is the
     * elapsed time measured for shot i.
     */
    method DecodeShotsBitPacked(rows: seq<seq<Byte>>, clock: nat -> real) returns (packed: seq<seq<Byte>>)
      requires Valid()
      modifies Repr()
      ensures packed == PackPredictions(Predictions(rows))
      ensures |packed| == |rows|
      ensures forall i :: 0 <= i < |rows| ==> |packed[i]| == (dem.numObservables + 7) / 8
      ensures forall i :: 0 <= i < |rows| ==> UnpackRow(packed[i], dem.numObservables) == PerShot(UnpackRow(rows[i], dem.numDetectors))
      ensures Latencies() == old(Latencies()) + seq(|rows|, i requires 0 <= i < |rows| => clock(i))
    {
      var numShots := |rows|;
      var shots := UnpackShots(rows, dem.numDetectors);
      var numObs := dem.numObservables;
      var predictions := new seq<Bit>[numShots](_ => Zeros(numObs));
      for i := 0 to numShots
        invariant forall k :: 0 <= k < i ==> predictions[k] == PerShot(shots[k])
        invariant Latencies() == old(Latencies()) + seq(i, k requires 0 <= k < i => clock(k))
      {
        var c := DecodeShot(shots[i], clock(i));
        predictions[i] := c;
        ClocksSnoc(clock, i);
      }
      assert predictions[..] == Predictions(rows);
      packed := PackPredictions(predictions[..]);
      PackedRows(predictions[..], numObs);
    }
  }

  /**
   * Decoding all-zero shots yields all-zero packed predictions: always for the
   * union-find backend, and for the BP+OSD backend whenever its solver answers
   * the zero syndrome with the zero estimate.
   */
  lemma ZeroShots(c: CompiledDecoder, rows: seq<seq<Byte>>)
    requires c.Valid()
    requires forall i, j :: 0 <= i < |rows| && 0 <= j < |rows[i]| ==> rows[i][j] == 0
    requires c.inner.Bp? ==> c.inner.asr.solve(Zeros(c.dem.numDetectors)) == Zeros(|c.inner.asr.matrices.priors|)
    ensures forall i, j :: 0 <= i < |rows| && 0 <= j < |PackPredictions(c.Predictions(rows))[i]| ==>
      PackPredictions(c.Predictions(rows))[i][j] == 0
  {
    var m := c.dem.numObservables;
    forall i | 0 <= i < |rows|
      ensures c.Predictions(rows)[i] == Zeros(m)
    {
      assert rows[i] == seq(|rows[i]|, _ => 0);
      UnpackZeroBytes(|rows[i]|, c.dem.numDetectors);
      if c.inner.Bp? {
        var d := c.inner.asr;
        ZeroEstimate(d.matrices.L, |d.matrices.priors|);
      }
    }
    PackZeros(m);
  }

  /** The union-find backend packs every batch, whatever its shots, into all-zero bytes. */
  lemma UnionFindPacksZeros(c: CompiledDecoder, rows: seq<seq<Byte>>)
    requires c.Valid() && c.inner.Uf?
    ensures var packed := PackPredictions(c.Predictions(rows));
      && |packed| == |rows|
      && forall i, j :: 0 <= i < |rows| && 0 <= j < |packed[i]| ==> packed[i][j] == 0
  {
    PackZeros(c.dem.numObservables);
  }

  datatype Unsupported = NotImplementedError(message: string)

  const UseCompile := "Use compile_decoder_for_dem for this decoder"

  /** TesseractBPOSD: the sinter decoder factory for the BP+OSD decoder. */
  class TesseractBposd {
    constructor ()
    {
    }

    /**
     * compile_decoder_for_dem: a fresh compiled decoder bound to `dem`, wrapping
     * a fresh BP+OSD decoder with the default configuration and an empty log.
     */
    method CompileDecoderForDem(dem: ErrorModel, solve: seq<Bit> -> seq<Bit>) returns (c: CompiledDecoder)
      requires WellFormed(dem)
      requires SolverFits(solve, |Columns(dem.instructions)|)
      ensures fresh(c) && fresh(c.Repr())
      ensures c.Valid() && c.dem == dem && c.inner.Bp? && c.Latencies() == []
      ensures c.inner.asr.bpMethod == "product_sum" && c.inner.asr.maxIter == 50
      ensures c.inner.asr.osdMethod == "osd_cs" && c.inner.asr.osdOrder == 35 && c.inner.asr.errorRate == 0.001
    {
      var d := new AsrMpDecoder(dem, solve);
      c := new CompiledDecoder(dem, Bp(d));
    }

    /** decode_via_files always fails. */
    method DecodeViaFiles() returns (e: Unsupported)
      ensures e == NotImplementedError(UseCompile)
    {
      e := NotImplementedError(UseCompile);
    }
  }

  datatype Compilation = CompiledOk(decoder: CompiledDecoder) | CompileImportError(message: string)

  /** UnionFindSinterDecoder: the sinter decoder factory for the union-find decoder. */
  class UnionFindSinterDecoder {
    constructor ()
    {
    }

    /**
     * compile_decoder_for_dem: a fresh compiled decoder bound to `dem`, or the
     * ImportError of the wrapped decoder's construction when fusion-blossom is
     * not available.
     */
    method CompileDecoderForDem(dem: ErrorModel, fusionBlossomAvailable: bool) returns (r: Compilation)
      ensures r.CompiledOk? <==> fusionBlossomAvailable
      ensures r.CompileImportError? ==> r.message == MissingFusionBlossom
      ensures r.CompiledOk? ==> fresh(r.decoder) && fresh(r.decoder.Repr())
      ensures r.CompiledOk? ==> r.decoder.Valid() && r.decoder.dem == dem && r.decoder.inner.Uf? && r.decoder.Latencies() == []
    {
      var made := Construct(dem, fusionBlossomAvailable);
      match made
      case ImportError(msg) =>
        r := CompileImportError(msg);
      case Constructed(d) =>
        var c := new CompiledDecoder(dem, Uf(d));
        r := CompiledOk(c);
    }

    /** decode_via_files always fails. */
    method DecodeViaFiles() returns (e: Unsupported)
      ensures e == NotImplementedError(UseCompile)
    {
      e := NotImplementedError(UseCompile);
    }
  }
}
