/**
 * The union-find (clustering) decoder object. Its construction needs the
 * external fusion-blossom package; its decode answers every syndrome with
 * the all-zero logical correction.
 */
module UnionFind {
  import opened Bits
  import opened DemMatrices
  import Latency

  class UnionFindDecoder {
    const dem: ErrorModel
    const numDetectors: nat
    const numObservables: nat
    var latencies: seq<real>

    /**
     * The part of construction after the dependency check. It does not check
     * for fusion-blossom itself: Construct is the guarded entry point, and the
     * sinter factory builds decoders only through it.
     */
    constructor (dem: ErrorModel)
      ensures this.dem == dem && numDetectors == dem.numDetectors && numObservables == dem.numObservables
      ensures latencies == []
    {
      this.dem := dem;
      this.numDetectors := dem.numDetectors;
      this.numObservables := dem.numObservables;
      this.latencies := [];
    }

    /** decode: the all-zero correction whatever the syndrome; one log entry. */
    method Decode(syndrome: seq<Bit>, elapsed: real) returns (correction: seq<Bit>)
      modifies this`latencies
      ensures correction == Zeros(numObservables)
      ensures latencies == old(latencies) + [elapsed]
    {
      correction := Zeros(numObservables);
      latencies := latencies + [elapsed];
    }

    /** get_average_latency: the mean of the log, 0.0 when nothing was decoded since the last reset. */
    function GetAverageLatency(): (r: real)
      reads this
      ensures latencies == [] ==> r == 0.0
    {
      Latency.Average(latencies)
    }

    method ResetLatencies()
      modifies this`latencies
      ensures latencies == []
    {
      latencies := [];
    }
  }

  datatype Construction = Constructed(decoder: UnionFindDecoder) | ImportError(message: string)

  const MissingFusionBlossom := "fusion-blossom is required for UnionFindDecoder. Install with: pip install fusion-blossom"

  /**
   * UnionFindDecoder(dem): fails with ImportError, before any decoder exists,
   * when fusion-blossom is not available; otherwise a fresh decoder with an
   * empty log.
   */
  method Construct(dem: ErrorModel, fusionBlossomAvailable: bool) returns (r: Construction)
    ensures r.Constructed? <==> fusionBlossomAvailable
    ensures r.ImportError? ==> r.message == MissingFusionBlossom
    ensures r.Constructed? ==> fresh(r.decoder) && r.decoder.dem == dem && r.decoder.latencies == []
    ensures r.Constructed? ==> r.decoder.numDetectors == dem.numDetectors && r.decoder.numObservables == dem.numObservables
  {
    if !fusionBlossomAvailable {
      return ImportError(MissingFusionBlossom);
    }
    var d := new UnionFindDecoder(dem);
    r := Constructed(d);
  }
}
