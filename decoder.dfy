/**
 * The message-passing (BP+OSD) decoder object. The belief-propagation and
 * ordered-statistics solver is an external component: it is given to the
 * decoder as a function from syndrome to error estimate.
 */
module AsrMp {
  import opened Bits
  import opened DemMatrices
  import Latency

  /** (row · e) over the integers: row entries weighted by fired mechanisms. */
  function Dot(row: seq<nat>, e: seq<Bit>): nat
    requires |row| == |e|
  {
    if row == [] then 0 else Dot(row[..|row| - 1], e[..|e| - 1]) + row[|row| - 1] * e[|e| - 1]
  }

  predicate ColumnsAre(L: Matrix, n: nat)
  {
    forall o :: 0 <= o < |L| ==> |L[o]| == n
  }

  /** get_logical_correction's product (L · e) mod 2, one bit per observable. */
  function LogicalCorrection(L: Matrix, e: seq<Bit>): (r: seq<Bit>)
    requires ColumnsAre(L, |e|)
    ensures |r| == |L|
  {
    seq(|L|, o requires 0 <= o < |L| => Dot(L[o], e) % 2)
  }

  /** The fired mechanisms that flip an observable an odd number of times. */
  function OddFlips(row: seq<nat>, e: seq<Bit>): set<nat>
    requires |row| == |e|
  {
    set c | 0 <= c < |row| && e[c] == 1 && row[c] % 2 == 1
  }

  lemma ParitySum(a: nat, b: nat, c: nat, d: nat)
    requires a % 2 == c % 2 && b % 2 == d % 2
    ensures (a + b) % 2 == (c + d) % 2
  {
  }

  lemma {:induction false} DotParity(row: seq<nat>, e: seq<Bit>)
    requires |row| == |e|
    ensures Dot(row, e) % 2 == |OddFlips(row, e)| % 2
  {
    if row != [] {
      var n := |row| - 1;
      DotParity(row[..n], e[..n]);
      var before := OddFlips(row[..n], e[..n]);
      var term := row[n] * e[n];
      assert Dot(row, e) == Dot(row[..n], e[..n]) + term;
      assert n !in before;
      var flips: nat := if e[n] == 1 && row[n] % 2 == 1 then 1 else 0;
      if flips == 1 {
        assert OddFlips(row, e) == before + {n};
        assert term == row[n];
      } else {
        assert OddFlips(row, e) == before;
        assert term % 2 == 0 by {
          if e[n] == 1 {
            assert term == row[n];
          }
        }
      }
      assert |OddFlips(row, e)| == |before| + flips;
      ParitySum(Dot(row[..n], e[..n]), term, |before|, flips);
    }
  }

  /** The correction of observable o is the parity of the fired mechanisms that flip it. */
  lemma CorrectionIsParity(L: Matrix, e: seq<Bit>, o: nat)
    requires ColumnsAre(L, |e|) && o < |L|
    ensures LogicalCorrection(L, e)[o] == |OddFlips(L[o], e)| % 2
  {
    DotParity(L[o], e);
  }

  /** An all-zero estimate gives an all-zero correction. */
  lemma ZeroEstimate(L: Matrix, n: nat)
    requires ColumnsAre(L, n)
    ensures LogicalCorrection(L, Zeros(n)) == Zeros(|L|)
  {
    forall o | 0 <= o < |L|
      ensures LogicalCorrection(L, Zeros(n))[o] == 0
    {
      CorrectionIsParity(L, Zeros(n), o);
      assert OddFlips(L[o], Zeros(n)) == {};
    }
  }

  function XorBits(a: seq<Bit>, b: seq<Bit>): (r: seq<Bit>)
    requires |a| == |b|
    ensures |r| == |a|
  {
    seq(|a|, i requires 0 <= i < |a| => if a[i] == b[i] then 0 else 1)
  }

  lemma {:induction false} DotXor(row: seq<nat>, a: seq<Bit>, b: seq<Bit>)
    requires |row| == |a| == |b|
    ensures Dot(row, XorBits(a, b)) % 2 == (Dot(row, a) + Dot(row, b)) % 2
  {
    if row != [] {
      var n := |row| - 1;
      var x := XorBits(a, b);
      assert x[..n] == XorBits(a[..n], b[..n]);
      DotXor(row[..n], a[..n], b[..n]);
      var p, q, r := Dot(row[..n], x[..n]), Dot(row[..n], a[..n]), Dot(row[..n], b[..n]);
      assert Dot(row, x) == p + row[n] * x[n];
      assert Dot(row, a) == q + row[n] * a[n];
      assert Dot(row, b) == r + row[n] * b[n];
      var w := row[n];
      if a[n] == 0 && b[n] == 0 {
        assert w * x[n] == 0 && w * a[n] == 0 && w * b[n] == 0;
      } else if a[n] == 1 && b[n] == 1 {
        assert w * x[n] == 0 && w * a[n] == w && w * b[n] == w;
        assert (q + w + r + w) % 2 == (q + r) % 2;
      } else if a[n] == 1 {
        assert w * x[n] == w && w * a[n] == w && w * b[n] == 0;
      } else {
        assert w * x[n] == w && w * a[n] == 0 && w * b[n] == w;
      }
    }
  }

  /** The correction is linear over GF(2): the correction of a sum is the sum of the corrections. */
  lemma CorrectionLinear(L: Matrix, a: seq<Bit>, b: seq<Bit>)
    requires |a| == |b| && ColumnsAre(L, |a|)
    ensures LogicalCorrection(L, XorBits(a, b)) == XorBits(LogicalCorrection(L, a), LogicalCorrection(L, b))
  {
    forall o | 0 <= o < |L|
      ensures LogicalCorrection(L, XorBits(a, b))[o] == XorBits(LogicalCorrection(L, a), LogicalCorrection(L, b))[o]
    {
      DotXor(L[o], a, b);
    }
  }

  /** A solver that answers every syndrome with an estimate over the model's error mechanisms. */
  ghost predicate SolverFits(solve: seq<Bit> -> seq<Bit>, numErrors: nat)
  {
    forall s :: |solve(s)| == numErrors
  }

  /** ASRMPDecoder: matrices of one error model, the configured solver, and a latency log. */
  class AsrMpDecoder {
    const dem: ErrorModel
    const matrices: Matrices
    const solve: seq<Bit> -> seq<Bit>
    const bpMethod: string
    const maxIter: nat
    const osdMethod: string
    const osdOrder: nat
    const errorRate: real
    var latencies: seq<real>

    ghost predicate Valid()
    {
      && WellFormed(dem)
      && matrices == Expected(dem)
      && SolverFits(solve, |matrices.priors|)
    }

    /** The matrices are built from the model; the solver is configured with H and the priors. */
    constructor (dem: ErrorModel, solve: seq<Bit> -> seq<Bit>, bpMethod: string := "product_sum",
                 maxIter: nat := 50, osdMethod: string := "osd_cs", osdOrder: nat := 35, errorRate: real := 0.001)
      requires WellFormed(dem)
      requires SolverFits(solve, |Columns(dem.instructions)|)
      ensures Valid()
      ensures this.dem == dem && this.solve == solve && latencies == []
      ensures this.bpMethod == bpMethod && this.maxIter == maxIter && this.osdMethod == osdMethod
      ensures this.osdOrder == osdOrder && this.errorRate == errorRate
    {
      var m := DemToMatrices(dem);
      this.dem := dem;
      this.matrices := m;
      this.solve := solve;
      this.bpMethod := bpMethod;
      this.maxIter := maxIter;
      this.osdMethod := osdMethod;
      this.osdOrder := osdOrder;
      this.errorRate := errorRate;
      this.latencies := [];
    }

    /** decode: the solver's estimate; the call's elapsed time is appended to the log. */
    method Decode(syndrome: seq<Bit>, elapsed: real) returns (estimate: seq<Bit>)
      requires Valid() && |syndrome| == dem.numDetectors
      modifies this`latencies
      ensures estimate == solve(syndrome) && |estimate| == |matrices.priors|
      ensures latencies == old(latencies) + [elapsed]
    {
      estimate := solve(syndrome);
      latencies := latencies + [elapsed];
    }

    /** The logical correction this decoder gives a syndrome: (L · solve(s)) mod 2. */
    function Correction(syndrome: seq<Bit>): (c: seq<Bit>)
      requires Valid()
      ensures |c| == dem.numObservables
    {
      LogicalCorrection(matrices.L, solve(syndrome))
    }

    /** get_logical_correction: decode (one log entry), then project onto the observables. */
    method GetLogicalCorrection(syndrome: seq<Bit>, elapsed: real) returns (correction: seq<Bit>)
      requires Valid() && |syndrome| == dem.numDetectors
      modifies this`latencies
      ensures correction == Correction(syndrome) && |correction| == dem.numObservables
      ensures latencies == old(latencies) + [elapsed]
    {
      var estimate := Decode(syndrome, elapsed);
      correction := LogicalCorrection(matrices.L, estimate);
    }

    /** get_average_latency: the mean of the log, 0.0 when nothing was decoded since the last reset. */
    function GetAverageLatency(): (r: real)
      reads this
      ensures latencies == [] ==> r == 0.0
    {
      Latency.Average(latencies)
    }

    method ResetLatencies()
      modifies this`latencies
      ensures latencies == []
    {
      latencies := [];
    }
  }
}
