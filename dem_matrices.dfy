/**
 * The matrix builder: a detector error model becomes the parity-check matrix
 * H (detectors x errors), the logical matrix L (observables x errors) and the
 * vector of prior probabilities, one column per error mechanism.
 */
module DemMatrices {

  /** A target of an error instruction: a detector id, an observable id, or
      anything else (such as the separator of a decomposed error). */
  datatype Target = Detector(id: nat) | Observable(id: nat) | Separator

  datatype Mechanism = Mechanism(probability: real, targets: seq<Target>)

  /** One instruction of a flattened detector error model. */
  datatype DemInstruction =
    | Error(mechanism: Mechanism)
    | Declaration(kind: string, targets: seq<Target>)

  datatype ErrorModel = ErrorModel(numDetectors: nat, numObservables: nat, instructions: seq<DemInstruction>)

  /** Matrices are dense row-major: m[row][column]. */
  type Matrix = seq<seq<nat>>

  datatype Matrices = Matrices(H: Matrix, L: Matrix, priors: seq<real>)

  datatype Kind = DetectorKind | ObservableKind

  /** The detector and observable counts of a model exceed every id it mentions. */
  ghost predicate WellFormed(dem: ErrorModel)
  {
    forall i, t :: 0 <= i < |dem.instructions| && dem.instructions[i].Error? && t in dem.instructions[i].mechanism.targets ==>
      (t.Detector? ==> t.id < dem.numDetectors) && (t.Observable? ==> t.id < dem.numObservables)
  }

  predicate HasShape(m: Matrix, rows: nat, cols: nat)
  {
    |m| == rows && forall r :: 0 <= r < rows ==> |m[r]| == cols
  }

  // ---------------------------------------------------------------------------
  // Specification

  /** The error mechanisms of a model, in encounter order: column c is the c-th error instruction. */
  function Columns(instrs: seq<DemInstruction>): seq<Mechanism>
  {
    if instrs == [] then []
    else
      var last := instrs[|instrs| - 1];
      Columns(instrs[..|instrs| - 1]) + if last.Error? then [last.mechanism] else []
  }

  function Select(t: Target, kind: Kind): seq<nat>
  {
    match t
    case Detector(id) => if kind == DetectorKind then [id] else []
    case Observable(id) => if kind == ObservableKind then [id] else []
    case Separator => []
  }

  /** The ids of the targets of one kind, in order. */
  function Rows(ts: seq<Target>, kind: Kind): seq<nat>
  {
    if ts == [] then [] else Rows(ts[..|ts| - 1], kind) + Select(ts[|ts| - 1], kind)
  }

  /** The target that mentions id `row` as a detector or as an observable. */
  function TargetOf(kind: Kind, row: nat): Target
  {
    if kind == DetectorKind then Detector(row) else Observable(row)
  }

  /** Incidences (row, column) for one column. */
  function Tag(rows: seq<nat>, col: nat): seq<(nat, nat)>
  {
    seq(|rows|, k requires 0 <= k < |rows| => (rows[k], col))
  }

  /** The triplet list of one kind, in the order the builder records it. */
  function Incidences(ms: seq<Mechanism>, kind: Kind): seq<(nat, nat)>
  {
    if ms == [] then [] else Incidences(ms[..|ms| - 1], kind) + Tag(Rows(ms[|ms| - 1].targets, kind), |ms| - 1)
  }

  function Zip(a: seq<nat>, b: seq<nat>): seq<(nat, nat)>
    requires |a| == |b|
  {
    seq(|a|, k requires 0 <= k < |a| => (a[k], b[k]))
  }

  /**
   * A compressed sparse matrix built from unit triplets, as a dense matrix:
   * duplicate triplets are summed in the uint8 data type, so an entry is the
   * number of its triplets modulo 256.
   */
  function Densify(triplets: seq<(nat, nat)>, rows: nat, cols: nat): Matrix
  {
    seq(rows, r requires 0 <= r < rows => seq(cols, c requires 0 <= c < cols => multiset(triplets)[(r, c)] % 256))
  }

  /** Reference meaning of the builder's result: entry (r, c) is the number of
      times the c-th mechanism names detector r (observable r for L), mod 256. */
  function Expected(dem: ErrorModel): Matrices
  {
    var cols := Columns(dem.instructions);
    Matrices(
      seq(dem.numDetectors, r requires 0 <= r < dem.numDetectors =>
        seq(|cols|, c requires 0 <= c < |cols| => multiset(cols[c].targets)[Detector(r)] % 256)),
      seq(dem.numObservables, r requires 0 <= r < dem.numObservables =>
        seq(|cols|, c requires 0 <= c < |cols| => multiset(cols[c].targets)[Observable(r)] % 256)),
      Priors(cols))
  }

  /** The prior of each column, in column order. */
  function Priors(ms: seq<Mechanism>): seq<real>
  {
    seq(|ms|, c requires 0 <= c < |ms| => ms[c].probability)
  }

  // ---------------------------------------------------------------------------
  // Lemmas about the specification

  lemma {:induction false} ColumnsPrefix(instrs: seq<DemInstruction>, k: nat)
    requires k <= |instrs|
    ensures |Columns(instrs[..k])| <= |Columns(instrs)|
    ensures Columns(instrs[..k]) == Columns(instrs)[..|Columns(instrs[..k])|]
    decreases |instrs|
  {
    if k < |instrs| {
      var n := |instrs| - 1;
      assert instrs[..n][..k] == instrs[..k];
      ColumnsPrefix(instrs[..n], k);
    } else {
      assert instrs[..k] == instrs;
    }
  }

  /**
   * Column numbering: the k-th instruction, when it is an error, is column
   * number (errors before it), and every column is an error instruction.
   */
  lemma ColumnOfInstruction(instrs: seq<DemInstruction>, k: nat)
    requires k < |instrs| && instrs[k].Error?
    ensures |Columns(instrs[..k])| < |Columns(instrs)|
    ensures Columns(instrs)[|Columns(instrs[..k])|] == instrs[k].mechanism
  {
    assert instrs[..k + 1][..k] == instrs[..k];
    ColumnsPrefix(instrs, k + 1);
  }

  /** The number of columns is the number of error instructions. */
  lemma {:induction false} ColumnCount(instrs: seq<DemInstruction>)
    ensures |Columns(instrs)| == |set k | 0 <= k < |instrs| && instrs[k].Error?|
  {
    if instrs != [] {
      var n := |instrs| - 1;
      ColumnCount(instrs[..n]);
      var before := set k | 0 <= k < n && instrs[..n][k].Error?;
      var all := set k | 0 <= k < |instrs| && instrs[k].Error?;
      if instrs[n].Error? {
        assert all == before + {n};
      } else {
        assert all == before;
      }
    }
  }

  lemma SelectCount(t: Target, kind: Kind, row: nat)
    ensures multiset(Select(t, kind))[row] == multiset([t])[TargetOf(kind, row)]
  {
    match t
    case Detector(id) =>
    case Observable(id) =>
    case Separator =>
  }

  lemma {:induction false} RowsCount(ts: seq<Target>, kind: Kind, row: nat)
    ensures multiset(Rows(ts, kind))[row] == multiset(ts)[TargetOf(kind, row)]
  {
    if ts != [] {
      var n := |ts| - 1;
      var init, last := ts[..n], ts[n];
      RowsCount(init, kind, row);
      SelectCount(last, kind, row);
      assert Rows(ts, kind) == Rows(init, kind) + Select(last, kind);
      assert multiset(ts) == multiset(init) + multiset([last]) by {
        assert ts == init + [last];
      }
    }
  }

  lemma TagAppend(rows: seq<nat>, more: seq<nat>, col: nat)
    ensures Tag(rows + more, col) == Tag(rows, col) + Tag(more, col)
  {
  }

  lemma ZipSnoc(a: seq<nat>, b: seq<nat>, x: nat, y: nat)
    requires |a| == |b|
    ensures Zip(a + [x], b + [y]) == Zip(a, b) + [(x, y)]
  {
  }

  lemma {:induction false} TagCount(rows: seq<nat>, col: nat, r: nat, c: nat)
    ensures multiset(Tag(rows, col))[(r, c)] == if c == col then multiset(rows)[r] else 0
  {
    if rows != [] {
      var n := |rows| - 1;
      TagCount(rows[..n], col, r, c);
      assert Tag(rows, col) == Tag(rows[..n], col) + [(rows[n], col)];
      assert rows == rows[..n] + [rows[n]];
    }
  }

  /** Entry semantics of the triplet list: it holds (r, c) once per mention of row r by mechanism c. */
  lemma {:induction false} IncidenceCount(ms: seq<Mechanism>, kind: Kind, r: nat, c: nat)
    ensures multiset(Incidences(ms, kind))[(r, c)] ==
            if c < |ms| then multiset(ms[c].targets)[TargetOf(kind, r)] else 0
  {
    if ms != [] {
      var n := |ms| - 1;
      IncidenceCount(ms[..n], kind, r, c);
      TagCount(Rows(ms[n].targets, kind), n, r, c);
      RowsCount(ms[n].targets, kind, r);
    }
  }

  /** The builder's shapes: H is detectors x errors, L observables x errors, one prior per error. */
  lemma Shapes(dem: ErrorModel)
    ensures var m := Expected(dem);
      var errors := |Columns(dem.instructions)|;
      && HasShape(m.H, dem.numDetectors, errors)
      && HasShape(m.L, dem.numObservables, errors)
      && |m.priors| == errors
  {
  }

  /** A model without error instructions gives empty priors and zero-column matrices. */
  lemma NoErrors(dem: ErrorModel)
    requires forall i :: 0 <= i < |dem.instructions| ==> !dem.instructions[i].Error?
    ensures Expected(dem).priors == []
    ensures HasShape(Expected(dem).H, dem.numDetectors, 0)
    ensures HasShape(Expected(dem).L, dem.numObservables, 0)
  {
    ColumnCount(dem.instructions);
    assert (set k | 0 <= k < |dem.instructions| && dem.instructions[k].Error?) == {};
  }

  /** Detector and observable ids named at most once (`^` separators may repeat). */
  predicate DistinctIds(ts: seq<Target>)
  {
    forall i, j :: 0 <= i < j < |ts| && !ts[i].Separator? ==> ts[i] != ts[j]
  }

  lemma {:induction false} DistinctCount(ts: seq<Target>, x: Target)
    requires DistinctIds(ts) && !x.Separator?
    ensures multiset(ts)[x] == if x in ts then 1 else 0
  {
    if ts != [] {
      var n := |ts| - 1;
      DistinctCount(ts[..n], x);
      assert ts == ts[..n] + [ts[n]];
    }
  }

  /**
   * When a mechanism names no detector or observable twice, its column of H
   * and L is the 0/1 incidence vector, however many `^` parts it has.
   */
  lemma BinaryWhenDistinct(dem: ErrorModel, r: nat, c: nat)
    requires c < |Columns(dem.instructions)|
    requires DistinctIds(Columns(dem.instructions)[c].targets)
    ensures var ts := Columns(dem.instructions)[c].targets;
      && (r < dem.numDetectors ==> Expected(dem).H[r][c] == if Detector(r) in ts then 1 else 0)
      && (r < dem.numObservables ==> Expected(dem).L[r][c] == if Observable(r) in ts then 1 else 0)
  {
    var ts := Columns(dem.instructions)[c].targets;
    DistinctCount(ts, Detector(r));
    DistinctCount(ts, Observable(r));
  }

  function StripSeparators(ts: seq<Target>): (r: seq<Target>)
    ensures forall t :: t in r <==> t in ts && !t.Separator?
  {
    if ts == [] then [] else (if ts[0].Separator? then [] else [ts[0]]) + StripSeparators(ts[1..])
  }

  function StripInstruction(instr: DemInstruction): DemInstruction
  {
    match instr
    case Error(m) => Error(Mechanism(m.probability, StripSeparators(m.targets)))
    case Declaration(_, _) => instr
  }

  lemma {:induction false} StripKeepsCounts(ts: seq<Target>, t: Target)
    requires !t.Separator?
    ensures multiset(StripSeparators(ts))[t] == multiset(ts)[t]
  {
    if ts != [] {
      var head, rest := ts[0], ts[1..];
      StripKeepsCounts(rest, t);
      assert multiset(ts) == multiset([head]) + multiset(rest) by {
        assert ts == [head] + rest;
      }
      assert StripSeparators(ts) == (if head.Separator? then [] else [head]) + StripSeparators(rest);
    }
  }

  function StripAll(instrs: seq<DemInstruction>): (r: seq<DemInstruction>)
    ensures |r| == |instrs|
  {
    seq(|instrs|, i requires 0 <= i < |instrs| => StripInstruction(instrs[i]))
  }

  lemma {:induction false} StripColumns(instrs: seq<DemInstruction>)
    ensures |Columns(StripAll(instrs))| == |Columns(instrs)|
    ensures forall c :: 0 <= c < |Columns(instrs)| ==>
      Columns(StripAll(instrs))[c] == Mechanism(Columns(instrs)[c].probability, StripSeparators(Columns(instrs)[c].targets))
  {
    if instrs != [] {
      var n := |instrs| - 1;
      StripColumns(instrs[..n]);
      assert StripAll(instrs)[..n] == StripAll(instrs[..n]);
      var last := instrs[n];
      assert StripAll(instrs)[n] == StripInstruction(last);
      if last.Error? {
        assert Columns(StripAll(instrs)) == Columns(StripAll(instrs[..n])) + [StripInstruction(last).mechanism];
        assert Columns(instrs) == Columns(instrs[..n]) + [last.mechanism];
      } else {
        assert Columns(StripAll(instrs)) == Columns(StripAll(instrs[..n]));
        assert Columns(instrs) == Columns(instrs[..n]);
      }
    }
  }

  /** Targets that are neither detectors nor observables contribute nothing to H or L. */
  lemma SeparatorsIgnored(dem: ErrorModel)
    ensures Expected(ErrorModel(dem.numDetectors, dem.numObservables, StripAll(dem.instructions))) == Expected(dem)
  {
    var instrs := dem.instructions;
    var cols, scols := Columns(instrs), Columns(StripAll(instrs));
    var e, f := Expected(dem), Expected(ErrorModel(dem.numDetectors, dem.numObservables, StripAll(instrs)));
    StripColumns(instrs);
    forall r | 0 <= r < dem.numDetectors
      ensures f.H[r] == e.H[r]
    {
      forall c | 0 <= c < |cols|
        ensures f.H[r][c] == e.H[r][c]
      {
        StripKeepsCounts(cols[c].targets, Detector(r));
      }
    }
    forall r | 0 <= r < dem.numObservables
      ensures f.L[r] == e.L[r]
    {
      forall c | 0 <= c < |cols|
        ensures f.L[r][c] == e.L[r][c]
      {
        StripKeepsCounts(cols[c].targets, Observable(r));
      }
    }
    assert f.priors == e.priors;
  }

  // ---------------------------------------------------------------------------
  // The builder

  lemma DensifyIncidences(dem: ErrorModel, kind: Kind)
    ensures var cols := Columns(dem.instructions);
      && (kind == DetectorKind ==> Densify(Incidences(cols, kind), dem.numDetectors, |cols|) == Expected(dem).H)
      && (kind == ObservableKind ==> Densify(Incidences(cols, kind), dem.numObservables, |cols|) == Expected(dem).L)
  {
    var cols := Columns(dem.instructions);
    var rows := if kind == DetectorKind then dem.numDetectors else dem.numObservables;
    var dense := Densify(Incidences(cols, kind), rows, |cols|);
    var expected := if kind == DetectorKind then Expected(dem).H else Expected(dem).L;
    forall r | 0 <= r < rows
      ensures dense[r] == expected[r]
    {
      forall c | 0 <= c < |cols|
        ensures dense[r][c] == expected[r][c]
      {
        IncidenceCount(cols, kind, r, c);
      }
    }
  }

  lemma ColumnsStep(instrs: seq<DemInstruction>, i: nat)
    requires i < |instrs|
    ensures Columns(instrs[..i + 1]) == Columns(instrs[..i]) + if instrs[i].Error? then [instrs[i].mechanism] else []
  {
    assert instrs[..i + 1][..i] == instrs[..i];
  }

  lemma PriorsSnoc(ms: seq<Mechanism>, m: Mechanism)
    ensures Priors(ms + [m]) == Priors(ms) + [m.probability]
  {
  }

  lemma IncidencesSnoc(ms: seq<Mechanism>, m: Mechanism, kind: Kind)
    ensures Incidences(ms + [m], kind) == Incidences(ms, kind) + Tag(Rows(m.targets, kind), |ms|)
  {
    assert (ms + [m])[..|ms|] == ms;
  }

  /** Target j of the inner loop: it extends the triplet list of its own kind and leaves the other alone. */
  lemma RecordTarget(rows: seq<nat>, cols: seq<nat>, done: seq<(nat, nat)>, ts: seq<Target>, j: nat, col: nat, kind: Kind)
    requires j < |ts|
    requires |rows| == |cols| && Zip(rows, cols) == done + Tag(Rows(ts[..j], kind), col)
    ensures var t := ts[j];
      var selected := if kind == DetectorKind then t.Detector? else t.Observable?;
      && (selected ==> Zip(rows + [t.id], cols + [col]) == done + Tag(Rows(ts[..j + 1], kind), col))
      && (!selected ==> Zip(rows, cols) == done + Tag(Rows(ts[..j + 1], kind), col))
  {
    var t := ts[j];
    assert ts[..j + 1][..j] == ts[..j];
    TagAppend(Rows(ts[..j], kind), Select(t, kind), col);
    if Select(t, kind) != [] {
      ZipSnoc(rows, cols, t.id, col);
    }
  }

  /**
   * dem_to_matrices: walk the flattened model, give each error instruction
   * the next column, record one (row, column) triplet per detector and per
   * observable target, then materialise H, L and the priors.
   */
  method DemToMatrices(dem: ErrorModel) returns (m: Matrices)
    requires WellFormed(dem)
    ensures m == Expected(dem)
    ensures HasShape(m.H, dem.numDetectors, |m.priors|)
    ensures HasShape(m.L, dem.numObservables, |m.priors|)
    ensures forall c :: 0 <= c < |m.priors| ==> m.priors[c] == Columns(dem.instructions)[c].probability
  {
    var instrs := dem.instructions;
    var rowsH: seq<nat>, colsH: seq<nat>, rowsL: seq<nat>, colsL: seq<nat> := [], [], [], [];
    var priors: seq<real> := [];
    var colIdx: nat := 0;
    for i := 0 to |instrs|
      invariant colIdx == |Columns(instrs[..i])|
      invariant priors == Priors(Columns(instrs[..i]))
      invariant |rowsH| == |colsH| && Zip(rowsH, colsH) == Incidences(Columns(instrs[..i]), DetectorKind)
      invariant |rowsL| == |colsL| && Zip(rowsL, colsL) == Incidences(Columns(instrs[..i]), ObservableKind)
    {
      ghost var before := Columns(instrs[..i]);
      ColumnsStep(instrs, i);
      if instrs[i].Error? {
        var mech := instrs[i].mechanism;
        PriorsSnoc(before, mech);
        priors := priors + [mech.probability];
        ghost var doneH, doneL := Zip(rowsH, colsH), Zip(rowsL, colsL);
        for j := 0 to |mech.targets|
          invariant |rowsH| == |colsH| && Zip(rowsH, colsH) == doneH + Tag(Rows(mech.targets[..j], DetectorKind), colIdx)
          invariant |rowsL| == |colsL| && Zip(rowsL, colsL) == doneL + Tag(Rows(mech.targets[..j], ObservableKind), colIdx)
        {
          var t := mech.targets[j];
          RecordTarget(rowsH, colsH, doneH, mech.targets, j, colIdx, DetectorKind);
          RecordTarget(rowsL, colsL, doneL, mech.targets, j, colIdx, ObservableKind);
          if t.Detector? {
            rowsH, colsH := rowsH + [t.id], colsH + [colIdx];
          } else if t.Observable? {
            rowsL, colsL := rowsL + [t.id], colsL + [colIdx];
          }
        }
        assert mech.targets[..|mech.targets|] == mech.targets;
        assert Columns(instrs[..i + 1]) == before + [mech];
        IncidencesSnoc(before, mech, DetectorKind);
        IncidencesSnoc(before, mech, ObservableKind);
        colIdx := colIdx + 1;
      } else {
        assert Columns(instrs[..i + 1]) == before;
      }
    }
    assert instrs[..|instrs|] == instrs;
    DensifyIncidences(dem, DetectorKind);
    DensifyIncidences(dem, ObservableKind);
    m := Matrices(Densify(Zip(rowsH, colsH), dem.numDetectors, colIdx),
                  Densify(Zip(rowsL, colsL), dem.numObservables, colIdx),
                  priors);
  }
}
