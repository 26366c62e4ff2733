/** Selection rules the two neural-network interfaces (the native NNsMD model and
    the E2N2 graph model) share, written identically in both: training-mode
    normalisation, the model name and folder, the factors converting energies,
    gradients and couplings between atomic units and eV/Angstrom, and the
    validation table each training run appends to its log. */
module MlCommon {
  import opened Values
  import opened Text
  import opened Trajectories

  // ---------------------------------------------------------------------------
  // Training mode, name and folder

  predicate KnownTrainMode(mode: string)
  {
    mode == "training" || mode == "retraining" || mode == "resample"
  }

  /** Any training mode outside the three known ones falls back to `training`. */
  function NormalizeTrainMode(mode: string): (r: string)
    ensures KnownTrainMode(r)
    ensures KnownTrainMode(mode) ==> r == mode
    ensures !KnownTrainMode(mode) ==> r == "training"
  {
    if mode == "training" || mode == "retraining" || mode == "resample" then mode
    else "training"
  }

  /** Normalising twice changes nothing more than normalising once. */
  lemma NormalizeTrainModeIdempotent(mode: string)
    ensures NormalizeTrainMode(NormalizeTrainMode(mode)) == NormalizeTrainMode(mode)
  {
  }

  /** `NN-<title>` for the default job, `NN-<title>-<job_id>` for any other. */
  function ModelName(title: string, jobId: Option<JobId>): (r: string)
    ensures |r| >= 3 + |title| && r[..3 + |title|] == "NN-" + title
    ensures r == "NN-" + title <==> IsDefaultJob(jobId)
    ensures !IsDefaultJob(jobId) ==>
              |r| >= 4 + |title| && r[3 + |title|] == '-' && r[4 + |title|..] == ShowJobId(jobId.value)
  {
    if jobId == None || jobId == Some(IntId(1)) then "NN-" + title
    else "NN-" + title + "-" + ShowJobId(jobId.value)
  }

  /** Where the model is saved and loaded: the given folder only for the default
      job, the model name otherwise. */
  function ModelPath(name: string, modeldir: Option<string>, jobId: Option<JobId>): (r: string)
    ensures modeldir.Some? && IsDefaultJob(jobId) ==> r == modeldir.value
    ensures !(modeldir.Some? && IsDefaultJob(jobId)) ==> r == name
  {
    if modeldir == None || !(jobId == None || jobId == Some(IntId(1))) then name
    else modeldir.value
  }

  /** Jobs running side by side under different integer indices never share a
      model folder, whatever folder the keywords give. */
  lemma IndexedJobsUseOwnFolders(title: string, modeldir: Option<string>, i: int, j: int)
    requires i != j && i != 1 && j != 1
    ensures ModelPath(ModelName(title, Some(IntId(i))), modeldir, Some(IntId(i)))
         != ModelPath(ModelName(title, Some(IntId(j))), modeldir, Some(IntId(j)))
  {
    var a := ModelName(title, Some(IntId(i)));
    var b := ModelName(title, Some(IntId(j)));
    if a == b {
      assert a[4 + |title|..] == b[4 + |title|..];
      IntToStringInjective(i, j);
    }
  }

  // ---------------------------------------------------------------------------
  // Unit factors

  const HartreeInEv: real := 27.211396132
  const BohrInAngstrom: real := 0.529177249
  /** Hartree/Bohr in eV/Angstrom. */
  const HartreePerBohrInEvPerA: real := 27.211396132 / 0.529177249

  /** `f_e`, `f_g` scale atomic-unit data into the training unit; `k_e`, `k_g`
      scale errors in the training unit into eV and eV/Angstrom. */
  datatype EgFactors = EgFactors(fE: real, fG: real, kE: real, kG: real)

  datatype NacFactors = NacFactors(fN: real, kN: real)

  /** Training in `si` converts the data; otherwise the errors are converted. */
  function EgUnitFactors(egUnit: string): (r: EgFactors)
    ensures r.fE * r.kE == HartreeInEv && r.fG * r.kG == HartreePerBohrInEvPerA
    ensures (r.fE == 1.0) != (r.kE == 1.0) && (r.fG == 1.0) != (r.kG == 1.0)
    ensures r.kE == 1.0 <==> egUnit == "si"
  {
    if egUnit == "si" then EgFactors(HartreeInEv, HartreePerBohrInEvPerA, 1.0, 1.0)
    else EgFactors(1.0, 1.0, HartreeInEv, HartreePerBohrInEvPerA)
  }

  function NacUnitFactors(nacUnit: string): (r: NacFactors)
    ensures r.fN * r.kN == HartreePerBohrInEvPerA
    ensures (r.fN == 1.0) != (r.kN == 1.0)
    ensures r.kN == 1.0 <==> nacUnit == "si"
  {
    if nacUnit == "si" then NacFactors(HartreePerBohrInEvPerA, 1.0)
    else NacFactors(1.0, HartreePerBohrInEvPerA)
  }

  /** An error made on data scaled by `f` and reported after scaling by `k` is the
      atomic-unit error times the fixed conversion, whichever unit was trained in:
      the reported energy and gradient errors are in eV and eV/Angstrom. */
  lemma ReportedErrorsAreInEv(egUnit: string, errE: real, errG: real)
    ensures var u := EgUnitFactors(egUnit);
            (errE * u.fE) * u.kE == errE * HartreeInEv &&
            (errG * u.fG) * u.kG == errG * HartreePerBohrInEvPerA
  {
    var u := EgUnitFactors(egUnit);
    assert (errE * u.fE) * u.kE == errE * (u.fE * u.kE);
    assert (errG * u.fG) * u.kG == errG * (u.fG * u.kG);
  }

  // ---------------------------------------------------------------------------
  // Validation metrics and the table written to the log

  /** Validation mean absolute errors of the two networks of each kind. */
  datatype Metrics = Metrics(e1: real, g1: real, n1: real, s1: real,
                             e2: real, g2: real, n2: real, s2: real)

  /** The eight values in the order the table prints them. */
  function MetricValues(m: Metrics): (r: seq<real>)
    ensures |r| == 8
  {
    [m.e1, m.g1, m.n1, m.s1, m.e2, m.g2, m.n2, m.s2]
  }

  /** `c * n`. */
  function Repeat(c: char, n: nat): (r: string)
    ensures |r| == n
    ensures forall i :: 0 <= i < n ==> r[i] == c
  {
    if n == 0 then "" else [c] + Repeat(c, n - 1)
  }

  function Spaces(n: nat): (r: string)
    ensures |r| == n && AllSpaces(r)
    ensures forall i :: 0 <= i < n ==> r[i] == ' '
  {
    Repeat(' ', n)
  }

  /** `'%12.8f' % x`: the digits `fixed(x)` gives for `'%.8f' % x`, right-aligned in
      twelve columns. */
  function Cell(fixed: real -> string, x: real): string
  {
    Spaces(if |fixed(x)| < 12 then 12 - |fixed(x)| else 0) + fixed(x)
  }

  /** The cells of one row, each after a single space. */
  function Cells(fixed: real -> string, xs: seq<real>): string
  {
    if xs == [] then "" else " " + Cell(fixed, xs[0]) + Cells(fixed, xs[1..])
  }

  /** `'  %12.8f %12.8f %12.8f %12.8f'`: two leading spaces, then the cells. */
  function Row(fixed: real -> string, xs: seq<real>): string
  {
    " " + Cells(fixed, xs)
  }

  /** The heading the remote reader searches for. */
  const ValidationHeader: string := "&nn validation mean absolute error"
  const TableHeader: string := "  " + ValidationHeader
  /** Fifty-five dashes. */
  const TableRule: string := Repeat('-', 55)
  const TableNames: string :=
    Spaces(6) + "energy" + Spaces(7) + "gradient" + Spaces(7) + "nac" + Spaces(10) + "soc"
  const TableUnits: string :=
    Spaces(8) + "eV" + Spaces(11) + "eV/A" + Spaces(9) + "eV/A" + Spaces(9) + "cm-1"

  /** The lines of the validation table appended to the training log. */
  function TableLines(fixed: real -> string, m: Metrics): (r: seq<string>)
    ensures |r| == 8 && r[1] == TableHeader
  {
    ["", TableHeader, TableRule, TableNames, TableUnits,
     Row(fixed, [m.e1, m.g1, m.n1, m.s1]), Row(fixed, [m.e2, m.g2, m.n2, m.s2]), ""]
  }

  /** Splitting a row on whitespace gives back the printed numbers, one per cell,
      provided each is a single whitespace-free word. */
  lemma {:induction false} SplitCells(fixed: real -> string, xs: seq<real>)
    requires forall k :: 0 <= k < |xs| ==> IsToken(fixed(xs[k]))
    ensures SplitWs(Cells(fixed, xs)) == seq(|xs|, k requires 0 <= k < |xs| => fixed(xs[k]))
  {
    if xs != [] {
      var pad := Spaces(if |fixed(xs[0])| < 12 then 12 - |fixed(xs[0])| else 0);
      var rest := Cells(fixed, xs[1..]);
      SplitCells(fixed, xs[1..]);
      assert " " + Cell(fixed, xs[0]) + rest == (" " + pad) + (fixed(xs[0]) + rest);
      SplitSkipsSpaces(" " + pad, fixed(xs[0]) + rest);
      SplitToken(fixed(xs[0]), rest);
    }
  }

  lemma SplitRow(fixed: real -> string, xs: seq<real>)
    requires forall k :: 0 <= k < |xs| ==> IsToken(fixed(xs[k]))
    ensures SplitWs(Row(fixed, xs)) == seq(|xs|, k requires 0 <= k < |xs| => fixed(xs[k]))
  {
    SplitCells(fixed, xs);
    SplitSkipsSpaces(" ", Cells(fixed, xs));
  }

  /** Every character of a row is a space or comes from a printed number. */
  lemma {:induction false} CellsChars(fixed: real -> string, xs: seq<real>, c: char)
    requires c in Cells(fixed, xs) && c != ' '
    ensures exists k :: 0 <= k < |xs| && c in fixed(xs[k])
  {
    if xs != [] {
      var pad := Spaces(if |fixed(xs[0])| < 12 then 12 - |fixed(xs[0])| else 0);
      var rest := Cells(fixed, xs[1..]);
      assert Cells(fixed, xs) == (" " + pad) + fixed(xs[0]) + rest;
      assert c in fixed(xs[0]) || c in rest by {
        assert c !in " " + pad;
      }
      if c in rest {
        CellsChars(fixed, xs[1..], c);
        var k :| 0 <= k < |xs[1..]| && c in fixed(xs[1..][k]);
        assert c in fixed(xs[k + 1]);
      }
    }
  }

  // ---------------------------------------------------------------------------
  // Training data, fit errors and predictions

  /** The training set a model is built from; arrays are in atomic units. */
  datatype TrainingData = TrainingData(
    natom: nat, nstate: nat, info: map<string, Value>,
    energy: Tensor, grad: Tensor, nac: Tensor, soc: Tensor)

  /** Validation errors of the two energy+gradient networks. */
  datatype EgFit = EgFit(e1: real, g1: real, e2: real, g2: real)

  /** Validation errors of the two networks of a single property. */
  datatype TwinFit = TwinFit(first: real, second: real)

  /** The errors a training run reports per property; absent for a property
      whose networks were not trained. */
  datatype FitErrors = FitErrors(eg: Option<EgFit>, nac: Option<TwinFit>, soc: Option<TwinFit>)

  /** What a training run returns: the table values, the elapsed time, the
      formatted wall time, the working directory and status 1. */
  datatype TrainOutcome = TrainOutcome(metrics: Metrics, time: real, walltime: string,
                                       path: string, status: int)

  /** `IndexError` for `a[0]` on an array with no first row; `ValueError` for
      `np.amax` of an empty array, a reshape to the wrong size, or averaging
      arrays of different shapes; `KeyError` for a missing prediction. */
  datatype QmError = IndexError | ValueError | KeyError

  /** The eight values `_qm` hands back: four arrays and four error estimates
      (the integer 0 for a property the model does not predict). */
  datatype QmResults = QmResults(energy: Tensor, gradient: Tensor, nac: Tensor, soc: Tensor,
                                 errEnergy: Value, errGrad: Value, errNac: Value, errSoc: Value)

  /** The largest element. */
  function MaxOf(xs: seq<real>): (r: real)
    requires |xs| > 0
    ensures r in xs
    ensures forall k :: 0 <= k < |xs| ==> xs[k] <= r
  {
    if |xs| == 1 then xs[0]
    else
      var m := MaxOf(xs[1..]);
      if xs[0] >= m then xs[0] else m
  }

  /** `np.amax(t)`: numpy refuses an empty array. */
  function AMax(t: Tensor): (r: Result<real, QmError>)
    ensures r.Err? <==> |t.data| == 0
    ensures r.Err? ==> r.error == ValueError
    ensures r.Ok? ==> r.value in t.data && forall k :: 0 <= k < |t.data| ==> t.data[k] <= r.value
  {
    if |t.data| == 0 then Err(ValueError) else Ok(MaxOf(t.data))
  }

  /** `t / f`. */
  function Divide(t: Tensor, f: real): (r: Tensor)
    requires f != 0.0
    ensures WellShaped(t) ==> WellShaped(r)
  {
    Scale(t, 1.0 / f)
  }

  /** The error estimate of a property: the largest spread, as a float. */
  predicate IsLargest(v: Value, t: Tensor)
  {
    v.VReal? && v.r in t.data && forall k :: 0 <= k < |t.data| ==> t.data[k] <= v.r
  }

  /** `t[0]`: the first row, which a zero-dimensional or empty array lacks. */
  function First(t: Tensor): (r: Result<Tensor, QmError>)
    requires WellShaped(t)
    ensures r.Err? <==> t.shape == [] || t.shape[0] == 0
    ensures r.Err? ==> r.error == IndexError
    ensures r.Ok? ==> WellShaped(r.value) && r.value.shape == t.shape[1..] &&
                      r.value.data == t.data[..Product(t.shape[1..])]
  {
    if t.shape == [] || t.shape[0] == 0 then Err(IndexError)
    else
      var rest := Product(t.shape[1..]);
      assert Product(t.shape) == t.shape[0] * rest;
      assert rest <= t.shape[0] * rest;
      Ok(Tensor(t.shape[1..], t.data[..rest]))
  }

  /** The empty array (`np.copy([])`) a model records for a property it does not
      predict. */
  const NoPrediction: Tensor := Tensor([0], [])

  /** The trajectory after `evaluate` has copied the `_qm` results into it. */
  function Recorded(st: TrajState, q: QmResults): TrajState
  {
    WithResults(st, q.energy, q.gradient, q.nac, q.soc,
                q.errEnergy, q.errGrad, q.errNac, q.errSoc, 1)
  }
}
