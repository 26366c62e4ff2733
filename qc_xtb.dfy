/** The xTB single-point interface: the calculation folder and run script, the
    input files, the scan of xTB's `.engrad` output for the energy and gradient,
    and `evaluate`, which chooses the run type and records the results and a
    completion flag in the trajectory. Running xTB itself and the file system are
    outside the model: the `.engrad` lines xTB leaves behind are a parameter,
    and so are `float()` and the projection of the gradient in QM/MM runs. */
module QcXtb {
  import opened Values
  import opened Text
  import opened Trajectories

  /** `keywords['xtb']`. */
  datatype XtbKeywords = XtbKeywords(
    keepTmp: int, verbose: int, xtbProject: string, xtbWorkdir: string,
    xtb: string, xtbNproc: int, useHpc: int)

  // ---------------------------------------------------------------------------
  // Calculation folder and run script

  /** The calculation folder: any job index gets its own sub-folder. */
  function Workdir(base: string, jobId: Option<JobId>): (r: string)
    ensures r == base + "/tmp_xtb" <==> jobId.None?
    ensures jobId.Some? ==> |r| >= |base| + 9 && r[..|base| + 9] == base + "/tmp_xtb-" &&
                            r[|base| + 9..] == ShowJobId(jobId.value)
  {
    if jobId.Some? then base + "/tmp_xtb-" + ShowJobId(jobId.value)
    else if jobId == Some(StrId("Read")) then base
    else base + "/tmp_xtb"
  }

  /** The branch meant to keep the folder unchanged for the index `'Read'` is never
      taken: `'Read'` is not `None`, so it gets a sub-folder like any other index. */
  lemma ReadGetsSubfolder(base: string)
    ensures Workdir(base, Some(StrId("Read"))) == base + "/tmp_xtb-Read"
    ensures Workdir(base, Some(StrId("Read"))) != base
  {
  }

  const XtbCommand: string :=
    "$XTBPATH/bin/xtb --grad -I $XTB_WORKDIR/$XTB_PROJECT.inp $XTB_WORKDIR/$XTB_PROJECT.xyz > "
    + "$XTB_WORKDIR/$XTB_PROJECT.out\n "

  /** The shell script that runs xTB inside the calculation folder. */
  function RunScript(project: string, xtb: string, nproc: int, workdir: string): string
  {
    ("\nexport XTB_PROJECT=" + project + "\nexport XTBPATH=" + xtb +
     "\nexport OMP_NUM_THREADS=" + IntToString(nproc) + "\n")
    + ("export XTB_WORKDIR=" + workdir + "\n")
    + ("\ncd $XTB_WORKDIR\n" + XtbCommand)
  }

  /** The script exports the calculation folder and ends with the xTB command, so
      xTB runs on the input files written into that folder. */
  lemma RunScriptEntersWorkdir(project: string, xtb: string, nproc: int, workdir: string)
    ensures var r := RunScript(project, xtb, nproc, workdir);
            Contains(r, "export XTB_WORKDIR=" + workdir + "\n") &&
            |r| >= |XtbCommand| && r[|r| - |XtbCommand|..] == XtbCommand
  {
    ContainsAfter("\nexport XTB_PROJECT=" + project + "\nexport XTBPATH=" + xtb +
                  "\nexport OMP_NUM_THREADS=" + IntToString(nproc) + "\n",
                  "export XTB_WORKDIR=" + workdir + "\n",
                  "\ncd $XTB_WORKDIR\n" + XtbCommand);
  }

  // ---------------------------------------------------------------------------
  // Input files

  /** The `$embedding` block pointing xTB at a point-charge file. */
  function EmbeddingSection(target: string): string
  {
    "$embedding\ninput=" + target + "\n$end\n"
  }

  /** Different point-charge files give different embedding blocks. */
  lemma EmbeddingSectionInjective(t1: string, t2: string)
    requires EmbeddingSection(t1) == EmbeddingSection(t2)
    ensures t1 == t2
  {
    var s := EmbeddingSection(t1);
    assert t1 == s[17..|s| - 6];
    assert t2 == EmbeddingSection(t2)[17..|EmbeddingSection(t2)| - 6];
  }

  /** As written, the block names a file after the point-charge TEXT
      (`'...input=%s.pc...' % charge`). */
  function EmbeddingAsWritten(project: string, chargeText: string): string
  {
    EmbeddingSection(chargeText + ".pc")
  }

  /** The file the block should name: the `.pc` file written beside the input. */
  function Embedding(project: string, chargeText: string): (r: string)
    ensures r == EmbeddingSection(PointChargeFile(project))
  {
    EmbeddingSection(project + ".pc")
  }

  /** Name of the point-charge file inside the calculation folder. */
  function PointChargeFile(project: string): string
  {
    project + ".pc"
  }

  /** As written, the block refers to the charge file only in the unlikely case that
      the charge text equals the project name; e.g. for project `mol` and one
      charge `0.5 0.0 0.0 1.0` it names `0.5 0.0 0.0 1.0.pc`, not `mol.pc`. */
  lemma EmbeddingAsWrittenMissesFile(project: string, chargeText: string)
    requires chargeText != project
    ensures EmbeddingAsWritten(project, chargeText) != EmbeddingSection(PointChargeFile(project))
  {
    if EmbeddingAsWritten(project, chargeText) == EmbeddingSection(PointChargeFile(project)) {
      EmbeddingSectionInjective(chargeText + ".pc", project + ".pc");
      SuffixCancels(chargeText, project, ".pc");
    }
  }

  lemma SuffixCancels(a: string, b: string, t: string)
    requires a + t == b + t
    ensures a == b
  {
    assert |a| == |b|;
    assert a == (a + t)[..|a|];
    assert b == (b + t)[..|b|];
  }

  lemma EmbeddingExample()
    ensures EmbeddingAsWritten("mol", "0.5 0.0 0.0 1.0")
            == "$embedding\ninput=0.5 0.0 0.0 1.0.pc\n$end\n"
    ensures Embedding("mol", "0.5 0.0 0.0 1.0") == "$embedding\ninput=mol.pc\n$end\n"
  {
  }

  /** The files `_write_xtb` leaves in the calculation folder, by path. The
      coordinate and charge texts come from the formatting helpers, the template
      from `<project>.xtb` when it exists. */
  function InputFiles(workdir: string, project: string, natom: nat, coordText: string,
                      nCharges: nat, chargeText: string, template: Option<string>)
    : (files: map<string, string>)
    ensures workdir + "/" + project + ".xyz" in files
    ensures workdir + "/" + project + ".inp" in files
    ensures (workdir + "/" + project + ".pc" in files) <==> |chargeText| > 0
    ensures files[workdir + "/" + project + ".xyz"] == IntToString(natom) + "\n\n" + coordText
    ensures |chargeText| > 0 ==>
              files[workdir + "/" + project + ".pc"] == IntToString(nCharges) + "\n" + chargeText
    ensures |chargeText| > 0 ==>
              files[workdir + "/" + project + ".inp"]
              == (match template case Some(t) => t case None => "")
                 + EmbeddingSection(PointChargeFile(project))
    ensures |chargeText| == 0 ==>
              files[workdir + "/" + project + ".inp"]
              == (match template case Some(t) => t case None => "")
  {
    var xyz := IntToString(natom) + "\n\n" + coordText;
    var ldInput := match template case Some(t) => t case None => "";
    var xyzPath := workdir + "/" + project + ".xyz";
    var inpPath := workdir + "/" + project + ".inp";
    var pcPath := workdir + "/" + project + ".pc";
    assert xyzPath != inpPath && xyzPath != pcPath && inpPath != pcPath by {
      assert xyzPath[|xyzPath| - 3..] == "xyz";
      assert inpPath[|inpPath| - 3..] == "inp";
      assert pcPath[|pcPath| - 3..] == ".pc";
    }
    if |chargeText| > 0 then
      map[pcPath := IntToString(nCharges) + "\n" + chargeText,
          xyzPath := xyz,
          inpPath := ldInput + Embedding(project, chargeText)]
    else
      map[xyzPath := xyz, inpPath := ldInput]
  }

  /** `_write_xtb(x, q)`: the files for the charges `q` it is handed, which
      `print_charge` turns into text. The count above the charges is `len(q)`,
      which raises should absent charges print as a non-empty text. */
  function WriteInputs(workdir: string, project: string, natom: nat, coordText: string,
                       q: Option<Tensor>, printCharge: Option<Tensor> -> string,
                       template: Option<string>): (r: Result<map<string, string>, XtbError>)
    ensures r.Err? <==> q.None? && |printCharge(q)| > 0
    ensures r.Err? ==> r.error == TypeError
  {
    var text := printCharge(q);
    if |text| == 0 then Ok(InputFiles(workdir, project, natom, coordText, 0, text, template))
    else if q.None? then Err(TypeError)
    else Ok(InputFiles(workdir, project, natom, coordText, Len(q.value), text, template))
  }

  /** The message `_setup_hpc` exits with when `<project>.slurm` is missing. */
  function SlurmMissing(project: string): string
  {
    "\n  FileNotFoundError\n  xTB: looking for submission file " + project + ".slurm"
  }

  /** `_setup_hpc`: the batch file is the `<project>.slurm` template, a line break
      and the run script; without the template the run exits. */
  function HpcSubmission(project: string, runscript: string, template: Option<string>)
    : (r: Result<string, XtbError>)
    ensures r.Err? <==> template.None?
    ensures r.Err? ==> r.error == Exit(SlurmMissing(project))
    ensures r.Ok? ==> |r.value| == |template.value| + 1 + |runscript| &&
                      r.value[..|template.value|] == template.value &&
                      r.value[|template.value|] == '\n' &&
                      r.value[|template.value| + 1..] == runscript
  {
    match template
    case None => Err(Exit(SlurmMissing(project)))
    case Some(t) => Ok(t + "\n" + runscript)
  }

  // ---------------------------------------------------------------------------
  // Reading the .engrad file

  const EnergyMarker: string := "The current total energy in Eh"
  const GradientMarker: string := "The current gradient in Eh/bohr"

  /** Exceptions `_read_data`, `_qm` and `evaluate` can raise. */
  datatype XtbError =
    | IndexError              // energy marker in one of the last two lines
    | ValueError(text: string) // a line `float()` refuses
    | ReshapeError            // gradient block is not natom x 3 values
    | UnpackError             // `_read_data` returned five values to four names
    | RemoveError             // the folder to delete does not exist
    | TypeError               // `len(None)` on absent point charges
    | Exit(message: string)   // `sys.exit` with this message

  /** The lists `energy` and `gradient` while the lines are scanned. */
  datatype Scan = Scan(energy: seq<real>, gradient: seq<seq<real>>)

  /** Python's `s[i:j]` for non-negative bounds: clamped to the sequence. */
  function Slice<T>(s: seq<T>, i: nat, j: nat): (r: seq<T>)
    ensures |r| <= |s|
  {
    var lo := if i < |s| then i else |s|;
    var hi := if j < lo then lo else if j < |s| then j else |s|;
    s[lo..hi]
  }

  /** The natom*3 values starting two lines after line `n`, parsed. */
  function GradientBlock(log: seq<string>, n: nat, natom: nat, toFloat: string -> Option<real>)
    : Result<seq<real>, string>
  {
    ParseFloats(Slice(log, n + 2, n + 2 + natom * 3), toFloat)
  }

  /** One pass of the loop body over line `n`. */
  function ScanLine(acc: Scan, log: seq<string>, n: nat, natom: nat,
                    toFloat: string -> Option<real>): Result<Scan, XtbError>
    requires n < |log|
  {
    var afterEnergy :=
      if Contains(log[n], EnergyMarker) then
        if n + 2 < |log| then
          match toFloat(log[n + 2])
          case None => Err(ValueError(log[n + 2]))
          case Some(e) => Ok(acc.(energy := [e]))
        else Err(IndexError)
      else Ok(acc);
    match afterEnergy
    case Err(e) => Err(e)
    case Ok(acc1) =>
      if Contains(log[n], GradientMarker) then
        match GradientBlock(log, n, natom, toFloat)
        case Err(e) => Err(ValueError(e))
        case Ok(g) => Ok(acc1.(gradient := [g]))
      else Ok(acc1)
  }

  /** The state of the scan after the first `k` lines; an exception ends it. */
  function ScanPrefix(log: seq<string>, k: nat, natom: nat, toFloat: string -> Option<real>)
    : Result<Scan, XtbError>
    requires k <= |log|
  {
    if k == 0 then Ok(Scan([], []))
    else match ScanPrefix(log, k - 1, natom, toFloat)
      case Err(e) => Err(e)
      case Ok(acc) => ScanLine(acc, log, k - 1, natom, toFloat)
  }

  /** An exception raised at some line is the one the whole scan raises. */
  lemma {:induction false} ScanErrorPersists(log: seq<string>, k: nat, natom: nat,
                                             toFloat: string -> Option<real>)
    requires k <= |log| && ScanPrefix(log, k, natom, toFloat).Err?
    ensures ScanPrefix(log, |log|, natom, toFloat) == ScanPrefix(log, k, natom, toFloat)
    decreases |log| - k
  {
    if k < |log| {
      ScanErrorPersists(log, k + 1, natom, toFloat);
    }
  }

  /** What `_read_data` returns. */
  datatype EngradRead =
    | MissingFile   // `[], zeros(1), zeros(1), zeros(1), zeros(1)`: five values
    | Engrad(energy: Tensor, gradient: Tensor, nac: Tensor, soc: Tensor)

  /** The arrays built after the scan: the gradient must reshape to (1, natom, 3). */
  function Finish(sc: Scan, natom: nat): Result<EngradRead, XtbError>
  {
    var raw := if sc.gradient == [] then Vector([]) else Tensor([1, |sc.gradient[0]|], sc.gradient[0]);
    match Reshape(raw, [1, natom, 3])
    case None => Err(ReshapeError)
    case Some(g) => Ok(Engrad(Vector(sc.energy), g, Zeros([0]), Zeros([0])))
  }

  /** `_read_data(natom)` given the `.engrad` lines, `None` when there is no file. */
  function ReadDataSpec(engrad: Option<seq<string>>, natom: nat, toFloat: string -> Option<real>)
    : (r: Result<EngradRead, XtbError>)
    ensures r == Ok(MissingFile) <==> engrad.None?
    ensures r.Ok? && r.value.Engrad? ==>
              r.value.gradient.shape == [1, natom, 3] && WellShaped(r.value.gradient) &&
              r.value.nac == Zeros([0]) && r.value.soc == Zeros([0])
  {
    match engrad
    case None => Ok(MissingFile)
    case Some(log) =>
      match ScanPrefix(log, |log|, natom, toFloat)
      case Err(e) => Err(e)
      case Ok(sc) => Finish(sc, natom)
  }

  /** `_read_data`: scans every line, later markers overwriting earlier ones. */
  method ReadData(engrad: Option<seq<string>>, natom: nat, toFloat: string -> Option<real>)
    returns (r: Result<EngradRead, XtbError>)
    ensures r == ReadDataSpec(engrad, natom, toFloat)
  {
    if engrad.None? {
      return Ok(MissingFile);
    }
    var log := engrad.value;
    var energy: seq<real> := [];
    var gradient: seq<seq<real>> := [];
    var n := 0;
    while n < |log|
      invariant n <= |log|
      invariant ScanPrefix(log, n, natom, toFloat) == Ok(Scan(energy, gradient))
    {
      var line := log[n];
      var energy' := energy;
      if Contains(line, EnergyMarker) {
        if n + 2 >= |log| {
          ScanErrorPersists(log, n + 1, natom, toFloat);
          return Err(IndexError);
        }
        var e := toFloat(log[n + 2]);
        if e.None? {
          ScanErrorPersists(log, n + 1, natom, toFloat);
          return Err(ValueError(log[n + 2]));
        }
        energy' := [e.value];
      }
      if Contains(line, GradientMarker) {
        var g := GradientBlock(log, n, natom, toFloat);
        if g.Err? {
          ScanErrorPersists(log, n + 1, natom, toFloat);
          return Err(ValueError(g.error));
        }
        gradient := [g.value];
      }
      energy := energy';
      n := n + 1;
    }
    var raw := if gradient == [] then Vector([]) else Tensor([1, |gradient[0]|], gradient[0]);
    var shaped := Reshape(raw, [1, natom, 3]);
    if shaped.None? {
      return Err(ReshapeError);
    }
    r := Ok(Engrad(Vector(energy), shaped.value, Zeros([0]), Zeros([0])));
  }

  /** One line's effect: a marker replaces its list, any other line keeps it. */
  lemma ScanLineEffect(acc: Scan, log: seq<string>, n: nat, natom: nat,
                       toFloat: string -> Option<real>)
    requires n < |log| && ScanLine(acc, log, n, natom, toFloat).Ok?
    ensures var a := ScanLine(acc, log, n, natom, toFloat).value;
            (Contains(log[n], EnergyMarker) ==>
               n + 2 < |log| && toFloat(log[n + 2]).Some? && a.energy == [toFloat(log[n + 2]).value]) &&
            (!Contains(log[n], EnergyMarker) ==> a.energy == acc.energy)
    ensures var a := ScanLine(acc, log, n, natom, toFloat).value;
            (Contains(log[n], GradientMarker) ==>
               GradientBlock(log, n, natom, toFloat).Ok? &&
               a.gradient == [GradientBlock(log, n, natom, toFloat).value]) &&
            (!Contains(log[n], GradientMarker) ==> a.gradient == acc.gradient)
  {
  }

  /** The energy is the number two lines after the LAST energy marker; without a
      marker the list stays empty. */
  lemma {:induction false} ScanTakesLastEnergy(log: seq<string>, k: nat, natom: nat,
                                               toFloat: string -> Option<real>)
    requires k <= |log| && ScanPrefix(log, k, natom, toFloat).Ok?
    ensures var sc := ScanPrefix(log, k, natom, toFloat).value;
            match LastContaining(log, k, EnergyMarker)
            case None => sc.energy == []
            case Some(i) => i + 2 < |log| && toFloat(log[i + 2]).Some? &&
                            sc.energy == [toFloat(log[i + 2]).value]
  {
    if k > 0 {
      var prev := ScanPrefix(log, k - 1, natom, toFloat);
      assert prev.Ok?;
      ScanTakesLastEnergy(log, k - 1, natom, toFloat);
      ScanLineEffect(prev.value, log, k - 1, natom, toFloat);
      if Contains(log[k - 1], EnergyMarker) {
        assert LastContaining(log, k, EnergyMarker) == Some(k - 1);
      } else {
        assert LastContaining(log, k, EnergyMarker) == LastContaining(log, k - 1, EnergyMarker);
      }
    }
  }

  /** The gradient is the natom*3 lines starting two after the LAST gradient
      marker; without a marker the list stays empty. */
  lemma {:induction false} ScanTakesLastGradient(log: seq<string>, k: nat, natom: nat,
                                                 toFloat: string -> Option<real>)
    requires k <= |log| && ScanPrefix(log, k, natom, toFloat).Ok?
    ensures var sc := ScanPrefix(log, k, natom, toFloat).value;
            match LastContaining(log, k, GradientMarker)
            case None => sc.gradient == []
            case Some(i) =>
              GradientBlock(log, i, natom, toFloat).Ok? &&
              sc.gradient == [GradientBlock(log, i, natom, toFloat).value]
  {
    if k > 0 {
      var prev := ScanPrefix(log, k - 1, natom, toFloat);
      assert prev.Ok?;
      ScanTakesLastGradient(log, k - 1, natom, toFloat);
      var next := ScanLine(prev.value, log, k - 1, natom, toFloat);
      assert ScanPrefix(log, k, natom, toFloat) == next;
      ScanLineEffect(prev.value, log, k - 1, natom, toFloat);
      if Contains(log[k - 1], GradientMarker) {
        assert LastContaining(log, k, GradientMarker) == Some(k - 1);
        var block := GradientBlock(log, k - 1, natom, toFloat);
        assert block.Ok? && next.value.gradient == [block.value];
      } else {
        assert LastContaining(log, k, GradientMarker) == LastContaining(log, k - 1, GradientMarker);
        assert next.value.gradient == prev.value.gradient;
      }
    }
  }

  /** Later markers overwrite earlier ones: both lists come from the last marker
      of their kind. */
  lemma ScanTakesLastMarkers(log: seq<string>, k: nat, natom: nat,
                             toFloat: string -> Option<real>)
    requires k <= |log| && ScanPrefix(log, k, natom, toFloat).Ok?
    ensures var sc := ScanPrefix(log, k, natom, toFloat).value;
            match LastContaining(log, k, EnergyMarker)
            case None => sc.energy == []
            case Some(i) => i + 2 < |log| && toFloat(log[i + 2]).Some? &&
                            sc.energy == [toFloat(log[i + 2]).value]
    ensures var sc := ScanPrefix(log, k, natom, toFloat).value;
            match LastContaining(log, k, GradientMarker)
            case None => sc.gradient == []
            case Some(i) =>
              GradientBlock(log, i, natom, toFloat).Ok? &&
              sc.gradient == [GradientBlock(log, i, natom, toFloat).value]
  {
    ScanTakesLastEnergy(log, k, natom, toFloat);
    ScanTakesLastGradient(log, k, natom, toFloat);
  }

  /** Without any gradient marker the empty gradient cannot take the shape
      (1, natom, 3) of a molecule with atoms, so the read fails. */
  lemma NoGradientMarkerFails(log: seq<string>, natom: nat, toFloat: string -> Option<real>)
    requires natom > 0
    requires forall j :: 0 <= j < |log| ==> !Contains(log[j], GradientMarker)
    ensures ReadDataSpec(Some(log), natom, toFloat).Err?
  {
    if ScanPrefix(log, |log|, natom, toFloat).Ok? {
      ScanTakesLastMarkers(log, |log|, natom, toFloat);
      assert Product([3]) == 3 by { assert [3][1..] == []; }
      assert Product([natom, 3]) == natom * 3 by { assert [natom, 3][1..] == [3]; }
      assert Product([1, natom, 3]) == natom * 3 by { assert [1, natom, 3][1..] == [natom, 3]; }
    }
  }

  // ---------------------------------------------------------------------------
  // evaluate

  /** `len(t)` of an array with at least one dimension. */
  function Len(t: Tensor): nat
  {
    if t.shape == [] then 0 else t.shape[0]
  }

  /** `np.zeros(nac)` with an empty `nac`: a zero-dimensional zero. */
  const ZeroScalar: Tensor := Zeros([])

  /** `_qm` and `_qmmm` after the read: four values or the unpacking error. The QM/MM
      path projects the (natom, 3) gradient block through the capping Jacobian. */
  function Unpack(read: Result<EngradRead, XtbError>, qmmm: bool, natom: nat,
                  jacobDot: Tensor -> Tensor): Result<(Tensor, Tensor), XtbError>
  {
    match read
    case Err(e) => Err(e)
    case Ok(MissingFile) => Err(UnpackError)
    case Ok(Engrad(energy, gradient, _, _)) =>
      if !qmmm then Ok((energy, gradient))
      else
        var block := jacobDot(Tensor([natom, 3], gradient.data));
        Ok((energy, Tensor([1] + block.shape, block.data)))
  }

  /** Energy and gradient of the calculation the run type selects; any other run
      type leaves both as empty lists. */
  function Computed(runtype: string, engrad: Option<seq<string>>, natom: nat,
                    toFloat: string -> Option<real>, jacobDot: Tensor -> Tensor)
    : Result<(Tensor, Tensor), XtbError>
  {
    var read := ReadDataSpec(engrad, natom, toFloat);
    if runtype == "qm" || runtype == "qm_1" then Unpack(read, false, natom, jacobDot)
    else if runtype == "qmmm" then Unpack(read, true, natom, jacobDot)
    else Ok((Vector([]), Vector([])))
  }

  /** The completion flag: one energy and one gradient block. */
  function Completion(energy: Tensor, gradient: Tensor): int
  {
    if Len(energy) == 1 && Len(gradient) == 1 then 1 else 0
  }

  /** The trajectory after the results are recorded. */
  function Recorded(st: TrajState, energy: Tensor, gradient: Tensor): TrajState
  {
    WithResults(st, energy, gradient, ZeroScalar, ZeroScalar, VNone, VNone, VNone, VNone,
                Completion(energy, gradient))
  }

  predicate Runs(runtype: string)
  {
    runtype == "qm" || runtype == "qm_1" || runtype == "qmmm"
  }

  /** The effect of `evaluate` on the trajectory once the folder is set up.
      `folderExists` says whether the calculation folder existed before; the run
      types that compute create it. */
  function RunSpec(runtype: string, keepTmp: int, st: TrajState,
                   engrad: Option<seq<string>>, natom: nat, folderExists: bool,
                   toFloat: string -> Option<real>, jacobDot: Tensor -> Tensor)
    : Result<TrajState, XtbError>
  {
    match Computed(runtype, engrad, natom, toFloat, jacobDot)
    case Err(e) => Err(e)
    case Ok((energy, gradient)) =>
      if keepTmp == 0 && !Runs(runtype) && !folderExists then Err(RemoveError)
      else Ok(Recorded(st, energy, gradient))
  }

  /** The effect of `evaluate` on the trajectory: a run type that computes first
      sets up the folder, and on a batch system exits without `<project>.slurm`
      (`slurm`). */
  function EvaluateSpec(runtype: string, keepTmp: int, useHpc: int, project: string,
                        slurm: Option<string>, st: TrajState,
                        engrad: Option<seq<string>>, natom: nat, folderExists: bool,
                        toFloat: string -> Option<real>, jacobDot: Tensor -> Tensor)
    : Result<TrajState, XtbError>
  {
    if Runs(runtype) && useHpc == 1 && slurm.None? then Err(Exit(SlurmMissing(project)))
    else RunSpec(runtype, keepTmp, st, engrad, natom, folderExists, toFloat, jacobDot)
  }

  /** The point charges `_qm` hands to the input writer: only the `qm_1` run type
      embeds the trajectory's charges in a plain QM run. */
  function QmCharges(runtype: string, qm2Charge: Tensor): (r: Option<Tensor>)
    ensures r.Some? <==> runtype == "qm_1"
  {
    if runtype == "qm_1" then Some(qm2Charge) else None
  }

  class Xtb {
    var runtype: string
    var keepTmp: int
    var verbose: int
    var project: string
    var workdir: string
    var xtb: string
    var nproc: int
    var useHpc: int
    var runscript: string

    constructor (keywords: XtbKeywords, jobId: Option<JobId>, runtype: string)
      ensures this.runtype == runtype && keepTmp == keywords.keepTmp
      ensures verbose == keywords.verbose && xtb == keywords.xtb && nproc == keywords.xtbNproc
      ensures project == keywords.xtbProject && useHpc == keywords.useHpc
      ensures workdir == Workdir(keywords.xtbWorkdir, jobId)
      ensures runscript == RunScript(project, keywords.xtb, keywords.xtbNproc, workdir)
    {
      this.runtype := runtype;
      keepTmp := keywords.keepTmp;
      verbose := keywords.verbose;
      project := keywords.xtbProject;
      xtb := keywords.xtb;
      nproc := keywords.xtbNproc;
      useHpc := keywords.useHpc;
      var dir := keywords.xtbWorkdir;
      if jobId.Some? {
        dir := dir + "/tmp_xtb-" + ShowJobId(jobId.value);
      } else if jobId == Some(StrId("Read")) {
        dir := dir;
      } else {
        dir := dir + "/tmp_xtb";
      }
      workdir := dir;
      runscript := RunScript(keywords.xtbProject, keywords.xtb, keywords.xtbNproc, dir);
    }

    /** Runs the calculation the run type names and reads its results. */
    method Compute(engrad: Option<seq<string>>, natom: nat, toFloat: string -> Option<real>,
                   jacobDot: Tensor -> Tensor)
      returns (r: Result<(Tensor, Tensor), XtbError>)
      ensures r == Computed(runtype, engrad, natom, toFloat, jacobDot)
    {
      if runtype == "qm" || runtype == "qm_1" {
        var read := ReadData(engrad, natom, toFloat);
        r := Unpack(read, false, natom, jacobDot);
      } else if runtype == "qmmm" {
        var read := ReadData(engrad, natom, toFloat);
        r := Unpack(read, true, natom, jacobDot);
      } else {
        r := Ok((Vector([]), Vector([])));
      }
    }

    /** `evaluate(traj)`: runs the calculation the run type names and records energy,
        gradient, empty couplings, no error estimates and the completion flag. */
    method Evaluate(traj: Trajectory, slurm: Option<string>, engrad: Option<seq<string>>,
                    natom: nat, folderExists: bool, toFloat: string -> Option<real>,
                    jacobDot: Tensor -> Tensor)
      returns (r: Result<Trajectory, XtbError>)
      modifies traj
      ensures r.Ok? ==> r.value == traj
      ensures match EvaluateSpec(runtype, keepTmp, useHpc, project, slurm, old(traj.State()),
                                 engrad, natom, folderExists, toFloat, jacobDot)
              case Ok(st) => r.Ok? && traj.State() == st
              case Err(e) => r == Err(e) && traj.State() == old(traj.State())
    {
      if Runs(runtype) && useHpc == 1 {
        var submission := HpcSubmission(project, runscript, slurm);
        if submission.Err? {
          return Err(submission.error);
        }
      }
      var out := Compute(engrad, natom, toFloat, jacobDot);
      if out.Err? {
        return Err(out.error);
      }
      var energy, gradient := out.value.0, out.value.1;
      var completion := 0;
      if Len(energy) == 1 && Len(gradient) == 1 {
        completion := 1;
      }
      if keepTmp == 0 && !Runs(runtype) && !folderExists {
        return Err(RemoveError);
      }
      SetResults(traj, energy, gradient, ZeroScalar, ZeroScalar, VNone, VNone, VNone, VNone,
                 completion);
      return Ok(traj);
    }
  }

  // ---------------------------------------------------------------------------
  // Properties of evaluate

  /** The completion flag is 1 exactly when a QM, QM/MM or QM-with-charges run found
      an energy marker; the gradient block is then always present. All four error
      estimates are cleared. */
  lemma StatusMeansEnergyRead(runtype: string, keepTmp: int, useHpc: int, project: string,
                              slurm: Option<string>, st: TrajState, log: seq<string>,
                              natom: nat, folderExists: bool,
                              toFloat: string -> Option<real>, jacobDot: Tensor -> Tensor)
    requires EvaluateSpec(runtype, keepTmp, useHpc, project, slurm, st, Some(log), natom,
                          folderExists, toFloat, jacobDot).Ok?
    ensures var st' := EvaluateSpec(runtype, keepTmp, useHpc, project, slurm, st, Some(log),
                                    natom, folderExists, toFloat, jacobDot).value;
            (st'.status == 1 <==>
               (Runs(runtype) &&
                LastContaining(log, |log|, EnergyMarker).Some?)) &&
            (st'.status == 0 || st'.status == 1) &&
            st'.errEnergy == VNone && st'.errGrad == VNone &&
            st'.errNac == VNone && st'.errSoc == VNone
  {
    assert EvaluateSpec(runtype, keepTmp, useHpc, project, slurm, st, Some(log), natom,
                        folderExists, toFloat, jacobDot)
        == RunSpec(runtype, keepTmp, st, Some(log), natom, folderExists, toFloat, jacobDot);
    RunStatusMeansEnergyRead(runtype, keepTmp, st, log, natom, folderExists, toFloat, jacobDot);
  }

  /** The completion flag once the folder is set up. */
  lemma RunStatusMeansEnergyRead(runtype: string, keepTmp: int, st: TrajState, log: seq<string>,
                                 natom: nat, folderExists: bool,
                                 toFloat: string -> Option<real>, jacobDot: Tensor -> Tensor)
    requires RunSpec(runtype, keepTmp, st, Some(log), natom, folderExists, toFloat, jacobDot).Ok?
    ensures var st' := RunSpec(runtype, keepTmp, st, Some(log), natom, folderExists,
                               toFloat, jacobDot).value;
            (st'.status == 1 <==>
               (Runs(runtype) &&
                LastContaining(log, |log|, EnergyMarker).Some?)) &&
            (st'.status == 0 || st'.status == 1) &&
            st'.errEnergy == VNone && st'.errGrad == VNone &&
            st'.errNac == VNone && st'.errSoc == VNone
  {
    var c := Computed(runtype, Some(log), natom, toFloat, jacobDot);
    assert c.Ok?;
    assert RunSpec(runtype, keepTmp, st, Some(log), natom, folderExists, toFloat, jacobDot).value
        == Recorded(st, c.value.0, c.value.1);
    if Runs(runtype) {
      var sc := ScanPrefix(log, |log|, natom, toFloat);
      assert sc.Ok?;
      ScanTakesLastMarkers(log, |log|, natom, toFloat);
      assert Len(c.value.0) == |sc.value.energy|;
      assert Len(c.value.1) == 1;
    }
  }

  /** A missing `.engrad` file makes the run fail at the four-name unpacking, once
      the folder is set up. */
  lemma MissingFileFailsUnpack(runtype: string, keepTmp: int, useHpc: int, project: string,
                               slurm: Option<string>, st: TrajState, natom: nat,
                               folderExists: bool, toFloat: string -> Option<real>,
                               jacobDot: Tensor -> Tensor)
    requires Runs(runtype)
    ensures EvaluateSpec(runtype, keepTmp, useHpc, project, slurm, st, None, natom,
                         folderExists, toFloat, jacobDot)
            == if useHpc == 1 && slurm.None? then Err(Exit(SlurmMissing(project)))
               else Err(UnpackError)
  {
  }

  /** On a batch system a computing run exits without `<project>.slurm`, whatever
      xTB would have left behind; off a batch system, and for the run types that
      compute nothing, the template is never read. */
  lemma SlurmOnlyForHpc(runtype: string, keepTmp: int, useHpc: int, project: string,
                        slurm: Option<string>, st: TrajState, engrad: Option<seq<string>>,
                        natom: nat, folderExists: bool, toFloat: string -> Option<real>,
                        jacobDot: Tensor -> Tensor)
    ensures Runs(runtype) && useHpc == 1 && slurm.None? ==>
              EvaluateSpec(runtype, keepTmp, useHpc, project, slurm, st, engrad, natom,
                           folderExists, toFloat, jacobDot) == Err(Exit(SlurmMissing(project)))
    ensures !Runs(runtype) || useHpc != 1 ==>
              EvaluateSpec(runtype, keepTmp, useHpc, project, slurm, st, engrad, natom,
                           folderExists, toFloat, jacobDot)
              == EvaluateSpec(runtype, keepTmp, useHpc, project, None, st, engrad, natom,
                              folderExists, toFloat, jacobDot)
  {
  }

  /** Any other run type computes nothing: energy and gradient are empty and the
      completion flag is 0, unless the folder to delete is missing. */
  lemma UnknownRuntypeComputesNothing(runtype: string, keepTmp: int, useHpc: int,
                                      project: string, slurm: Option<string>, st: TrajState,
                                      engrad: Option<seq<string>>, natom: nat,
                                      folderExists: bool, toFloat: string -> Option<real>,
                                      jacobDot: Tensor -> Tensor)
    requires !Runs(runtype)
    ensures var r := EvaluateSpec(runtype, keepTmp, useHpc, project, slurm, st, engrad, natom,
                                  folderExists, toFloat, jacobDot);
            (r.Err? <==> keepTmp == 0 && !folderExists) &&
            (r.Ok? ==> r.value.energy == Vector([]) && r.value.grad == Vector([]) &&
                       r.value.status == 0)
  {
  }

  /** `qm_1` reads its results exactly as `qm` does; it differs only in the point
      charges written to the input. */
  lemma Qm1ReadsLikeQm(keepTmp: int, useHpc: int, project: string, slurm: Option<string>,
                       st: TrajState, engrad: Option<seq<string>>, natom: nat,
                       folderExists: bool, toFloat: string -> Option<real>,
                       jacobDot: Tensor -> Tensor)
    ensures EvaluateSpec("qm_1", keepTmp, useHpc, project, slurm, st, engrad, natom,
                         folderExists, toFloat, jacobDot)
         == EvaluateSpec("qm", keepTmp, useHpc, project, slurm, st, engrad, natom,
                         folderExists, toFloat, jacobDot)
  {
  }

  /** A plain `qm` run hands no charges to the writer: when absent charges print as
      nothing, only the coordinates and the template are written. */
  lemma PlainQmWritesNoCharges(workdir: string, project: string, natom: nat, coordText: string,
                               qm2Charge: Tensor, printCharge: Option<Tensor> -> string,
                               template: Option<string>)
    requires printCharge(None) == ""
    ensures var r := WriteInputs(workdir, project, natom, coordText,
                                 QmCharges("qm", qm2Charge), printCharge, template);
            r.Ok? && workdir + "/" + project + ".pc" !in r.value &&
            r.value[workdir + "/" + project + ".inp"]
            == (match template case Some(t) => t case None => "")
  {
  }

  /** A `qm_1` run writes the trajectory's charges: their number and text go to
      `<project>.pc`, and the input gains the embedding block naming that file. */
  lemma Qm1WritesCharges(workdir: string, project: string, natom: nat, coordText: string,
                         qm2Charge: Tensor, printCharge: Option<Tensor> -> string,
                         template: Option<string>)
    requires printCharge(Some(qm2Charge)) != ""
    ensures var r := WriteInputs(workdir, project, natom, coordText,
                                 QmCharges("qm_1", qm2Charge), printCharge, template);
            r.Ok? &&
            r.value[workdir + "/" + project + ".pc"]
            == IntToString(Len(qm2Charge)) + "\n" + printCharge(Some(qm2Charge)) &&
            r.value[workdir + "/" + project + ".inp"]
            == (match template case Some(t) => t case None => "")
               + EmbeddingSection(PointChargeFile(project))
  {
  }
}
