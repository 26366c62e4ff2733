/** The interface to the native NNsMD networks. Its constructor selects the
    training mode, the model name and folder, the unit factors, the targets and
    hyperparameters to train and the GPU assignment; `train` turns the fit errors
    into the validation table; `evaluate` records a prediction, converted back to
    atomic units, in the trajectory. The networks themselves, the hyperparameter
    builders of the NNsMD module and the permutation of the training set belong
    to other modules and enter as parameters. */
module ModelNN {
  import opened Values
  import opened Text
  import opened Trajectories
  import opened MlCommon
  import RemoteTraining

  /** The properties a network can learn. */
  datatype NnTarget = EnergyGradient | Nac | Soc

  /** The options of the `nn` and `control` sections the interface reads. */
  datatype NnKeywords = NnKeywords(
    title: string, jobtype: string, mlNcpu: int, modeldir: Option<string>,
    data: TrainingData, egType: int, nacType: int, socType: int, splits: int,
    hypEg: map<string, Value>, hypEg2: map<string, Value>,
    hypNac: map<string, Value>, hypNac2: map<string, Value>,
    hypSoc: map<string, Value>, hypSoc2: map<string, Value>,
    egUnit: string, nacUnit: string, socUnit: string,
    gpu: int, trainMode: string, shuffle: Value, silent: int)

  /** `set_hyper_eg`, `set_hyper_nac` and `set_hyper_soc` of the NNsMD module:
      hyperparameters, unit scheme, data information and number of splits to a
      hyperparameter dictionary. */
  type HyperBuilder = (NnTarget, map<string, Value>, string, map<string, Value>, int) -> Value

  /** The training targets of one property: energies with gradients, or one array. */
  datatype YEntry = EgData(energy: Tensor, grad: Tensor) | Data(t: Tensor)

  /** One dictionary for a single network, a pair for two networks of the same
      architecture trained with different weights. */
  datatype HyperEntry = Single(h: Value) | Twin(h1: Value, h2: Value)

  const EgKey: string := "energy_gradient"

  // ---------------------------------------------------------------------------
  // Selection made by the constructor

  /** The training targets, in the training unit, of every property with a
      positive network type. */
  function TrainingTargets(kw: NnKeywords, u: EgFactors, n: NacFactors): (r: map<string, YEntry>)
    ensures r.Keys <= {EgKey, "nac", "soc"}
    ensures (EgKey in r <==> kw.egType > 0) && ("nac" in r <==> kw.nacType > 0) &&
            ("soc" in r <==> kw.socType > 0)
    ensures EgKey in r ==> r[EgKey] == EgData(Scale(kw.data.energy, u.fE), Scale(kw.data.grad, u.fG))
    ensures "nac" in r ==> r["nac"] == Data(Scale(kw.data.nac, n.fN))
    ensures "soc" in r ==> r["soc"] == Data(kw.data.soc)
  {
    var eg: map<string, YEntry> :=
      if kw.egType > 0 then map[EgKey := EgData(Scale(kw.data.energy, u.fE), Scale(kw.data.grad, u.fG))]
      else map[];
    var nac := if kw.nacType > 0 then eg["nac" := Data(Scale(kw.data.nac, n.fN))] else eg;
    if kw.socType > 0 then nac["soc" := Data(kw.data.soc)] else nac
  }

  /** The hyperparameter slot a network type asks for. */
  function Slot(nnType: int, h1: Value, h2: Value): (r: Option<HyperEntry>)
    ensures r.None? <==> nnType <= 0
    ensures nnType == 1 ==> r == Some(Single(h1))
    ensures nnType > 1 ==> r == Some(Twin(h1, h2))
  {
    if nnType == 1 then Some(Single(h1))
    else if nnType > 1 then Some(Twin(h1, h2))
    else None
  }

  function Put(m: map<string, HyperEntry>, key: string, slot: Option<HyperEntry>): map<string, HyperEntry>
  {
    if slot.Some? then m[key := slot.value] else m
  }

  /** The hyperparameters handed to the networks, per property. */
  function Hypers(kw: NnKeywords, build: HyperBuilder): (r: map<string, HyperEntry>)
    ensures r.Keys <= {EgKey, "nac", "soc"}
    ensures (EgKey in r <==> kw.egType > 0) && ("nac" in r <==> kw.nacType > 0) &&
            ("soc" in r <==> kw.socType > 0)
    ensures EgKey in r ==>
              r[EgKey] == Slot(kw.egType, build(EnergyGradient, kw.hypEg, kw.egUnit, kw.data.info, kw.splits),
                               build(EnergyGradient, kw.hypEg2, kw.egUnit, kw.data.info, kw.splits)).value
    ensures "nac" in r ==>
              r["nac"] == Slot(kw.nacType, build(Nac, kw.hypNac, kw.nacUnit, kw.data.info, kw.splits),
                               build(Nac, kw.hypNac2, kw.nacUnit, kw.data.info, kw.splits)).value
    ensures "soc" in r ==>
              r["soc"] == Slot(kw.socType, build(Soc, kw.hypSoc, kw.socUnit, kw.data.info, kw.splits),
                               build(Soc, kw.hypSoc2, kw.socUnit, kw.data.info, kw.splits)).value
  {
    var info := kw.data.info;
    var eg := Put(map[], EgKey, Slot(kw.egType, build(EnergyGradient, kw.hypEg, kw.egUnit, info, kw.splits),
                                    build(EnergyGradient, kw.hypEg2, kw.egUnit, info, kw.splits)));
    var nac := Put(eg, "nac", Slot(kw.nacType, build(Nac, kw.hypNac, kw.nacUnit, info, kw.splits),
                                  build(Nac, kw.hypNac2, kw.nacUnit, info, kw.splits)));
    Put(nac, "soc", Slot(kw.socType, build(Soc, kw.hypSoc, kw.socUnit, info, kw.splits),
                         build(Soc, kw.hypSoc2, kw.socUnit, info, kw.splits)))
  }

  /** Every property that has training targets has hyperparameters, and the
      other way round. */
  lemma TargetsMatchHypers(kw: NnKeywords, u: EgFactors, n: NacFactors, build: HyperBuilder)
    ensures TrainingTargets(kw, u, n).Keys == Hypers(kw, build).Keys
  {
    var t := TrainingTargets(kw, u, n);
    var h := Hypers(kw, build);
    assert forall k :: k in t <==> k in h;
  }

  /** The devices the two networks of each property run on. */
  function GpuTable(gpu: int): (r: map<string, seq<int>>)
    ensures (1 <= gpu <= 6) <==> r.Keys == {EgKey, "nac", "soc"}
    ensures !(1 <= gpu <= 6) ==> r == map[]
    ensures forall k :: k in r ==> |r[k]| == 2 && 0 <= r[k][0] <= r[k][1] < gpu
  {
    match gpu
    case 1 => map[EgKey := [0, 0], "nac" := [0, 0], "soc" := [0, 0]]
    case 2 => map[EgKey := [0, 1], "nac" := [0, 1], "soc" := [0, 1]]
    case 3 => map[EgKey := [0, 0], "nac" := [1, 1], "soc" := [2, 2]]
    case 4 => map[EgKey := [0, 1], "nac" := [2, 2], "soc" := [3, 3]]
    case 5 => map[EgKey := [0, 1], "nac" := [2, 3], "soc" := [4, 4]]
    case 6 => map[EgKey := [0, 1], "nac" := [2, 3], "soc" := [4, 5]]
    case _ => map[]
  }

  /** With one to six devices, every device gets at least one network. */
  lemma EveryGpuIsUsed(gpu: int, device: int)
    requires 1 <= gpu <= 6 && 0 <= device < gpu
    ensures exists k, i :: k in GpuTable(gpu) && 0 <= i < 2 && GpuTable(gpu)[k][i] == device
  {
    var t := GpuTable(gpu);
    if device == 0 {
      assert t[EgKey][0] == device;
    } else if device == 1 && gpu == 3 {
      assert t["nac"][0] == device;
    } else if device == 1 {
      assert t[EgKey][1] == device;
    } else if device == 2 && gpu == 3 {
      assert t["soc"][0] == device;
    } else if device == 2 {
      assert t["nac"][0] == device;
    } else if device == 3 && gpu == 4 {
      assert t["soc"][0] == device;
    } else if device == 3 {
      assert t["nac"][1] == device;
    } else if device == 4 {
      assert t["soc"][0] == device;
    } else {
      assert t["soc"][1] == device;
    }
  }

  // ---------------------------------------------------------------------------
  // Training metrics

  /** The table values: each error converted by its reporting factor, zero for a
      property that was not trained, couplings multiplied by `k_n`. */
  function NnMetrics(ferr: FitErrors, u: EgFactors, n: NacFactors): (m: Metrics)
    ensures ferr.eg.None? ==> m.e1 == 0.0 && m.g1 == 0.0 && m.e2 == 0.0 && m.g2 == 0.0
    ensures ferr.nac.None? ==> m.n1 == 0.0 && m.n2 == 0.0
    ensures ferr.soc.None? ==> m.s1 == 0.0 && m.s2 == 0.0
    ensures ferr.soc.Some? ==> m.s1 == ferr.soc.value.first && m.s2 == ferr.soc.value.second
  {
    var eg := if ferr.eg.Some? then ferr.eg.value else EgFit(0.0, 0.0, 0.0, 0.0);
    var nac := if ferr.nac.Some? then ferr.nac.value else TwinFit(0.0, 0.0);
    var soc := if ferr.soc.Some? then ferr.soc.value else TwinFit(0.0, 0.0);
    Metrics(eg.e1 * u.kE, eg.g1 * u.kG, nac.first * n.kN, soc.first,
            eg.e2 * u.kE, eg.g2 * u.kG, nac.second * n.kN, soc.second)
  }

  /** Errors measured on targets converted by the training factors are reported
      in eV, eV/Angstrom and cm-1 whichever unit scheme was trained. */
  lemma NnMetricsInEv(egUnit: string, nacUnit: string, e1: real, g1: real, n1: real,
                      e2: real, g2: real, n2: real, s: TwinFit)
    ensures var u := EgUnitFactors(egUnit);
            var n := NacUnitFactors(nacUnit);
            var m := NnMetrics(FitErrors(Some(EgFit(e1 * u.fE, g1 * u.fG, e2 * u.fE, g2 * u.fG)),
                                         Some(TwinFit(n1 * n.fN, n2 * n.fN)), Some(s)), u, n);
            m.e1 == e1 * HartreeInEv && m.g1 == g1 * HartreePerBohrInEvPerA &&
            m.e2 == e2 * HartreeInEv && m.g2 == g2 * HartreePerBohrInEvPerA &&
            m.n1 == n1 * HartreePerBohrInEvPerA && m.n2 == n2 * HartreePerBohrInEvPerA &&
            m.s1 == s.first && m.s2 == s.second
  {
    var u := EgUnitFactors(egUnit);
    var n := NacUnitFactors(nacUnit);
    ReportedErrorsAreInEv(egUnit, e1, g1);
    ReportedErrorsAreInEv(egUnit, e2, g2);
    assert (n1 * n.fN) * n.kN == n1 * (n.fN * n.kN);
    assert (n2 * n.fN) * n.kN == n2 * (n.fN * n.kN);
  }

  /** The log of a training run, read back by the remote trainer, gives the
      metrics the run printed, as far as their `%12.8f` text carries them. */
  lemma TrainingLogReadsBack(ferr: FitErrors, u: EgFactors, n: NacFactors, heading: seq<string>,
                             fixed: real -> string, endline: string, calcdir: string,
                             toFloat: string -> Option<real>)
    requires '&' !in endline
    requires forall x | x in MetricValues(NnMetrics(ferr, u, n)) :: RemoteTraining.Readable(fixed, toFloat, x)
    ensures var m := NnMetrics(ferr, u, n);
            RemoteTraining.ReadTrainingSpec(calcdir, Some(heading + TableLines(fixed, m) + [endline]), toFloat)
            == Ok(RemoteTraining.Found(calcdir, RemoteTraining.Reread(fixed, toFloat, m)))
  {
    RemoteTraining.ReadsBackValidationTable(calcdir, heading, NnMetrics(ferr, u, n), endline, fixed, toFloat);
  }

  // ---------------------------------------------------------------------------
  // Prediction

  /** Energies, gradients and their spreads over the networks, in the training unit. */
  datatype EgPrediction = EgPrediction(energy: Tensor, grad: Tensor, energyStd: Tensor, gradStd: Tensor)

  datatype Prediction = Prediction(value: Tensor, std: Tensor)

  /** What the networks return for one geometry, per trained property. */
  datatype NnOutput = NnOutput(eg: Option<EgPrediction>, nac: Option<Prediction>, soc: Option<Prediction>)

  predicate ShapedOutput(out: NnOutput)
  {
    (out.eg.Some? ==> WellShaped(out.eg.value.energy) && WellShaped(out.eg.value.grad)) &&
    (out.nac.Some? ==> WellShaped(out.nac.value.value)) &&
    (out.soc.Some? ==> WellShaped(out.soc.value.value))
  }

  /** An array with no first row. */
  predicate NoRow(t: Tensor)
  {
    t.shape == [] || t.shape[0] == 0
  }

  datatype EgResult = EgResult(energy: Tensor, gradient: Tensor, errEnergy: real, errGrad: real)

  /** Energies and gradients of the first geometry, back in atomic units, and the
      largest spreads. */
  function EgPart(p: EgPrediction, u: EgFactors): (r: Result<EgResult, QmError>)
    requires WellShaped(p.energy) && WellShaped(p.grad) && u.fE != 0.0 && u.fG != 0.0
  {
    match First(Divide(p.energy, u.fE))
    case Err(e) => Err(e)
    case Ok(energy) =>
      match First(Divide(p.grad, u.fG))
      case Err(e) => Err(e)
      case Ok(gradient) =>
        match AMax(Divide(p.energyStd, u.fE))
        case Err(e) => Err(e)
        case Ok(errE) =>
          match AMax(Divide(p.gradStd, u.fG))
          case Err(e) => Err(e)
          case Ok(errG) => Ok(EgResult(energy, gradient, errE, errG))
  }

  /** One coupling property: the first row scaled back and its largest spread. */
  function Part(p: Prediction, f: real): (r: Result<(Tensor, real), QmError>)
    requires WellShaped(p.value) && f != 0.0
  {
    match First(Divide(p.value, f))
    case Err(e) => Err(e)
    case Ok(value) =>
      match AMax(Divide(p.std, f))
      case Err(e) => Err(e)
      case Ok(err) => Ok((value, err))
  }

  /** What `_qm` returns for the networks' output: every predicted property back
      in atomic units with its largest spread, an empty array and the integer 0
      for a property without networks; it fails exactly when a predicted array
      has no first row or a spread array is empty. */
  function NnQm(out: NnOutput, u: EgFactors, n: NacFactors): (r: Result<QmResults, QmError>)
    requires ShapedOutput(out) && u.fE != 0.0 && u.fG != 0.0 && n.fN != 0.0
    ensures r.Err? <==>
              (out.eg.Some? && (NoRow(out.eg.value.energy) || NoRow(out.eg.value.grad) ||
                                |out.eg.value.energyStd.data| == 0 || |out.eg.value.gradStd.data| == 0)) ||
              (out.nac.Some? && (NoRow(out.nac.value.value) || |out.nac.value.std.data| == 0)) ||
              (out.soc.Some? && (NoRow(out.soc.value.value) || |out.soc.value.std.data| == 0))
    ensures r.Ok? && out.eg.None? ==>
              r.value.energy == NoPrediction && r.value.gradient == NoPrediction &&
              r.value.errEnergy == VInt(0) && r.value.errGrad == VInt(0)
    ensures r.Ok? && out.eg.Some? ==>
              r.value.energy == First(Divide(out.eg.value.energy, u.fE)).value &&
              r.value.gradient == First(Divide(out.eg.value.grad, u.fG)).value &&
              IsLargest(r.value.errEnergy, Divide(out.eg.value.energyStd, u.fE)) &&
              IsLargest(r.value.errGrad, Divide(out.eg.value.gradStd, u.fG))
    ensures r.Ok? && out.nac.None? ==> r.value.nac == NoPrediction && r.value.errNac == VInt(0)
    ensures r.Ok? && out.nac.Some? ==>
              r.value.nac == First(Divide(out.nac.value.value, n.fN)).value &&
              IsLargest(r.value.errNac, Divide(out.nac.value.std, n.fN))
    ensures r.Ok? && out.soc.None? ==> r.value.soc == NoPrediction && r.value.errSoc == VInt(0)
    ensures r.Ok? && out.soc.Some? ==>
              r.value.soc == First(out.soc.value.value).value &&
              IsLargest(r.value.errSoc, out.soc.value.std)
  {
    var eg: Result<EgResult, QmError> :=
      if out.eg.Some? then EgPart(out.eg.value, u) else Ok(EgResult(NoPrediction, NoPrediction, 0.0, 0.0));
    var nac: Result<(Tensor, real), QmError> :=
      if out.nac.Some? then Part(out.nac.value, n.fN) else Ok((NoPrediction, 0.0));
    var soc: Result<(Tensor, real), QmError> :=
      if out.soc.Some? then Part(out.soc.value, 1.0) else Ok((NoPrediction, 0.0));
    if eg.Err? then Err(eg.error)
    else if nac.Err? then Err(nac.error)
    else if soc.Err? then Err(soc.error)
    else
      assert out.soc.Some? ==> Divide(out.soc.value.value, 1.0) == out.soc.value.value &&
                               Divide(out.soc.value.std, 1.0) == out.soc.value.std;
      Ok(QmResults(
        eg.value.energy, eg.value.gradient, nac.value.0, soc.value.0,
        if out.eg.Some? then VReal(eg.value.errEnergy) else VInt(0),
        if out.eg.Some? then VReal(eg.value.errGrad) else VInt(0),
        if out.nac.Some? then VReal(nac.value.1) else VInt(0),
        if out.soc.Some? then VReal(soc.value.1) else VInt(0)))
  }

  /** Predictions made in the training unit come back in atomic units: networks
      that reproduce atomic-unit data converted by the training factors hand the
      first geometry's atomic-unit values to the trajectory. */
  lemma PredictionsReturnInAtomicUnits(egUnit: string, nacUnit: string, energy: Tensor, grad: Tensor,
                                       nac: Tensor, std: Tensor)
    requires WellShaped(energy) && WellShaped(grad) && WellShaped(nac)
    requires !NoRow(energy) && !NoRow(grad) && !NoRow(nac) && |std.data| > 0
    ensures var u := EgUnitFactors(egUnit);
            var n := NacUnitFactors(nacUnit);
            var out := NnOutput(Some(EgPrediction(Scale(energy, u.fE), Scale(grad, u.fG), std, std)),
                                Some(Prediction(Scale(nac, n.fN), std)), None);
            var r := NnQm(out, u, n);
            r.Ok? && r.value.energy == First(energy).value && r.value.gradient == First(grad).value &&
            r.value.nac == First(nac).value
  {
    var u := EgUnitFactors(egUnit);
    var n := NacUnitFactors(nacUnit);
    ScaleInverse(energy, u.fE);
    ScaleInverse(grad, u.fG);
    ScaleInverse(nac, n.fN);
  }

  predicate IsPrediction(jobtype: string)
  {
    jobtype == "prediction" || jobtype == "predict"
  }

  // ---------------------------------------------------------------------------
  // The interface object

  /** A value snapshot of the interface's fields. */
  datatype DnnState = DnnState(
    jobtype: string, ncpu: int, trainMode: string, shuffle: Value, natom: nat, name: string,
    silent: int, units: EgFactors, nacUnits: NacFactors, yDict: map<string, YEntry>,
    hyper: map<string, HyperEntry>, gpuList: map<string, seq<int>>, modelPath: string)

  /** The fields as the constructor leaves them. */
  function Initial(kw: NnKeywords, jobId: Option<JobId>, build: HyperBuilder): DnnState
  {
    var name := ModelName(kw.title, jobId);
    var units := EgUnitFactors(kw.egUnit);
    var nacUnits := NacUnitFactors(kw.nacUnit);
    DnnState(kw.jobtype, kw.mlNcpu, NormalizeTrainMode(kw.trainMode), kw.shuffle, kw.data.natom, name,
             kw.silent, units, nacUnits, TrainingTargets(kw, units, nacUnits), Hypers(kw, build),
             GpuTable(kw.gpu), ModelPath(name, kw.modeldir, jobId))
  }

  class DNN {
    var jobtype: string
    var ncpu: int
    var trainMode: string
    var shuffle: Value
    var natom: nat
    var name: string
    var silent: int
    var units: EgFactors
    var nacUnits: NacFactors
    var yDict: map<string, YEntry>
    var hyper: map<string, HyperEntry>
    var gpuList: map<string, seq<int>>
    var modelPath: string

    function State(): DnnState
      reads this
    {
      DnnState(jobtype, ncpu, trainMode, shuffle, natom, name, silent, units, nacUnits, yDict,
               hyper, gpuList, modelPath)
    }

    /** The training mode, name, unit factors, targets, hyperparameters, devices
        and model folder selected from the keywords; the training targets are
        those handed to the permutation step. */
    constructor (kw: NnKeywords, jobId: Option<JobId>, build: HyperBuilder)
      ensures State() == Initial(kw, jobId, build)
    {
      var mode := kw.trainMode;
      if mode != "training" && mode != "retraining" && mode != "resample" {
        mode := "training";
      }
      var title := kw.title;
      var modelName := if jobId == None || jobId == Some(IntId(1)) then "NN-" + title
                       else "NN-" + title + "-" + ShowJobId(jobId.value);
      if kw.egUnit == "si" {
        units := EgFactors(HartreeInEv, HartreePerBohrInEvPerA, 1.0, 1.0);
      } else {
        units := EgFactors(1.0, 1.0, HartreeInEv, HartreePerBohrInEvPerA);
      }
      if kw.nacUnit == "si" {
        nacUnits := NacFactors(HartreePerBohrInEvPerA, 1.0);
      } else {
        nacUnits := NacFactors(1.0, HartreePerBohrInEvPerA);
      }
      jobtype, ncpu, trainMode, shuffle, natom := kw.jobtype, kw.mlNcpu, mode, kw.shuffle, kw.data.natom;
      name, silent := modelName, kw.silent;
      if kw.modeldir == None || !(jobId == None || jobId == Some(IntId(1))) {
        modelPath := modelName;
      } else {
        modelPath := kw.modeldir.value;
      }
      new;
      SetTargets(kw);
      SetHypers(kw, build);
      SetGpus(kw.gpu);
    }

    /** Collects the training targets of every property with a positive type. */
    method SetTargets(kw: NnKeywords)
      modifies this
      ensures State() == old(State()).(yDict := TrainingTargets(kw, units, nacUnits))
    {
      yDict := map[];
      if kw.egType > 0 {
        yDict := yDict[EgKey := EgData(Scale(kw.data.energy, units.fE), Scale(kw.data.grad, units.fG))];
      }
      if kw.nacType > 0 {
        yDict := yDict["nac" := Data(Scale(kw.data.nac, nacUnits.fN))];
      }
      if kw.socType > 0 {
        yDict := yDict["soc" := Data(kw.data.soc)];
      }
    }

    /** Registers one dictionary for type 1, a pair for a larger type. */
    method Register(key: string, nnType: int, h1: Value, h2: Value)
      modifies this
      ensures State() == old(State()).(hyper := Put(old(hyper), key, Slot(nnType, h1, h2)))
    {
      if nnType == 1 {
        hyper := hyper[key := Single(h1)];
      } else if nnType > 1 {
        hyper := hyper[key := Twin(h1, h2)];
      }
    }

    method SetHypers(kw: NnKeywords, build: HyperBuilder)
      modifies this
      ensures State() == old(State()).(hyper := Hypers(kw, build))
    {
      var info := kw.data.info;
      hyper := map[];
      Register(EgKey, kw.egType, build(EnergyGradient, kw.hypEg, kw.egUnit, info, kw.splits),
               build(EnergyGradient, kw.hypEg2, kw.egUnit, info, kw.splits));
      Register("nac", kw.nacType, build(Nac, kw.hypNac, kw.nacUnit, info, kw.splits),
               build(Nac, kw.hypNac2, kw.nacUnit, info, kw.splits));
      Register("soc", kw.socType, build(Soc, kw.hypSoc, kw.socUnit, info, kw.splits),
               build(Soc, kw.hypSoc2, kw.socUnit, info, kw.splits));
    }

    /** Fills the device table for one to six GPUs; leaves it empty otherwise. */
    method SetGpus(gpu: int)
      modifies this
      ensures State() == old(State()).(gpuList := GpuTable(gpu))
    {
      gpuList := map[];
      if gpu == 1 {
        gpuList := map[EgKey := [0, 0], "nac" := [0, 0], "soc" := [0, 0]];
      } else if gpu == 2 {
        gpuList := map[EgKey := [0, 1], "nac" := [0, 1], "soc" := [0, 1]];
      } else if gpu == 3 {
        gpuList := map[EgKey := [0, 0], "nac" := [1, 1], "soc" := [2, 2]];
      } else if gpu == 4 {
        gpuList := map[EgKey := [0, 1], "nac" := [2, 2], "soc" := [3, 3]];
      } else if gpu == 5 {
        gpuList := map[EgKey := [0, 1], "nac" := [2, 3], "soc" := [4, 4]];
      } else if gpu == 6 {
        gpuList := map[EgKey := [0, 1], "nac" := [2, 3], "soc" := [4, 5]];
      }
    }

    /** A training run: the fit errors become the table values, which are appended
        to the log after the heading and before the closing line. */
    method Train(ferr: FitErrors, heading: seq<string>, fixed: real -> string, start: real, end: real,
                 walltime: string, endline: string, cwd: string)
        returns (outcome: TrainOutcome, log: seq<string>)
      ensures outcome == TrainOutcome(NnMetrics(ferr, units, nacUnits), end - start, walltime, cwd, 1)
      ensures log == heading + TableLines(fixed, outcome.metrics) + [endline]
    {
      var errE1, errE2, errG1, errG2 := 0.0, 0.0, 0.0, 0.0;
      var errN1, errN2, errS1, errS2 := 0.0, 0.0, 0.0, 0.0;
      if ferr.eg.Some? {
        errE1, errE2 := ferr.eg.value.e1, ferr.eg.value.e2;
        errG1, errG2 := ferr.eg.value.g1, ferr.eg.value.g2;
      }
      if ferr.nac.Some? {
        errN1, errN2 := ferr.nac.value.first, ferr.nac.value.second;
      }
      if ferr.soc.Some? {
        errS1, errS2 := ferr.soc.value.first, ferr.soc.value.second;
      }
      var m := Metrics(errE1 * units.kE, errG1 * units.kG, errN1 * nacUnits.kN, errS1,
                       errE2 * units.kE, errG2 * units.kG, errN2 * nacUnits.kN, errS2);
      log := heading + TableLines(fixed, m) + [endline];
      outcome := TrainOutcome(m, end - start, walltime, cwd, 1);
    }

    /** In prediction mode the test-set report is written and nothing is returned;
        otherwise the prediction for the trajectory's geometry is recorded in it
        with status 1. A geometry of the wrong size or an unusable prediction
        raises, leaving the trajectory as it was. */
    method Evaluate(traj: Trajectory, predictor: Tensor -> NnOutput)
        returns (r: Result<Option<Trajectory>, QmError>)
      requires forall x :: ShapedOutput(predictor(x))
      requires units.fE != 0.0 && units.fG != 0.0 && nacUnits.fN != 0.0
      modifies traj
      ensures IsPrediction(jobtype) ==> r == Ok(None) && traj.State() == old(traj.State())
      ensures !IsPrediction(jobtype) ==>
                match Reshape(old(traj.coord), [1, natom, 3])
                case None => r == Err(ValueError) && traj.State() == old(traj.State())
                case Some(xyz) =>
                  match NnQm(predictor(xyz), units, nacUnits)
                  case Err(e) => r == Err(e) && traj.State() == old(traj.State())
                  case Ok(q) => r == Ok(Some(traj)) && traj.State() == Recorded(old(traj.State()), q)
    {
      if jobtype == "prediction" || jobtype == "predict" {
        return Ok(None);
      }
      var xyz := Reshape(traj.coord, [1, natom, 3]);
      if xyz.None? {
        return Err(ValueError);
      }
      var q := NnQm(predictor(xyz.value), units, nacUnits);
      if q.Err? {
        return Err(q.error);
      }
      var v := q.value;
      SetResults(traj, v.energy, v.gradient, v.nac, v.soc, v.errEnergy, v.errGrad, v.errNac, v.errSoc, 1);
      r := Ok(Some(traj));
    }
  }
}
