/** The interface to the E2N2 graph networks. Each property with a positive
    network type is registered with its training targets and two copies of its
    hyperparameter dictionary; training writes the graph of the training set into
    every dictionary and reports the validation errors; a prediction averages the
    two networks of each property and takes the spread between them as the error
    estimate. The networks, the graph construction and the multiscale regions
    belong to other modules and enter as parameters. */
module ModelGcnnp {
  import opened Values
  import opened Text
  import opened Trajectories
  import opened MlCommon
  import H = HyperGcnnp
  import N = ModelNN

  /** The options of the `e2n2` and `control` sections the interface reads. */
  datatype E2n2Keywords = E2n2Keywords(
    title: string, jobtype: string, mlNcpu: int, modeldir: Option<string>,
    data: TrainingData, egType: int, nacType: int, socType: int, splits: int,
    hypEg: map<string, Value>, hypNac: map<string, Value>, hypSoc: map<string, Value>,
    egUnit: string, nacUnit: string, socUnit: string,
    trainMode: string, shuffle: Value, silent: int)

  /** The training targets of one property: `[]` before registration, otherwise
      the scalar and the gradient-like part, `None` where the property has none. */
  datatype YPair = NoData | YPair(scalar: Option<Tensor>, grad: Option<Tensor>)

  const EgKey: string := "energy_grad"

  /** The dictionaries the three builders can use. */
  predicate Buildable(kw: E2n2Keywords)
  {
    H.CanDerive(kw.hypEg) && H.HasInputs(kw.hypEg) &&
    H.CanDerive(kw.hypNac) && H.HasInputs(kw.hypNac) &&
    H.CanDerive(kw.hypSoc) && H.HasInputs(kw.hypSoc) &&
    "nstate" in kw.data.info
  }

  // ---------------------------------------------------------------------------
  // Selection made by the constructor

  /** `model_register` and `y_dict` before any property is registered. */
  const NoneRegistered: map<string, bool> := map[EgKey := false, "nac" := false, "soc" := false]
  const NoTargets: map<string, YPair> := map[EgKey := NoData, "nac" := NoData, "soc" := NoData]

  /** `model_register`: a property is registered exactly when its type is positive. */
  function Registry(kw: E2n2Keywords): (r: map<string, bool>)
    ensures r.Keys == {EgKey, "nac", "soc"}
    ensures (r[EgKey] <==> kw.egType > 0) && (r["nac"] <==> kw.nacType > 0) &&
            (r["soc"] <==> kw.socType > 0)
  {
    NoneRegistered[EgKey := kw.egType > 0]["nac" := kw.nacType > 0]["soc" := kw.socType > 0]
  }

  /** `y_dict` after one property's registration: its targets replace `[]` when
      it has networks. */
  function Enter(m: map<string, YPair>, key: string, registered: bool, y: YPair): map<string, YPair>
  {
    if registered then m[key := y] else m
  }

  /** The training targets: energies with gradients, couplings as the gradient
      part, spin-orbit couplings as the scalar part; `[]` for an unregistered
      property. */
  function Targets(kw: E2n2Keywords, u: EgFactors, n: NacFactors): (r: map<string, YPair>)
    ensures r.Keys == {EgKey, "nac", "soc"}
    ensures r[EgKey] == (if kw.egType > 0
                         then YPair(Some(Scale(kw.data.energy, u.fE)), Some(Scale(kw.data.grad, u.fG)))
                         else NoData)
    ensures r["nac"] == (if kw.nacType > 0 then YPair(None, Some(Scale(kw.data.nac, n.fN))) else NoData)
    ensures r["soc"] == (if kw.socType > 0 then YPair(Some(kw.data.soc), None) else NoData)
  {
    var eg := Enter(NoTargets, EgKey, kw.egType > 0,
                    YPair(Some(Scale(kw.data.energy, u.fE)), Some(Scale(kw.data.grad, u.fG))));
    var nac := Enter(eg, "nac", kw.nacType > 0, YPair(None, Some(Scale(kw.data.nac, n.fN))));
    Enter(nac, "soc", kw.socType > 0, YPair(Some(kw.data.soc), None))
  }

  /** The two dictionaries of a registered property; none otherwise. */
  function Pair(registered: bool, h1: H.HyperDict, h2: H.HyperDict): (r: seq<H.HyperDict>)
    ensures |r| == if registered then 2 else 0
    ensures forall h :: h in r ==> h == h1 || h == h2
  {
    if registered then [h1, h2] else []
  }

  /** The hyperparameter list: two dictionaries per registered property, in the
      order energy+gradient, couplings, spin-orbit couplings. */
  function HyperList(kw: E2n2Keywords, eg: H.HyperDict, eg2: H.HyperDict, nac: H.HyperDict,
                     nac2: H.HyperDict, soc: H.HyperDict, soc2: H.HyperDict): (r: seq<H.HyperDict>)
    ensures |r| == 2 * RegisteredCount(Registry(kw))
    ensures forall h :: h in r ==> h in [eg, eg2, nac, nac2, soc, soc2]
    ensures var i := if kw.egType > 0 then 2 else 0;
            var j := i + (if kw.nacType > 0 then 2 else 0);
            j <= |r| &&
            (kw.egType > 0 ==> r[..2] == [eg, eg2]) &&
            (kw.nacType > 0 ==> r[i..j] == [nac, nac2]) &&
            (kw.socType > 0 ==> r[j..] == [soc, soc2])
  {
    var a := Pair(kw.egType > 0, eg, eg2);
    var b := Pair(kw.nacType > 0, nac, nac2);
    var c := Pair(kw.socType > 0, soc, soc2);
    assert forall h :: h in a + b + c ==> h in a || h in b || h in c;
    a + b + c
  }

  /** How many properties are registered. */
  function RegisteredCount(reg: map<string, bool>): nat
    requires reg.Keys == {EgKey, "nac", "soc"}
  {
    (if reg[EgKey] then 1 else 0) + (if reg["nac"] then 1 else 0) + (if reg["soc"] then 1 else 0)
  }

  /** A value snapshot of the interface's fields. */
  datatype E2n2State = E2n2State(
    jobtype: string, ncpu: int, trainMode: string, shuffle: Value, splits: int, natom: nat,
    name: string, silent: int, units: EgFactors, nacUnits: NacFactors,
    energy: Tensor, grad: Tensor, nac: Tensor, soc: Tensor, modelPath: string,
    modelRegister: map<string, bool>, yDict: map<string, YPair>, hypers: seq<H.HyperDict>)

  /** Energies and gradients in the training unit. */
  function EgTargets(kw: E2n2Keywords): YPair
  {
    var u := EgUnitFactors(kw.egUnit);
    YPair(Some(Scale(kw.data.energy, u.fE)), Some(Scale(kw.data.grad, u.fG)))
  }

  /** Couplings in the training unit, as the gradient-like part. */
  function NacTargets(kw: E2n2Keywords): YPair
  {
    YPair(None, Some(Scale(kw.data.nac, NacUnitFactors(kw.nacUnit).fN)))
  }

  /** Spin-orbit couplings, as the scalar part. */
  function SocTargets(kw: E2n2Keywords): YPair
  {
    YPair(Some(kw.data.soc), None)
  }

  /** The fields before any property is registered. */
  function Base(kw: E2n2Keywords, jobId: Option<JobId>): E2n2State
  {
    var name := ModelName(kw.title, jobId);
    var u := EgUnitFactors(kw.egUnit);
    var n := NacUnitFactors(kw.nacUnit);
    E2n2State(kw.jobtype, kw.mlNcpu, NormalizeTrainMode(kw.trainMode), kw.shuffle, kw.splits,
              kw.data.natom, name, kw.silent, u, n,
              Scale(kw.data.energy, u.fE), Scale(kw.data.grad, u.fG), Scale(kw.data.nac, n.fN), kw.data.soc,
              ModelPath(name, kw.modeldir, jobId), NoneRegistered, NoTargets, [])
  }

  /** The fields after one property is registered, or marked unregistered. */
  function Registered(st: E2n2State, key: string, registered: bool, y: YPair,
                      h1: H.HyperDict, h2: H.HyperDict): E2n2State
  {
    st.(modelRegister := st.modelRegister[key := registered], yDict := Enter(st.yDict, key, registered, y),
        hypers := st.hypers + Pair(registered, h1, h2))
  }

  /** The fields as the constructor leaves them, given the six dictionaries. */
  function InitialWith(kw: E2n2Keywords, jobId: Option<JobId>, eg: H.HyperDict, eg2: H.HyperDict,
                       nac: H.HyperDict, nac2: H.HyperDict, soc: H.HyperDict, soc2: H.HyperDict): E2n2State
  {
    Registered(Registered(Registered(Base(kw, jobId), EgKey, kw.egType > 0, EgTargets(kw), eg, eg2),
                          "nac", kw.nacType > 0, NacTargets(kw), nac, nac2),
               "soc", kw.socType > 0, SocTargets(kw), soc, soc2)
  }

  /** The constructor registers exactly the properties with a positive type, each
      with its targets in the training unit, and lists their dictionaries in
      order; everything else is as before registration. */
  lemma InitialWithSelects(kw: E2n2Keywords, jobId: Option<JobId>, eg: H.HyperDict, eg2: H.HyperDict,
                           nac: H.HyperDict, nac2: H.HyperDict, soc: H.HyperDict, soc2: H.HyperDict)
    ensures var st := InitialWith(kw, jobId, eg, eg2, nac, nac2, soc, soc2);
            var b := Base(kw, jobId);
            st.modelRegister == Registry(kw) && st.yDict == Targets(kw, b.units, b.nacUnits) &&
            st.hypers == HyperList(kw, eg, eg2, nac, nac2, soc, soc2) &&
            st == b.(modelRegister := st.modelRegister, yDict := st.yDict, hypers := st.hypers)
  {
    var b := Base(kw, jobId);
    assert [] + Pair(kw.egType > 0, eg, eg2) == Pair(kw.egType > 0, eg, eg2);
  }

  /** The fields after construction from the keywords: each property's pair of
      dictionaries is built twice from the same `hyp`, which gives the same
      dictionary twice. */
  function Initial(kw: E2n2Keywords, jobId: Option<JobId>): E2n2State
    requires Buildable(kw) && kw.splits != 0
  {
    var info := kw.data.info;
    var eg := H.Build(H.EnergyGrad, kw.hypEg, kw.egUnit, info, kw.splits).value;
    var nac := H.Build(H.Nac, kw.hypNac, kw.nacUnit, info, kw.splits).value;
    var soc := H.Build(H.Soc, kw.hypSoc, kw.socUnit, info, kw.splits).value;
    InitialWith(kw, jobId, eg, eg, nac, nac, soc, soc)
  }

  /** Built from dictionaries no training run has touched (as the builders
      return them), the interface holds two dictionaries per registered property,
      none of which has a graph yet. */
  lemma InitialHypersUntouched(kw: E2n2Keywords, jobId: Option<JobId>, eg: H.HyperDict,
                               nac: H.HyperDict, soc: H.HyperDict)
    requires H.Untouched(eg) && H.Untouched(nac) && H.Untouched(soc)
    ensures var st := InitialWith(kw, jobId, eg, eg, nac, nac, soc, soc);
            |st.hypers| == 2 * RegisteredCount(st.modelRegister) &&
            forall i :: 0 <= i < |st.hypers| ==> H.Untouched(st.hypers[i])
  {
    InitialWithSelects(kw, jobId, eg, eg, nac, nac, soc, soc);
    var hs := HyperList(kw, eg, eg, nac, nac, soc, soc);
    forall i | 0 <= i < |hs|
      ensures H.Untouched(hs[i])
    {
      assert hs[i] in hs;
    }
  }

  // ---------------------------------------------------------------------------
  // Training

  /** A dictionary with the graph of the training set written into it. */
  function Patch(h: H.HyperDict, nodeType: Value, edgesFor: (Value, Value) -> Value): (r: H.HyperDict)
    ensures r.config.nodeInfo == nodeType
    ensures r.config.edgeList == edgesFor(h.config.maxradius, h.config.nedges)
    ensures r.(config := r.config.(nodeInfo := h.config.nodeInfo, edgeList := h.config.edgeList)) == h
  {
    h.(config := h.config.(nodeInfo := nodeType,
                           edgeList := edgesFor(h.config.maxradius, h.config.nedges)))
  }

  const NoEgFit: EgFit := EgFit(0.0, 0.0, 0.0, 0.0)
  const NoFit: TwinFit := TwinFit(0.0, 0.0)

  /** The errors `train` reads: those of the registered properties and zeros for
      the others; a registered property the run did not report raises. */
  function Reported(reg: map<string, bool>, errors: FitErrors): (r: Result<(EgFit, TwinFit, TwinFit), QmError>)
    requires reg.Keys == {EgKey, "nac", "soc"}
    ensures r.Err? <==> (reg[EgKey] && errors.eg.None?) || (reg["nac"] && errors.nac.None?) ||
                        (reg["soc"] && errors.soc.None?)
    ensures r.Err? ==> r.error == KeyError
    ensures r.Ok? ==> r.value.0 == (if reg[EgKey] then errors.eg.value else NoEgFit) &&
                      r.value.1 == (if reg["nac"] then errors.nac.value else NoFit) &&
                      r.value.2 == (if reg["soc"] then errors.soc.value else NoFit)
  {
    if reg[EgKey] && errors.eg.None? then Err(KeyError)
    else if reg["nac"] && errors.nac.None? then Err(KeyError)
    else if reg["soc"] && errors.soc.None? then Err(KeyError)
    else Ok((if reg[EgKey] then errors.eg.value else NoEgFit,
             if reg["nac"] then errors.nac.value else NoFit,
             if reg["soc"] then errors.soc.value else NoFit))
  }

  /** The table values as written: the coupling errors are divided by `k_n`. */
  function GcnnpMetricsAsWritten(reg: map<string, bool>, errors: FitErrors, u: EgFactors,
                                 n: NacFactors): (r: Result<Metrics, QmError>)
    requires reg.Keys == {EgKey, "nac", "soc"} && n.kN != 0.0
    ensures r.Err? <==> Reported(reg, errors).Err?
    ensures r.Ok? && reg["nac"] ==>
              r.value.n1 == errors.nac.value.first / n.kN && r.value.n2 == errors.nac.value.second / n.kN
  {
    match Reported(reg, errors)
    case Err(e) => Err(e)
    case Ok((eg, nac, soc)) =>
      Ok(Metrics(eg.e1 * u.kE, eg.g1 * u.kG, nac.first / n.kN, soc.first,
                 eg.e2 * u.kE, eg.g2 * u.kG, nac.second / n.kN, soc.second))
  }

  /** The table values with the coupling errors converted like the others, by
      multiplying with `k_n`. */
  function GcnnpMetrics(reg: map<string, bool>, errors: FitErrors, u: EgFactors,
                        n: NacFactors): (r: Result<Metrics, QmError>)
    requires reg.Keys == {EgKey, "nac", "soc"}
    ensures r.Err? <==> Reported(reg, errors).Err?
    ensures r.Ok? && !reg[EgKey] ==> r.value.e1 == 0.0 && r.value.g1 == 0.0 && r.value.e2 == 0.0 && r.value.g2 == 0.0
    ensures r.Ok? && !reg["nac"] ==> r.value.n1 == 0.0 && r.value.n2 == 0.0
    ensures r.Ok? && !reg["soc"] ==> r.value.s1 == 0.0 && r.value.s2 == 0.0
  {
    match Reported(reg, errors)
    case Err(e) => Err(e)
    case Ok((eg, nac, soc)) =>
      Ok(Metrics(eg.e1 * u.kE, eg.g1 * u.kG, nac.first * n.kN, soc.first,
                 eg.e2 * u.kE, eg.g2 * u.kG, nac.second * n.kN, soc.second))
  }

  /** With exactly the registered properties reporting errors, the corrected
      values are those of the NNsMD interface: both tables are in the same units. */
  lemma GcnnpMetricsMatchNn(reg: map<string, bool>, errors: FitErrors, u: EgFactors, n: NacFactors)
    requires reg.Keys == {EgKey, "nac", "soc"}
    requires (reg[EgKey] <==> errors.eg.Some?) && (reg["nac"] <==> errors.nac.Some?) &&
             (reg["soc"] <==> errors.soc.Some?)
    ensures GcnnpMetrics(reg, errors, u, n) == Ok(N.NnMetrics(errors, u, n))
  {
    // the table values agree one by one
    var g := GcnnpMetrics(reg, errors, u, n).value;
    var m := N.NnMetrics(errors, u, n);
    assert g.e1 == m.e1;
    assert g.g1 == m.g1;
    assert g.n1 == m.n1;
    assert g.s1 == m.s1;
    assert g.e2 == m.e2;
    assert g.g2 == m.g2;
    assert g.n2 == m.n2;
    assert g.s2 == m.s2;
  }

  /** Every registered property's coupling error differs from the intended
      conversion unless the error is zero or the unit is `si`. */
  lemma NacMetricAsWrittenDiffers(reg: map<string, bool>, errors: FitErrors, u: EgFactors, nacUnit: string)
    requires reg.Keys == {EgKey, "nac", "soc"} && reg["nac"] && errors.nac.Some?
    requires GcnnpMetrics(reg, errors, u, NacUnitFactors(nacUnit)).Ok?
    ensures var n := NacUnitFactors(nacUnit);
            var written := GcnnpMetricsAsWritten(reg, errors, u, n).value;
            var intended := GcnnpMetrics(reg, errors, u, n).value;
            (written.n1 == intended.n1 <==> errors.nac.value.first == 0.0 || nacUnit == "si")
  {
    var n := NacUnitFactors(nacUnit);
    var x := errors.nac.value.first;
    assert HartreePerBohrInEvPerA > 1.0;
    if nacUnit != "si" && x != 0.0 {
      var k := n.kN;
      assert k * k - 1.0 > 0.0;
      assert x * k - x / k == x * (k * k - 1.0) / k;
      assert x * (k * k - 1.0) != 0.0;
    }
  }

  /** As written, a coupling network trained in atomic units reports its error
      divided by the eV/Angstrom factor: an error of one Hartree/Bohr appears as
      about 0.019 in a column headed eV/A, where 51.4 is meant. */
  lemma NacMetricAsWrittenNotInEv()
    ensures var reg := map[EgKey := false, "nac" := true, "soc" := false];
            var errors := FitErrors(None, Some(TwinFit(1.0, 1.0)), None);
            var n := NacUnitFactors("au");
            var written := GcnnpMetricsAsWritten(reg, errors, EgUnitFactors("au"), n);
            var intended := GcnnpMetrics(reg, errors, EgUnitFactors("au"), n);
            written.Ok? && intended.Ok? &&
            written.value.n1 == 1.0 / HartreePerBohrInEvPerA &&
            intended.value.n1 == HartreePerBohrInEvPerA &&
            written.value.n1 != intended.value.n1
  {
    var n := NacUnitFactors("au");
    assert n.kN == HartreePerBohrInEvPerA;
    assert HartreePerBohrInEvPerA > 1.0;
    assert 1.0 / HartreePerBohrInEvPerA < 1.0;
  }

  // ---------------------------------------------------------------------------
  // Prediction

  /** Both networks' predictions for one property: `pred[i][0]` is the scalar part
      and `pred[i][1]` the gradient-like part of network `i`. */
  datatype Twin = Twin(scalar1: Tensor, grad1: Tensor, scalar2: Tensor, grad2: Tensor)

  /** What the networks return for one geometry, per property. */
  datatype E2n2Output = E2n2Output(eg: Option<Twin>, nac: Option<Twin>, soc: Option<Twin>)

  /** Two arrays `np.mean`/`np.std` can combine along a new first axis. */
  predicate Comparable(a: Tensor, b: Tensor)
  {
    a.shape == b.shape && |a.data| == |b.data|
  }

  /** `np.mean([a, b], axis=0)`. */
  function Mean2(a: Tensor, b: Tensor): (r: Result<Tensor, QmError>)
    ensures r.Ok? <==> Comparable(a, b)
    ensures r.Ok? ==> r.value.shape == a.shape && |r.value.data| == |a.data| &&
                      forall k :: 0 <= k < |a.data| ==> r.value.data[k] == (a.data[k] + b.data[k]) / 2.0
  {
    if !Comparable(a, b) then Err(ValueError)
    else Ok(Tensor(a.shape, seq(|a.data|, k requires 0 <= k < |a.data| => (a.data[k] + b.data[k]) / 2.0)))
  }

  /** `np.std([a, b], axis=0, ddof=1)`, element by element through `dev`, the
      sample standard deviation of two numbers. */
  function Std2(dev: (real, real) -> real, a: Tensor, b: Tensor): (r: Result<Tensor, QmError>)
    ensures r.Ok? <==> Comparable(a, b)
    ensures r.Ok? ==> r.value.shape == a.shape && |r.value.data| == |a.data| &&
                      forall k :: 0 <= k < |a.data| ==> r.value.data[k] == dev(a.data[k], b.data[k])
  {
    if !Comparable(a, b) then Err(ValueError)
    else Ok(Tensor(a.shape, seq(|a.data|, k requires 0 <= k < |a.data| => dev(a.data[k], b.data[k]))))
  }

  /** The averaged property, divided by `f`, and the largest spread of `spreadA`
      against `spreadB`, divided by `f`. */
  function Averaged(dev: (real, real) -> real, a: Tensor, b: Tensor, spreadA: Tensor, spreadB: Tensor,
                    f: real): (r: Result<(Tensor, real), QmError>)
    requires f != 0.0
    ensures r.Ok? <==> Comparable(a, b) && Comparable(spreadA, spreadB) && |spreadA.data| > 0
    ensures r.Ok? ==> r.value.0 == Divide(Mean2(a, b).value, f) &&
                      r.value.1 == AMax(Divide(Std2(dev, spreadA, spreadB).value, f)).value
  {
    match Mean2(a, b)
    case Err(e) => Err(e)
    case Ok(mean) =>
      match Std2(dev, spreadA, spreadB)
      case Err(e) => Err(e)
      case Ok(std) =>
        match AMax(Divide(std, f))
        case Err(e) => Err(e)
        case Ok(err) => Ok((Divide(mean, f), err))
  }

  datatype EgResult = EgResult(energy: Tensor, gradient: Tensor, errEnergy: real, errGrad: real)

  /** Energies and gradients as written: the gradient spread is taken over the
      two networks' energies. */
  function EgPartAsWritten(dev: (real, real) -> real, p: Twin, u: EgFactors): Result<EgResult, QmError>
    requires u.fE != 0.0 && u.fG != 0.0
  {
    match Averaged(dev, p.scalar1, p.scalar2, p.scalar1, p.scalar2, u.fE)
    case Err(e) => Err(e)
    case Ok(e) =>
      match Averaged(dev, p.grad1, p.grad2, p.scalar1, p.scalar2, u.fG)
      case Err(err) => Err(err)
      case Ok(g) => Ok(EgResult(e.0, g.0, e.1, g.1))
  }

  /** Energies and gradients, each with the largest spread of its own predictions. */
  function EgPart(dev: (real, real) -> real, p: Twin, u: EgFactors): (r: Result<EgResult, QmError>)
    requires u.fE != 0.0 && u.fG != 0.0
    ensures r.Ok? ==> Std2(dev, p.grad1, p.grad2).Ok? &&
                      IsLargest(VReal(r.value.errGrad), Divide(Std2(dev, p.grad1, p.grad2).value, u.fG))
    ensures r.Ok? ==> Std2(dev, p.scalar1, p.scalar2).Ok? &&
                      IsLargest(VReal(r.value.errEnergy), Divide(Std2(dev, p.scalar1, p.scalar2).value, u.fE))
  {
    match Averaged(dev, p.scalar1, p.scalar2, p.scalar1, p.scalar2, u.fE)
    case Err(e) => Err(e)
    case Ok(e) =>
      match Averaged(dev, p.grad1, p.grad2, p.grad1, p.grad2, u.fG)
      case Err(err) => Err(err)
      case Ok(g) => Ok(EgResult(e.0, g.0, e.1, g.1))
  }

  /** As written, two networks that agree exactly on the gradient report a
      gradient error as soon as their energies differ. */
  lemma GradErrorAsWrittenFollowsEnergies()
    ensures var dev := (x: real, y: real) => if x <= y then y - x else x - y;
            var p := Twin(Vector([0.0]), Vector([1.0]), Vector([2.0]), Vector([1.0]));
            var u := EgUnitFactors("au");
            var written := EgPartAsWritten(dev, p, u);
            var intended := EgPart(dev, p, u);
            written.Ok? && intended.Ok? && written.value.errGrad == 2.0 && intended.value.errGrad == 0.0
  {
    var dev := (x: real, y: real) => if x <= y then y - x else x - y;
    var p := Twin(Vector([0.0]), Vector([1.0]), Vector([2.0]), Vector([1.0]));
    var u := EgUnitFactors("au");
    assert Divide(Std2(dev, p.scalar1, p.scalar2).value, u.fG).data == [2.0];
    assert Divide(Std2(dev, p.grad1, p.grad2).value, u.fG).data == [0.0];
  }

  /** The corrected gradient and its error do not depend on the energies. */
  lemma GradErrorIgnoresEnergies(dev: (real, real) -> real, p: Twin, q: Twin, u: EgFactors)
    requires u.fE != 0.0 && u.fG != 0.0
    requires p.grad1 == q.grad1 && p.grad2 == q.grad2
    requires EgPart(dev, p, u).Ok? && EgPart(dev, q, u).Ok?
    ensures EgPart(dev, p, u).value.gradient == EgPart(dev, q, u).value.gradient
    ensures EgPart(dev, p, u).value.errGrad == EgPart(dev, q, u).value.errGrad
  {
  }

  /** One coupling property: the scalar or the gradient-like parts of both networks. */
  function Part(dev: (real, real) -> real, a: Tensor, b: Tensor, f: real): Result<(Tensor, real), QmError>
    requires f != 0.0
  {
    Averaged(dev, a, b, a, b, f)
  }

  /** Two networks' arrays that `np.mean`, `np.std` and `np.amax` accept. */
  predicate Combinable(a: Tensor, b: Tensor)
  {
    Comparable(a, b) && |a.data| > 0
  }

  /** A registered property's prediction that `_qm` can combine. */
  predicate Usable(p: Option<Twin>, scalar: bool, grad: bool)
  {
    p.Some? && (scalar ==> Combinable(p.value.scalar1, p.value.scalar2)) &&
    (grad ==> Combinable(p.value.grad1, p.value.grad2))
  }

  /** What `_qm` returns: for each registered property the networks' mean, back
      in atomic units, and the largest spread between them; an empty array and
      the integer 0 for an unregistered one. A registered property without a
      prediction, or predictions that cannot be combined, raise. */
  function GcnnpQm(reg: map<string, bool>, out: E2n2Output, dev: (real, real) -> real, u: EgFactors,
                   n: NacFactors): (r: Result<QmResults, QmError>)
    requires reg.Keys == {EgKey, "nac", "soc"} && u.fE != 0.0 && u.fG != 0.0 && n.fN != 0.0
    ensures r.Err? <==> (reg[EgKey] && !Usable(out.eg, true, true)) ||
                        (reg["nac"] && !Usable(out.nac, false, true)) ||
                        (reg["soc"] && !Usable(out.soc, true, false))
    ensures r.Err? ==> r.error == KeyError || r.error == ValueError
    ensures r.Err? && r.error == KeyError ==>
              (reg[EgKey] && out.eg.None?) || (reg["nac"] && out.nac.None?) || (reg["soc"] && out.soc.None?)
    ensures reg[EgKey] && out.eg.None? ==> r == Err(KeyError)
    ensures r.Ok? && !reg[EgKey] ==>
              r.value.energy == NoPrediction && r.value.gradient == NoPrediction &&
              r.value.errEnergy == VInt(0) && r.value.errGrad == VInt(0)
    ensures r.Ok? && !reg["nac"] ==> r.value.nac == NoPrediction && r.value.errNac == VInt(0)
    ensures r.Ok? && !reg["soc"] ==> r.value.soc == NoPrediction && r.value.errSoc == VInt(0)
    ensures r.Ok? && reg[EgKey] ==>
              var p := out.eg.value;
              r.value.energy == Divide(Mean2(p.scalar1, p.scalar2).value, u.fE) &&
              r.value.gradient == Divide(Mean2(p.grad1, p.grad2).value, u.fG) &&
              IsLargest(r.value.errEnergy, Divide(Std2(dev, p.scalar1, p.scalar2).value, u.fE)) &&
              IsLargest(r.value.errGrad, Divide(Std2(dev, p.grad1, p.grad2).value, u.fG))
    ensures r.Ok? && reg["nac"] ==>
              var p := out.nac.value;
              r.value.nac == Divide(Mean2(p.grad1, p.grad2).value, n.fN) &&
              IsLargest(r.value.errNac, Divide(Std2(dev, p.grad1, p.grad2).value, n.fN))
    ensures r.Ok? && reg["soc"] ==>
              var p := out.soc.value;
              r.value.soc == Mean2(p.scalar1, p.scalar2).value &&
              IsLargest(r.value.errSoc, Std2(dev, p.scalar1, p.scalar2).value)
  {
    var eg: Result<EgResult, QmError> :=
      if !reg[EgKey] then Ok(EgResult(NoPrediction, NoPrediction, 0.0, 0.0))
      else if out.eg.None? then Err(KeyError)
      else EgPart(dev, out.eg.value, u);
    var nac: Result<(Tensor, real), QmError> :=
      if !reg["nac"] then Ok((NoPrediction, 0.0))
      else if out.nac.None? then Err(KeyError)
      else Part(dev, out.nac.value.grad1, out.nac.value.grad2, n.fN);
    var soc: Result<(Tensor, real), QmError> :=
      if !reg["soc"] then Ok((NoPrediction, 0.0))
      else if out.soc.None? then Err(KeyError)
      else Part(dev, out.soc.value.scalar1, out.soc.value.scalar2, 1.0);
    if eg.Err? then Err(eg.error)
    else if nac.Err? then Err(nac.error)
    else if soc.Err? then Err(soc.error)
    else
      assert reg["soc"] ==> Divide(Mean2(out.soc.value.scalar1, out.soc.value.scalar2).value, 1.0)
                            == Mean2(out.soc.value.scalar1, out.soc.value.scalar2).value &&
                            Divide(Std2(dev, out.soc.value.scalar1, out.soc.value.scalar2).value, 1.0)
                            == Std2(dev, out.soc.value.scalar1, out.soc.value.scalar2).value;
      Ok(QmResults(
        eg.value.energy, eg.value.gradient, nac.value.0, soc.value.0,
        if reg[EgKey] then VReal(eg.value.errEnergy) else VInt(0),
        if reg[EgKey] then VReal(eg.value.errGrad) else VInt(0),
        if reg["nac"] then VReal(nac.value.1) else VInt(0),
        if reg["soc"] then VReal(soc.value.1) else VInt(0)))
  }

  /** Two networks that agree exactly report zero error for every registered
      property, when `dev` gives zero for equal numbers. */
  lemma AgreeingNetworksReportNoError(reg: map<string, bool>, out: E2n2Output,
                                      dev: (real, real) -> real, u: EgFactors, n: NacFactors)
    requires reg.Keys == {EgKey, "nac", "soc"} && u.fE != 0.0 && u.fG != 0.0 && n.fN != 0.0
    requires forall x :: dev(x, x) == 0.0
    requires out.eg.Some? ==> out.eg.value.scalar1 == out.eg.value.scalar2 &&
                              out.eg.value.grad1 == out.eg.value.grad2
    requires out.nac.Some? ==> out.nac.value.grad1 == out.nac.value.grad2
    requires out.soc.Some? ==> out.soc.value.scalar1 == out.soc.value.scalar2
    requires GcnnpQm(reg, out, dev, u, n).Ok?
    ensures var q := GcnnpQm(reg, out, dev, u, n).value;
            (reg[EgKey] ==> q.errEnergy == VReal(0.0) && q.errGrad == VReal(0.0)) &&
            (reg["nac"] ==> q.errNac == VReal(0.0)) &&
            (reg["soc"] ==> q.errSoc == VReal(0.0))
  {
    var q := GcnnpQm(reg, out, dev, u, n).value;
    if reg[EgKey] {
      var p := out.eg.value;
      ZeroSpread(dev, p.scalar1, u.fE, q.errEnergy);
      ZeroSpread(dev, p.grad1, u.fG, q.errGrad);
    }
    if reg["nac"] {
      var p := out.nac.value;
      ZeroSpread(dev, p.grad1, n.fN, q.errNac);
    }
    if reg["soc"] {
      var p := out.soc.value;
      assert Divide(Std2(dev, p.scalar1, p.scalar1).value, 1.0) == Std2(dev, p.scalar1, p.scalar1).value;
      ZeroSpread(dev, p.scalar1, 1.0, q.errSoc);
    }
  }

  /** The largest spread of an array against itself is zero. */
  lemma ZeroSpread(dev: (real, real) -> real, a: Tensor, f: real, x: Value)
    requires forall y :: dev(y, y) == 0.0
    requires f != 0.0
    requires IsLargest(x, Divide(Std2(dev, a, a).value, f))
    ensures x == VReal(0.0)
  {
    var s := Std2(dev, a, a).value;
    var t := Divide(s, f);
    var k :| 0 <= k < |t.data| && t.data[k] == x.r;
    var y := a.data[k];
    assert s.data[k] == dev(y, y) == 0.0;
  }

  // ---------------------------------------------------------------------------
  // The interface object

  class E2N2 {
    var jobtype: string
    var ncpu: int
    var trainMode: string
    var shuffle: Value
    var splits: int
    var natom: nat
    var name: string
    var silent: int
    var units: EgFactors
    var nacUnits: NacFactors
    var energy: Tensor
    var grad: Tensor
    var nac: Tensor
    var soc: Tensor
    var modelPath: string
    var modelRegister: map<string, bool>
    var yDict: map<string, YPair>
    var hypers: seq<H.HyperDict>

    function State(): E2n2State
      reads this
    {
      E2n2State(jobtype, ncpu, trainMode, shuffle, splits, natom, name, silent, units, nacUnits,
                energy, grad, nac, soc, modelPath, modelRegister, yDict, hypers)
    }

    /** The selection made from the keywords, with the six dictionaries already
        built. */
    constructor (kw: E2n2Keywords, jobId: Option<JobId>, eg: H.HyperDict, eg2: H.HyperDict,
                 nacHyper: H.HyperDict, nacHyper2: H.HyperDict, socHyper: H.HyperDict,
                 socHyper2: H.HyperDict)
      ensures State() == InitialWith(kw, jobId, eg, eg2, nacHyper, nacHyper2, socHyper, socHyper2)
    {
      var modelName := ModelName(kw.title, jobId);
      var u, n := EgUnitFactors(kw.egUnit), NacUnitFactors(kw.nacUnit);
      jobtype, ncpu, trainMode := kw.jobtype, kw.mlNcpu, NormalizeTrainMode(kw.trainMode);
      shuffle, splits, natom, name, silent := kw.shuffle, kw.splits, kw.data.natom, modelName, kw.silent;
      units, nacUnits := u, n;
      var e, g, c := Scale(kw.data.energy, u.fE), Scale(kw.data.grad, u.fG), Scale(kw.data.nac, n.fN);
      energy, grad, nac, soc := e, g, c, kw.data.soc;
      modelPath := ModelPath(modelName, kw.modeldir, jobId);
      modelRegister, yDict, hypers := NoneRegistered, NoTargets, [];
      new;
      RegisterOne(EgKey, kw.egType > 0, YPair(Some(e), Some(g)), eg, eg2);
      RegisterOne("nac", kw.nacType > 0, YPair(None, Some(c)), nacHyper, nacHyper2);
      RegisterOne("soc", kw.socType > 0, YPair(Some(kw.data.soc), None), socHyper, socHyper2);
    }

    /** Registers one property with its targets and its two dictionaries when it
        has networks, and marks it unregistered otherwise. */
    method RegisterOne(key: string, registered: bool, y: YPair, h1: H.HyperDict, h2: H.HyperDict)
      modifies this
      ensures State() == Registered(old(State()), key, registered, y, h1, h2)
    {
      if registered {
        yDict := yDict[key := y];
        modelRegister := modelRegister[key := true];
        hypers := hypers + [h1, h2];
      } else {
        modelRegister := modelRegister[key := false];
        assert hypers + [] == hypers;
      }
    }

    /** Writes the node types and each dictionary's edge list, found within its
        own radius and edge count, into every dictionary. */
    method PatchHypers(nodeType: Value, edgesFor: (Value, Value) -> Value)
      modifies this
      ensures State() == old(State()).(hypers := seq(|old(hypers)|, i requires 0 <= i < |old(hypers)| =>
                                                       Patch(old(hypers)[i], nodeType, edgesFor)))
    {
      var n := 0;
      while n < |hypers|
        invariant 0 <= n <= |hypers| == |old(hypers)|
        invariant forall k :: 0 <= k < n ==> hypers[k] == Patch(old(hypers)[k], nodeType, edgesFor)
        invariant forall k :: n <= k < |hypers| ==> hypers[k] == old(hypers)[k]
        invariant State() == old(State()).(hypers := hypers)
      {
        var cutoff := hypers[n].config.maxradius;
        var nedges := hypers[n].config.nedges;
        var edgeList := edgesFor(cutoff, nedges);
        hypers := hypers[n := hypers[n].(config := hypers[n].config.(nodeInfo := nodeType, edgeList := edgeList))];
        n := n + 1;
      }
    }

    /** A training run: the graph goes into every dictionary, then the validation
        errors of the registered properties become the table values. */
    method Train(nodeType: Value, edgesFor: (Value, Value) -> Value, errors: FitErrors,
                 heading: seq<string>, fixed: real -> string, start: real, end: real,
                 walltime: string, endline: string, cwd: string)
        returns (r: Result<(TrainOutcome, seq<string>), QmError>)
      requires modelRegister.Keys == {EgKey, "nac", "soc"}
      modifies this
      ensures State() == old(State()).(hypers := seq(|old(hypers)|, i requires 0 <= i < |old(hypers)| =>
                                                       Patch(old(hypers)[i], nodeType, edgesFor)))
      ensures match GcnnpMetrics(modelRegister, errors, units, nacUnits)
              case Err(e) => r == Err(e)
              case Ok(m) => r == Ok((TrainOutcome(m, end - start, walltime, cwd, 1),
                                     heading + TableLines(fixed, m) + [endline]))
    {
      PatchHypers(nodeType, edgesFor);
      var metrics := GcnnpMetrics(modelRegister, errors, units, nacUnits);
      if metrics.Err? {
        return Err(metrics.error);
      }
      var m := metrics.value;
      r := Ok((TrainOutcome(m, end - start, walltime, cwd, 1), heading + TableLines(fixed, m) + [endline]));
    }

    /** In prediction mode the test-set report is written and nothing is returned;
        otherwise the averaged prediction for the trajectory's atoms and geometry
        is recorded in it with status 1. */
    method Evaluate(traj: Trajectory, predictor: (Tensor, Tensor) -> E2n2Output, dev: (real, real) -> real)
        returns (r: Result<Option<Trajectory>, QmError>)
      requires modelRegister.Keys == {EgKey, "nac", "soc"}
      requires units.fE != 0.0 && units.fG != 0.0 && nacUnits.fN != 0.0
      modifies traj
      ensures jobtype == "prediction" || jobtype == "predict" ==>
                r == Ok(None) && traj.State() == old(traj.State())
      ensures !(jobtype == "prediction" || jobtype == "predict") ==>
                match (Reshape(old(traj.atoms), [1, natom, 1]), Reshape(old(traj.coord), [1, natom, 3]))
                case (Some(atoms), Some(xyz)) =>
                  (match GcnnpQm(modelRegister, predictor(atoms, xyz), dev, units, nacUnits)
                   case Err(e) => r == Err(e) && traj.State() == old(traj.State())
                   case Ok(q) => r == Ok(Some(traj)) && traj.State() == Recorded(old(traj.State()), q))
                case _ => r == Err(ValueError) && traj.State() == old(traj.State())
    {
      if jobtype == "prediction" || jobtype == "predict" {
        return Ok(None);
      }
      var atoms := Reshape(traj.atoms, [1, natom, 1]);
      if atoms.None? {
        return Err(ValueError);
      }
      var xyz := Reshape(traj.coord, [1, natom, 3]);
      if xyz.None? {
        return Err(ValueError);
      }
      var q := GcnnpQm(modelRegister, predictor(atoms.value, xyz.value), dev, units, nacUnits);
      if q.Err? {
        return Err(q.error);
      }
      var v := q.value;
      SetResults(traj, v.energy, v.gradient, v.nac, v.soc, v.errEnergy, v.errGrad, v.errNac, v.errSoc, 1);
      r := Ok(Some(traj));
    }
  }

  /** One property's pair of dictionaries: its builder called twice on the same
      copy of the keyword dictionary. The second call sees the options the first
      one wrote into the copy, and returns an equal dictionary. */
  method BuildPair(target: H.Target, e: map<string, Value>, unit: string, info: map<string, Value>,
                   splits: int) returns (r: Result<(H.HyperDict, H.HyperDict), H.HyperError>)
    requires H.CanDerive(e) && H.HasInputs(e) && "nstate" in info
    ensures r.Err? <==> splits == 0
    ensures r.Ok? ==> H.Build(target, e, unit, info, splits).Ok? &&
                      r.value.0 == H.Build(target, e, unit, info, splits).value &&
                      r.value.1 == r.value.0
  {
    var hyp := new H.Hyp(e);
    var first := BuildOnce(target, hyp, unit, info, splits);
    if first.Err? {
      return Err(first.error);
    }
    H.RebuildAgrees(target, e, unit, info, splits);
    var second := BuildOnce(target, hyp, unit, info, splits);
    r := Ok((first.value, second.value));
  }

  /** `set_e2n2_hyper_eg`, `set_e2n2_hyper_nac` or `set_e2n2_hyper_soc`, by target. */
  method BuildOnce(target: H.Target, hyp: H.Hyp, unit: string, info: map<string, Value>, splits: int)
      returns (r: Result<H.HyperDict, H.HyperError>)
    requires H.CanDerive(hyp.entries) && H.HasInputs(hyp.entries) && "nstate" in info
    modifies hyp
    ensures hyp.entries == H.Derived(target, old(hyp.entries), unit)
    ensures r == H.Build(target, old(hyp.entries), unit, info, splits)
  {
    match target {
      case EnergyGrad => r := H.SetE2n2HyperEg(hyp, unit, info, splits);
      case Nac => r := H.SetE2n2HyperNac(hyp, unit, info, splits);
      case Soc => r := H.SetE2n2HyperSoc(hyp, unit, info, splits);
    }
  }

  /** `E2N2(keywords, job_id)`: the six dictionaries are built from copies of the
      keyword dictionaries; the first builder raises when `nsplits` is 0. */
  method NewE2N2(kw: E2n2Keywords, jobId: Option<JobId>) returns (r: Result<E2N2, H.HyperError>)
    requires Buildable(kw)
    ensures r.Err? <==> kw.splits == 0
    ensures r.Ok? ==> fresh(r.value) && r.value.State() == Initial(kw, jobId)
  {
    var info := kw.data.info;
    var eg := BuildPair(H.EnergyGrad, kw.hypEg, kw.egUnit, info, kw.splits);
    if eg.Err? {
      return Err(eg.error);
    }
    var nac := BuildPair(H.Nac, kw.hypNac, kw.nacUnit, info, kw.splits);
    var soc := BuildPair(H.Soc, kw.hypSoc, kw.socUnit, info, kw.splits);
    var model := new E2N2(kw, jobId, eg.value.0, eg.value.1, nac.value.0, nac.value.1,
                          soc.value.0, soc.value.1);
    r := Ok(model);
  }
}
