/** The hyperparameter dictionaries of the E2N2 graph networks. Each builder first
    writes three derived entries into the caller's `hyp` dictionary (the
    regularisation spec, the learning-rate callbacks and the unit names) and then
    assembles the nested dictionary handed to the network: architecture entries
    copied, some under new names, from `hyp`, fixed scaling and device settings,
    and the validation split `1 / splits`. The three builders (energy+gradient,
    nonadiabatic coupling, spin-orbit coupling) differ only in the class names
    and in where the unit goes. */
module HyperGcnnp {
  import opened Values

  /** The property a network learns. */
  datatype Target = EnergyGrad | Nac | Soc

  /** `1 / splits` with `splits == 0`. */
  datatype HyperError = ZeroDivisionError

  /** The caller's hyperparameter dictionary, which the builders update in place. */
  class Hyp {
    var entries: map<string, Value>

    constructor (entries: map<string, Value>)
      ensures this.entries == entries
    {
      this.entries := entries;
    }
  }

  const PenaltyKey: string := "use_reg_loss_dict"

  // ---------------------------------------------------------------------------
  // Derived entries

  /** The keys the regularisation choice reads: the weights only where used. */
  predicate CanRegularize(e: map<string, Value>)
  {
    "use_reg_loss" in e &&
    (e["use_reg_loss"] == VStr("l1") || e["use_reg_loss"] == VStr("l1_l2") ==> "reg_l1" in e) &&
    (e["use_reg_loss"] == VStr("l2") || e["use_reg_loss"] == VStr("l1_l2") ==> "reg_l2" in e)
  }

  predicate IsPenalty(v: Value)
  {
    v == VStr("l1") || v == VStr("l2") || v == VStr("l1_l2")
  }

  /** The regularizer spec for `use_reg_loss`: `l1`, `l2` or `l1_l2` name the
      penalty and carry the weights it uses; any other choice means none. */
  function Regularization(e: map<string, Value>): (r: Value)
    requires CanRegularize(e)
    ensures r == VNone <==> !IsPenalty(e["use_reg_loss"])
    ensures r != VNone ==>
              r.VDict? && r.entries.Keys == {"class_name", "config"} &&
              r.entries["class_name"] == e["use_reg_loss"] && r.entries["config"].VDict?
    ensures r != VNone ==>
              var c := r.entries["config"].entries;
              c.Keys <= {"l1", "l2"} &&
              ("l1" in c <==> e["use_reg_loss"] != VStr("l2")) &&
              ("l2" in c <==> e["use_reg_loss"] != VStr("l1")) &&
              ("l1" in c ==> c["l1"] == e["reg_l1"]) &&
              ("l2" in c ==> c["l2"] == e["reg_l2"])
  {
    var kind := e["use_reg_loss"];
    if kind == VStr("l1") then
      VDict(map["class_name" := VStr("l1"), "config" := VDict(map["l1" := e["reg_l1"]])])
    else if kind == VStr("l2") then
      VDict(map["class_name" := VStr("l2"), "config" := VDict(map["l2" := e["reg_l2"]])])
    else if kind == VStr("l1_l2") then
      VDict(map["class_name" := VStr("l1_l2"),
                "config" := VDict(map["l1" := e["reg_l1"], "l2" := e["reg_l2"]])])
    else VNone
  }

  /** The keys the callback choice reads. */
  predicate CanSchedule(e: map<string, Value>)
  {
    "use_step_callback" in e &&
    (Truthy(e["use_step_callback"]) ==> "epoch_step_reduction" in e && "learning_rate_step" in e)
  }

  /** A stepwise learning-rate schedule when `use_step_callback` is set, no
      callbacks otherwise. */
  function StepCallbacks(e: map<string, Value>): (r: Value)
    requires CanSchedule(e)
    ensures Truthy(r) <==> Truthy(e["use_step_callback"])
    ensures !Truthy(r) ==> r == VList([])
    ensures Truthy(r) ==>
              r.VDict? && r.entries.Keys == {"stepwise", "epoch_step_reduction", "learning_rate_step"} &&
              r.entries["stepwise"] == VBool(true) &&
              r.entries["epoch_step_reduction"] == e["epoch_step_reduction"] &&
              r.entries["learning_rate_step"] == e["learning_rate_step"]
  {
    if Truthy(e["use_step_callback"]) then
      var entries := map["stepwise" := VBool(true),
                         "epoch_step_reduction" := e["epoch_step_reduction"],
                         "learning_rate_step" := e["learning_rate_step"]];
      assert "stepwise" in entries;
      VDict(entries)
    else VList([])
  }

  /** The `unit` entry each builder writes: both names for energy+gradient, the
      gradient name for couplings, `cm-1` for spin-orbit couplings whatever the
      scheme. */
  function UnitEntry(target: Target, unit: string): Value
  {
    match target
    case EnergyGrad => if unit == "si" then VList([VStr("eV"), VStr("eV/A")])
                       else VList([VStr("Eh"), VStr("Eh/Bohr")])
    case Nac => if unit == "si" then VStr("eV/A") else VStr("Eh/Bohr")
    case Soc => if unit == "si" then VStr("cm-1") else VStr("cm-1")
  }

  predicate CanDerive(e: map<string, Value>)
  {
    CanRegularize(e) && CanSchedule(e)
  }

  /** `hyp` after a builder has written its three derived entries. */
  function Derived(target: Target, e: map<string, Value>, unit: string): (r: map<string, Value>)
    requires CanDerive(e)
    ensures r.Keys == e.Keys + {PenaltyKey, "callbacks", "unit"}
  {
    e[PenaltyKey := Regularization(e)]["callbacks" := StepCallbacks(e)]["unit" := UnitEntry(target, unit)]
  }

  // ---------------------------------------------------------------------------
  // The dictionary handed to the network

  /** Architecture entries copied from `hyp`: output key to input key. */
  const ArchRename: map<string, string> := map[
    "n_features" := "n_features", "n_blocks" := "n_blocks", "l_max" := "l_max",
    "parity" := "parity", "n_rbf" := "n_rbf", "trainable_rbf" := "trainable_rbf",
    "rbf_cutoff" := "rbf_cutoff", "rbf_layers" := "rbf_layer",
    "rbf_neurons" := "rbf_neurons", "rbf_act" := "rfb_act", "rbf_act_a" := "rfb_act_a",
    "normalization_y" := "normalization_y", "normalize_y" := "normalize_y",
    "resnet" := "resnet", "self_connection" := "self_connection", "gate" := "gate"]

  /** Training entries copied from `hyp` under their own names. */
  const TrainingKeys: set<string> := {
    "initialize_weights", "loss_weights", "learning_rate", "epo", "batch_size",
    "epo_step", "grad_type"}

  /** The entries of `hyp` the dictionary reads. */
  predicate HasInputs(e: map<string, Value>)
  {
    "n_edges" in e && "maxradius" in e &&
    (forall o :: o in ArchRename ==> ArchRename[o] in e) &&
    "act_scalars_e" in e && "act_scalars_o" in e && "act_gates_e" in e && "act_gates_o" in e &&
    (forall k :: k in TrainingKeys ==> k in e)
  }

  /** The `hyp['unit']` a builder can index: a pair for energy+gradient. */
  predicate UnitShaped(target: Target, v: Value)
  {
    target.EnergyGrad? ==> v.VList? && |v.items| >= 2
  }

  /** `hyp` as the dictionary literal reads it, derived entries included. */
  predicate Readable(target: Target, e: map<string, Value>)
  {
    HasInputs(e) && PenaltyKey in e && "callbacks" in e && "unit" in e && UnitShaped(target, e["unit"])
  }

  datatype ModelConfig = ModelConfig(
    states: Value,       // number of electronic states
    nodeInfo: Value,     // unique atomic numbers, filled in before training
    nedges: Value,
    edgeList: Value,     // atom pairs within `maxradius`, filled in before training
    maxradius: Value,
    layers: map<string, Value>)

  datatype HyperDict = HyperDict(
    className: string,
    classModule: string,
    config: ModelConfig,
    mean: int,           // scaling
    std: int,
    device: string,
    valSplit: real,
    subset: real,
    training: map<string, Value>,
    callbacks: Value,
    useRegLoss: Value,
    unitScalar: Value,
    unitGrad: Value)

  function ModelClass(target: Target): (string, string)
  {
    match target
    case EnergyGrad => ("energy_grad", "scalar_grad")
    case Nac => ("nac", "grad")
    case Soc => ("soc", "scalar")
  }

  /** A dictionary no training run has touched: no graph yet, unit scaling. */
  predicate Untouched(d: HyperDict)
  {
    d.config.nodeInfo == VNone && d.config.edgeList == VNone && d.mean == 0 && d.std == 1 &&
    d.device == "cpu" && d.subset == 0.1
  }

  /** Every architecture and training entry taken over from `e`. */
  predicate CopiesInputs(d: HyperDict, e: map<string, Value>)
    requires HasInputs(e)
  {
    d.config.nedges == e["n_edges"] && d.config.maxradius == e["maxradius"] &&
    (forall o :: o in ArchRename ==> o in d.config.layers && d.config.layers[o] == e[ArchRename[o]]) &&
    "act_scalars" in d.config.layers &&
    d.config.layers["act_scalars"] == VDict(map["e" := e["act_scalars_e"], "o" := e["act_scalars_o"]]) &&
    "act_gates" in d.config.layers &&
    d.config.layers["act_gates"] == VDict(map["e" := e["act_gates_e"], "o" := e["act_gates_o"]]) &&
    (forall k :: k in TrainingKeys ==> k in d.training && d.training[k] == e[k])
  }

  /** `(unit_scalar, unit_grad)` as each builder reads them back from `hyp['unit']`. */
  function UnitFields(target: Target, v: Value): (Value, Value)
    requires UnitShaped(target, v)
  {
    match target
    case EnergyGrad => (v.items[0], v.items[1])
    case Nac => (VStr(""), v)
    case Soc => (v, VStr(""))
  }

  /** The units each network reports in, per unit scheme. */
  function TrainingUnits(target: Target, unit: string): (Value, Value)
  {
    var si := unit == "si";
    match target
    case EnergyGrad => (VStr(if si then "eV" else "Eh"), VStr(if si then "eV/A" else "Eh/Bohr"))
    case Nac => (VStr(""), VStr(if si then "eV/A" else "Eh/Bohr"))
    case Soc => (VStr("cm-1"), VStr(""))
  }

  /** The architecture entries of the model configuration. */
  function Layers(e: map<string, Value>): (r: map<string, Value>)
    requires HasInputs(e)
    ensures forall o :: o in ArchRename ==> o in r && r[o] == e[ArchRename[o]]
    ensures "act_scalars" in r && r["act_scalars"] == VDict(map["e" := e["act_scalars_e"], "o" := e["act_scalars_o"]])
    ensures "act_gates" in r && r["act_gates"] == VDict(map["e" := e["act_gates_e"], "o" := e["act_gates_o"]])
  {
    var copied := map o | o in ArchRename :: e[ArchRename[o]];
    assert "act_scalars" !in ArchRename && "act_gates" !in ArchRename;
    copied["act_scalars" := VDict(map["e" := e["act_scalars_e"], "o" := e["act_scalars_o"]])]
          ["act_gates" := VDict(map["e" := e["act_gates_e"], "o" := e["act_gates_o"]])]
  }

  /** The training entries taken over from `hyp`. */
  function TrainingEntries(e: map<string, Value>): (r: map<string, Value>)
    requires HasInputs(e)
    ensures forall k :: k in TrainingKeys ==> k in r && r[k] == e[k]
  {
    map k | k in TrainingKeys :: e[k]
  }

  /** The dictionary literal, read from `hyp` once the derived entries are in it. */
  function HyperDictFor(target: Target, e: map<string, Value>, info: map<string, Value>,
                        splits: int): (r: Result<HyperDict, HyperError>)
    requires Readable(target, e) && "nstate" in info
    ensures r.Err? <==> splits == 0
    ensures r.Ok? ==> Untouched(r.value) && CopiesInputs(r.value, e)
    ensures r.Ok? ==> r.value.valSplit == 1.0 / (splits as real)
    ensures r.Ok? ==> r.value.config.states == info["nstate"]
    ensures r.Ok? ==> (r.value.className, r.value.classModule) == ModelClass(target)
    ensures r.Ok? ==> r.value.useRegLoss == e[PenaltyKey] && r.value.callbacks == e["callbacks"]
    ensures r.Ok? ==> (r.value.unitScalar, r.value.unitGrad) == UnitFields(target, e["unit"])
  {
    if splits == 0 then Err(ZeroDivisionError)
    else
      var units := UnitFields(target, e["unit"]);
      Ok(HyperDict(
        ModelClass(target).0, ModelClass(target).1,
        ModelConfig(info["nstate"], VNone, e["n_edges"], VNone, e["maxradius"], Layers(e)),
        0, 1, "cpu", 1.0 / (splits as real), 0.1, TrainingEntries(e),
        e["callbacks"], e[PenaltyKey], units.0, units.1))
  }

  /** A builder's result stated in terms of the caller's original `hyp`: the
      regularizer, callbacks and units follow from the options, the class names
      from the target. */
  function Build(target: Target, e: map<string, Value>, unit: string, info: map<string, Value>,
                 splits: int): (r: Result<HyperDict, HyperError>)
    requires CanDerive(e) && HasInputs(e) && "nstate" in info
    ensures r.Err? <==> splits == 0
    ensures r.Ok? ==> Untouched(r.value) && r.value.valSplit == 1.0 / (splits as real)
    ensures r.Ok? ==> r.value.config.states == info["nstate"]
    ensures r.Ok? ==> (r.value.className, r.value.classModule) == ModelClass(target)
    ensures r.Ok? ==> r.value.useRegLoss == Regularization(e) && r.value.callbacks == StepCallbacks(e)
    ensures r.Ok? ==> (r.value.unitScalar, r.value.unitGrad) == TrainingUnits(target, unit)
  {
    var d := Derived(target, e, unit);
    DerivedKeepsInputs(target, e, unit);
    UnitEntryReadsBack(target, unit);
    HyperDictFor(target, d, info, splits)
  }

  /** The unit entry a builder writes reads back as the units of its target. */
  lemma UnitEntryReadsBack(target: Target, unit: string)
    ensures UnitShaped(target, UnitEntry(target, unit))
    ensures UnitFields(target, UnitEntry(target, unit)) == TrainingUnits(target, unit)
  {
  }

  /** The derived entries sit beside every input the dictionary reads. */
  lemma DerivedKeepsInputs(target: Target, e: map<string, Value>, unit: string)
    requires CanDerive(e) && HasInputs(e)
    ensures var d := Derived(target, e, unit);
            Readable(target, d) && d[PenaltyKey] == Regularization(e) &&
            d["callbacks"] == StepCallbacks(e) && d["unit"] == UnitEntry(target, unit)
  {
    var d := Derived(target, e, unit);
    assert HasInputs(d);
    assert d[PenaltyKey] == Regularization(e);
  }

  // ---------------------------------------------------------------------------
  // The builders

  /** Writes the derived entries into `hyp`, then returns the dictionary. */
  method SetE2n2Hyper(target: Target, hyp: Hyp, unit: string, info: map<string, Value>, splits: int)
      returns (r: Result<HyperDict, HyperError>)
    requires CanDerive(hyp.entries) && HasInputs(hyp.entries) && "nstate" in info
    modifies hyp
    ensures hyp.entries == Derived(target, old(hyp.entries), unit)
    ensures r == Build(target, old(hyp.entries), unit, info, splits)
  {
    var penalty := hyp.entries["use_reg_loss"];
    if penalty == VStr("l1") {
      hyp.entries := hyp.entries[PenaltyKey :=
        VDict(map["class_name" := VStr("l1"), "config" := VDict(map["l1" := hyp.entries["reg_l1"]])])];
    } else if penalty == VStr("l2") {
      hyp.entries := hyp.entries[PenaltyKey :=
        VDict(map["class_name" := VStr("l2"), "config" := VDict(map["l2" := hyp.entries["reg_l2"]])])];
    } else if penalty == VStr("l1_l2") {
      hyp.entries := hyp.entries[PenaltyKey :=
        VDict(map["class_name" := VStr("l1_l2"),
                  "config" := VDict(map["l1" := hyp.entries["reg_l1"], "l2" := hyp.entries["reg_l2"]])])];
    } else {
      hyp.entries := hyp.entries[PenaltyKey := VNone];
    }

    if Truthy(hyp.entries["use_step_callback"]) {
      hyp.entries := hyp.entries["callbacks" :=
        VDict(map["stepwise" := VBool(true),
                  "epoch_step_reduction" := hyp.entries["epoch_step_reduction"],
                  "learning_rate_step" := hyp.entries["learning_rate_step"]])];
    } else {
      hyp.entries := hyp.entries["callbacks" := VList([])];
    }

    hyp.entries := hyp.entries["unit" := UnitEntry(target, unit)];
    DerivedKeepsInputs(target, old(hyp.entries), unit);
    r := HyperDictFor(target, hyp.entries, info, splits);
  }

  method SetE2n2HyperEg(hyp: Hyp, unit: string, info: map<string, Value>, splits: int)
      returns (r: Result<HyperDict, HyperError>)
    requires CanDerive(hyp.entries) && HasInputs(hyp.entries) && "nstate" in info
    modifies hyp
    ensures hyp.entries == Derived(EnergyGrad, old(hyp.entries), unit)
    ensures r == Build(EnergyGrad, old(hyp.entries), unit, info, splits)
  {
    r := SetE2n2Hyper(EnergyGrad, hyp, unit, info, splits);
  }

  method SetE2n2HyperNac(hyp: Hyp, unit: string, info: map<string, Value>, splits: int)
      returns (r: Result<HyperDict, HyperError>)
    requires CanDerive(hyp.entries) && HasInputs(hyp.entries) && "nstate" in info
    modifies hyp
    ensures hyp.entries == Derived(Nac, old(hyp.entries), unit)
    ensures r == Build(Nac, old(hyp.entries), unit, info, splits)
  {
    r := SetE2n2Hyper(Nac, hyp, unit, info, splits);
  }

  method SetE2n2HyperSoc(hyp: Hyp, unit: string, info: map<string, Value>, splits: int)
      returns (r: Result<HyperDict, HyperError>)
    requires CanDerive(hyp.entries) && HasInputs(hyp.entries) && "nstate" in info
    modifies hyp
    ensures hyp.entries == Derived(Soc, old(hyp.entries), unit)
    ensures r == Build(Soc, old(hyp.entries), unit, info, splits)
  {
    r := SetE2n2Hyper(Soc, hyp, unit, info, splits);
  }

  // ---------------------------------------------------------------------------
  // Properties

  /** Deriving again from an already updated `hyp` writes the same entries: the
      options the derivation reads are not among the keys it writes. */
  lemma DeriveIdempotent(target: Target, e: map<string, Value>, unit: string)
    requires CanDerive(e)
    ensures CanDerive(Derived(target, e, unit))
    ensures Derived(target, Derived(target, e, unit), unit) == Derived(target, e, unit)
  {
    var d := Derived(target, e, unit);
    assert d["use_reg_loss"] == e["use_reg_loss"];
    assert "reg_l1" in e ==> d["reg_l1"] == e["reg_l1"];
    assert "reg_l2" in e ==> d["reg_l2"] == e["reg_l2"];
    assert d["use_step_callback"] == e["use_step_callback"];
    assert "epoch_step_reduction" in e ==> d["epoch_step_reduction"] == e["epoch_step_reduction"];
    assert "learning_rate_step" in e ==> d["learning_rate_step"] == e["learning_rate_step"];
    assert Regularization(d) == Regularization(e);
    assert StepCallbacks(d) == StepCallbacks(e);
  }

  /** Calling a builder twice with the same `hyp`, as the E2N2 model does for its
      two energy+gradient networks, gives two equal dictionaries. */
  lemma RebuildAgrees(target: Target, e: map<string, Value>, unit: string, info: map<string, Value>,
                      splits: int)
    requires CanDerive(e) && HasInputs(e) && "nstate" in info
    ensures CanDerive(Derived(target, e, unit)) && HasInputs(Derived(target, e, unit))
    ensures Build(target, Derived(target, e, unit), unit, info, splits) == Build(target, e, unit, info, splits)
  {
    DeriveIdempotent(target, e, unit);
    DerivedKeepsInputs(target, e, unit);
  }
  /** The labels each builder writes: its class and module names, and the units,
      where only the energy+gradient and coupling builders follow the unit scheme
      and the spin-orbit builder always reports `cm-1`. */
  lemma BuiltLabels(target: Target, e: map<string, Value>, unit: string, info: map<string, Value>,
                    splits: int)
    requires CanDerive(e) && HasInputs(e) && "nstate" in info && splits != 0
    ensures var d := Build(target, e, unit, info, splits).value;
            match target
            case EnergyGrad =>
              d.className == "energy_grad" && d.classModule == "scalar_grad" &&
              d.unitScalar == VStr(if unit == "si" then "eV" else "Eh") &&
              d.unitGrad == VStr(if unit == "si" then "eV/A" else "Eh/Bohr")
            case Nac =>
              d.className == "nac" && d.classModule == "grad" && d.unitScalar == VStr("") &&
              d.unitGrad == VStr(if unit == "si" then "eV/A" else "Eh/Bohr")
            case Soc =>
              d.className == "soc" && d.classModule == "scalar" &&
              d.unitScalar == VStr("cm-1") && d.unitGrad == VStr("")
  {
  }
}
