# PyRAI2MD decision logic in Dafny

This project models the deterministic glue of PyRAI2MD that sits around its
electronic-structure programs and machine-learning potentials, and proves
properties of it:

- the surface-hopping dispatcher `surfhop`, which selects the hopping method
  from the trajectory's method name and commits the engine's results into the
  trajectory object (`surface_hopping.dfy`);
- the xTB interface `Xtb`: its calculation folder and run script, the input
  files with the point-charge embedding, the scan of xTB's `.engrad` output,
  and `evaluate`, which chooses the run type and records energy, gradient and
  completion flag (`qc_xtb.dfy`);
- the grid-search trainer `RemoteTrain`: its calculation folder, the shared
  `control` dictionary it modifies, the launch command, and the reader of the
  validation table at the end of a training log. The reader is proved to
  read back the table the two model classes write (`remote_train.dfy`);
- the E2N2 hyperparameter builders `set_e2n2_hyper_eg/nac/soc`, which write
  three derived entries into their input dictionary and return the network's
  configuration (`hyper_gcnnp.dfy`);
- the native neural-network interface `DNN` (`model_nn.dfy`) and the E2N2 graph
  interface `E2N2` (`model_gcnnp.dfy`). The model covers what their
  constructors select from the keywords, how `train` assembles the validation
  metrics, how `_qm` turns the networks' output into energies, gradients,
  couplings and error estimates, and how `evaluate` records them;
- shared pieces: dynamic Python values and numpy arrays as shape plus flat
  data (`values.dfy`), string helpers (`text.dfy`), the trajectory object
  (`trajectory.dfy`), and the rules both model classes share (unit factors,
  naming, the validation table) (`ml_common.dfy`).

Objects whose fields the source assigns in place are classes:
`Trajectory`, `Xtb`, `RemoteTrain` with the shared `Control` dictionary,
`DNN`, `E2N2`, and the builders' input dictionary `Hyp`. Their methods state
their whole new state through a value snapshot `State()`. Loops over lines
(`_read_data`, `_read_training`) and over the hyperparameter list (`train`)
are methods with invariants. Each is proved equal to a recursive
specification function, and the properties are proved about that function.
Python exceptions and `sys.exit` are `Err` values of a `Result`. Numerical
and foreign operations are parameters of the functions that use them:
`float()`, `'%.8f'`, the element-wise sample deviation of `np.std(ddof=1)`,
the networks, the hopping engines, the graph builder and the clock.

## Model

| member | source | states |
|---|---|---|
| SurfaceHopping.SelectMethod | PyRAI2MD/Dynamics/Propagators/surface_hopping.py:28-42 | the FSSH, GSH and no-hop branches are taken exactly when the name equals `fssh`, `gsh` or `nosh` ignoring letter case |
| SurfaceHopping.SnapshotSpec | PyRAI2MD/Dynamics/Propagators/surface_hopping.py:30 | the FSSH snapshot exists iff every name in `attr` is an attribute; it maps exactly those names to their values; otherwise the error names the first missing attribute |
| SurfaceHopping.SurfHop | PyRAI2MD/Dynamics/Propagators/surface_hopping.py:14-53 | updates the given trajectory as the dispatch specifies and returns that same object; a failing `getattr` leaves the trajectory unchanged |
| SurfaceHopping.CommitHop | PyRAI2MD/Dynamics/Propagators/surface_hopping.py:44-51 | the eight engine results go into `a`, `h`, `d`, `velo`, `hoped`, `last_state`, `state`, `shinfo`, and nothing else changes |
| SurfaceHopping.SelectIgnoresCase | PyRAI2MD/Dynamics/Propagators/surface_hopping.py:28-36 | names that differ only in letter case select the same branch |
| SurfaceHopping.SelectUpperCase | PyRAI2MD/Dynamics/Propagators/surface_hopping.py:29-34 | an upper-cased name such as `FSSH` or `GSH` selects the same branch as the original |
| SurfaceHopping.NoHopOnlySetsInfo | PyRAI2MD/Dynamics/Propagators/surface_hopping.py:36-42 | any name other than fssh/gsh yields the trajectory with only `shinfo` set to the no-hop message |
| SurfaceHopping.NoshIsFallback | PyRAI2MD/Dynamics/Propagators/surface_hopping.py:36-42 | the `nosh` branch and the unrecognised-name fallback give the same trajectory apart from the name itself |
| SurfaceHopping.FsshCommitsResult | PyRAI2MD/Dynamics/Propagators/surface_hopping.py:29-51 | after FSSH, state, last state, hop flag, report and the four arrays are those the engine returned for the snapshot |
| SurfaceHopping.GshCommitsResult | PyRAI2MD/Dynamics/Propagators/surface_hopping.py:33-51 | after GSH, the same eight fields are those GSH returned for the whole trajectory |
| SurfaceHopping.OnlyHopFieldsChange | PyRAI2MD/Dynamics/Propagators/surface_hopping.py:36-51 | on every branch, each attribute outside the eight hop fields keeps its value |
| SurfaceHopping.FailsOnlyOnMissingAttribute | PyRAI2MD/Dynamics/Propagators/surface_hopping.py:28-42 | the dispatch fails iff FSSH is selected and some name in `attr` is not an attribute |
| SurfaceHopping.FsshSeesOnlySnapshot | PyRAI2MD/Dynamics/Propagators/surface_hopping.py:30-31 | two trajectories with equal snapshots receive equal FSSH results, whatever their other attributes |
| Trajectories.SetResults | PyRAI2MD/Quantum_Chemistry/qc_xtb.py:266-274 | an interface's results replace the four arrays, the four error estimates and the status, and nothing else changes |
| QcXtb.Workdir | PyRAI2MD/Quantum_Chemistry/qc_xtb.py:60-67 | the folder is `<workdir>/tmp_xtb` iff there is no job index; with an index it is `<workdir>/tmp_xtb-<index>` |
| QcXtb.ReadGetsSubfolder | PyRAI2MD/Quantum_Chemistry/qc_xtb.py:60-64 | the index `Read` also gets a sub-folder, so the branch meant to keep the folder is never taken |
| QcXtb.RunScriptEntersWorkdir | PyRAI2MD/Quantum_Chemistry/qc_xtb.py:70-85 | the run script exports the calculation folder and ends with the xTB command |
| QcXtb.Xtb.constructor | PyRAI2MD/Quantum_Chemistry/qc_xtb.py:45-85 | the run type and every option (keep_tmp, verbose, project, xtb path, CPU count, use_hpc) are copied, the folder follows the job-index rule, and the script is built for that folder |
| QcXtb.EmbeddingSectionInjective | PyRAI2MD/Quantum_Chemistry/qc_xtb.py:138 | different point-charge file names give different `$embedding` blocks |
| QcXtb.Embedding | PyRAI2MD/Quantum_Chemistry/qc_xtb.py:136-140 | corrected: the block names the `<project>.pc` file that is written next to the input |
| QcXtb.EmbeddingAsWrittenMissesFile | PyRAI2MD/Quantum_Chemistry/qc_xtb.py:138-139 | as written, the block names the written charge file only when the charge text equals the project name |
| QcXtb.EmbeddingExample | PyRAI2MD/Quantum_Chemistry/qc_xtb.py:138 | for project `mol` and one charge, the written block names `0.5 0.0 0.0 1.0.pc`; the corrected one names `mol.pc` |
| QcXtb.InputFiles | PyRAI2MD/Quantum_Chemistry/qc_xtb.py:122-147 | corrected: `.xyz` (atom count, blank line, coordinates) and `.inp` are always written, `.pc` (charge count, charge text) iff the charge text is non-empty; the input is the template, plus the embedding block naming `<project>.pc` exactly when there are charges |
| QcXtb.WriteInputs | PyRAI2MD/Quantum_Chemistry/qc_xtb.py:122-140 | `len(q)` raises iff there are no charges yet their text is non-empty; otherwise the files above for the printed charges |
| QcXtb.HpcSubmission | PyRAI2MD/Quantum_Chemistry/qc_xtb.py:87-100 | exits with the FileNotFoundError message iff `<project>.slurm` is missing; otherwise the batch file is the template, a line break and the run script |
| QcXtb.ReadDataSpec | PyRAI2MD/Quantum_Chemistry/qc_xtb.py:160-187 | a missing file gives the five-value result iff there is no file; otherwise the gradient has shape (1, natom, 3) and the couplings are empty |
| QcXtb.ReadData | PyRAI2MD/Quantum_Chemistry/qc_xtb.py:160-187 | the line loop computes exactly the scan's result, including its first exception |
| QcXtb.ScanErrorPersists | PyRAI2MD/Quantum_Chemistry/qc_xtb.py:170-181 | an exception raised at some line is the one the whole scan raises |
| QcXtb.ScanTakesLastMarkers | PyRAI2MD/Quantum_Chemistry/qc_xtb.py:170-181 | the energy is the value two lines after the last energy marker, and the gradient the natom·3 values from two lines after the last gradient marker; each stays empty without its marker |
| QcXtb.ScanLineEffect | PyRAI2MD/Quantum_Chemistry/qc_xtb.py:170-181 | one line of the scan: an energy marker sets the energy to the value two lines below, a gradient marker sets the gradient to the natom·3 values from two lines below, and any other line leaves both as they were |
| QcXtb.ScanTakesLastEnergy | PyRAI2MD/Quantum_Chemistry/qc_xtb.py:170-181 | after any prefix of the log that scans without error, the energy is the value read below the last energy marker in it, and empty without one |
| QcXtb.ScanTakesLastGradient | PyRAI2MD/Quantum_Chemistry/qc_xtb.py:170-181 | after any prefix of the log that scans without error, the gradient is the block read below the last gradient marker in it, and empty without one |
| QcXtb.NoGradientMarkerFails | PyRAI2MD/Quantum_Chemistry/qc_xtb.py:177-183 | without a gradient marker, a molecule with atoms cannot be reshaped, so the read fails |
| QcXtb.QmCharges | PyRAI2MD/Quantum_Chemistry/qc_xtb.py:215-223 | point charges are handed to a plain QM input iff the run type is `qm_1` |
| QcXtb.PlainQmWritesNoCharges | PyRAI2MD/Quantum_Chemistry/qc_xtb.py:215-226 | a plain `qm` run passes no charges, so (absent charges printing as nothing) no `.pc` file is written and the input is the bare template |
| QcXtb.Qm1WritesCharges | PyRAI2MD/Quantum_Chemistry/qc_xtb.py:215-226 | corrected: a `qm_1` run writes the trajectory's charge count and text to `<project>.pc` and appends the embedding block naming it to the input |
| QcXtb.Xtb.Compute | PyRAI2MD/Quantum_Chemistry/qc_xtb.py:249-256 | qm and qm_1 read the plain result, qmmm projects the gradient, and any other run type computes nothing |
| QcXtb.Xtb.Evaluate | PyRAI2MD/Quantum_Chemistry/qc_xtb.py:241-276 | a computing run on a batch system exits without `<project>.slurm`; otherwise it records energy, gradient, zero couplings, no error estimates and the completion flag, and returns the trajectory; on an exception or exit the trajectory is unchanged |
| QcXtb.StatusMeansEnergyRead | PyRAI2MD/Quantum_Chemistry/qc_xtb.py:258-274 | the status is 0 or 1; it is 1 exactly when a computing run type found an energy marker; all four error estimates are None |
| QcXtb.RunStatusMeansEnergyRead | PyRAI2MD/Quantum_Chemistry/qc_xtb.py:258-274 | the same, once the folder is set up: status 1 exactly when a computing run type found an energy marker, and the four error estimates None |
| QcXtb.MissingFileFailsUnpack | PyRAI2MD/Quantum_Chemistry/qc_xtb.py:160-164 | with no `.engrad` file, a computing run fails when the five values are unpacked into four names, unless it already exited for want of `<project>.slurm` |
| QcXtb.SlurmOnlyForHpc | PyRAI2MD/Quantum_Chemistry/qc_xtb.py:87-117 | a computing run with use_hpc 1 and no `<project>.slurm` exits whatever the log; without use_hpc 1, or for a run type that computes nothing, the template does not matter |
| QcXtb.UnknownRuntypeComputesNothing | PyRAI2MD/Quantum_Chemistry/qc_xtb.py:245-275 | another run type leaves energy and gradient empty with status 0, and fails only when it must delete a missing folder |
| QcXtb.Qm1ReadsLikeQm | PyRAI2MD/Quantum_Chemistry/qc_xtb.py:251-256 | `qm_1` records the same results as `qm` |
| RemoteTraining.CalcDir | PyRAI2MD/Machine_Learning/remote_train.py:44 | the folder is `<cwd>/grid-search/NN-<title>` followed by `-<id>` |
| RemoteTraining.CalcDirNamesModel | PyRAI2MD/Machine_Learning/remote_train.py:44 | an indexed candidate's folder carries the name of the model it trains; a missing index gives the suffix `-None` |
| RemoteTraining.SetupFiles | PyRAI2MD/Machine_Learning/remote_train.py:69-85 | `input.json` and `<title>.sh` are always written, and `<title>.sbatch` iff HPC is used |
| RemoteTraining.LaunchRunsWrittenScript | PyRAI2MD/Machine_Learning/remote_train.py:74-94 | the script a launch runs is always one the setup wrote |
| RemoteTraining.Tail | PyRAI2MD/Machine_Learning/remote_train.py:109 | the tail is the last min(10, n) lines of the log |
| RemoteTraining.ScanTakesLastHeader | PyRAI2MD/Machine_Learning/remote_train.py:107-113 | the rows come from the last header in the tail, at offsets +4 and +5; the scan fails iff that header has fewer than five lines after it |
| RemoteTraining.ReadTraining | PyRAI2MD/Machine_Learning/remote_train.py:99-134 | the loop over the tail computes exactly the reader's specified result |
| RemoteTraining.ScanStaysFailed | PyRAI2MD/Machine_Learning/remote_train.py:110-113 | once the scan has raised, its result is that exception |
| RemoteTraining.OnlyTailIsRead | PyRAI2MD/Machine_Learning/remote_train.py:109 | lines before the last ten never change the result |
| RemoteTraining.MissingHeaderExits | PyRAI2MD/Machine_Learning/remote_train.py:115-119 | without a header in the tail the run exits with the not-found message |
| RemoteTraining.MissingLogReportsStatusZero | PyRAI2MD/Machine_Learning/remote_train.py:101-102 | without a log the result is the folder with status 0 |
| RemoteTraining.ScanFindsRows | PyRAI2MD/Machine_Learning/remote_train.py:110-113 | a header with five lines after it and none below gives its two rows |
| RemoteTraining.TailOfTrainingLog | PyRAI2MD/Machine_Learning/remote_train.py:109 | the tail of a log ending in the eight-line table and the closing line is the table, the closing line and at most one earlier line |
| RemoteTraining.TableRowsAreScanned | PyRAI2MD/Machine_Learning/remote_train.py:107-113 | in such a tail, the scan stops at the table's header and takes its two value rows |
| RemoteTraining.LogReachesRows | PyRAI2MD/Machine_Learning/remote_train.py:99-119 | reading such a log parses exactly the table's two rows |
| RemoteTraining.RowsParseBack | PyRAI2MD/Machine_Learning/remote_train.py:115-132 | the two rows parse to the eight metrics in the order e1 g1 n1 s1 / e2 g2 n2 s2, each as the number its text denotes, with status 1 |
| RemoteTraining.ReadsBackValidationTable | PyRAI2MD/Machine_Learning/remote_train.py:99-134 | a log ending with the validation table reads back as the printed metrics, and as the exact metrics when every printed text is exact |
| RemoteTraining.RemoteTrain.constructor | PyRAI2MD/Machine_Learning/remote_train.py:36-51 | sets the caller's shared `control` job type to `train` and keeps its title; it builds the folder and the script |
| RemoteTraining.RemoteTrain.Train | PyRAI2MD/Machine_Learning/remote_train.py:136-152 | launches the written script iff not retrieving; without a batch template an HPC launch exits; otherwise it returns the read result with the elapsed time |
| HyperGcnnp.Regularization | PyRAI2MD/Machine_Learning/hyper_gcnnp.py:26-33 | None iff the option is not l1, l2 or l1_l2; otherwise the class name is the option, and `l1`/`l2` are present exactly as the option names them, with the given strengths |
| HyperGcnnp.StepCallbacks | PyRAI2MD/Machine_Learning/hyper_gcnnp.py:36-43 | a truthy switch gives the stepwise dictionary with the two step parameters; otherwise `[]` |
| HyperGcnnp.Derived | PyRAI2MD/Machine_Learning/hyper_gcnnp.py:23-49 | `hyp` gains exactly the regulariser, callback and unit entries |
| HyperGcnnp.DerivedKeepsInputs | PyRAI2MD/Machine_Learning/hyper_gcnnp.py:23-49 | the derived entries are the regulariser, the callbacks and the unit, and every input the dictionary reads survives |
| HyperGcnnp.UnitEntryReadsBack | PyRAI2MD/Machine_Learning/hyper_gcnnp.py:46-55 | the unit entry a builder writes has the shape its dictionary reads, and reads back as the units of that target under the chosen scheme |
| HyperGcnnp.Layers | PyRAI2MD/Machine_Learning/hyper_gcnnp.py:63-90 | every architecture entry is copied from its option, `rbf_layers` from `rbf_layer`; the activations are grouped into even/odd pairs |
| HyperGcnnp.TrainingEntries | PyRAI2MD/Machine_Learning/hyper_gcnnp.py:100-111 | every training option is copied unchanged |
| HyperGcnnp.HyperDictFor | PyRAI2MD/Machine_Learning/hyper_gcnnp.py:52-115 | division by zero iff `splits` is 0; otherwise `states` is `info['nstate']`, `val_split` is 1/splits, no graph yet, scaling 0/1, and every option is copied |
| HyperGcnnp.Build | PyRAI2MD/Machine_Learning/hyper_gcnnp.py:10-115 | the builder's result in terms of the caller's original options: regulariser, callbacks, units and class follow from them |
| HyperGcnnp.SetE2n2Hyper | PyRAI2MD/Machine_Learning/hyper_gcnnp.py:10-115 | writes the derived entries into `hyp` and returns the built dictionary |
| HyperGcnnp.SetE2n2HyperEg | PyRAI2MD/Machine_Learning/hyper_gcnnp.py:10-115 | the energy+gradient builder, as above |
| HyperGcnnp.SetE2n2HyperNac | PyRAI2MD/Machine_Learning/hyper_gcnnp.py:117-222 | the coupling builder, as above |
| HyperGcnnp.SetE2n2HyperSoc | PyRAI2MD/Machine_Learning/hyper_gcnnp.py:224-329 | the spin-orbit builder, as above |
| HyperGcnnp.DeriveIdempotent | PyRAI2MD/Machine_Learning/hyper_gcnnp.py:23-49 | deriving again from an updated `hyp` writes the same entries |
| HyperGcnnp.RebuildAgrees | PyRAI2MD/Machine_Learning/hyper_gcnnp.py:23-115 | a builder called again on the dictionary it updated returns the same result |
| HyperGcnnp.BuiltLabels | PyRAI2MD/Machine_Learning/hyper_gcnnp.py:46-55 | class/module pairs are energy_grad/scalar_grad, nac/grad and soc/scalar; the units are eV, eV/A or Eh, Eh/Bohr; for couplings '' and eV/A or Eh/Bohr; for spin-orbit always cm-1 and '' |
| MlCommon.NormalizeTrainMode | PyRAI2MD/Machine_Learning/model_NN.py:99-100 | a known mode is kept, and any other becomes `training` |
| MlCommon.NormalizeTrainModeIdempotent | PyRAI2MD/Machine_Learning/model_GCNNP.py:95-96 | normalising twice equals normalising once |
| MlCommon.ModelName | PyRAI2MD/Machine_Learning/model_NN.py:101-104 | `NN-<title>` iff the job is None or 1; otherwise `NN-<title>-<id>` |
| MlCommon.ModelPath | PyRAI2MD/Machine_Learning/model_NN.py:192-195 | the given folder only when there is one and the job is the default; the name otherwise |
| MlCommon.IndexedJobsUseOwnFolders | PyRAI2MD/Machine_Learning/model_GCNNP.py:145-148 | different integer job indices never share a model folder |
| MlCommon.EgUnitFactors | PyRAI2MD/Machine_Learning/model_NN.py:113-126 | f_e·k_e = 27.211396132 and f_g·k_g = 27.211396132/0.529177249; exactly one of each pair is 1; k is 1 iff the unit is si |
| MlCommon.NacUnitFactors | PyRAI2MD/Machine_Learning/model_NN.py:128-133 | f_n·k_n = 27.211396132/0.529177249; exactly one is 1; k_n is 1 iff the unit is si |
| MlCommon.ReportedErrorsAreInEv | PyRAI2MD/Machine_Learning/model_NN.py:269-275 | errors on data scaled by f and reported after scaling by k are in eV and eV/Angstrom in both unit schemes |
| MlCommon.TableLines | PyRAI2MD/Machine_Learning/model_NN.py:279-290 | the table has eight lines, and the second is the header the reader looks for |
| MlCommon.SplitRow | PyRAI2MD/Machine_Learning/model_NN.py:284-285 | splitting a printed row gives back the printed numbers in order |
| MlCommon.AMax | PyRAI2MD/Machine_Learning/model_NN.py:345-346 | `np.amax` fails iff the array is empty; otherwise it returns an element not smaller than any other |
| MlCommon.First | PyRAI2MD/Machine_Learning/model_NN.py:343-344 | `a[0]` fails iff the array has no first row; otherwise it is the first row with the remaining shape |
| ModelNN.TrainingTargets | PyRAI2MD/Machine_Learning/model_NN.py:136-142 | a target exists iff its type is positive; energies, gradients and couplings are scaled by their training factors |
| ModelNN.Slot | PyRAI2MD/Machine_Learning/model_NN.py:149-152 | no entry for a type ≤ 0, one dictionary for type 1, and the pair for a larger type |
| ModelNN.Hypers | PyRAI2MD/Machine_Learning/model_NN.py:147-162 | a hyperparameter entry exists iff its type is positive, and holds the slot that type asks for |
| ModelNN.TargetsMatchHypers | PyRAI2MD/Machine_Learning/model_NN.py:136-162 | the properties with targets are exactly those with hyperparameters |
| ModelNN.GpuTable | PyRAI2MD/Machine_Learning/model_NN.py:164-189 | one to six GPUs give entries for all three properties, and any other value gives none; each entry is two device numbers below the count |
| ModelNN.EveryGpuIsUsed | PyRAI2MD/Machine_Learning/model_NN.py:164-189 | with one to six GPUs every device runs at least one network |
| ModelNN.NnMetrics | PyRAI2MD/Machine_Learning/model_NN.py:247-277 | untrained properties report 0; spin-orbit errors are reported unscaled |
| ModelNN.NnMetricsInEv | PyRAI2MD/Machine_Learning/model_NN.py:247-277 | errors measured on targets scaled by the training factors are reported in eV, eV/A and cm-1 in either unit scheme; couplings are multiplied by k_n |
| ModelNN.TrainingLogReadsBack | PyRAI2MD/Machine_Learning/model_NN.py:279-302 | the log a training run writes, read by the remote trainer, gives back the printed metrics |
| ModelNN.NnQm | PyRAI2MD/Machine_Learning/model_NN.py:321-360 | fails exactly when a predicted array has no first row or a spread is empty; an absent property gives an empty array and 0; a predicted one gives its first row divided by its factor and its largest spread |
| ModelNN.PredictionsReturnInAtomicUnits | PyRAI2MD/Machine_Learning/model_NN.py:337-352 | networks that reproduce scaled atomic-unit data hand the first geometry's atomic-unit values back |
| ModelNN.DNN.constructor | PyRAI2MD/Machine_Learning/model_NN.py:58-195 | the fields are the selection from the keywords: mode, name, factors, targets, hyperparameters, devices and model folder |
| ModelNN.DNN.SetTargets | PyRAI2MD/Machine_Learning/model_NN.py:135-142 | fills `y_dict` with the training targets and nothing else |
| ModelNN.DNN.Register | PyRAI2MD/Machine_Learning/model_NN.py:149-152 | stores the slot its type asks for and nothing else |
| ModelNN.DNN.SetHypers | PyRAI2MD/Machine_Learning/model_NN.py:147-162 | fills `hyper` with the selected entries and nothing else |
| ModelNN.DNN.SetGpus | PyRAI2MD/Machine_Learning/model_NN.py:164-189 | fills the device table and nothing else |
| ModelNN.DNN.Train | PyRAI2MD/Machine_Learning/model_NN.py:222-309 | returns the metrics with time, path and status 1, and the log is the heading, the table of those metrics and the closing line |
| ModelNN.DNN.Evaluate | PyRAI2MD/Machine_Learning/model_NN.py:429-446 | in prediction mode it returns nothing and the trajectory is unchanged; otherwise it records the `_qm` results with status 1, or fails and leaves the trajectory as it was |
| ModelGcnnp.Registry | PyRAI2MD/Machine_Learning/model_GCNNP.py:150-185 | `model_register` has the three keys, each true iff its type is positive |
| ModelGcnnp.Targets | PyRAI2MD/Machine_Learning/model_GCNNP.py:157-180 | `y_dict` has the three keys: [energy, grad], [None, nac] and [soc, None] for registered properties, and `[]` otherwise |
| ModelGcnnp.Pair | PyRAI2MD/Machine_Learning/model_GCNNP.py:163-185 | a registered property contributes two of its dictionaries, and an unregistered one none |
| ModelGcnnp.HyperList | PyRAI2MD/Machine_Learning/model_GCNNP.py:163-187 | `hypers` has two entries per registered property: first the energy+gradient pair, then the coupling pair, then the spin-orbit pair, each in build order |
| ModelGcnnp.InitialWithSelects | PyRAI2MD/Machine_Learning/model_GCNNP.py:59-187 | after construction, `model_register`, `y_dict` and `hypers` are the selections above, and the other fields come from the keywords |
| ModelGcnnp.InitialHypersUntouched | PyRAI2MD/Machine_Learning/model_GCNNP.py:163-187 | built from untouched dictionaries, `hypers` has length 2 × registered and every entry has no graph yet |
| ModelGcnnp.Patch | PyRAI2MD/Machine_Learning/model_GCNNP.py:240-251 | a dictionary gets the node types and the edge list for its own cutoff and edge count, and nothing else changes |
| ModelGcnnp.Reported | PyRAI2MD/Machine_Learning/model_GCNNP.py:257-283 | a KeyError iff a registered property has no errors; otherwise its errors, and zeros for unregistered ones |
| ModelGcnnp.GcnnpMetricsAsWritten | PyRAI2MD/Machine_Learning/model_GCNNP.py:285-294 | as written, the coupling errors are divided by k_n |
| ModelGcnnp.GcnnpMetrics | PyRAI2MD/Machine_Learning/model_GCNNP.py:257-294 | corrected: fails exactly as the error lookup does; unregistered properties report 0 |
| ModelGcnnp.GcnnpMetricsMatchNn | PyRAI2MD/Machine_Learning/model_GCNNP.py:285-294 | the corrected metrics equal those of the native interface |
| ModelGcnnp.NacMetricAsWrittenDiffers | PyRAI2MD/Machine_Learning/model_GCNNP.py:288-292 | the written coupling error equals the corrected one iff the error is 0 or the unit is si |
| ModelGcnnp.NacMetricAsWrittenNotInEv | PyRAI2MD/Machine_Learning/model_GCNNP.py:288-300 | in atomic units, an error of 1 Eh/Bohr is written as 1/k_n, about 0.019, instead of k_n, about 51.4 eV/A |
| ModelGcnnp.Mean2 | PyRAI2MD/Machine_Learning/model_GCNNP.py:351 | the mean exists iff the two arrays have the same shape; it is their element-wise average |
| ModelGcnnp.Std2 | PyRAI2MD/Machine_Learning/model_GCNNP.py:352 | the spread exists iff the shapes agree; it is the element-wise deviation |
| ModelGcnnp.Averaged | PyRAI2MD/Machine_Learning/model_GCNNP.py:363-367 | averaging succeeds iff both pairs are comparable and the spread is non-empty; the result is the mean over the factor with the largest spread |
| ModelGcnnp.EgPart | PyRAI2MD/Machine_Learning/model_GCNNP.py:349-356 | corrected: the energy error is the largest spread of the energies and the gradient error that of the gradients |
| ModelGcnnp.GradErrorAsWrittenFollowsEnergies | PyRAI2MD/Machine_Learning/model_GCNNP.py:354 | as written, networks with equal gradients but different energies report gradient error 2 instead of 0 |
| ModelGcnnp.GradErrorIgnoresEnergies | PyRAI2MD/Machine_Learning/model_GCNNP.py:353-356 | in the corrected version, the gradient and its error do not depend on the energies |
| ModelGcnnp.GcnnpQm | PyRAI2MD/Machine_Learning/model_GCNNP.py:338-381 | corrected (gradient error over the gradients, see `EgPart`): fails iff a registered property's prediction is missing or unusable, with a KeyError only for a missing one; unregistered properties give an empty array and 0; registered ones give the mean over the factor and the largest spread |
| ModelGcnnp.AgreeingNetworksReportNoError | PyRAI2MD/Machine_Learning/model_GCNNP.py:349-376 | when both networks agree, every registered property reports error 0 |
| ModelGcnnp.ZeroSpread | PyRAI2MD/Machine_Learning/model_GCNNP.py:352-355 | the largest spread of an array against itself is 0 |
| ModelGcnnp.E2N2.constructor | PyRAI2MD/Machine_Learning/model_GCNNP.py:59-187 | the fields are the selection from the keywords with the given six dictionaries |
| ModelGcnnp.E2N2.RegisterOne | PyRAI2MD/Machine_Learning/model_GCNNP.py:163-185 | a positive type records the flag, targets and two dictionaries; otherwise only the false flag |
| ModelGcnnp.E2N2.PatchHypers | PyRAI2MD/Machine_Learning/model_GCNNP.py:240-251 | every dictionary of `hypers` is patched with the graph, in order, and nothing else changes |
| ModelGcnnp.E2N2.Train | PyRAI2MD/Machine_Learning/model_GCNNP.py:220-326 | patches every dictionary, then returns the corrected metrics with time, path and status 1, and the log that holds their table |
| ModelGcnnp.E2N2.Evaluate | PyRAI2MD/Machine_Learning/model_GCNNP.py:454-471 | corrected (records `GcnnpQm`): in prediction mode it returns nothing and the trajectory is unchanged; otherwise it reshapes atoms and coordinates and records the `_qm` results with status 1, or fails and leaves the trajectory unchanged |
| ModelGcnnp.BuildPair | PyRAI2MD/Machine_Learning/model_GCNNP.py:87-92 | two builder calls on the same options fail iff splits is 0, and otherwise give two equal dictionaries |
| ModelGcnnp.BuildOnce | PyRAI2MD/Machine_Learning/model_GCNNP.py:87-92 | the builder for the property's target |
| ModelGcnnp.NewE2N2 | PyRAI2MD/Machine_Learning/model_GCNNP.py:59-190 | construction fails iff splits is 0; otherwise a fresh interface whose fields are the selection from the keywords |

## Left out

- The FSSH and GSH engines are outside the model. They are functions passed to the dispatcher.
- Floating-point arithmetic is not modelled. Unit factors and errors are exact reals, and `float()`, `'%.8f'` and the sample deviation are parameters.
- Parsing, printing and reading back a value therefore hold up to those parameters. The read-back lemma assumes the printed text is a single word that `float()` accepts.
- File and process I/O is outside the model: writing files, `os.makedirs`, `subprocess.run`, `shutil.rmtree` and `os.chdir`. The lines a program left behind are parameters, and so is whether the xTB folder existed.
- Submitting the `.sbatch` file is outside the model. Its text is `HpcSubmission`, and a missing `.slurm` template is the exit in `Xtb.Evaluate`.
- `print_coord`, `print_charge` and `numerize_xyz` are not part of this model. Their output is a parameter.
- `_qmmm`'s `apply_qmmm` and the Jacobian product are a parameter.
- `permute_map`, `set_gpu` and `NeuralNetPes` are not part of this model, nor is the `hyper_nn` builder for the native networks, which is a parameter.
- The E2N2 network (`GCNNP`: build, train, predict, load) is not part of this model. Neither are the graph construction `SetupTools.edge_from_radius` and the multiscale `Multiregions`. They enter as the predictor, the node types and the edge-list function.
- `_predict` is left out: its report files `*.pred.txt` and `max_abs_dev.txt` are output only.
- The `_heading` banners and `print` output are left out, and so are `load` and `appendix`, which do nothing here.
- Timing is left out: `time.time`, `what_is_time` and `how_long` are parameters.
- KeyErrors on absent keyword-dictionary entries are not modelled. The keywords are records with every option present, and the builders require the options they read.
- ModelGcnnp.InitialHypersUntouched: stated for any untouched dictionaries, not for the builders' results in particular. The builders' results are untouched by `HyperGcnnp.Build`.
- ModelNN.DNN.constructor: the permutation step is the identity here. `permute_map` is not part of this model.
- QcXtb.InputFiles: models the corrected embedding block `input=<project>.pc`; line 138 writes `input=<charge text>.pc` instead, which `EmbeddingAsWritten` models (see Findings).
- QcXtb.Qm1WritesCharges: states the corrected embedding block, through `InputFiles`.
- ModelGcnnp.GcnnpQm: reports the corrected gradient error, the spread of the gradient predictions; lines 354-356 take it over the energy predictions, which `EgPartAsWritten` models (see Findings).
- ModelGcnnp.E2N2.Evaluate: records the corrected gradient error of `GcnnpQm`, not the as-written one of line 354.
- ModelGcnnp.E2N2.Train: reports the coupling errors multiplied by k_n; lines 288 and 292 divide, which `GcnnpMetricsAsWritten` models (see Findings).

## Findings

| source | as written | input that shows it | evidently intended | confidence | as-written member | corrected member |
|---|---|---|---|---|---|---|
| PyRAI2MD/Quantum_Chemistry/qc_xtb.py:138 | the `$embedding` block formats the point-charge TEXT into `input=%s.pc` | project `mol`, one charge: the block names `0.5 0.0 0.0 1.0.pc`, while the file written is `mol.pc` | `input=<project>.pc`, the file written on line 139 | not executed | QcXtb.EmbeddingAsWritten, QcXtb.EmbeddingAsWrittenMissesFile, QcXtb.EmbeddingExample | QcXtb.Embedding |
| PyRAI2MD/Machine_Learning/model_GCNNP.py:354 | the gradient spread `g_std` is taken over the energy predictions `pred[i][0]` | energies 0 and 2, equal gradients 1: gradient error 2 instead of 0 | the spread of the gradient predictions `pred[i][1]`, as in the native interface | not executed | ModelGcnnp.EgPartAsWritten, ModelGcnnp.GradErrorAsWrittenFollowsEnergies | ModelGcnnp.EgPart |
| PyRAI2MD/Machine_Learning/model_GCNNP.py:288 | the coupling errors are divided by `k_n` (also line 292) | atomic units, coupling error 1 Eh/Bohr: reported 0.0194… instead of 51.42… eV/A | multiplied by `k_n`, as in model_NN.py:272 and as the table's eV/A heading says | not executed | ModelGcnnp.GcnnpMetricsAsWritten, ModelGcnnp.NacMetricAsWrittenNotInEv | ModelGcnnp.GcnnpMetrics |
