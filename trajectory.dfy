/** The trajectory object that the surface-hopping dispatcher and the electronic
    structure interfaces (xTB, the two neural-network models) update in place.
    The fields those modules read or write are typed; every other attribute of the
    Python object lives in `extra`, keyed by its attribute name. */
module Trajectories {
  import opened Values

  /** A value snapshot of every attribute of a trajectory. */
  datatype TrajState = TrajState(
    sfhp: string,            // surface hopping method name
    attr: seq<string>,       // names of the attributes handed to the FSSH engine
    a: Tensor,               // electronic density matrix
    h: Tensor,               // electronic Hamiltonian
    d: Tensor,               // nonadiabatic coupling matrix
    velo: Tensor,            // nuclear velocities
    hoped: int,              // hop flag of the last step
    lastState: int,          // state before the last step
    state: int,              // current electronic state
    shinfo: string,          // surface hopping report
    atoms: Tensor,
    coord: Tensor,
    energy: Tensor,
    grad: Tensor,
    nac: Tensor,
    soc: Tensor,
    errEnergy: Value,
    errGrad: Value,
    errNac: Value,
    errSoc: Value,
    status: int,
    extra: map<string, Value>)

  /** Python attribute names of the typed fields. */
  const TypedNames: set<string> := {
    "sfhp", "attr", "a", "h", "d", "velo", "hoped", "last_state", "state", "shinfo",
    "atoms", "coord", "energy", "grad", "nac", "soc",
    "err_energy", "err_grad", "err_nac", "err_soc", "status"}

  /** `getattr(traj, name)`: `None` when the object has no such attribute. */
  function Attribute(st: TrajState, name: string): (r: Option<Value>)
    ensures name !in TypedNames ==> (r.Some? <==> name in st.extra)
    ensures name in TypedNames ==> r.Some?
  {
    match name
    case "sfhp" => Some(VStr(st.sfhp))
    case "attr" => Some(VList(seq(|st.attr|, i requires 0 <= i < |st.attr| => VStr(st.attr[i]))))
    case "a" => Some(VArray(st.a))
    case "h" => Some(VArray(st.h))
    case "d" => Some(VArray(st.d))
    case "velo" => Some(VArray(st.velo))
    case "hoped" => Some(VInt(st.hoped))
    case "last_state" => Some(VInt(st.lastState))
    case "state" => Some(VInt(st.state))
    case "shinfo" => Some(VStr(st.shinfo))
    case "atoms" => Some(VArray(st.atoms))
    case "coord" => Some(VArray(st.coord))
    case "energy" => Some(VArray(st.energy))
    case "grad" => Some(VArray(st.grad))
    case "nac" => Some(VArray(st.nac))
    case "soc" => Some(VArray(st.soc))
    case "err_energy" => Some(st.errEnergy)
    case "err_grad" => Some(st.errGrad)
    case "err_nac" => Some(st.errNac)
    case "err_soc" => Some(st.errSoc)
    case "status" => Some(VInt(st.status))
    case _ => if name in st.extra then Some(st.extra[name]) else None
  }

  class Trajectory {
    var sfhp: string
    var attr: seq<string>
    var a: Tensor
    var h: Tensor
    var d: Tensor
    var velo: Tensor
    var hoped: int
    var lastState: int
    var state: int
    var shinfo: string
    var atoms: Tensor
    var coord: Tensor
    var energy: Tensor
    var grad: Tensor
    var nac: Tensor
    var soc: Tensor
    var errEnergy: Value
    var errGrad: Value
    var errNac: Value
    var errSoc: Value
    var status: int
    var extra: map<string, Value>

    /** The current value of every attribute. */
    function State(): TrajState
      reads this
    {
      TrajState(sfhp, attr, a, h, d, velo, hoped, lastState, state, shinfo, atoms, coord,
                energy, grad, nac, soc, errEnergy, errGrad, errNac, errSoc, status, extra)
    }

    constructor (st: TrajState)
      ensures State() == st
    {
      sfhp, attr := st.sfhp, st.attr;
      a, h, d, velo := st.a, st.h, st.d, st.velo;
      hoped, lastState, state, shinfo := st.hoped, st.lastState, st.state, st.shinfo;
      atoms, coord := st.atoms, st.coord;
      energy, grad, nac, soc := st.energy, st.grad, st.nac, st.soc;
      errEnergy, errGrad, errNac, errSoc := st.errEnergy, st.errGrad, st.errNac, st.errSoc;
      status, extra := st.status, st.extra;
    }
  }

  /** The state after an electronic-structure interface has recorded its results:
      energies, gradients, couplings, their error estimates and the status flag. */
  function WithResults(st: TrajState, energy: Tensor, grad: Tensor, nac: Tensor, soc: Tensor,
                       errEnergy: Value, errGrad: Value, errNac: Value, errSoc: Value,
                       status: int): TrajState
  {
    st.(energy := energy, grad := grad, nac := nac, soc := soc,
        errEnergy := errEnergy, errGrad := errGrad, errNac := errNac, errSoc := errSoc,
        status := status)
  }

  /** Writes an interface's results into the trajectory; nothing else changes. */
  method SetResults(traj: Trajectory, energy: Tensor, grad: Tensor, nac: Tensor, soc: Tensor,
                    errEnergy: Value, errGrad: Value, errNac: Value, errSoc: Value, status: int)
    modifies traj
    ensures traj.State() == WithResults(old(traj.State()), energy, grad, nac, soc,
                                        errEnergy, errGrad, errNac, errSoc, status)
  {
    SetProperties(traj, energy, grad, nac, soc);
    SetErrors(traj, errEnergy, errGrad, errNac, errSoc, status);
  }

  method SetProperties(traj: Trajectory, energy: Tensor, grad: Tensor, nac: Tensor, soc: Tensor)
    modifies traj
    ensures traj.State() == old(traj.State()).(energy := energy, grad := grad, nac := nac, soc := soc)
  {
    traj.energy := energy;
    traj.grad := grad;
    traj.nac := nac;
    traj.soc := soc;
  }

  method SetErrors(traj: Trajectory, errEnergy: Value, errGrad: Value, errNac: Value,
                   errSoc: Value, status: int)
    modifies traj
    ensures traj.State() == old(traj.State()).(errEnergy := errEnergy, errGrad := errGrad,
                                               errNac := errNac, errSoc := errSoc, status := status)
  {
    traj.errEnergy := errEnergy;
    traj.errGrad := errGrad;
    traj.errNac := errNac;
    traj.errSoc := errSoc;
    traj.status := status;
  }
}
