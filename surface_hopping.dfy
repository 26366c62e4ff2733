/** The surface-hopping dispatcher `surfhop`: it picks the hopping method from the
    trajectory's method name, case-insensitively, runs the fewest-switches (FSSH)
    or global-switches (GSH) engine, and commits the engine's eight results into the
    trajectory object. The two engines live outside this model; they are passed in
    as functions: FSSH of the attribute snapshot it is given, GSH of the whole
    trajectory. */
module SurfaceHopping {
  import opened Values
  import opened Text
  import opened Trajectories

  /** What both engines return: density matrix, Hamiltonian, coupling matrix,
      velocities, hop flag, previous state, new state and report text. */
  datatype HopResult = HopResult(
    a: Tensor, h: Tensor, d: Tensor, velo: Tensor,
    hoped: int, oldState: int, state: int, info: string)

  datatype HopMethod = Fssh | Gsh | Nosh | Unrecognised

  /** `getattr` failing while the FSSH snapshot is built. */
  datatype HopError = AttributeError(name: string)

  const NoHopInfo: string := "no surface hopping is performed"

  /** Attribute names that a hop writes. */
  const HopFields: set<string> :=
    {"a", "h", "d", "velo", "hoped", "last_state", "state", "shinfo"}

  /** The branch taken for a method name; the name is compared after lower-casing. */
  function SelectMethod(sfhp: string): (m: HopMethod)
    ensures m == Fssh <==> EqualIgnoringCase(sfhp, "fssh")
    ensures m == Gsh <==> EqualIgnoringCase(sfhp, "gsh")
    ensures m == Nosh <==> EqualIgnoringCase(sfhp, "nosh")
  {
    LowerEqualIff(sfhp, "fssh");
    LowerEqualIff(sfhp, "gsh");
    LowerEqualIff(sfhp, "nosh");
    assert Lower("fssh") == "fssh" && Lower("gsh") == "gsh" && Lower("nosh") == "nosh";
    var name := Lower(sfhp);
    if name == "fssh" then Fssh
    else if name == "gsh" then Gsh
    else if name == "nosh" then Nosh
    else Unrecognised
  }

  /** `{key: getattr(traj, key) for key in traj.attr}`: the first name that is not an
      attribute raises. */
  function Snapshot(st: TrajState, names: seq<string>): Result<map<string, Value>, string>
  {
    if names == [] then Ok(map[])
    else match Attribute(st, names[0])
      case None => Err(names[0])
      case Some(v) =>
        match Snapshot(st, names[1..])
        case Err(n) => Err(n)
        case Ok(m) => Ok(m[names[0] := v])
  }

  /** The snapshot holds exactly the named attributes with their values; when one
      of them is missing, the error names the first missing one. */
  lemma {:induction false} SnapshotSpec(st: TrajState, names: seq<string>)
    ensures var r := Snapshot(st, names);
            (r.Ok? <==> forall k :: 0 <= k < |names| ==> Attribute(st, names[k]).Some?) &&
            (r.Ok? ==> r.value.Keys == set n | n in names) &&
            (r.Ok? ==> forall n :: n in r.value ==> Attribute(st, n) == Some(r.value[n])) &&
            (r.Err? ==> exists k :: 0 <= k < |names| && names[k] == r.error &&
                           Attribute(st, names[k]).None? &&
                           forall j :: 0 <= j < k ==> Attribute(st, names[j]).Some?)
  {
    if names != [] {
      SnapshotSpec(st, names[1..]);
      assert forall j :: 0 <= j < |names| - 1 ==> names[1..][j] == names[j + 1];
      if Attribute(st, names[0]).Some? {
        assert (set n | n in names) == {names[0]} + (set n | n in names[1..]);
        var r := Snapshot(st, names[1..]);
        if r.Err? {
          var k :| 0 <= k < |names[1..]| && names[1..][k] == r.error &&
                   Attribute(st, names[1..][k]).None? &&
                   forall j :: 0 <= j < k ==> Attribute(st, names[1..][j]).Some?;
          assert names[k + 1] == r.error && Attribute(st, names[k + 1]).None?;
          assert forall j :: 0 <= j < k + 1 ==> Attribute(st, names[j]).Some?;
        }
      }
    }
  }

  /** The trajectory after the engine's results have been copied in. */
  function Commit(st: TrajState, res: HopResult): TrajState
  {
    st.(a := res.a, h := res.h, d := res.d, velo := res.velo,
        hoped := res.hoped, lastState := res.oldState, state := res.state, shinfo := res.info)
  }

  /** The whole effect of `surfhop` on the trajectory's attributes. */
  function SurfHopSpec(st: TrajState, fssh: map<string, Value> -> HopResult,
                       gsh: TrajState -> HopResult): Result<TrajState, HopError>
  {
    match SelectMethod(st.sfhp)
    case Fssh =>
      (match Snapshot(st, st.attr)
       case Err(n) => Err(AttributeError(n))
       case Ok(snap) => Ok(Commit(st, fssh(snap))))
    case Gsh => Ok(Commit(st, gsh(st)))
    case Nosh => Ok(st.(shinfo := NoHopInfo))
    case Unrecognised => Ok(st.(shinfo := NoHopInfo))
  }

  /** `surfhop(traj)`: updates the trajectory in place and returns that same object. */
  method SurfHop(traj: Trajectory, fssh: map<string, Value> -> HopResult,
                 gsh: TrajState -> HopResult) returns (r: Result<Trajectory, HopError>)
    modifies traj
    ensures r.Ok? ==> r.value == traj
    ensures match SurfHopSpec(old(traj.State()), fssh, gsh)
            case Ok(st) => r.Ok? && traj.State() == st
            case Err(e) => r == Err(e) && traj.State() == old(traj.State())
  {
    ghost var st := traj.State();
    var sfhp := traj.sfhp;
    var res: HopResult;
    if Lower(sfhp) == "fssh" {
      assert SelectMethod(st.sfhp) == Fssh;
      var trajDict := Snapshot(traj.State(), traj.attr);
      if trajDict.Err? {
        return Err(AttributeError(trajDict.error));
      }
      res := fssh(trajDict.value);
      assert SurfHopSpec(st, fssh, gsh) == Ok(Commit(st, res));
    } else if Lower(sfhp) == "gsh" {
      assert SelectMethod(st.sfhp) == Gsh;
      res := gsh(traj.State());
      assert SurfHopSpec(st, fssh, gsh) == Ok(Commit(st, res));
    } else if Lower(sfhp) == "nosh" {
      assert SelectMethod(st.sfhp) == Nosh;
      traj.shinfo := NoHopInfo;
      return Ok(traj);
    } else {
      assert SelectMethod(st.sfhp) == Unrecognised;
      traj.shinfo := NoHopInfo;
      return Ok(traj);
    }
    CommitHop(traj, res);
    return Ok(traj);
  }

  /** Copies the engine's eight results into the trajectory. */
  method CommitHop(traj: Trajectory, res: HopResult)
    modifies traj
    ensures traj.State() == Commit(old(traj.State()), res)
  {
    traj.a := res.a;
    traj.h := res.h;
    traj.d := res.d;
    traj.velo := res.velo;
    traj.hoped := res.hoped;
    traj.lastState := res.oldState;
    traj.state := res.state;
    traj.shinfo := res.info;
  }

  // ---------------------------------------------------------------------------
  // Properties

  /** Names that differ only in letter case select the same branch. */
  lemma SelectIgnoresCase(s: string, t: string)
    requires EqualIgnoringCase(s, t)
    ensures SelectMethod(s) == SelectMethod(t)
  {
    LowerEqualIff(s, t);
  }

  /** In particular an upper-case name, such as `FSSH` or `GSH`, selects the same
      branch as its lower-case spelling. */
  lemma SelectUpperCase(s: string)
    ensures SelectMethod(Upper(s)) == SelectMethod(s)
  {
    UpperKeepsLower(s);
  }

  /** Without FSSH or GSH the trajectory comes back with only its report text set. */
  lemma NoHopOnlySetsInfo(st: TrajState, fssh: map<string, Value> -> HopResult,
                          gsh: TrajState -> HopResult)
    requires !EqualIgnoringCase(st.sfhp, "fssh") && !EqualIgnoringCase(st.sfhp, "gsh")
    ensures SurfHopSpec(st, fssh, gsh) == Ok(st.(shinfo := NoHopInfo))
  {
  }

  /** The `nosh` branch and the fallback for an unrecognised name behave alike: the
      results differ in nothing but the method name they were given. */
  lemma NoshIsFallback(st: TrajState, other: string, fssh: map<string, Value> -> HopResult,
                       gsh: TrajState -> HopResult)
    requires SelectMethod(other) == Unrecognised
    ensures SurfHopSpec(st.(sfhp := "nosh"), fssh, gsh).Ok?
    ensures SurfHopSpec(st.(sfhp := other), fssh, gsh).Ok?
    ensures SurfHopSpec(st.(sfhp := "nosh"), fssh, gsh).value.(sfhp := other)
         == SurfHopSpec(st.(sfhp := other), fssh, gsh).value
  {
    assert EqualIgnoringCase("nosh", "nosh");
    assert SelectMethod("nosh") == Nosh;
  }

  /** After FSSH, the trajectory's state, previous state and hop flag are the ones
      the engine returned for the attribute snapshot. */
  lemma FsshCommitsResult(st: TrajState, fssh: map<string, Value> -> HopResult,
                          gsh: TrajState -> HopResult, snap: map<string, Value>)
    requires EqualIgnoringCase(st.sfhp, "fssh")
    requires Snapshot(st, st.attr) == Ok(snap)
    ensures SurfHopSpec(st, fssh, gsh).Ok?
    ensures var s := SurfHopSpec(st, fssh, gsh).value;
            s.state == fssh(snap).state && s.lastState == fssh(snap).oldState &&
            s.hoped == fssh(snap).hoped && s.shinfo == fssh(snap).info &&
            s.a == fssh(snap).a && s.h == fssh(snap).h && s.d == fssh(snap).d &&
            s.velo == fssh(snap).velo
  {
  }

  /** After GSH, the same holds for the results GSH computed from the whole trajectory. */
  lemma GshCommitsResult(st: TrajState, fssh: map<string, Value> -> HopResult,
                         gsh: TrajState -> HopResult)
    requires EqualIgnoringCase(st.sfhp, "gsh")
    ensures SurfHopSpec(st, fssh, gsh).Ok?
    ensures var s := SurfHopSpec(st, fssh, gsh).value;
            s.state == gsh(st).state && s.lastState == gsh(st).oldState &&
            s.hoped == gsh(st).hoped && s.shinfo == gsh(st).info &&
            s.a == gsh(st).a && s.h == gsh(st).h && s.d == gsh(st).d &&
            s.velo == gsh(st).velo
  {
  }

  /** Whatever branch is taken, every attribute outside the eight hop fields keeps
      its value. */
  lemma OnlyHopFieldsChange(st: TrajState, fssh: map<string, Value> -> HopResult,
                            gsh: TrajState -> HopResult, name: string)
    requires SurfHopSpec(st, fssh, gsh).Ok?
    requires name !in HopFields
    ensures Attribute(SurfHopSpec(st, fssh, gsh).value, name) == Attribute(st, name)
  {
  }

  /** Only a failing `getattr` while building the FSSH snapshot makes `surfhop` raise. */
  lemma FailsOnlyOnMissingAttribute(st: TrajState, fssh: map<string, Value> -> HopResult,
                                    gsh: TrajState -> HopResult)
    ensures SurfHopSpec(st, fssh, gsh).Err? <==>
            SelectMethod(st.sfhp) == Fssh &&
            exists k :: 0 <= k < |st.attr| && Attribute(st, st.attr[k]).None?
  {
    SnapshotSpec(st, st.attr);
  }

  /** FSSH sees only the snapshot of the names in `attr`: two trajectories with the
      same snapshot receive the same hop results, whatever their other attributes. */
  lemma FsshSeesOnlySnapshot(st1: TrajState, st2: TrajState,
                             fssh: map<string, Value> -> HopResult, gsh: TrajState -> HopResult)
    requires SelectMethod(st1.sfhp) == Fssh && SelectMethod(st2.sfhp) == Fssh
    requires Snapshot(st1, st1.attr).Ok? && Snapshot(st1, st1.attr) == Snapshot(st2, st2.attr)
    ensures SurfHopSpec(st1, fssh, gsh).Ok? && SurfHopSpec(st2, fssh, gsh).Ok?
    ensures var s1, s2 := SurfHopSpec(st1, fssh, gsh).value, SurfHopSpec(st2, fssh, gsh).value;
            s1.a == s2.a && s1.h == s2.h && s1.d == s2.d && s1.velo == s2.velo &&
            s1.hoped == s2.hoped && s1.lastState == s2.lastState &&
            s1.state == s2.state && s1.shinfo == s2.shinfo
  {
  }
}
