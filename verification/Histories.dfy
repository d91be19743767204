/** Histories of source edits, builds, rebuild and repackage requests, failures, crashes
    and restarts: incremental building delivers the image of a clean build. */
module Histories {
  import opened Store
  import opened Cache
  import opened RunLoop
  import opened CompileStages
  import opened ShipStages
  import opened BuildRun
  import opened BuildSafety
  import opened Completion

  /** The build server: its files, the current sources, the sticky `repackage_only_active`
      attribute of the context, and how the last run ended. */
  datatype Server = Server(files: Files, inputs: Inputs, repackageOnly: bool, last: Final)

  /** What the tools do during one run, and the stages that `ALLOWED_FAILURES` names. */
  datatype Luck = Luck(fates: Stage -> Fate, scene: Scene, allowed: set<Stage>)

  datatype Event =
    | Edit(inputs: Inputs)
    | BuildRequest(luck: Luck)
    | ClearRequest(cleared: set<Path>)
    | RepackageRequest(cleared: set<Path>, luck: Luck)
    | Restart

  function SetupFor(i: Inputs, luck: Luck): Setup {
    Setup(i, luck.fates, luck.scene, luck.allowed)
  }

  function RunBuild(s: Server, luck: Luck): Server {
    var st := Build(s.files, SetupFor(s.inputs, luck), s.repackageOnly);
    Server(st.world, s.inputs, st.repackage, st.final)
  }

  /** What `/api/rebuild` tries to delete: every `.hash` and `.done` file and `hashes.json`. */
  predicate Rebuildable(p: Path) {
    IsFlag(p) || p == HashesJson
  }

  /** What `/api/repackage` tries to delete. */
  const REPACKAGE_FLAGS := {MasterDone, MasterHash, DoneFile(CheckEarlyExit)}

  function Step(s: Server, e: Event): Server {
    match e
    case Edit(i) => s.(inputs := i, last := Unfinished)
    case BuildRequest(luck) => RunBuild(s, luck)
    case ClearRequest(cleared) =>
      s.(files := s.files - (set p | p in cleared && Rebuildable(p)), last := Unfinished)
    case RepackageRequest(cleared, luck) =>
      RunBuild(Requested(s, cleared), luck)
    case Restart => s.(repackageOnly := false, last := Unfinished)
  }

  /** A run is careful if in repackage mode it starts from live files that match the sources, if it tears no
      source tree, and if each stage that fails with leave has nevertheless left what it is for. */
  ghost predicate CarefulRun(s: Server, luck: Luck) {
    var setup := SetupFor(s.inputs, luck);
    var st := Build(s.files, setup, s.repackageOnly);
    && (s.repackageOnly ==> LiveCurrent(s.files, s.inputs))
    && Orderly(s.files, setup, s.repackageOnly) && Forgiven(s.files, setup, s.repackageOnly)
    && (st.final == Complete ==> !HasFailed(st.status, ShipImage))
  }

  function Requested(s: Server, cleared: set<Path>): Server {
    s.(files := s.files - cleared * REPACKAGE_FLAGS, repackageOnly := true)
  }

  ghost predicate Careful(s: Server, e: Event) {
    match e
    case BuildRequest(luck) => CarefulRun(s, luck)
    case RepackageRequest(cleared, luck) => CarefulRun(Requested(s, cleared), luck)
    case _ => true
  }

  function After(s: Server, es: seq<Event>): Server {
    if es == [] then s else Step(After(s, es[..|es| - 1]), es[|es| - 1])
  }

  /** A history over the given versions in which every run is careful. */
  ghost predicate History(versions: set<Inputs>, s: Server, es: seq<Event>) {
    && s.inputs in versions
    && (forall e <- es :: e.Edit? ==> e.inputs in versions)
    && forall k :: 0 <= k < |es| ==> Careful(After(s, es[..k]), es[k])
  }

  /** A server before its first build: anything may lie around, but no flag and no source tree. */
  ghost predicate Unbuilt(s: Server) {
    && (forall p :: p in s.files ==> !IsFlag(p) && !p.SourceTree? && !p.KernelConfig?)
    && !s.repackageOnly && s.last == Unfinished
  }

  lemma UnbuiltInv(pins: Pins, s: Server)
    requires Unbuilt(s)
    ensures Inv(pins, s.files)
  {
  }

  lemma {:induction false} RemovalsKeep(pins: Pins, fs: Files, ps: set<Path>)
    requires Inv(pins, fs) && forall p <- ps :: Rebuildable(p)
    ensures Inv(pins, fs - ps)
    decreases |ps|
  {
    if ps == {} {
      assert fs - ps == fs;
    } else {
      var p :| p in ps;
      var gs := fs - {p};
      if IsFlag(p) {
        RemovalKeeps(pins, fs, p);
      } else {
        NeutralKeeps(pins, fs, gs, p);
      }
      RemovalsKeep(pins, gs, ps - {p});
      assert gs - (ps - {p}) == fs - ps;
    }
  }

  /** A run from good files leaves good files, and a complete one the current image. */
  lemma RunKeeps(pins: Pins, s: Server, luck: Luck)
    requires Inv(pins, s.files) && Admissible(pins, s.inputs) && CarefulRun(s, luck)
    ensures var t := RunBuild(s, luck);
            && Inv(pins, t.files) && t.inputs == s.inputs
            && (t.last == Complete ==> Holds(t.files, At(OutputDir, OsImage), Image(s.inputs)))
  {
    var setup := SetupFor(s.inputs, luck);
    RunSafe(pins, s.files, setup, s.repackageOnly);
    if Build(s.files, setup, s.repackageOnly).final == Complete {
      RunDelivers(pins, s.files, setup, s.repackageOnly);
    }
  }

  lemma StepKeeps(pins: Pins, s: Server, e: Event)
    requires Inv(pins, s.files) && Admissible(pins, s.inputs) && Careful(s, e)
    requires e.Edit? ==> Admissible(pins, e.inputs)
    ensures var t := Step(s, e);
            && Inv(pins, t.files) && Admissible(pins, t.inputs)
            && (t.last == Complete ==> Holds(t.files, At(OutputDir, OsImage), Image(t.inputs)))
  {
    match e
    case Edit(_) =>
    case BuildRequest(luck) => RunKeeps(pins, s, luck);
    case ClearRequest(cleared) => RemovalsKeep(pins, s.files, set p | p in cleared && Rebuildable(p));
    case RepackageRequest(cleared, luck) =>
      RemovalsKeep(pins, s.files, cleared * REPACKAGE_FLAGS);
      RunKeeps(pins, Requested(s, cleared), luck);
    case Restart =>
  }

  /** The invariant of both cache levels holds after every history, and so wherever a crash ends one. */
  lemma {:induction false} InvAlways(pins: Pins, versions: set<Inputs>, s: Server, es: seq<Event>)
    requires forall i <- versions :: Admissible(pins, i)
    requires Unbuilt(s) && History(versions, s, es)
    ensures Inv(pins, After(s, es).files) && Admissible(pins, After(s, es).inputs)
    ensures After(s, es).last == Complete ==>
        Holds(After(s, es).files, At(OutputDir, OsImage), Image(After(s, es).inputs))
    decreases |es|
  {
    if es == [] {
      UnbuiltInv(pins, s);
    } else {
      var front, e := es[..|es| - 1], es[|es| - 1];
      forall k | 0 <= k < |front| ensures front[..k] == es[..k] {
      }
      InvAlways(pins, versions, s, front);
      assert Careful(After(s, front), e);
      StepKeeps(pins, After(s, front), e);
    }
  }

  // The clean build, and the main theorem

  /** A run in which nothing fails but what the absence of source files makes fail. */
  function Smooth(absent: set<string>): Luck {
    Luck(_ => Finishes, Scene([], {}, absent), {})
  }

  const SMOOTH := Smooth({})

  /** The build server with an empty workspace. */
  function EmptyServer(i: Inputs): Server {
    Server(map[], i, false, Unfinished)
  }

  /** Building `i` in an empty workspace, with nothing failing and the source files there. */
  function CleanBuild(i: Inputs): Server {
    RunBuild(EmptyServer(i), SMOOTH)
  }

  /** The pins of one version. */
  function PinsFor(i: Inputs): Pins {
    Pins(_ => i.headers,
         (p: Package, v: string) => if v == i.Version(p) then i.Tarball(p) else i.headersTar,
         v => v == i.linuxVer)
  }

  lemma OwnPins(i: Inputs)
    requires i.WellFormed()
    ensures Admissible(PinsFor(i), i)
  {
  }

  /** A run of an undisturbed server is careful. */
  lemma SmoothIsCareful(s: Server, luck: Luck)
    requires s.inputs.WellFormed() && Undisturbed(s.files, SetupFor(s.inputs, luck), s.repackageOnly)
    requires TreesWhole(s.files, s.inputs) && (s.repackageOnly ==> LiveCurrent(s.files, s.inputs))
    ensures CarefulRun(s, luck) && RunBuild(s, luck).last == Complete
  {
    UndisturbedIsSafe(s.files, SetupFor(s.inputs, luck), s.repackageOnly);
    UndisturbedCompletes(s.files, SetupFor(s.inputs, luck), s.repackageOnly);
  }

  /** A clean build in which no command fails completes exactly when the two source directories
      have the files that are taken from them, and then delivers the image of its sources. */
  lemma CleanBuildDelivers(i: Inputs, absent: set<string>)
    requires i.WellFormed()
    ensures var s := RunBuild(EmptyServer(i), Smooth(absent));
            && (s.last == Complete <==> i.s6Dir !in absent && i.profilesDir !in absent)
            && (s.last == Complete ==> Holds(s.files, At(OutputDir, OsImage), Image(i)))
  {
    var s, luck := EmptyServer(i), Smooth(absent);
    var setup := SetupFor(i, luck);
    UnbuiltInv(PinsFor(i), s);
    OwnPins(i);
    SourcesThere(i, absent);
    UninterruptedCompletesIff(s.files, setup, false);
    assert Starved(s.files, setup, false, AssembleRootfs) <==> !TargetsThere(s.files, i, false, absent);
    if RunBuild(s, luck).last == Complete {
      NothingToStarve(i, absent);
      WithoutLeave(s.files, setup, false);
      RunKeeps(PinsFor(i), s, luck);
    }
  }

  lemma NothingToStarve(i: Inputs, absent: set<string>)
    requires i.WellFormed() && i.s6Dir !in absent && i.profilesDir !in absent
    ensures forall s :: !Starved(map[], SetupFor(i, Smooth(absent)), false, s)
  {
    SourcesThere(i, absent);
  }

  lemma WithoutLeave(fs: Files, setup: Setup, repackage: bool)
    requires setup.inputs.WellFormed() && (forall s :: setup.fates(s).Finishes?) && TreesWhole(fs, setup.inputs)
    requires forall s :: !Starved(fs, setup, repackage, s)
    ensures Orderly(fs, setup, repackage) && Forgiven(fs, setup, repackage)
    ensures forall s :: !HasFailed(Build(fs, setup, repackage).status, s)
  {
    NoneStarvedIsSafe(fs, setup, repackage);
    NoneStarvedCompletes(fs, setup, repackage);
  }

  lemma SourcesThere(i: Inputs, absent: set<string>)
    ensures TargetsThere(map[], i, false, absent) <==> i.s6Dir !in absent && i.profilesDir !in absent
  {
    var ts := RootfsTargets(i);
    assert ts[2] == Src(i.s6Dir) && ts[9] == Src(i.profilesDir) && ts[2] in ts && ts[9] in ts;
    assert forall t <- ts :: t.Src? ==> t == ts[2] || t == ts[9];
  }

  /** What the leftovers of building `i` must not have to do with `j`: a version stands for the same tarball,
      the digest of `kernel/` for the same headers, and a kernel that is built is not the headers of another. */
  ghost predicate Compatible(i: Inputs, j: Inputs) {
    && (forall p :: i.Version(p) == j.Version(p) ==> i.Tarball(p) == j.Tarball(p))
    && (i.headers == j.headers ==> i.headersTar == j.headersTar)
    && (i.kernelDir == j.kernelDir ==> i.headers == j.headers)
    && (i.linuxVer == j.headers ==> j.linuxVer == j.headers)
  }

  /** Whatever no cache key shows is the same for all the versions that occur. */
  ghost predicate Determined(versions: set<Inputs>) {
    forall i, j :: i in versions && j in versions ==> Compatible(i, j)
  }

  ghost function HeadersFor(versions: set<Inputs>, kernelDir: string): string {
    if exists i <- versions :: i.kernelDir == kernelDir
    then var i :| i in versions && i.kernelDir == kernelDir; i.headers
    else ""
  }

  ghost function TarballFor(versions: set<Inputs>, p: Package, v: string): string {
    if exists i <- versions :: i.Version(p) == v
    then var i :| i in versions && i.Version(p) == v; i.Tarball(p)
    else if exists i <- versions :: i.headers == v
    then var i :| i in versions && i.headers == v; i.headersTar
    else ""
  }

  ghost function PinsOf(versions: set<Inputs>): Pins {
    Pins(d => HeadersFor(versions, d), (p, v) => TarballFor(versions, p, v),
         v => exists i <- versions :: i.linuxVer == v)
  }

  lemma TarballDetermined(versions: set<Inputs>, i: Inputs, p: Package)
    requires Determined(versions) && i in versions
    ensures TarballFor(versions, p, i.Version(p)) == i.Tarball(p)
  {
    var j :| j in versions && j.Version(p) == i.Version(p) && TarballFor(versions, p, i.Version(p)) == j.Tarball(p);
    assert Compatible(j, i);
  }

  lemma HeadersDetermined(versions: set<Inputs>, i: Inputs)
    requires Determined(versions) && i in versions && i.WellFormed()
    ensures TarballFor(versions, Linux, i.headers) == i.headersTar
  {
    if exists j <- versions :: j.Version(Linux) == i.headers {
      var j :| j in versions && j.Version(Linux) == i.headers
        && TarballFor(versions, Linux, i.headers) == j.Tarball(Linux);
      assert Compatible(j, i) && i.Version(Linux) == i.headers;
    } else {
      var j :| j in versions && j.headers == i.headers && TarballFor(versions, Linux, i.headers) == j.headersTar;
      assert Compatible(j, i);
    }
  }

  lemma DeterminedAdmissible(versions: set<Inputs>, i: Inputs)
    requires Determined(versions) && i in versions && i.WellFormed()
    ensures Admissible(PinsOf(versions), i)
  {
    forall p ensures i.Tarball(p) == TarballFor(versions, p, i.Version(p)) {
      TarballDetermined(versions, i, p);
    }
    HeadersDetermined(versions, i);
    var j :| j in versions && j.kernelDir == i.kernelDir && HeadersFor(versions, i.kernelDir) == j.headers;
    assert Compatible(j, i);
    assert forall l <- versions :: l.linuxVer == i.headers ==> Compatible(l, i);
  }

  /** After any history of edits, builds, rebuild requests, repackage requests, stage failures with and without
      leave, crashes and restarts, a careful run that ended "Complete" left in the output directory
      the very image that a clean build of the current sources gives when nothing fails. */
  lemma IncrementalEqualsClean(versions: set<Inputs>, s: Server, es: seq<Event>)
    requires (forall i <- versions :: i.WellFormed()) && Determined(versions)
    requires Unbuilt(s) && History(versions, s, es) && After(s, es).last == Complete
    ensures var t := After(s, es);
            Holds(t.files, At(OutputDir, OsImage), Get(CleanBuild(t.inputs).files, At(OutputDir, OsImage)))
  {
    forall i | i in versions ensures Admissible(PinsOf(versions), i) {
      DeterminedAdmissible(versions, i);
    }
    InvAlways(PinsOf(versions), versions, s, es);
    CleanBuildDelivers(After(s, es).inputs, {});
  }
}
