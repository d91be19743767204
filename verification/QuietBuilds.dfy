/** Builds that have nothing to do, runs in repackage mode, torn image copies, and the
    contents of the output directory. */
module QuietBuilds {
  import opened Scheduler
  import opened Store
  import opened Cache
  import opened RunLoop
  import opened CompileStages
  import opened ShipStages
  import opened BuildRun
  import opened BuildSafety
  import opened Completion
  import opened Histories
  import opened Deliveries
  import opened Fingerprints
  import opened Exactness

  // No-op builds

  lemma OrderDistinct()
    ensures NoRepeats(ORDER)
  {
  }

  /** The first stage of a run. */
  lemma FirstStage(fs: Files, setup: Setup)
    requires setup.fates(DownloadTarballs).Finishes?
    ensures Partial(fs, setup, false, 1)
            == Mark(Start(fs, false), DownloadTarballs, Success).(world := fs[DoneFile(DownloadTarballs) := Flag])
  {
    var st, s := Start(fs, false), DownloadTarballs;
    BodyPerforms(setup, st, s);
    HandlePerforms(Config(setup), StageBody(setup, false), st, s, PlanIn(setup, st, s), Finishes);
    PartialNext(fs, setup, false, 0);
    OneOp(fs, PlanIn(setup, st, s).ops);
  }

  lemma SecondPlan(setup: Setup, st: State<Stage, Files>)
    ensures PlanIn(setup, st, CheckEarlyExit) == EarlyExitPlan(st.world, setup.inputs, st.repackage)
  {
  }

  /** Entering `CheckEarlyExit` when it has nothing to copy. */
  lemma ExitEntered(setup: Setup, st: State<Stage, Files>, plan: Plan)
    requires setup.fates(CheckEarlyExit).Finishes? && st.final == Unfinished && !st.skip
    requires plan == PlanIn(setup, st, CheckEarlyExit) && !plan.raises && plan.report == SaysSuccess
    requires plan.ops == [Write(DoneFile(CheckEarlyExit), Flag)]
    ensures Handle(Config(setup), StageBody(setup, st.repackage), st, CheckEarlyExit)
            == Mark(st, CheckEarlyExit, Success)
                 .(world := st.world[DoneFile(CheckEarlyExit) := Flag], skip := plan.skip)
  {
    BodyPerforms(setup, st, CheckEarlyExit);
    assert !Bypassed(Config(setup), st, CheckEarlyExit);
    HandlePerforms(Config(setup), StageBody(setup, st.repackage), st, CheckEarlyExit, plan, Finishes);
    OneOp(st.world, plan.ops);
  }

  /** The first two stages of a run over files whose whole-image flags are valid. */
  lemma ExitPrefix(fs: Files, setup: Setup)
    requires setup.fates(DownloadTarballs).Finishes? && setup.fates(CheckEarlyExit).Finishes?
    requires MasterHit(fs, setup.inputs, false) && At(OutputDir, OsImage) in fs
    ensures var st := Partial(fs, setup, false, 2);
            && st.skip && st.final == Unfinished
            && st.world == fs[DoneFile(DownloadTarballs) := Flag][DoneFile(CheckEarlyExit) := Flag]
            && st.status.Keys == PENDING.Keys
            && st.status[DownloadTarballs] == Success && st.status[CheckEarlyExit] == Success
  {
    FirstStage(fs, setup);
    var st := Partial(fs, setup, false, 1);
    PartialNext(fs, setup, false, 1);
    SecondPlan(setup, st);
    ExitEntered(setup, st, EarlyExitPlan(st.world, setup.inputs, false));
  }

  /** With valid whole-image flags for the current sources and the image in place, a build
      skips every stage after `CheckEarlyExit` and writes two done flags and nothing else. */
  lemma ExitRun(fs: Files, setup: Setup)
    requires setup.fates(DownloadTarballs).Finishes? && setup.fates(CheckEarlyExit).Finishes?
    requires MasterHit(fs, setup.inputs, false) && At(OutputDir, OsImage) in fs
    ensures var st := Build(fs, setup, false);
            && st.final == Complete
            && st.world == fs[DoneFile(DownloadTarballs) := Flag][DoneFile(CheckEarlyExit) := Flag]
            && forall s: Stage :: s in st.status && st.status[s] ==
                 if s == DownloadTarballs || s == CheckEarlyExit then Success else Skipped
  {
    ExitPrefix(fs, setup);
    OrderDistinct();
    var now := Partial(fs, setup, false, 2);
    RestSkipped(Config(setup), StageBody(setup, false), ORDER, Start(fs, false), 2, now);
    forall s: Stage ensures s in Build(fs, setup, false).status
      && Build(fs, setup, false).status[s] == if s == DownloadTarballs || s == CheckEarlyExit then Success else Skipped
    {
      StatusAfterExit(now.status, Build(fs, setup, false).status, s);
    }
  }

  lemma StatusAfterExit(now: map<Stage, Status>, later: map<Stage, Status>, s: Stage)
    requires DownloadTarballs in now && CheckEarlyExit in now
    requires now[DownloadTarballs] == Success && now[CheckEarlyExit] == Success
    requires forall m :: 2 <= m < |ORDER| ==> ORDER[m] in later && later[ORDER[m]] == Skipped
    requires forall m :: 0 <= m < 2 && ORDER[m] in now ==> ORDER[m] in later && later[ORDER[m]] == now[ORDER[m]]
    ensures s in later && later[s] == if s == DownloadTarballs || s == CheckEarlyExit then Success else Skipped
  {
    assert ORDER[Index(s)] == s;
  }

  /** The build after a shipping build, with unchanged sources, is a no-op, whatever failed with leave in the
      first: every stage after `CheckEarlyExit` is skipped and no image, stage flag or artifact changes. */
  lemma NoOpRebuild(fs: Files, first: Setup, second: Setup, repackage: bool)
    requires first.inputs.WellFormed() && second.inputs == first.inputs && Ships(fs, first, repackage)
    requires Build(fs, first, repackage).final == Complete && Shipped(Build(fs, first, repackage).status)
    requires second.fates(DownloadTarballs).Finishes? && second.fates(CheckEarlyExit).Finishes?
    ensures var gs, st := Build(fs, first, repackage).world, Build(Build(fs, first, repackage).world, second, false);
            && st.final == Complete
            && (forall s: Stage :: s in st.status && (Index(s) >= 2 ==> st.status[s] == Skipped))
            && forall p :: p != DoneFile(DownloadTarballs) && p != DoneFile(CheckEarlyExit) ==> Same(gs, st.world, p)
  {
    ShippingSeals(fs, first, repackage);
    ExitRun(Build(fs, first, repackage).world, second);
  }

  // Repackage mode

  /** Clean-building `i` and then asking for a repackage run over the sources `j`. */
  function Repackaged(i: Inputs, j: Inputs): State<Stage, Files> {
    Build(CleanBuild(i).files, SetupFor(j, SMOOTH), true)
  }

  predicate SameTrees(i: Inputs, j: Inputs) {
    i.linuxVer == j.linuxVer && i.busyboxVer == j.busyboxVer
  }

  /** Exactly what repackaging after an edit does.  A version edit moves the live kernel or BusyBox
      to a source tree that has none: the run fails in `AssembleRootfs` without BusyBox, else in
      `PackageESPImage` without a kernel.  Any other edit completes, with the current image
      exactly when no compiled file changes. */
  lemma RepackageAfterEdit(i: Inputs, j: Inputs)
    requires i.WellFormed() && j.WellFormed()
    ensures var st := Repackaged(i, j);
            && (st.final == Complete <==> SameTrees(i, j))
            && (i.busyboxVer != j.busyboxVer ==> st.final == Fatal && HasFailed(st.status, AssembleRootfs))
            && (i.busyboxVer == j.busyboxVer && i.linuxVer != j.linuxVer ==>
                  st.final == Fatal && HasFailed(st.status, PackageESPImage))
            && (SameTrees(i, j) ==>
                  (Get(st.world, At(OutputDir, OsImage)) == Image(j) <==>
                    forall a :: Compiles(Owner(a)) ==> Fresh(a, i) == Fresh(a, j)))
  {
    CleanLive(i);
    var fs, setup := CleanBuild(i).files, SetupFor(j, SMOOTH);
    CleanTargets(i, j, fs);
    UninterruptedCompletesIff(fs, setup, true);
    if SameTrees(i, j) {
      RepackagedIsShipped(fs, i, j);
      RepackageExact(fs, setup);
      LiveForBoth(fs, i, j);
    }
  }

  lemma RepackagedIsShipped(fs: Files, i: Inputs, j: Inputs)
    requires j.WellFormed() && LiveCurrent(fs, i) && SameTrees(i, j)
    ensures var st := Build(fs, SetupFor(j, SMOOTH), true); st.final == Complete && Shipped(st.status)
  {
    forall a | Compiles(Owner(a)) ensures LiveThere(fs, j, a) {
      assert LivePath(a, i) == LivePath(a, j);
    }
    UndisturbedCompletes(fs, SetupFor(j, SMOOTH), true);
  }

  lemma LiveForBoth(fs: Files, i: Inputs, j: Inputs)
    requires LiveCurrent(fs, i) && SameTrees(i, j)
    ensures LiveCurrent(fs, j) <==> forall a :: Compiles(Owner(a)) ==> Fresh(a, i) == Fresh(a, j)
  {
    forall a | Compiles(Owner(a)) ensures Holds(fs, LivePath(a, j), Fresh(a, i)) {
      assert LivePath(a, i) == LivePath(a, j);
    }
  }

  lemma CleanHas(i: Inputs, j: Inputs, a: Art)
    requires i.WellFormed() && Compiles(Owner(a))
    ensures LiveThere(CleanBuild(i).files, j, a) <==> LivePath(a, i) == LivePath(a, j)
  {
    CleanLive(i);
    LiveHas(CleanBuild(i).files, i, a);
    if LivePath(a, i) != LivePath(a, j) {
      CleanLacks(i, LivePath(a, j));
    }
  }

  lemma LiveHas(fs: Files, i: Inputs, a: Art)
    requires LiveCurrent(fs, i) && Compiles(Owner(a))
    ensures LiveThere(fs, i, a)
  {
    assert Holds(fs, LivePath(a, i), Fresh(a, i));
  }

  lemma CleanLacks(i: Inputs, p: Path)
    requires OtherTree(p, i)
    ensures p !in CleanBuild(i).files
  {
    TreesKept(map[], SetupFor(i, SMOOTH), false, 16, p);
  }

  lemma OnlyBusybox(fs: Files, i: Inputs)
    requires forall a :: Compiles(Owner(a)) && !Versioned(a) ==> LiveThere(fs, i, a)
    ensures TargetsThere(fs, i, true, {}) <==> LiveThere(fs, i, BusyboxInstall)
  {
    var ts := RootfsTargets(i);
    assert ts[0] == Bin(BusyboxInstall) && ts[0] in ts;
    forall t | t in ts && t.Bin? && t.art != BusyboxInstall ensures LiveThere(fs, i, t.art) {
      TargetsCompiled(i, t);
      NotTheKernel(i, t);
    }
  }

  lemma NotTheKernel(i: Inputs, t: Target)
    requires t in RootfsTargets(i)
    ensures t != Bin(BzImage)
  {
  }

  /** What a clean build of `i` has where the sources `j` look for live files. */
  lemma CleanTargets(i: Inputs, j: Inputs, fs: Files)
    requires i.WellFormed() && fs == CleanBuild(i).files
    ensures TargetsThere(fs, j, true, {}) <==> i.busyboxVer == j.busyboxVer
    ensures KernelThere(fs, j, true) <==> i.linuxVer == j.linuxVer
  {
    forall a | Compiles(Owner(a)) ensures LiveThere(fs, j, a) <==> LivePath(a, i) == LivePath(a, j) {
      CleanHas(i, j, a);
    }
    OnlyBusybox(fs, j);
  }

  lemma CleanLive(i: Inputs)
    requires i.WellFormed()
    ensures LiveCurrent(CleanBuild(i).files, i)
  {
    FirstBuild(i);
    forall c | Compiles(Owner(c)) ensures Holds(CleanBuild(i).files, LivePath(c, i), Fresh(c, i)) {
      assert CachedAs(CleanBuild(i).files, i, c, Fresh(c, i), Key(Owner(c), i));
    }
  }

  /** So repackaging after an edit that moves no live file but changes a compiled one completes with a
      wrong image, and the next normal build serves it again: the flags now carry the new key. */
  lemma StaleRepackage(i: Inputs, j: Inputs)
    requires i.WellFormed() && j.WellFormed() && SameTrees(i, j)
    requires exists a :: Compiles(Owner(a)) && Fresh(a, i) != Fresh(a, j)
    ensures var t := Step(CleanBuild(i).(inputs := j, last := Unfinished), RepackageRequest({}, SMOOTH));
            && t.last == Complete && Get(t.files, At(OutputDir, OsImage)) != Image(j)
            && var u := Step(t, BuildRequest(SMOOTH));
               u.last == Complete && Get(u.files, At(OutputDir, OsImage)) != Image(j)
  {
    StaleImage(i, j);
    StaleServed(CleanBuild(i).files, i, j);
    RequestIs(CleanBuild(i).(inputs := j, last := Unfinished));
  }

  lemma StaleImage(i: Inputs, j: Inputs)
    requires i.WellFormed() && j.WellFormed() && SameTrees(i, j)
    requires exists a :: Compiles(Owner(a)) && Fresh(a, i) != Fresh(a, j)
    ensures var st := Repackaged(i, j); st.final == Complete && Get(st.world, At(OutputDir, OsImage)) != Image(j)
  {
    RepackageAfterEdit(i, j);
  }

  lemma StaleServed(fs: Files, i: Inputs, j: Inputs)
    requires i.WellFormed() && j.WellFormed() && SameTrees(i, j) && fs == CleanBuild(i).files
    ensures var st := Build(fs, SetupFor(j, SMOOTH), true);
            var next := Build(st.world, SetupFor(j, SMOOTH), false);
            && !st.repackage && next.final == Complete
            && Get(next.world, At(OutputDir, OsImage)) == Get(st.world, At(OutputDir, OsImage))
  {
    CleanLive(i);
    RepackagedIsShipped(fs, i, j);
    ServedAgain(fs, j);
  }

  lemma RequestIs(s: Server)
    ensures Step(s, RepackageRequest({}, SMOOTH)) == RunBuild(Server(s.files, s.inputs, true, s.last), SMOOTH)
  {
    assert s.files - ({} * REPACKAGE_FLAGS) == s.files;
  }

  /** What a complete repackage run leaves, the next build serves. */
  lemma ServedAgain(fs: Files, j: Inputs)
    requires j.WellFormed() && Build(fs, SetupFor(j, SMOOTH), true).final == Complete
    requires Shipped(Build(fs, SetupFor(j, SMOOTH), true).status)
    ensures var st := Build(fs, SetupFor(j, SMOOTH), true);
            var next := Build(st.world, SetupFor(j, SMOOTH), false);
            && !st.repackage && next.final == Complete
            && Get(next.world, At(OutputDir, OsImage)) == Get(st.world, At(OutputDir, OsImage))
  {
    ServedOnce(fs, SetupFor(j, SMOOTH), Build(fs, SetupFor(j, SMOOTH), true));
  }

  lemma ServedOnce(fs: Files, setup: Setup, st: State<Stage, Files>)
    requires setup.inputs.WellFormed() && st == Build(fs, setup, true) && st.final == Complete && Shipped(st.status)
    requires setup.fates(DownloadTarballs).Finishes? && setup.fates(CheckEarlyExit).Finishes?
    ensures var next := Build(st.world, setup, false);
            && !st.repackage && next.final == Complete
            && Get(next.world, At(OutputDir, OsImage)) == Get(st.world, At(OutputDir, OsImage))
  {
    var late := CompleteIsLate(fs, setup, true);
    ShippingSeals(fs, setup, true);
    ExitRun(st.world, setup);
  }

  /** Only a complete run leaves repackage mode. */
  lemma ModeAfterRun(s: Server, luck: Luck)
    ensures RunBuild(s, luck).repackageOnly == (s.repackageOnly && RunBuild(s, luck).last == Fatal)
  {
    var setup := SetupFor(s.inputs, luck);
    var start := Start(s.files, s.repackageOnly);
    ModeIsKept(Config(setup), StageBody(setup, s.repackageOnly), ORDER, start, 16);
  }

  /** No packaging stage fails with leave in the run, nor does `ShipImage`. */
  ghost predicate ShippedBy(s: Server, luck: Luck) {
    Shipped(Build(s.files, SetupFor(s.inputs, luck), s.repackageOnly).status)
  }

  /** A repackage run that fails leaves the server in repackage mode, so a plain build request
      that follows compiles nothing: it ends with the current image exactly when the live files are current. */
  lemma FailedRepackageSticks(s: Server, cleared: set<Path>, first: Luck, second: Luck)
    requires s.inputs.WellFormed()
    requires Step(s, RepackageRequest(cleared, first)).last == Fatal
    ensures var t := Step(s, RepackageRequest(cleared, first));
            && t.repackageOnly
            && var u := Step(t, BuildRequest(second));
               u.last == Complete && ShippedBy(t, second) ==>
                 (Get(u.files, At(OutputDir, OsImage)) == Image(s.inputs) <==> LiveCurrent(t.files, s.inputs))
  {
    ModeAfterRun(Requested(s, cleared), first);
    PlainBuildInMode(Step(s, RepackageRequest(cleared, first)), second);
  }

  lemma PlainBuildInMode(t: Server, luck: Luck)
    requires t.inputs.WellFormed() && t.repackageOnly
    ensures var u := RunBuild(t, luck);
            u.last == Complete && ShippedBy(t, luck) ==>
              (Get(u.files, At(OutputDir, OsImage)) == Image(t.inputs) <==> LiveCurrent(t.files, t.inputs))
  {
    if RunBuild(t, luck).last == Complete && ShippedBy(t, luck) {
      RepackageExact(t.files, SetupFor(t.inputs, luck));
    }
  }

  // Torn image copies

  /** A crash inside the copy to the output image breaks the invariant exactly when valid
      master flags vouch for that image, which is when `CheckEarlyExit` makes the copy. */
  lemma TornImageIff(pins: Pins, fs: Files, i: Inputs)
    requires Inv(pins, fs) && Admissible(pins, i) && (MasterFlagged(fs) ==> fs[MasterHash].hash == i.Master())
    ensures Inv(pins, fs[At(OutputDir, OsImage) := Torn]) <==> !MasterFlagged(fs)
  {
    var gs := fs[At(OutputDir, OsImage) := Torn];
    StagesKeep(pins, fs, gs, At(OutputDir, OsImage));
    TreesKeep(pins, fs, gs, At(OutputDir, OsImage));
  }

  /** The next build then takes the torn image for the finished one. */
  lemma TornImageServed(fs: Files, setup: Setup)
    requires setup.fates(DownloadTarballs).Finishes? && setup.fates(CheckEarlyExit).Finishes?
    requires MasterHit(fs, setup.inputs, false)
    ensures var st := Build(fs[At(OutputDir, OsImage) := Torn], setup, false);
            st.final == Complete && Holds(st.world, At(OutputDir, OsImage), Torn)
  {
    ExitRun(fs[At(OutputDir, OsImage) := Torn], setup);
  }

  /** Likewise a crash inside `ShipImage`'s copy of a live binary into the cache breaks the
      invariant exactly when valid stage flags vouch for the cached file. */
  lemma TornArtifactIff(pins: Pins, fs: Files, i: Inputs, a: Art)
    requires Inv(pins, fs) && Compiles(Owner(a)) && Admissible(pins, i)
    requires Flagged(fs, Owner(a)) ==> fs[HashFile(Owner(a))].hash == Key(Owner(a), i)
    ensures Inv(pins, fs[At(Cache, a) := Torn]) <==> !Flagged(fs, Owner(a))
  {
    var gs, s := fs[At(Cache, a) := Torn], Owner(a);
    if Flagged(fs, s) {
      TornBreaks(pins, gs, i, a);
    } else {
      forall t ensures StageInv(pins, gs, t) {
        if t != s {
          StageKeeps(pins, fs, gs, t, At(Cache, a));
        }
      }
      MasterKeeps(pins, fs, gs, At(Cache, a));
      TreesKeep(pins, fs, gs, At(Cache, a));
    }
  }

  lemma TornBreaks(pins: Pins, gs: Files, i: Inputs, a: Art)
    requires Holds(gs, At(Cache, a), Torn) && Compiles(Owner(a)) && Admissible(pins, i)
    requires Flagged(gs, Owner(a)) && gs[HashFile(Owner(a))].hash == Key(Owner(a), i)
    ensures !Inv(pins, gs)
  {
    assert !SoundFor(gs, a, i);
    assert !Sound(pins, gs, a, gs[HashFile(Owner(a))].hash);
    assert !StageInv(pins, gs, Owner(a));
  }

  /** And it matters: with the stage's flags valid for the current key, a torn cached artifact
      is restored, and the build completes with a wrong image. */
  lemma TornArtifactShips(fs: Files, setup: Setup, a: Art)
    requires setup.inputs.WellFormed() && Undisturbed(fs, setup, false)
    requires Compiles(Owner(a)) && Restores(fs, setup.inputs, Owner(a))
    requires !ExitsEarly(fs, setup.inputs, false) && !ShipHit(fs, setup.inputs, false)
    ensures var st := Build(fs[At(Cache, a) := Torn], setup, false);
            st.final == Complete && Get(st.world, At(OutputDir, OsImage)) != Image(setup.inputs)
  {
    var gs, i := fs[At(Cache, a) := Torn], setup.inputs;
    assert Restores(gs, i, Owner(a)) && !ExitsEarly(gs, i, false) && !ShipHit(gs, i, false);
    assert Product(gs, Partial(gs, setup, false, 15).world, i, a) == Torn != Fresh(a, i);
    WrongFile(gs, setup, a);
  }

  // CleanOutput and ShipImage together

  /** `CleanOutput` skips exactly when the `ShipImage` that follows it restores. */
  lemma CleanSkipsIffShipRestores(fs: Files, i: Inputs, repackage: bool, l: Scene)
    ensures CleanPlan(fs, i, repackage, l).report == SaysSkipped
            <==> ShipPlan(Exec(fs, CleanPlan(fs, i, repackage, l).ops), i, repackage).report == SaysSkipped
  {
    var gs := Exec(fs, CleanPlan(fs, i, repackage, l).ops);
    WipeKeeps(fs, i, repackage, l, gs);
    assert forall a :: a in ShippedFiles(fs) <==> a == OsImage || (a in SHIPPED && At(Workspace, a) in fs);
    assert forall a :: a in ShippedFiles(gs) <==> a == OsImage || (a in SHIPPED && At(Workspace, a) in gs);
    assert forall a :: Same(fs, gs, At(Workspace, a)) && Same(fs, gs, At(Cache, a));
    assert Same(fs, gs, HashFile(ShipImage)) && Same(fs, gs, DoneFile(ShipImage));
  }

  /** Every shipped binary in the output directory and in the cache equals its live source. */
  lemma {:induction false} ShipEachShips(fs: Files, arts: seq<Art>, a: Art)
    requires forall c <- arts :: At(Workspace, c) in fs
    ensures var gs := Exec(fs, ShipEach(arts));
            && (a in arts ==>
                  Holds(gs, At(OutputDir, a), fs[At(Workspace, a)]) && Holds(gs, At(Cache, a), fs[At(Workspace, a)]))
            && (a !in arts ==> Same(fs, gs, At(OutputDir, a)))
    decreases |arts|
  {
    if arts != [] {
      var c, rest := arts[0], ShipEach(arts[1..]);
      var pair := [Copy(At(Workspace, c), At(OutputDir, c)), Install(At(Workspace, c), At(Cache, c))];
      ExecAppend(fs, pair, rest);
      ExecTwo(fs, pair[0], pair[1]);
      var fs1 := Exec(fs, pair);
      ShipEachShips(fs1, arts[1..], a);
      if a == c && a !in arts[1..] {
        ShipEachFrame(fs1, arts[1..], At(Cache, a));
      }
    }
  }

  /** On the ship path, when every deletion works, the output directory ends with exactly the
      shipped names, each equal to its cached copy and to its source. */
  lemma OutputIsShipped(fs: Files, i: Inputs, repackage: bool, l: Scene, a: Art)
    requires !ShipCached(fs, i, repackage) && At(WorkDir, OsImage) in fs && l.stuck == {}
    requires forall c :: At(OutputDir, c) in fs ==> c in l.order
    ensures var w := Exec(fs, CleanPlan(fs, i, repackage, l).ops);
            var gs := Exec(w, ShipOps(w, i));
            var source := At(if a == OsImage then WorkDir else Workspace, a);
            var leaves := a == OsImage || Owner(a) in {CompileKernelModule, CompileSDK, CompileDaemon};
            var shipped := leaves && source in fs;
            && (At(OutputDir, a) in gs <==> shipped)
            && (shipped ==> Holds(gs, At(OutputDir, a), fs[source]) && Holds(gs, At(Cache, a), fs[source]))
  {
    var w := Exec(fs, CleanPlan(fs, i, repackage, l).ops);
    WipeKeeps(fs, i, repackage, l, w);
    assert forall c :: Same(fs, w, At(Workspace, c)) && Same(fs, w, At(WorkDir, c));
    WipeLeaves(fs, l.order, l.stuck, a);
    ShipOutput(w, i, a);
    LeavesIs(a);
  }

  lemma WipeKeeps(fs: Files, i: Inputs, repackage: bool, l: Scene, w: Files)
    requires w == Exec(fs, CleanPlan(fs, i, repackage, l).ops)
    ensures forall p: Path :: !(p.At? && p.place == OutputDir) ==> Same(fs, w, p)
  {
    forall p: Path | !(p.At? && p.place == OutputDir) ensures Same(fs, w, p) {
      forall op | op in CleanPlan(fs, i, repackage, l).ops ensures op.path != p {
        WipeTouches(l.order, l.stuck, op);
      }
      ExecFrame(fs, CleanPlan(fs, i, repackage, l).ops, p);
    }
  }

  lemma ShipOutput(w: Files, i: Inputs, a: Art)
    requires At(WorkDir, OsImage) in w && At(OutputDir, a) !in w
    ensures var gs := Exec(w, ShipOps(w, i));
            && (At(OutputDir, a) in gs <==> a == OsImage || (a in SHIPPED && At(Workspace, a) in w))
            && (a == OsImage ==>
                  Holds(gs, At(OutputDir, a), w[At(WorkDir, a)]) && Holds(gs, At(Cache, a), w[At(WorkDir, a)]))
            && (a in SHIPPED && At(Workspace, a) in w ==>
                  Holds(gs, At(OutputDir, a), w[At(Workspace, a)]) && Holds(gs, At(Cache, a), w[At(Workspace, a)]))
  {
    if a == OsImage {
      ShippedState(w, i);
    } else {
      var bins := Present(w, Workspace, SHIPPED);
      BinOutput(w, bins, i, a, CLEAR_SHIP + SHIP_IMAGE, ShipEach(bins));
    }
  }

  lemma BinOutput(w: Files, bins: seq<Art>, i: Inputs, a: Art, front: seq<Op>, each: seq<Op>)
    requires bins == Present(w, Workspace, SHIPPED) && a != OsImage && At(OutputDir, a) !in w
    requires front == CLEAR_SHIP + SHIP_IMAGE && each == ShipEach(bins)
    ensures var gs := Exec(w, front + each + SealOps(i));
            && (At(OutputDir, a) in gs <==> a in bins)
            && (a in bins ==>
                  Holds(gs, At(OutputDir, a), w[At(Workspace, a)]) && Holds(gs, At(Cache, a), w[At(Workspace, a)]))
  {
    ExecAppend(w, front + each, SealOps(i));
    ExecAppend(w, front, each);
    forall c ensures Same(w, Exec(w, front), At(Workspace, c)) {
      FrontKeeps(w, At(Workspace, c));
    }
    FrontKeeps(w, At(OutputDir, a));
    ShipEachShips(Exec(w, front), bins, a);
    SealKeepsBins(Exec(w, front + each), i, a);
  }

  lemma SealKeepsBins(fs: Files, i: Inputs, a: Art)
    ensures var gs := Exec(fs, SealOps(i)); Same(fs, gs, At(OutputDir, a)) && Same(fs, gs, At(Cache, a))
  {
    SealState(fs, i);
  }

  // What is compiled again

  lemma HandleMarks(setup: Setup, st: State<Stage, Files>, n: Stage, s: Stage)
    requires n != s && s in st.status
    ensures var next := Handle(Config(setup), StageBody(setup, st.repackage), st, n);
            s in next.status && next.status[s] == st.status[s]
  {
  }

  lemma {:induction false} StatusStays(fs: Files, setup: Setup, s: Stage, k: nat, status: Status)
    requires Index(s) < k <= 16 && s in Partial(fs, setup, false, Index(s) + 1).status
    requires Partial(fs, setup, false, Index(s) + 1).status[s] == status
    ensures var st := Partial(fs, setup, false, k); s in st.status && st.status[s] == status
    decreases k
  {
    if k > Index(s) + 1 {
      StatusStays(fs, setup, s, k - 1, status);
      OrderIndex(k - 1);
      StatusNext(setup, ORDER, Start(fs, false), k - 1, ORDER[k - 1], s);
    }
  }

  lemma StatusNext(setup: Setup, order: seq<Stage>, start: State<Stage, Files>, k: nat, n: Stage, s: Stage)
    requires k < |order| && order[k] == n && n != s && start.final == Unfinished && !start.repackage
    requires s in RunLoop.After(Config(setup), StageBody(setup, false), order, start, k).status
    ensures var st := RunLoop.After(Config(setup), StageBody(setup, false), order, start, k);
            var next := RunLoop.After(Config(setup), StageBody(setup, false), order, start, k + 1);
            s in next.status && next.status[s] == st.status[s]
  {
    var st := RunLoop.After(Config(setup), StageBody(setup, false), order, start, k);
    AfterNext(Config(setup), StageBody(setup, false), order, start, k);
    ModeIsKept(Config(setup), StageBody(setup, false), order, start, k);
    if st.final != Fatal {
      HandleMarks(setup, st, n, s);
    }
  }

  /** What a compile stage of an undisturbed run finds. */
  lemma UndisturbedEnters(fs: Files, setup: Setup, s: Stage) returns (st: State<Stage, Files>)
    requires setup.inputs.WellFormed() && Undisturbed(fs, setup, false) && !ExitsEarly(fs, setup.inputs, false)
    requires Compiles(s)
    ensures st == Partial(fs, setup, false, Index(s)) && st.final == Unfinished && !st.skip && !st.repackage
    ensures TreesThere(st.world, setup.inputs)
    ensures Restores(fs, setup.inputs, s) <==> Restores(st.world, setup.inputs, s)
  {
    st := Partial(fs, setup, false, Index(s));
    NothingStarved(fs, setup, false);
    NoneFails(fs, setup, false, Index(s));
    RunOnTrack(fs, setup, false, Index(s));
    EntersOnTrack(fs, setup, st, s);
  }

  lemma EntersOnTrack(fs: Files, setup: Setup, st: State<Stage, Files>, s: Stage)
    requires OnTrack(fs, setup, false, st, Index(s)) && Compiles(s) && !ExitsEarly(fs, setup.inputs, false)
    requires forall t :: !HasFailed(st.status, t)
    ensures !st.skip && TreesThere(st.world, setup.inputs)
    ensures Restores(fs, setup.inputs, s) <==> Restores(st.world, setup.inputs, s)
  {
    ProgressEnters(fs, st.world, st.status, setup.inputs, s);
    StoredTest(fs, st.world, setup.inputs, s);
  }

  lemma ProgressEnters(fs: Files, world: Files, status: map<Stage, Status>, i: Inputs, s: Stage)
    requires Progress(fs, world, status, i, false, Index(s)) && Compiles(s) && !HasFailed(status, ExtractTarballs)
    ensures TreesThere(world, i) && forall p :: Stored(s, p) ==> Same(fs, world, p)
  {
    assert Through(status, ExtractTarballs, Index(s));
    assert CompileProgress(fs, world, status, i, false, s, Index(s));
  }

  lemma StageStatus(fs: Files, setup: Setup, s: Stage)
    requires setup.inputs.WellFormed() && Undisturbed(fs, setup, false) && !ExitsEarly(fs, setup.inputs, false)
    requires Compiles(s)
    ensures var next := Partial(fs, setup, false, Index(s) + 1);
            s in next.status && next.status[s] == if Restores(fs, setup.inputs, s) then Skipped else Success
  {
    var st := UndisturbedEnters(fs, setup, s);
    CompileDoesNotRaise(st.world, setup.inputs, s);
    PlanIsOwn(s, st.world, setup.inputs, false, setup.scene, FailedWithLeave(st.status[s := Running], setup.allowed));
    StatusAfter(setup, st, s);
    PartialNext(fs, setup, false, Index(s));
    OrderIndex(Index(s));
  }

  /** In a run in which nothing fails and that does not exit early, a compile stage is reported "Skipped" exactly
      when its restore test holds of the starting files; otherwise it has compiled, and is reported "Success". */
  lemma SkippedIffRestores(fs: Files, setup: Setup, s: Stage)
    requires setup.inputs.WellFormed() && Undisturbed(fs, setup, false) && !ExitsEarly(fs, setup.inputs, false)
    requires Compiles(s)
    ensures var st := Build(fs, setup, false);
            && st.final == Complete && s in st.status
            && st.status[s] == if Restores(fs, setup.inputs, s) then Skipped else Success
  {
    StageStatus(fs, setup, s);
    StatusStays(fs, setup, s, 15, if Restores(fs, setup.inputs, s) then Skipped else Success);
    UndisturbedCompletes(fs, setup, false);
    var late := CompleteIsLate(fs, setup, false);
    HandleMarks(setup, late, ShipImage, s);
  }

  /** What the two requests delete when every deletion works: a rebuild request all flags and `hashes.json`, a
      repackage request three flags. */
  lemma RequestsClear(s: Server, cleared: set<Path>, p: Path)
    requires forall q :: q in s.files ==> q in cleared
    ensures var t := Step(s, ClearRequest(cleared));
            && t.inputs == s.inputs && t.repackageOnly == s.repackageOnly
            && if p.HashFile? || p.DoneFile? || p in {MasterHash, MasterDone, HashesJson} then p !in t.files
               else Same(s.files, t.files, p)
    ensures var t := Requested(s, cleared);
            && t.inputs == s.inputs && t.repackageOnly
            && if p in {MasterDone, MasterHash, DoneFile(CheckEarlyExit)} then p !in t.files
               else Same(s.files, t.files, p)
  {
  }

  /** A rebuild request makes the next build compile everything. */
  lemma RebuildRequestRebuilds(s: Server, cleared: set<Path>, luck: Luck, stage: Stage)
    requires (forall q :: q in s.files ==> q in cleared) && s.inputs.WellFormed() && !s.repackageOnly && Compiles(stage)
    requires Undisturbed(s.files, SetupFor(s.inputs, luck), false)
    ensures var st := Build(Step(s, ClearRequest(cleared)).files, SetupFor(s.inputs, luck), false);
            st.final == Complete && stage in st.status && st.status[stage] == Success
  {
    var fs, setup := Step(s, ClearRequest(cleared)).files, SetupFor(s.inputs, luck);
    RequestsClear(s, cleared, MasterDone);
    RequestsClear(s, cleared, DoneFile(stage));
    SkippedIffRestores(fs, setup, stage);
  }

  lemma BuiltRestores(fs: Files, i: Inputs, j: Inputs, s: Stage)
    requires i.WellFormed() && BuiltOnce(fs, i) && Compiles(s)
    ensures Restores(fs, j, s) <==> Key(s, i) == Key(s, j)
  {
    var a := Artifacts(s)[0];
    ArtifactsOwned(s, a);
    assert a in Artifacts(s) && CachedAs(fs, i, a, Fresh(a, i), Key(s, i));
    KeyAndFiles(fs, i, j, s);
    forall b | Owner(b) == s ensures At(Cache, b) in fs {
      assert CachedAs(fs, i, b, Fresh(b, i), Key(Owner(b), i));
    }
  }

  /** The first build after an edit that changes the master key: a compile stage is skipped exactly when these
      fields of the sources are as in the build before, and compiles otherwise. */
  lemma EditCompiles(fs: Files, i: Inputs, setup: Setup, s: Stage)
    requires i.WellFormed() && setup.inputs.WellFormed() && i.Master() != setup.inputs.Master()
    requires BuiltOnce(fs, i) && Undisturbed(fs, setup, false) && Compiles(s)
    ensures var st, j := Build(fs, setup, false), setup.inputs;
            && st.final == Complete && s in st.status && st.status[s] in {Skipped, Success}
            && (st.status[s] == Skipped <==>
                  match s
                  case CompileKernel => i.linuxVer == j.linuxVer && i.linuxTar == j.linuxTar
                  case CompileBusybox => i.busyboxVer == j.busyboxVer && i.busyboxTar == j.busyboxTar
                  case CompileS6 =>
                    && i.skalibsVer == j.skalibsVer && i.execlineVer == j.execlineVer && i.s6Ver == j.s6Ver
                    && i.skalibsTar == j.skalibsTar && i.execlineTar == j.execlineTar && i.s6Tar == j.s6Tar
                  case CompileKernelModule => i.kernelDir == j.kernelDir
                  case CompileSDK => i.sdkDir == j.sdkDir && i.testDir == j.testDir && i.conf == j.conf
                  case _ => i.daemonDir == j.daemonDir)
  {
    BuiltRestores(fs, i, setup.inputs, s);
    KeysShow(i, setup.inputs);
    assert !ExitsEarly(fs, setup.inputs, false);
    SkippedIffRestores(fs, setup, s);
  }
}
