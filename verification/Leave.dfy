/** Runs that are not careful: a stage that fails with leave, an extraction that is torn, a tree that is kept. */
module Leave {
  import opened Store
  import opened Cache
  import opened RunLoop
  import opened CompileStages
  import opened ShipStages
  import opened BuildRun
  import opened BuildSafety
  import opened Completion
  import opened Histories
  import opened Exactness
  import opened Deliveries
  import opened QuietBuilds

  // A stage that fails with leave

  const DAEMON := At(Workspace, Pronzed)

  /** A file that only the given stage makes in a build without a hit. */
  predicate MadeBy(p: Path, s: Stage) {
    (p == DAEMON && s == CompileDaemon) || (p == At(OutputDir, OsImage) && s == ShipImage)
  }

  lemma NotWritten(s: Stage, fs: Files, i: Inputs, bad: Stage, p: Path)
    requires MadeBy(p, bad) && s != CheckEarlyExit && s != CleanOutput && s != bad && s != ShipImage
    ensures !MayWrite(s, i, fs, false, p)
  {
  }

  lemma {:induction false} StaysAway(fs: Files, ops: seq<Op>, p: Path)
    requires p !in fs && forall op <- ops :: op.path == p ==> op.Remove?
    ensures p !in Exec(fs, ops)
    decreases |ops|
  {
    if ops != [] {
      assert ops[0] in ops;
      StaysAway(Apply(fs, ops[0]), ops[1..], p);
    }
  }

  lemma NotMade(fs: Files, i: Inputs, l: Scene, failed: set<Stage>, s: Stage, bad: Stage, p: Path)
    requires MadeBy(p, bad) && p !in fs && s != bad && s != ShipImage
    requires s == CheckEarlyExit ==> !MasterHit(fs, i, false)
    ensures p !in Exec(fs, PlanOf(s, fs, i, false, l, failed).ops)
  {
    if s == CheckEarlyExit {
      OneOp(fs, EarlyExitPlan(fs, i, false).ops);
    } else if s == CleanOutput {
      forall op | op in CleanPlan(fs, i, false, l).ops ensures op.Remove? {
        WipeTouches(l.order, l.stuck, op);
      }
      StaysAway(fs, CleanPlan(fs, i, false, l).ops, p);
    } else {
      NotWritten(s, fs, i, bad, p);
      PlanFrames(s, fs, i, false, l, failed, Finishes);
    }
  }

  lemma NoHitYet(fs: Files, i: Inputs, k: nat)
    requires MasterKept(map[], fs, k)
    ensures !MasterHit(fs, i, false) && !ShipCached(fs, i, false)
  {
    assert ConcernsMaster(MasterHash) && ConcernsMaster(HashFile(ShipImage));
  }

  /** A run of `i` in which one stage fails at once with leave, and nothing else fails. */
  ghost predicate OnlyFails(setup: Setup, i: Inputs, bad: Stage) {
    && setup.inputs == i && setup.allowed == {bad} && setup.scene.absent == {}
    && forall s :: setup.fates(s) == if s == bad then Stops(Cut(0, false)) else Finishes
  }

  lemma StoppedAway(setup: Setup, fs: Files, i: Inputs, s: Stage, failed: set<Stage>, bad: Stage, p: Path)
    requires OnlyFails(setup, i, bad) && MadeBy(p, bad) && p !in fs && s != ShipImage
    requires s == CheckEarlyExit ==> !MasterHit(fs, i, false)
    ensures p !in StoppedAt(fs, PlanOf(s, fs, i, false, setup.scene, failed), setup.fates(s))
  {
    if s != bad {
      NotMade(fs, i, setup.scene, failed, s, bad, p);
    }
  }

  lemma AwayStep(setup: Setup, i: Inputs, st: State<Stage, Files>, s: Stage, bad: Stage, p: Path)
    requires OnlyFails(setup, i, bad) && MadeBy(p, bad)
    requires s != ShipImage && st.final == Unfinished && !st.repackage
    requires p !in st.world && (!st.skip ==> MasterKept(map[], st.world, Index(s)))
    ensures p !in Handle(Config(setup), StageBody(setup, false), st, s).world
  {
    if !Bypassed(Config(setup), st, s) {
      NoHitYet(st.world, i, Index(s));
      BodyPerforms(setup, st, s);
      HandlePerforms(Config(setup), StageBody(setup, false), st, s, PlanIn(setup, st, s), setup.fates(s));
      StoppedAway(setup, st.world, i, s, FailedWithLeave(st.status[s := Running], setup.allowed), bad, p);
    }
  }

  /** In an empty workspace, nothing but the stage that fails makes its file. */
  lemma {:induction false} AwayAlways(setup: Setup, i: Inputs, bad: Stage, p: Path, k: nat)
    requires OnlyFails(setup, i, bad) && MadeBy(p, bad) && i.WellFormed() && k <= 15
    ensures p !in Partial(map[], setup, false, k).world
    decreases k
  {
    if k > 0 {
      AwayAlways(setup, i, bad, p, k - 1);
      RunOnTrack(map[], setup, false, k - 1);
      OrderIndex(k - 1);
      AwayNext(setup, i, bad, p, ORDER, Start(map[], false), k - 1, ORDER[k - 1]);
    }
  }

  lemma AwayNext(setup: Setup, i: Inputs, bad: Stage, p: Path, order: seq<Stage>, start: State<Stage, Files>, k: nat,
                 s: Stage)
    requires OnlyFails(setup, i, bad) && MadeBy(p, bad)
    requires k < |order| && order[k] == s && Index(s) == k && s != ShipImage
    requires var st := RunLoop.After(Config(setup), StageBody(setup, false), order, start, k);
             p !in st.world && (st.final == Fatal || OnTrack(map[], setup, false, st, k))
    ensures p !in RunLoop.After(Config(setup), StageBody(setup, false), order, start, k + 1).world
  {
    var st := RunLoop.After(Config(setup), StageBody(setup, false), order, start, k);
    AfterNext(Config(setup), StageBody(setup, false), order, start, k);
    if st.final != Fatal {
      TrackKeeps(setup, st, k);
      AwayStep(setup, i, st, s, bad, p);
    }
  }

  lemma TrackKeeps(setup: Setup, st: State<Stage, Files>, k: nat)
    requires OnTrack(map[], setup, false, st, k)
    ensures st.final == Unfinished && !st.repackage && !st.skip && MasterKept(map[], st.world, k)
  {
  }

  lemma DaemonCompletes(setup: Setup, i: Inputs)
    requires OnlyFails(setup, i, CompileDaemon) && i.WellFormed()
    ensures var st := Build(map[], setup, false); st.final == Complete && Shipped(st.status)
  {
    SourcesThere(i, {});
    assert forall s :: !Starved(map[], setup, false, s);
    OptionalFailuresComplete(map[], setup, false);
  }

  lemma DaemonRun(setup: Setup, i: Inputs)
    requires OnlyFails(setup, i, CompileDaemon) && i.WellFormed()
    ensures var st := Build(map[], setup, false);
            && st.final == Complete && Shipped(st.status) && Ships(map[], setup, false)
            && DAEMON !in Partial(map[], setup, false, 15).world
  {
    DaemonCompletes(setup, i);
    AwayAlways(setup, i, CompileDaemon, DAEMON, 15);
    var late := CompleteIsLate(map[], setup, false);
    TrackKeeps(setup, late, 15);
    NoHitYet(late.world, i, 15);
  }

  /** Such a run ends "Complete" with a wrong image under valid flags. */
  lemma DaemonShips(setup: Setup, i: Inputs)
    requires OnlyFails(setup, i, CompileDaemon) && i.WellFormed()
    ensures var st := Build(map[], setup, false);
            && st.final == Complete && Get(st.world, At(OutputDir, OsImage)) != Image(i)
            && MasterHit(st.world, i, false) && At(OutputDir, OsImage) in st.world
  {
    DaemonRun(setup, i);
    ShippedIsCurrentIff(map[], setup, false);
    ShippingSeals(map[], setup, false);
    NotCurrent(Partial(map[], setup, false, 15).world, i);
  }

  lemma NotCurrent(fs: Files, i: Inputs)
    requires DAEMON !in fs
    ensures !LiveCurrent(fs, i)
  {
    assert LivePath(Pronzed, i) == DAEMON && Owner(Pronzed) == CompileDaemon;
  }

  /** In the configuration that the program comes with, where the daemon stage has leave to fail: a first build in
      which it fails ends "Complete" without the daemon, its flags vouch for that image, and every later
      build of the same sources serves it again and never tries the stage. */
  lemma MissingDaemonShips(i: Inputs, first: Setup, next: Setup)
    requires OnlyFails(first, i, CompileDaemon) && i.WellFormed() && next.inputs == i
    requires next.fates(DownloadTarballs).Finishes? && next.fates(CheckEarlyExit).Finishes?
    ensures var st := Build(map[], first, false);
            && st.final == Complete && Get(st.world, At(OutputDir, OsImage)) != Image(i)
            && MasterHit(st.world, i, false)
            && var again := Build(st.world, next, false);
               && again.final == Complete && HasSkipped(again.status, CompileDaemon)
               && Get(again.world, At(OutputDir, OsImage)) == Get(st.world, At(OutputDir, OsImage))
  {
    DaemonShips(first, i);
    ExitRun(Build(map[], first, false).world, next);
  }

  predicate HasSkipped(status: map<Stage, Status>, s: Stage) {
    s in status && status[s] == Skipped
  }

  /** What a stage does depends on the fates of the stages so far only. */
  lemma {:induction false} FatesAgree(fs: Files, a: Setup, b: Setup, repackage: bool, k: nat)
    requires a.(fates := b.fates) == b && k <= 16 && forall j :: 0 <= j < k ==> a.fates(ORDER[j]) == b.fates(ORDER[j])
    ensures Partial(fs, a, repackage, k) == Partial(fs, b, repackage, k)
    decreases k
  {
    if k > 0 {
      FatesAgree(fs, a, b, repackage, k - 1);
      PartialNext(fs, a, repackage, k - 1);
      PartialNext(fs, b, repackage, k - 1);
      HandleAgrees(a, b, repackage, Partial(fs, a, repackage, k - 1), ORDER[k - 1]);
    }
  }

  lemma HandleAgrees(a: Setup, b: Setup, repackage: bool, st: State<Stage, Files>, s: Stage)
    requires a.(fates := b.fates) == b && a.fates(s) == b.fates(s)
    ensures Handle(Config(a), StageBody(a, repackage), st, s) == Handle(Config(b), StageBody(b, repackage), st, s)
  {
  }

  lemma NothingFailsFirst(setup: Setup, i: Inputs) returns (late: State<Stage, Files>)
    requires OnlyFails(setup, i, ShipImage) && i.WellFormed()
    ensures late == Partial(map[], setup, false, 15) && late.final == Unfinished && !late.skip && !late.repackage
  {
    var whole := setup.(fates := _ => Finishes);
    late := UndisturbedLate(map[], whole, false);
    forall j | 0 <= j < 15 ensures setup.fates(ORDER[j]) == whole.fates(ORDER[j]) {
      OrderIndex(j);
    }
    FatesAgree(map[], setup, whole, false, 15);
    assert !ExitsEarly(map[], i, false);
  }

  /** With leave for `ShipImage` itself, a first build in which it fails at once ends "Complete" without an image. */
  lemma NoImageShips(setup: Setup, i: Inputs)
    requires OnlyFails(setup, i, ShipImage) && i.WellFormed()
    ensures var st := Build(map[], setup, false); st.final == Complete && At(OutputDir, OsImage) !in st.world
  {
    var late := NothingFailsFirst(setup, i);
    AwayAlways(setup, i, ShipImage, At(OutputDir, OsImage), 15);
    LastStage(map[], setup, false);
    BodyPerforms(setup, late, ShipImage);
    HandlePerforms(Config(setup), StageBody(setup, false), late, ShipImage, PlanIn(setup, late, ShipImage),
                   setup.fates(ShipImage));
  }

  /** Exactly when the module may be compiled: a kernel that is its own headers must have been configured.
      Otherwise, as after a failure of the kernel stage with leave, the module is cached under valid flags with
      the default configuration. */
  lemma ModuleSafeIff(pins: Pins, fs: Files, i: Inputs)
    requires Inv(pins, fs) && Admissible(pins, i) && !Restores(fs, i, CompileKernelModule)
    requires TreesWhole(fs, i) && !Holds(fs, KernelConfig(i.headers), Torn)
    ensures Inv(pins, Exec(fs, CompilePlan(fs, i, CompileKernelModule).ops)) <==>
              (KernelConfig(i.headers) !in fs ==> i.headers != i.linuxVer)
  {
    if KernelConfig(i.headers) !in fs && i.headers == i.linuxVer {
      UnconfiguredBreaks(pins, fs, i);
    } else {
      if KernelConfig(i.headers) in fs {
        assert TreeSound(pins, KernelConfig(i.headers), fs[KernelConfig(i.headers)]);
      }
      CompileSafe(pins, fs, i, CompileKernelModule);
      SafeAtCrash(pins, fs, CompilePlan(fs, i, CompileKernelModule).ops, Cut(0, false));
    }
  }

  lemma UnconfiguredBreaks(pins: Pins, fs: Files, i: Inputs)
    requires Admissible(pins, i) && !Restores(fs, i, CompileKernelModule)
    requires KernelConfig(i.headers) !in fs && i.headers == i.linuxVer
    ensures !Inv(pins, Exec(fs, CompilePlan(fs, i, CompileKernelModule).ops))
  {
    var s, gs := CompileKernelModule, Exec(fs, CompilePlan(fs, i, CompileKernelModule).ops);
    CompileResult(fs, i, s, PronzeKo);
    UnconfiguredDiffers(fs, i);
    CachedWrong(pins, gs, i, PronzeKo);
  }

  lemma CachedWrong(pins: Pins, gs: Files, i: Inputs, a: Art)
    requires Admissible(pins, i) && Compiles(Owner(a)) && At(Cache, a) in gs && gs[At(Cache, a)] != Fresh(a, i)
    requires Flagged(gs, Owner(a)) && gs[HashFile(Owner(a))].hash == Key(Owner(a), i)
    ensures !Inv(pins, gs)
  {
    assert !SoundFor(gs, a, i);
    assert !Sound(pins, gs, a, gs[HashFile(Owner(a))].hash);
    assert !StageInv(pins, gs, Owner(a));
  }

  lemma UnconfiguredDiffers(fs: Files, i: Inputs)
    requires KernelConfig(i.headers) !in fs && i.headers == i.linuxVer
    ensures Compile(Exec(fs, Prepare(fs, i, CompileKernelModule)), PronzeKo, i) != Fresh(PronzeKo, i)
  {
    var ops, p := Prepare(fs, i, CompileKernelModule), KernelConfig(i.headers);
    if |ops| == 2 {
      ExecTwo(fs, ops[0], ops[1]);
      assert ops == [ops[0], ops[1]];
    } else {
      OneOp(fs, ops);
    }
    assert Get(Exec(fs, ops), p) == Configured(false) && Get(Pristine(i), p) == Configured(true);
    CompileFreshIff(Exec(fs, ops), PronzeKo, i);
    assert p in Reads(PronzeKo, i);
  }

  /** Restoring a kernel where its source tree is not there, as after a failure of the extraction with leave, leaves
      directories that every later extraction takes for the tree. */
  lemma RestoredKernelIff(pins: Pins, fs: Files, i: Inputs)
    requires Inv(pins, fs) && Admissible(pins, i) && Restores(fs, i, CompileKernel)
    ensures Inv(pins, Exec(fs, CompilePlan(fs, i, CompileKernel).ops)) <==> SourceTree(Linux, i.linuxVer) in fs
  {
    var s, p := CompileKernel, SourceTree(Linux, i.linuxVer);
    if p in fs {
      CompileSafe(pins, fs, i, s);
      SafeAtCrash(pins, fs, CompilePlan(fs, i, s).ops, Cut(0, false));
    } else {
      PlantedTree(fs, i);
      assert !TreeSound(pins, p, Torn);
    }
  }

  lemma PlantedTree(fs: Files, i: Inputs)
    requires Restores(fs, i, CompileKernel) && SourceTree(Linux, i.linuxVer) !in fs
    ensures Holds(Exec(fs, CompilePlan(fs, i, CompileKernel).ops), SourceTree(Linux, i.linuxVer), Torn)
  {
    var s, p := CompileKernel, SourceTree(Linux, i.linuxVer);
    PlantedKeeps(fs, i, s);
    OneOp(fs, Planted(fs, i, s));
    forall op | op in RestoreOps(s, i) ensures op.path != p {
      RestoreOwned(s, i, op);
    }
    ExecFrame(Exec(fs, Planted(fs, i, s)), RestoreOps(s, i), p);
  }

  // Trees that are kept

  /** `/api/rebuild` with nothing in the way. */
  function Cleared(fs: Files): Files {
    fs - (set p | p in fs && Rebuildable(p))
  }

  lemma ClearedForgets(fs: Files, i: Inputs, s: Stage)
    requires i.WellFormed() && Compiles(s)
    ensures !Restores(Cleared(fs), i, s) && !ExitsEarly(Cleared(fs), i, false) && !ShipHit(Cleared(fs), i, false)
  {
    KeyNotEmpty(i, s);
    assert HashFile(s) !in Cleared(fs) && MasterDone !in Cleared(fs) && DoneFile(ShipImage) !in Cleared(fs);
  }

  /** Not even a rebuild request helps against a source tree that is not of the current tarball, or is torn: the
      build after it completes with a wrong image. */
  lemma RebuildKeepsTree(fs: Files, setup: Setup, a: Art, p: Path)
    requires setup.inputs.WellFormed() && Undisturbed(fs, setup, false) && Compiles(Owner(a))
    requires p in Reads(a, setup.inputs) && Left(fs, setup.inputs, p) && Get(fs, p) != Get(Pristine(setup.inputs), p)
    ensures var st := Build(Cleared(fs), setup, false);
            st.final == Complete && Get(st.world, At(OutputDir, OsImage)) != Image(setup.inputs)
  {
    ClearedForgets(fs, setup.inputs, Owner(a));
    ClearedKeeps(fs, setup.inputs, p);
    StaleTreeShips(Cleared(fs), setup, a, p);
  }

  lemma ClearedKeeps(fs: Files, i: Inputs, p: Path)
    requires Left(fs, i, p) && (p.SourceTree? || p.KernelConfig?)
    ensures Left(Cleared(fs), i, p) && Get(Cleared(fs), p) == Get(fs, p)
  {
    assert Same(fs, Cleared(fs), p);
  }

  /** A run of `i` in which the extraction is cut short inside its first tarball. */
  ghost predicate ExtractionTorn(setup: Setup, i: Inputs) {
    && setup.inputs == i && ExtractTarballs !in setup.allowed
    && setup.fates(DownloadTarballs).Finishes? && setup.fates(CheckEarlyExit).Finishes?
    && setup.fates(ExtractTarballs) == Stops(Cut(0, true))
  }

  /** The second stage of a run without a hit. */
  lemma SecondStage(fs: Files, setup: Setup)
    requires setup.fates(DownloadTarballs).Finishes? && setup.fates(CheckEarlyExit).Finishes?
    requires !MasterHit(fs, setup.inputs, false)
    ensures var st := Partial(fs, setup, false, 2);
            && st.world == fs[DoneFile(DownloadTarballs) := Flag][DoneFile(CheckEarlyExit) := Flag]
            && !st.skip && st.final == Unfinished && !st.repackage
  {
    FirstStage(fs, setup);
    PartialNext(fs, setup, false, 1);
    EntersSecond(fs, setup, Partial(fs, setup, false, 1));
  }

  lemma EntersSecond(fs: Files, setup: Setup, st: State<Stage, Files>)
    requires setup.fates(CheckEarlyExit).Finishes? && !MasterHit(fs, setup.inputs, false)
    requires st.final == Unfinished && !st.skip && !st.repackage && st.world == fs[DoneFile(DownloadTarballs) := Flag]
    ensures var next := Handle(Config(setup), StageBody(setup, false), st, CheckEarlyExit);
            && next.world == fs[DoneFile(DownloadTarballs) := Flag][DoneFile(CheckEarlyExit) := Flag]
            && !next.skip && next.final == Unfinished && !next.repackage
  {
    SecondPlan(setup, st);
    ExitEntered(setup, st, EarlyExitPlan(st.world, setup.inputs, false));
  }

  lemma TornFirst(fs: Files, i: Inputs)
    requires SourceTree(Linux, i.linuxVer) !in fs
    ensures Holds(Crash(fs, ExtractPlan(fs, i).ops, Cut(0, true)), SourceTree(Linux, i.linuxVer), Torn)
  {
    var ops, tree := ExtractPlan(fs, i).ops, SourceTree(Linux, i.linuxVer);
    assert Trees(i)[0] == tree;
    assert ops[0] == Write(tree, Get(Pristine(i), tree));
  }

  lemma ThirdStage(setup: Setup, st: State<Stage, Files>, s: Stage, plan: Plan)
    requires s !in setup.allowed && setup.fates(s) == Stops(Cut(0, true)) && plan == PlanIn(setup, st, s)
    requires !st.skip && st.final == Unfinished && !st.repackage
    ensures var next := Handle(Config(setup), StageBody(setup, false), st, s);
            next.final == Fatal && next.world == Crash(st.world, plan.ops, Cut(0, true))
  {
    BodyPerforms(setup, st, s);
    HandlePerforms(Config(setup), StageBody(setup, false), st, s, plan, setup.fates(s));
  }

  lemma ExtractPlanIn(setup: Setup, st: State<Stage, Files>)
    ensures PlanIn(setup, st, ExtractTarballs) == ExtractPlan(st.world, setup.inputs)
  {
  }

  lemma TornHere(setup: Setup, i: Inputs, st: State<Stage, Files>, s: Stage, plan: Plan)
    requires ExtractionTorn(setup, i) && !st.skip && st.final == Unfinished && !st.repackage
    requires s == ExtractTarballs && plan == PlanIn(setup, st, s)
    requires Holds(Crash(st.world, plan.ops, Cut(0, true)), SourceTree(Linux, i.linuxVer), Torn)
    ensures var next := Handle(Config(setup), StageBody(setup, false), st, s);
            next.final == Fatal && Holds(next.world, SourceTree(Linux, i.linuxVer), Torn)
  {
    ThirdStage(setup, st, s, plan);
  }

  lemma TornNow(setup: Setup, i: Inputs, st: State<Stage, Files>)
    requires ExtractionTorn(setup, i) && SourceTree(Linux, i.linuxVer) !in st.world
    requires !st.skip && st.final == Unfinished && !st.repackage
    ensures var next := Handle(Config(setup), StageBody(setup, false), st, ExtractTarballs);
            next.final == Fatal && Holds(next.world, SourceTree(Linux, i.linuxVer), Torn)
  {
    var plan := PlanIn(setup, st, ExtractTarballs);
    ExtractPlanIn(setup, st);
    TornFirst(st.world, i);
    TornHere(setup, i, st, ExtractTarballs, plan);
  }

  lemma TornNext(setup: Setup, i: Inputs, order: seq<Stage>, start: State<Stage, Files>, k: nat)
    requires ExtractionTorn(setup, i) && k < |order| && order[k] == ExtractTarballs
    requires var st := RunLoop.After(Config(setup), StageBody(setup, false), order, start, k);
             !st.skip && st.final == Unfinished && !st.repackage && SourceTree(Linux, i.linuxVer) !in st.world
    ensures var next := RunLoop.After(Config(setup), StageBody(setup, false), order, start, k + 1);
            next.final == Fatal && Holds(next.world, SourceTree(Linux, i.linuxVer), Torn)
  {
    AfterNext(Config(setup), StageBody(setup, false), order, start, k);
    TornNow(setup, i, RunLoop.After(Config(setup), StageBody(setup, false), order, start, k));
  }

  lemma TornFails(fs: Files, i: Inputs, setup: Setup)
    requires ExtractionTorn(setup, i) && SourceTree(Linux, i.linuxVer) !in fs && !MasterHit(fs, i, false)
    ensures var st := Build(fs, setup, false);
            st.final == Fatal && Holds(st.world, SourceTree(Linux, i.linuxVer), Torn)
  {
    SecondStage(fs, setup);
    TornNext(setup, i, ORDER, Start(fs, false), 2);
    BuildIsPartial(fs, setup, false, 3);
  }

  /** A torn extraction is kept: when no tree was there, the run fails, but the next one completes with a wrong
      image, even after a rebuild request. */
  lemma TornTreeShips(fs: Files, i: Inputs, first: Setup, next: Setup)
    requires i.WellFormed() && ExtractionTorn(first, i)
    requires SourceTree(Linux, i.linuxVer) !in fs && !MasterHit(fs, i, false)
    requires next.inputs == i && (forall s :: next.fates(s).Finishes?) && next.scene.absent == {}
    ensures var st := Build(fs, first, false);
            && st.final == Fatal && Holds(st.world, SourceTree(Linux, i.linuxVer), Torn)
            && var again := Build(Cleared(st.world), next, false);
               again.final == Complete && Get(again.world, At(OutputDir, OsImage)) != Image(i)
  {
    TornFails(fs, i, first);
    TornMisleads(Build(fs, first, false).world, next, BzImage);
  }

  lemma TornMisleads(fs: Files, setup: Setup, a: Art)
    requires a == BzImage && Holds(fs, SourceTree(Linux, setup.inputs.linuxVer), Torn)
    requires setup.inputs.WellFormed() && (forall s :: setup.fates(s).Finishes?) && setup.scene.absent == {}
    ensures var st := Build(Cleared(fs), setup, false);
            st.final == Complete && Get(st.world, At(OutputDir, OsImage)) != Image(setup.inputs)
  {
    PackageTree(setup.inputs, Linux);
    assert Owner(a) == CompileKernel;
    RebuildKeepsTree(fs, setup, a, SourceTree(Linux, setup.inputs.linuxVer));
  }
}
