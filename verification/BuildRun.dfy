/** One run of the sixteen stages over the file store: what a "Complete" run delivers from
    any starting files, and what a run that stops anywhere leaves behind. */
module BuildRun {
  import opened Store
  import opened Cache
  import opened RunLoop
  import opened CompileStages
  import opened ShipStages

  /** The order in which `main` registers the stages. */
  const ORDER: seq<Stage> := [
    DownloadTarballs, CheckEarlyExit, ExtractTarballs,
    CompileKernel, CompileBusybox, CompileS6, CompileKernelModule, CompileSDK, CompileDaemon,
    AssembleRootfs, CopyConfigurationSetup, PackageBtrfsImage, PackageESPImage, AssembleGPTImage,
    CleanOutput, ShipImage]

  const BUILDING: set<Stage> :=
    {CompileKernel, CompileBusybox, CompileS6, CompileKernelModule, CompileSDK, CompileDaemon}

  function Index(s: Stage): (k: nat)
    ensures k < |ORDER| && ORDER[k] == s
  {
    match s
    case DownloadTarballs => 0
    case CheckEarlyExit => 1
    case ExtractTarballs => 2
    case CompileKernel => 3
    case CompileBusybox => 4
    case CompileS6 => 5
    case CompileKernelModule => 6
    case CompileSDK => 7
    case CompileDaemon => 8
    case AssembleRootfs => 9
    case CopyConfigurationSetup => 10
    case PackageBtrfsImage => 11
    case PackageESPImage => 12
    case AssembleGPTImage => 13
    case CleanOutput => 14
    case ShipImage => 15
  }

  /** Whether a stage's call runs to its end or is stopped, by an exception or a crash. */
  datatype Fate = Finishes | Stops(cut: Cut)

  datatype Setup = Setup(inputs: Inputs, fates: Stage -> Fate, scene: Scene, allowed: set<Stage>)

  function PlanOf(s: Stage, fs: Files, i: Inputs, repackage: bool, l: Scene, failed: set<Stage>): Plan {
    match s
    case DownloadTarballs => Plan([Write(DoneFile(s), Flag)], false, Silent, false)
    case CheckEarlyExit => EarlyExitPlan(fs, i, repackage)
    case ExtractTarballs => ExtractPlan(fs, i)
    case AssembleRootfs => RootfsPlan(fs, i, failed, l.absent)
    case CopyConfigurationSetup => OverlayPlan(i)
    case PackageBtrfsImage => BtrfsPlan(fs)
    case PackageESPImage => EspPlan(fs, i)
    case AssembleGPTImage => GptPlan(fs)
    case CleanOutput => CleanPlan(fs, i, repackage, l)
    case ShipImage => ShipPlan(fs, i, repackage)
    case _ => CompilePlan(fs, i, s)
  }

  /** One call of a stage's `run`, cut short by its fate.  `skip_remaining` is set just before the last operation. */
  function Perform(fs: Files, plan: Plan, fate: Fate): Outcome<Files> {
    match fate
    case Stops(cut) => Raised(Crash(fs, plan.ops, cut), plan.skip && |plan.ops| <= cut.steps + 1)
    case Finishes =>
      if plan.raises then Raised(Exec(fs, plan.ops), plan.skip)
      else Returned(Exec(fs, plan.ops), plan.report, plan.skip)
  }

  function FailedWithLeave(status: map<Stage, Status>, allowed: set<Stage>): set<Stage> {
    set s | s in allowed && s in status && status[s] == Failed
  }

  function StageBody(setup: Setup, repackage: bool): Body<Stage, Files> {
    (s, fs, status) =>
      var failed := FailedWithLeave(status, setup.allowed);
      Perform(fs, PlanOf(s, fs, setup.inputs, repackage, setup.scene, failed), setup.fates(s))
  }

  const PENDING: map<Stage, Status> := map s | s in ORDER :: Pending

  function Start(fs: Files, repackage: bool): State<Stage, Files> {
    State(fs, PENDING, false, Unfinished, repackage)
  }

  /** The state after the first `k` stages. */
  function Partial(fs: Files, setup: Setup, repackage: bool, k: nat): State<Stage, Files>
    requires k <= 16
  {
    After(Settings(setup.allowed, BUILDING), StageBody(setup, repackage), ORDER, Start(fs, repackage), k)
  }

  /** A whole run of `execute`. */
  function Build(fs: Files, setup: Setup, repackage: bool): State<Stage, Files> {
    Execute(Settings(setup.allowed, BUILDING), StageBody(setup, repackage), ORDER, Start(fs, repackage))
  }

  predicate ShipHit(fs: Files, i: Inputs, repackage: bool) {
    && !repackage && ReadHash(fs, HashFile(ShipImage)) == i.Master()
    && DoneFile(ShipImage) in fs && At(Cache, OsImage) in fs
  }

  predicate ExitsEarly(fs: Files, i: Inputs, repackage: bool) {
    MasterHit(fs, i, repackage) && (At(OutputDir, OsImage) in fs || At(Cache, OsImage) in fs)
  }

  /** The image of a run that exits early. */
  function ExitImage(fs: Files): Blob {
    if At(OutputDir, OsImage) in fs then fs[At(OutputDir, OsImage)] else Get(fs, At(Cache, OsImage))
  }

  /** The image made of the live files in `fs`, less the targets that are not there. */
  function ImageFrom(fs: Files, i: Inputs): Blob {
    Disk(Esp(Get(fs, LivePath(BzImage, i))),
         Btrfs(RootTree(Parts(LiveIn(fs, i), There(fs, i, RootfsTargets(i)))), Overlay(i)))
  }

  /** The image that a complete run from `fs` has in the output directory at its end; `late` is its
      state before `ShipImage`. */
  function Delivered(fs: Files, late: State<Stage, Files>, i: Inputs): Blob {
    if late.skip then ExitImage(fs)
    else if ShipCached(late.world, i, late.repackage) then Get(fs, At(Cache, OsImage))
    else ImageFrom(late.world, i)
  }

  predicate HasFailed(status: map<Stage, Status>, s: Stage) {
    s in status && status[s] == Failed
  }

  predicate Compiled(fs: Files, i: Inputs, a: Art, b: Blob) {
    Holds(fs, LivePath(a, i), b) && Holds(fs, At(Cache, a), b)
  }

  /** A stage's flags and the files with its artifacts, save their copies in the output directory. */
  predicate Held(s: Stage, p: Path) {
    Concerns(s, p) && !p.KernelConfig?
  }

  predicate Stored(s: Stage, p: Path) {
    Held(s, p) && (p.At? ==> p.place == Cache)
  }

  /** What a compile stage that passed has made, in a run from `fs0`: the cached file, or what
      compiling gives over the source trees as they are. */
  function Product(fs0: Files, fs: Files, i: Inputs, a: Art): Blob {
    if Restores(fs0, i, Owner(a)) then Get(fs0, At(Cache, a)) else Compile(fs, a, i)
  }

  ghost predicate Finished(fs0: Files, fs: Files, i: Inputs, a: Art) {
    && Compiled(fs, i, a, Product(fs0, fs, i, a))
    && (!Restores(fs0, i, Owner(a)) ==> forall p <- Reads(a, i) :: p in fs)
  }

  /** Compile stage `s` has done its work, or failed, or its files are as they were. */
  ghost predicate CompileProgress(fs0: Files, fs: Files, status: map<Stage, Status>, i: Inputs, repackage: bool,
                                  s: Stage, k: nat) {
    if repackage then forall p :: Held(s, p) ==> Same(fs0, fs, p)
    else if k <= Index(s) then forall p :: Stored(s, p) ==> Same(fs0, fs, p)
    else
      !HasFailed(status, s) ==>
        && Flagged(fs, s) && fs[HashFile(s)].hash == Key(s, i)
        && forall a :: Owner(a) == s ==> Finished(fs0, fs, i, a)
  }

  /** Stage `s` is among the first `k` and did not fail. */
  predicate Through(status: map<Stage, Status>, s: Stage, k: nat) {
    Index(s) < k && !HasFailed(status, s)
  }

  function TreeOf(fs: Files, i: Inputs): Blob {
    RootTree(Parts(LiveIn(fs, i), There(fs, i, RootfsTargets(i))))
  }

  /** Which packaging stages have passed; `bare` is when the root file system has just been assembled. */
  datatype Past = Past(tree: bool, overlay: bool, btrfs: bool, esp: bool, gpt: bool, bare: bool)

  function PastOf(status: map<Stage, Status>, k: nat): Past {
    Past(Through(status, AssembleRootfs, k), Through(status, CopyConfigurationSetup, k),
         Through(status, PackageBtrfsImage, k), Through(status, PackageESPImage, k),
         Through(status, AssembleGPTImage, k), k == 10)
  }

  /** What the packaging stages that have passed have established. */
  ghost predicate PackagingProgress(fs: Files, past: Past, i: Inputs) {
    && (past.tree ==> Holds(fs, RootfsTree, TreeOf(fs, i)))
    && (past.tree && past.bare ==> RootfsOverlay !in fs)
    && (past.tree && past.overlay ==> Get(fs, RootfsOverlay) == Overlay(i))
    && (past.tree && past.overlay && past.btrfs ==> Holds(fs, RootfsImg, Btrfs(TreeOf(fs, i), Overlay(i))))
    && (past.esp ==> Holds(fs, EspImg, Esp(Get(fs, LivePath(BzImage, i)))))
    && (past.tree && past.overlay && past.btrfs && past.esp && past.gpt ==>
          Holds(fs, At(WorkDir, OsImage), ImageFrom(fs, i)))
  }

  /** The whole-image files are as they were, save the output image once `CheckEarlyExit` has run. */
  ghost predicate MasterKept(fs0: Files, gs: Files, k: nat) {
    forall p :: ConcernsMaster(p) ==> Same(fs0, gs, p) || (k > 1 && p == At(OutputDir, OsImage))
  }

  /** A run that has handled `k` stages, without early exit and before `ShipImage`, over the files it started from. */
  ghost predicate Progress(fs0: Files, fs: Files, status: map<Stage, Status>, i: Inputs, repackage: bool, k: nat) {
    && (forall s :: Compiles(s) ==> CompileProgress(fs0, fs, status, i, repackage, s, k))
    && PackagingProgress(fs, PastOf(status, k), i)
    && MasterKept(fs0, fs, k)
    && (Through(status, ExtractTarballs, k) ==> TreesThere(fs, i))
  }

  /** The files a stage may write in a run, short of `ShipImage`. */
  predicate MayWrite(s: Stage, i: Inputs, fs: Files, repackage: bool, p: Path) {
    match s
    case DownloadTarballs => p == DoneFile(s)
    case CheckEarlyExit => p == DoneFile(s) || (!repackage && p.At? && p.place in {OutputDir, Workspace})
    case ExtractTarballs => p == DoneFile(s) || (p in Trees(i) && p !in fs)
    case AssembleRootfs => p == RootfsTree || p == RootfsOverlay
    case CopyConfigurationSetup => p == RootfsOverlay
    case PackageBtrfsImage => p == RootfsImg
    case PackageESPImage => p == EspImg
    case AssembleGPTImage => p == At(WorkDir, OsImage)
    case CleanOutput => p.At? && p.place == OutputDir
    case ShipImage => true
    case _ => Owns(s, i, p) || Tends(s, fs, i, p)
  }

  lemma {:induction false} WipeTouches(order: seq<Art>, stuck: set<Art>, op: Op)
    requires op in WipeOps(order, stuck)
    ensures op.Remove? && op.path.At? && op.path.place == OutputDir && op.path.art in order && op.path.art !in stuck
    decreases |order|
  {
    if op in WipeOps(order[1..], stuck) {
      WipeTouches(order[1..], stuck, op);
    }
  }

  lemma ExitTouches(fs: Files, i: Inputs, repackage: bool, op: Op)
    requires op in EarlyExitPlan(fs, i, repackage).ops
    ensures MayWrite(CheckEarlyExit, i, fs, repackage, op.path)
  {
    var sent, back := Present(fs, Cache, EXIT_OUTPUT), Present(fs, Cache, EXIT_WORKSPACE);
    if op in CopyAll(In(Cache), In(OutputDir), sent) {
      CopyAllTouches(In(Cache), In(OutputDir), sent, op);
    } else if op in CopyAll(In(Cache), LiveFor(i), back) {
      CopyAllTouches(In(Cache), LiveFor(i), back, op);
      BinsCompiled(op.path.art);
    }
  }

  lemma PlanTouches(s: Stage, fs: Files, i: Inputs, repackage: bool, l: Scene, failed: set<Stage>, p: Path)
    requires !MayWrite(s, i, fs, repackage, p)
    ensures !Touches(PlanOf(s, fs, i, repackage, l, failed).ops, p)
  {
    if Compiles(s) {
      CompileFrame(fs, i, s, p);
    } else {
      forall op | op in PlanOf(s, fs, i, repackage, l, failed).ops ensures op.path != p {
        if s == AssembleRootfs && op in GatherOps(fs, i, RootfsTargets(i), [], failed, l.absent) {
          GatherTouches(fs, i, RootfsTargets(i), [], failed, l.absent, op);
        } else if s == CleanOutput {
          WipeTouches(l.order, l.stuck, op);
        } else if s == CheckEarlyExit {
          ExitTouches(fs, i, repackage, op);
        } else if s == ExtractTarballs && op in Unpacks(fs, i, Trees(i)) {
          UnpackTouches(fs, i, Trees(i), op);
        }
      }
    }
  }

  lemma {:induction false} PartsAgree(f: Live, g: Live, ts: seq<Target>)
    requires forall t <- ts :: t.Bin? ==> f(t.art) == g(t.art)
    ensures Parts(f, ts) == Parts(g, ts)
    decreases |ts|
  {
    if ts != [] {
      assert ts[0] in ts;
      PartsAgree(f, g, ts[1..]);
    }
  }

  lemma PartsCons(live: Live, got: seq<Blob>, t: Target, ts: seq<Target>)
    ensures got + Parts(live, [t] + ts) == (got + [Part(live, t)]) + Parts(live, ts)
  {
    assert ([t] + ts)[1..] == ts;
  }

  /** Gathering, with no target missing, is growing the tree by the targets that are there. */
  lemma {:induction false} GatherResult(fs: Files, i: Inputs, gs: Files, ts: seq<Target>, got: seq<Blob>,
                                        failed: set<Stage>, absent: set<string>)
    requires forall t <- ts :: !Missing(fs, i, t, failed, absent)
    requires Holds(gs, RootfsTree, RootTree(got))
    ensures Holds(Exec(gs, GatherOps(fs, i, ts, got, failed, absent)), RootfsTree,
                  RootTree(got + Parts(LiveIn(fs, i), There(fs, i, ts))))
    decreases |ts|
  {
    if ts == [] {
      assert got + [] == got;
    } else if ts[0].Bin? && !LiveThere(fs, i, ts[0].art) {
      GatherResult(fs, i, gs, ts[1..], got, failed, absent);
      assert There(fs, i, ts) == There(fs, i, ts[1..]);
    } else {
      var parts := got + [Part(LiveIn(fs, i), ts[0])];
      var op := Write(RootfsTree, RootTree(parts));
      GatherFirst(fs, i, gs, ts, got, failed, absent, op);
      GatherResult(fs, i, Apply(gs, op), ts[1..], parts, failed, absent);
      PartsCons(LiveIn(fs, i), got, ts[0], There(fs, i, ts[1..]));
    }
  }

  lemma GatherFirst(fs: Files, i: Inputs, gs: Files, ts: seq<Target>, got: seq<Blob>,
                    failed: set<Stage>, absent: set<string>, op: Op)
    requires ts != [] && !Missing(fs, i, ts[0], failed, absent) && !(ts[0].Bin? && !LiveThere(fs, i, ts[0].art))
    requires op == Write(RootfsTree, RootTree(got + [Part(LiveIn(fs, i), ts[0])]))
    ensures There(fs, i, ts) == [ts[0]] + There(fs, i, ts[1..])
    ensures Exec(gs, GatherOps(fs, i, ts, got, failed, absent))
            == Exec(Apply(gs, op), GatherOps(fs, i, ts[1..], got + [Part(LiveIn(fs, i), ts[0])], failed, absent))
  {
    var rest := GatherOps(fs, i, ts[1..], got + [Part(LiveIn(fs, i), ts[0])], failed, absent);
    assert ([op] + rest)[1..] == rest;
  }

  lemma {:induction false} AllThere(fs: Files, i: Inputs, ts: seq<Target>)
    requires forall t <- ts :: t.Bin? ==> LiveThere(fs, i, t.art)
    ensures There(fs, i, ts) == ts
    decreases |ts|
  {
    if ts != [] {
      assert ts[0] in ts;
      AllThere(fs, i, ts[1..]);
    }
  }

  lemma RootfsResult(fs: Files, i: Inputs, failed: set<Stage>, absent: set<string>)
    requires !RootfsPlan(fs, i, failed, absent).raises
    ensures var gs := Exec(fs, RootfsPlan(fs, i, failed, absent).ops);
            && Holds(gs, RootfsTree, RootTree(Parts(LiveIn(fs, i), There(fs, i, RootfsTargets(i)))))
            && RootfsOverlay !in gs
    ensures failed == {} ==> There(fs, i, RootfsTargets(i)) == RootfsTargets(i)
  {
    var start := [Remove(RootfsOverlay), Write(RootfsTree, RootTree([]))];
    var gather := GatherOps(fs, i, RootfsTargets(i), [], failed, absent);
    ExecAppend(fs, start, gather);
    ExecTwo(fs, start[0], start[1]);
    var fs1, parts := Exec(fs, start), Parts(LiveIn(fs, i), There(fs, i, RootfsTargets(i)));
    GatherResult(fs, i, fs1, RootfsTargets(i), [], failed, absent);
    forall op | op in gather ensures op.path != RootfsOverlay {
      GatherTouches(fs, i, RootfsTargets(i), [], failed, absent, op);
    }
    ExecFrame(fs1, gather, RootfsOverlay);
    assert [] + parts == parts;
    if failed == {} {
      forall t | t in RootfsTargets(i) && t.Bin? ensures LiveThere(fs, i, t.art) {
        assert !Missing(fs, i, t, failed, absent);
      }
      AllThere(fs, i, RootfsTargets(i));
    }
  }

  lemma TargetsCompiled(i: Inputs, t: Target)
    requires t in RootfsTargets(i) && t.Bin?
    ensures Compiles(Owner(t.art))
  {
  }

  /** All that a stage may have changed. */
  ghost predicate Frame(s: Stage, i: Inputs, repackage: bool, fs: Files, gs: Files) {
    forall p :: !MayWrite(s, i, fs, repackage, p) ==> Same(fs, gs, p)
  }

  /** Wherever its plan stops, a stage has changed no other file. */
  lemma PlanFrames(s: Stage, fs: Files, i: Inputs, repackage: bool, l: Scene, failed: set<Stage>, fate: Fate)
    ensures Frame(s, i, repackage, fs, StoppedAt(fs, PlanOf(s, fs, i, repackage, l, failed), fate))
  {
    var plan := PlanOf(s, fs, i, repackage, l, failed);
    forall p | !MayWrite(s, i, fs, repackage, p) ensures Same(fs, StoppedAt(fs, plan, fate), p) {
      PlanTouches(s, fs, i, repackage, l, failed, p);
      ExecFrame(fs, plan.ops, p);
      if fate.Stops? {
        CrashFrame(fs, plan.ops, fate.cut, p);
      }
    }
  }

  predicate Succeeds(plan: Plan, fate: Fate) {
    fate.Finishes? && !plan.raises
  }

  function StoppedAt(fs: Files, plan: Plan, fate: Fate): Files {
    match fate
    case Finishes => Exec(fs, plan.ops)
    case Stops(cut) => Crash(fs, plan.ops, cut)
  }

  predicate Packages(s: Stage) {
    || s.AssembleRootfs? || s.CopyConfigurationSetup? || s.PackageBtrfsImage?
    || s.PackageESPImage? || s.AssembleGPTImage?
  }

  /** The status table after stage `s` has been handled. */
  ghost predicate OnlyStatus(before: map<Stage, Status>, after: map<Stage, Status>, s: Stage) {
    forall t :: t != s ==> (HasFailed(after, t) <==> HasFailed(before, t))
  }

  // Compile stages

  lemma NotMine(s: Stage, i: Inputs, fs: Files, repackage: bool, other: Stage, p: Path)
    requires Compiles(s) && s != other && other != ShipImage && Held(s, p)
    requires other == CheckEarlyExit ==> repackage || Stored(s, p)
    ensures !MayWrite(other, i, fs, repackage, p)
  {
  }

  lemma ReadsKept(s: Stage, other: Stage, fs: Files, gs: Files, i: Inputs, repackage: bool, a: Art)
    requires Frame(other, i, repackage, fs, gs) && Owner(a) == s && Compiles(s)
    requires Index(s) < Index(other) && other != ShipImage && forall p <- Reads(a, i) :: p in fs
    ensures Compile(gs, a, i) == Compile(fs, a, i) && forall p <- Reads(a, i) :: p in gs
  {
    forall p | p in Reads(a, i) ensures Same(fs, gs, p) {
      ReadStays(s, other, fs, i, repackage, a, p);
    }
    SeenIff(fs, gs, Reads(a, i));
  }

  /** What a stage has compiled from is not changed by later stages. */
  lemma ReadStays(s: Stage, other: Stage, fs: Files, i: Inputs, repackage: bool, a: Art, p: Path)
    requires Owner(a) == s && Compiles(s) && Index(s) < Index(other) && other != ShipImage
    requires p in Reads(a, i) && p in fs
    ensures !MayWrite(other, i, fs, repackage, p)
  {
    assert p.SourceTree? || p.KernelConfig?;
  }

  lemma FinishedKept(s: Stage, other: Stage, fs0: Files, fs: Files, gs: Files, i: Inputs, a: Art)
    requires Frame(other, i, false, fs, gs) && Owner(a) == s && Compiles(s)
    requires Index(s) < Index(other) && other != ShipImage && Finished(fs0, fs, i, a)
    ensures Finished(fs0, gs, i, a)
  {
    assert Held(s, LivePath(a, i)) && Held(s, At(Cache, a));
    NotMine(s, i, fs, false, other, LivePath(a, i));
    NotMine(s, i, fs, false, other, At(Cache, a));
    if !Restores(fs0, i, s) {
      ReadsKept(s, other, fs, gs, i, false, a);
    }
  }

  /** A stage other than the one that owns the files in question keeps what it does not write. */
  lemma CompileProgressKept(fs0: Files, fs: Files, gs: Files, status: map<Stage, Status>, next: map<Stage, Status>,
                            i: Inputs, repackage: bool, s: Stage, other: Stage)
    requires Compiles(s) && s != other && other != ShipImage
    requires CompileProgress(fs0, fs, status, i, repackage, s, Index(other))
    requires Frame(other, i, repackage, fs, gs) && OnlyStatus(status, next, other)
    ensures CompileProgress(fs0, gs, next, i, repackage, s, Index(other) + 1)
  {
    assert ORDER[Index(s)] != ORDER[Index(other)];
    forall p | if repackage then Held(s, p) else Stored(s, p) ensures Same(fs, gs, p) {
      NotMine(s, i, fs, repackage, other, p);
    }
    if !repackage && Index(s) < Index(other) && !HasFailed(next, s) {
      AllFinishedKept(s, other, fs0, fs, gs, i);
    }
  }

  lemma AllFinishedKept(s: Stage, other: Stage, fs0: Files, fs: Files, gs: Files, i: Inputs)
    requires Frame(other, i, false, fs, gs) && Compiles(s) && Index(s) < Index(other) && other != ShipImage
    requires Flagged(fs, s) && forall a :: Owner(a) == s ==> Finished(fs0, fs, i, a)
    requires forall p :: Stored(s, p) ==> Same(fs, gs, p)
    ensures Flagged(gs, s) && gs[HashFile(s)] == fs[HashFile(s)]
    ensures forall a :: Owner(a) == s ==> Finished(fs0, gs, i, a)
  {
    assert Stored(s, HashFile(s)) && Stored(s, DoneFile(s));
    forall a | Owner(a) == s ensures Finished(fs0, gs, i, a) {
      FinishedKept(s, other, fs0, fs, gs, i, a);
    }
  }

  lemma StoredTest(fs0: Files, fs: Files, i: Inputs, s: Stage)
    requires Compiles(s) && forall p :: Stored(s, p) ==> Same(fs0, fs, p)
    ensures Restores(fs0, i, s) <==> Restores(fs, i, s)
    ensures forall a :: Owner(a) == s ==> Get(fs0, At(Cache, a)) == Get(fs, At(Cache, a))
  {
    assert Stored(s, HashFile(s)) && Stored(s, DoneFile(s));
    forall a | a in Artifacts(s) || Owner(a) == s ensures Same(fs0, fs, At(Cache, a)) {
      ArtifactsOwned(s, a);
      assert Stored(s, At(Cache, a));
    }
  }

  /** A compile stage that passes has finished its artifacts. */
  lemma CompileStageProgress(fs0: Files, fs: Files, i: Inputs, s: Stage, a: Art)
    requires Compiles(s) && i.WellFormed() && Owner(a) == s && !CompilePlan(fs, i, s).raises
    requires forall p :: Stored(s, p) ==> Same(fs0, fs, p)
    ensures Finished(fs0, Exec(fs, CompilePlan(fs, i, s).ops), i, a)
  {
    StoredTest(fs0, fs, i, s);
    CompileResult(fs, i, s, a);
    if !Restores(fs, i, s) {
      RebuildReads(fs, i, s, a);
    }
  }

  lemma CompilingProgress(fs0: Files, fs: Files, gs: Files, status: map<Stage, Status>, next: map<Stage, Status>,
                          i: Inputs, repackage: bool, s: Stage)
    requires i.WellFormed() && Progress(fs0, fs, status, i, repackage, Index(s)) && s != ShipImage
    requires Frame(s, i, repackage, fs, gs) && OnlyStatus(status, next, s)
    requires Compiles(s) && repackage ==> gs == fs
    requires Compiles(s) && !repackage && !HasFailed(next, s) ==>
               !CompilePlan(fs, i, s).raises && gs == Exec(fs, CompilePlan(fs, i, s).ops)
    ensures forall t :: Compiles(t) ==> CompileProgress(fs0, gs, next, i, repackage, t, Index(s) + 1)
  {
    forall t | Compiles(t) ensures CompileProgress(fs0, gs, next, i, repackage, t, Index(s) + 1) {
      assert CompileProgress(fs0, fs, status, i, repackage, t, Index(s));
      if t != s {
        CompileProgressKept(fs0, fs, gs, status, next, i, repackage, t, s);
      } else if !repackage && !HasFailed(next, s) {
        CompileFlags(fs, i, s);
        forall a | Owner(a) == s ensures Finished(fs0, gs, i, a) {
          CompileStageProgress(fs0, fs, i, s, a);
        }
      }
    }
  }

  // Packaging

  lemma {:induction false} ThereKept(fs: Files, gs: Files, i: Inputs, ts: seq<Target>)
    requires forall a :: Same(fs, gs, LivePath(a, i))
    ensures There(fs, i, ts) == There(gs, i, ts)
    decreases |ts|
  {
    if ts != [] {
      ThereKept(fs, gs, i, ts[1..]);
      assert ts[0].Bin? ==> Same(fs, gs, LivePath(ts[0].art, i));
    }
  }

  lemma PartsThereKept(fs: Files, gs: Files, i: Inputs, ts: seq<Target>)
    requires forall a :: Same(fs, gs, LivePath(a, i))
    ensures Parts(LiveIn(fs, i), There(fs, i, ts)) == Parts(LiveIn(gs, i), There(gs, i, ts))
  {
    ThereKept(fs, gs, i, ts);
    forall t | t in There(fs, i, ts) && t.Bin? ensures LiveIn(fs, i)(t.art) == LiveIn(gs, i)(t.art) {
      assert Same(fs, gs, LivePath(t.art, i));
    }
    PartsAgree(LiveIn(fs, i), LiveIn(gs, i), There(fs, i, ts));
  }

  lemma LiveKept(fs: Files, gs: Files, i: Inputs, repackage: bool, s: Stage)
    requires Frame(s, i, repackage, fs, gs) && Index(s) >= 9 && s != ShipImage
    ensures SameLive(fs, gs, i) && forall a :: Same(fs, gs, LivePath(a, i))
  {
    forall a ensures Same(fs, gs, LivePath(a, i)) {
      assert !MayWrite(s, i, fs, repackage, LivePath(a, i));
    }
    PartsThereKept(fs, gs, i, RootfsTargets(i));
    assert Same(fs, gs, LivePath(BzImage, i));
  }

  /** `gs` has the live files of `fs` for the sources `i`. */
  ghost predicate SameLive(fs: Files, gs: Files, i: Inputs) {
    && TreeOf(fs, i) == TreeOf(gs, i) && ImageFrom(fs, i) == ImageFrom(gs, i)
    && Get(fs, LivePath(BzImage, i)) == Get(gs, LivePath(BzImage, i))
  }

  lemma PastKept(status: map<Stage, Status>, next: map<Stage, Status>, s: Stage)
    requires OnlyStatus(status, next, s) && !Packages(s)
    ensures PastOf(next, Index(s) + 1) == PastOf(status, Index(s))
  {
  }

  lemma PastNext(status: map<Stage, Status>, next: map<Stage, Status>, s: Stage)
    requires OnlyStatus(status, next, s) && Packages(s)
    ensures var before, after, ok := PastOf(status, Index(s)), PastOf(next, Index(s) + 1), !HasFailed(next, s);
            match s
            case AssembleRootfs => after == Past(ok, false, false, false, false, true)
            case CopyConfigurationSetup =>
              before.bare && after == Past(before.tree, ok, false, false, false, false)
            case PackageBtrfsImage => after == Past(before.tree, before.overlay, ok, false, false, false)
            case PackageESPImage => after == Past(before.tree, before.overlay, before.btrfs, ok, false, false)
            case _ => after == Past(before.tree, before.overlay, before.btrfs, before.esp, ok, false)
  {
  }

  lemma PackagingKept(fs: Files, gs: Files, past: Past, i: Inputs, repackage: bool, s: Stage)
    requires PackagingProgress(fs, past, i) && Frame(s, i, repackage, fs, gs) && !Packages(s) && s != ShipImage
    requires Index(s) >= 9 || past == Past(false, false, false, false, false, false)
    ensures PackagingProgress(gs, past, i)
  {
    if Index(s) >= 9 {
      LiveKept(fs, gs, i, repackage, s);
      assert s == CleanOutput;
      assert !MayWrite(s, i, fs, repackage, RootfsTree) && !MayWrite(s, i, fs, repackage, RootfsOverlay);
      assert !MayWrite(s, i, fs, repackage, RootfsImg) && !MayWrite(s, i, fs, repackage, EspImg);
      assert !MayWrite(s, i, fs, repackage, At(WorkDir, OsImage));
    }
  }

  /** The packaging files other than those that stage `s` makes are kept. */
  ghost predicate OthersKept(s: Stage, fs: Files, gs: Files) {
    && (s != AssembleRootfs ==> Same(fs, gs, RootfsTree))
    && (s != AssembleRootfs && s != CopyConfigurationSetup ==> Same(fs, gs, RootfsOverlay))
    && (s != PackageBtrfsImage ==> Same(fs, gs, RootfsImg))
    && (s != PackageESPImage ==> Same(fs, gs, EspImg))
  }

  lemma PackagingFrame(fs: Files, gs: Files, i: Inputs, repackage: bool, s: Stage)
    requires Frame(s, i, repackage, fs, gs) && Packages(s)
    ensures OthersKept(s, fs, gs)
  {
    assert s != AssembleRootfs ==> !MayWrite(s, i, fs, repackage, RootfsTree);
    assert s != AssembleRootfs && s != CopyConfigurationSetup ==> !MayWrite(s, i, fs, repackage, RootfsOverlay);
    assert s != PackageBtrfsImage ==> !MayWrite(s, i, fs, repackage, RootfsImg);
    assert s != PackageESPImage ==> !MayWrite(s, i, fs, repackage, EspImg);
  }

  /** What a packaging stage that passes adds. */
  ghost predicate Adds(s: Stage, fs: Files, gs: Files, i: Inputs) {
    match s
    case AssembleRootfs => Holds(gs, RootfsTree, TreeOf(fs, i)) && RootfsOverlay !in gs
    case CopyConfigurationSetup =>
      Get(gs, RootfsOverlay) == if i.configDir == "" then Get(fs, RootfsOverlay) else Overlay(i)
    case PackageBtrfsImage => Holds(gs, RootfsImg, Btrfs(Get(fs, RootfsTree), Get(fs, RootfsOverlay)))
    case PackageESPImage => Holds(gs, EspImg, Esp(Get(fs, LivePath(BzImage, i))))
    case AssembleGPTImage => Holds(gs, At(WorkDir, OsImage), Disk(Get(fs, EspImg), Get(fs, RootfsImg)))
    case _ => true
  }

  lemma PackagingAdds(s: Stage, fs: Files, i: Inputs, repackage: bool, l: Scene, failed: set<Stage>, plan: Plan)
    requires Packages(s) && plan == PlanOf(s, fs, i, repackage, l, failed) && !plan.raises
    ensures Adds(s, fs, Exec(fs, plan.ops), i)
  {
    match s
    case AssembleRootfs => RootfsResult(fs, i, failed, l.absent);
    case PackageESPImage =>
      ExecTwo(fs, plan.ops[0], plan.ops[1]);
      assert plan.ops == [plan.ops[0], plan.ops[1]];
    case CopyConfigurationSetup => OneOp(fs, plan.ops);
    case PackageBtrfsImage => OneOp(fs, plan.ops);
    case AssembleGPTImage => OneOp(fs, plan.ops);
  }

  /** A packaging stage that passes adds its part; what the others have established is kept even if it fails. */
  lemma PackagingStage(fs: Files, gs: Files, before: Past, after: Past, i: Inputs, s: Stage, ok: bool)
    requires PackagingProgress(fs, before, i) && SameLive(fs, gs, i) && OthersKept(s, fs, gs)
    requires ok ==> Adds(s, fs, gs, i)
    requires match s
             case AssembleRootfs => after == Past(ok, false, false, false, false, true)
             case CopyConfigurationSetup =>
               before.bare && after == Past(before.tree, ok, false, false, false, false)
             case PackageBtrfsImage => after == Past(before.tree, before.overlay, ok, false, false, false)
             case PackageESPImage => after == Past(before.tree, before.overlay, before.btrfs, ok, false, false)
             case AssembleGPTImage => after == Past(before.tree, before.overlay, before.btrfs, before.esp, ok, false)
             case _ => false
    ensures PackagingProgress(gs, after, i)
  {
  }

  lemma PackagingAdvances(fs: Files, gs: Files, status: map<Stage, Status>, next: map<Stage, Status>,
                          i: Inputs, repackage: bool, l: Scene, failed: set<Stage>, s: Stage, plan: Plan)
    requires PackagingProgress(fs, PastOf(status, Index(s)), i) && Frame(s, i, repackage, fs, gs)
    requires OnlyStatus(status, next, s) && s != ShipImage && plan == PlanOf(s, fs, i, repackage, l, failed)
    requires Packages(s) && !HasFailed(next, s) ==> !plan.raises && gs == Exec(fs, plan.ops)
    ensures PackagingProgress(gs, PastOf(next, Index(s) + 1), i)
  {
    if !Packages(s) {
      PastKept(status, next, s);
      PackagingKept(fs, gs, PastOf(status, Index(s)), i, repackage, s);
    } else {
      LiveKept(fs, gs, i, repackage, s);
      PackagingFrame(fs, gs, i, repackage, s);
      if !HasFailed(next, s) {
        PackagingAdds(s, fs, i, repackage, l, failed, plan);
      }
      PastNext(status, next, s);
      PackagingStage(fs, gs, PastOf(status, Index(s)), PastOf(next, Index(s) + 1), i, s, !HasFailed(next, s));
    }
  }

  lemma MasterNotWritten(i: Inputs, fs: Files, repackage: bool, s: Stage, p: Path)
    requires ConcernsMaster(p) && s != ShipImage && (p != At(OutputDir, OsImage) || s == DownloadTarballs)
    ensures !MayWrite(s, i, fs, repackage, p)
  {
  }

  lemma MasterAdvances(fs0: Files, fs: Files, gs: Files, i: Inputs, repackage: bool, s: Stage)
    requires MasterKept(fs0, fs, Index(s)) && s != ShipImage && Frame(s, i, repackage, fs, gs)
    ensures MasterKept(fs0, gs, Index(s) + 1)
  {
    forall p | ConcernsMaster(p)
      ensures Same(fs0, gs, p) || (Index(s) + 1 > 1 && p == At(OutputDir, OsImage))
    {
      if p != At(OutputDir, OsImage) || s == DownloadTarballs {
        MasterNotWritten(i, fs, repackage, s, p);
      }
    }
  }

  lemma TreesAdvance(fs: Files, gs: Files, status: map<Stage, Status>, next: map<Stage, Status>, i: Inputs,
                     repackage: bool, s: Stage)
    requires Through(status, ExtractTarballs, Index(s)) ==> TreesThere(fs, i)
    requires Frame(s, i, repackage, fs, gs) && OnlyStatus(status, next, s) && s != ShipImage
    requires s == ExtractTarballs && !HasFailed(next, s) ==> gs == Exec(fs, ExtractPlan(fs, i).ops)
    ensures Through(next, ExtractTarballs, Index(s) + 1) ==> TreesThere(gs, i)
  {
    if Through(next, ExtractTarballs, Index(s) + 1) {
      forall p | p in Trees(i) ensures p in gs {
        if s == ExtractTarballs {
          ExtractResult(fs, i, p);
        } else {
          assert p in fs && p.SourceTree? && !MayWrite(s, i, fs, repackage, p);
        }
      }
    }
  }

  lemma ExtractResult(fs: Files, i: Inputs, p: Path)
    requires p in Trees(i)
    ensures Holds(Exec(fs, ExtractPlan(fs, i).ops), p, if p in fs then fs[p] else Get(Pristine(i), p))
  {
    var unpack, done := Unpacks(fs, i, Trees(i)), [Write(DoneFile(ExtractTarballs), Flag)];
    ExecAppend(fs, unpack, done);
    UnpackResult(fs, fs, i, Trees(i), p);
    assert done[1..] == [] && p.SourceTree?;
  }

  /** Every stage before `ShipImage` advances the run: what it establishes if it passes is added,
      and what the stages before it have established is kept even if it fails. */
  lemma StageProgress(fs0: Files, fs: Files, gs: Files, status: map<Stage, Status>, next: map<Stage, Status>,
                      i: Inputs, repackage: bool, l: Scene, failed: set<Stage>, s: Stage, plan: Plan)
    requires i.WellFormed() && Progress(fs0, fs, status, i, repackage, Index(s)) && s != ShipImage
    requires Frame(s, i, repackage, fs, gs) && OnlyStatus(status, next, s)
    requires plan == PlanOf(s, fs, i, repackage, l, failed)
    requires if repackage && Compiles(s) then gs == fs
             else !HasFailed(next, s) ==> !plan.raises && gs == Exec(fs, plan.ops)
    ensures Progress(fs0, gs, next, i, repackage, Index(s) + 1)
  {
    PlanIsOwn(s, fs, i, repackage, l, failed);
    CompilingProgress(fs0, fs, gs, status, next, i, repackage, s);
    PackagingAdvances(fs, gs, status, next, i, repackage, l, failed, s, plan);
    MasterAdvances(fs0, fs, gs, i, repackage, s);
    TreesAdvance(fs, gs, status, next, i, repackage, s);
  }

  lemma PlanIsOwn(s: Stage, fs: Files, i: Inputs, repackage: bool, l: Scene, failed: set<Stage>)
    ensures Compiles(s) ==> PlanOf(s, fs, i, repackage, l, failed) == CompilePlan(fs, i, s)
    ensures s == ExtractTarballs ==> PlanOf(s, fs, i, repackage, l, failed) == ExtractPlan(fs, i)
  {
  }

  // CheckEarlyExit

  lemma OutsideOutput(ops: seq<Op>, from: Side, to: Side, arts: seq<Art>)
    requires ops == CopyAll(from, to, arts) && OsImage !in arts
    ensures !Touches(ops, At(OutputDir, OsImage))
  {
    forall op | op in ops ensures op.path != At(OutputDir, OsImage) {
      CopyAllTouches(from, to, arts, op);
    }
  }

  lemma NoImage(sent: seq<Art>, back: seq<Art>)
    requires (forall a <- sent :: a in EXIT_OUTPUT) && forall a <- back :: a in EXIT_WORKSPACE
    ensures OsImage !in sent && OsImage !in back
  {
  }

  /** The last write to a path is what it holds. */
  lemma FirstThen(fs: Files, op: Op, a: seq<Op>, b: seq<Op>, p: Path)
    requires op.path == p && !Touches(a, p) && !Touches(b, p)
    ensures Same(Apply(fs, op), Exec(fs, [op] + a + b), p)
  {
    assert [op] + a + b == [op] + (a + b);
    ExecAppend(fs, [op], a + b);
    assert [op][1..] == [] && Exec(fs, [op]) == Apply(fs, op);
    ExecFrame(Apply(fs, op), a + b, p);
  }

  lemma ExitRestoreDelivers(fs: Files, i: Inputs)
    requires At(Cache, OsImage) in fs
    ensures Holds(Exec(fs, ExitRestoreOps(fs, i)), At(OutputDir, OsImage), fs[At(Cache, OsImage)])
  {
    var sent, back := Present(fs, Cache, EXIT_OUTPUT), Present(fs, Cache, EXIT_WORKSPACE);
    NoImage(sent, back);
    OutsideOutput(CopyAll(In(Cache), In(OutputDir), sent), In(Cache), In(OutputDir), sent);
    OutsideOutput(CopyAll(In(Cache), LiveFor(i), back), In(Cache), LiveFor(i), back);
    FirstThen(fs, Install(At(Cache, OsImage), At(OutputDir, OsImage)), CopyAll(In(Cache), In(OutputDir), sent),
              CopyAll(In(Cache), LiveFor(i), back), At(OutputDir, OsImage));
  }

  /** What `CheckEarlyExit` does before it sets `skip_remaining`. */
  function ExitFront(fs: Files, i: Inputs): seq<Op> {
    if At(OutputDir, OsImage) in fs then [] else ExitRestoreOps(fs, i)
  }

  lemma ExitFrontDelivers(fs: Files, i: Inputs, repackage: bool)
    requires ExitsEarly(fs, i, repackage)
    ensures EarlyExitPlan(fs, i, repackage).ops == ExitFront(fs, i) + [Write(DoneFile(CheckEarlyExit), Flag)]
    ensures Holds(Exec(fs, ExitFront(fs, i)), At(OutputDir, OsImage), ExitImage(fs))
  {
    if At(OutputDir, OsImage) !in fs {
      ExitRestoreDelivers(fs, i);
    }
  }

  /** Once `skip_remaining` is set the image is in place, whatever becomes of the done flag. */
  lemma EarlyExitDelivers(fs: Files, i: Inputs, repackage: bool, fate: Fate)
    requires Perform(fs, EarlyExitPlan(fs, i, repackage), fate).skip
    ensures ExitsEarly(fs, i, repackage)
    ensures Holds(Perform(fs, EarlyExitPlan(fs, i, repackage), fate).world, At(OutputDir, OsImage), ExitImage(fs))
  {
    var front, done := ExitFront(fs, i), [Write(DoneFile(CheckEarlyExit), Flag)];
    ExitFrontDelivers(fs, i, repackage);
    var image := At(OutputDir, OsImage);
    match fate
    case Finishes =>
      ExecAppend(fs, front, done);
      ExecFrame(Exec(fs, front), done, image);
    case Stops(cut) =>
      CrashSplit(fs, front, done, cut);
      CrashFrame(Exec(fs, front), done, cut.(steps := cut.steps - |front|), image);
  }

  lemma OnlyEarlyExitSkips(s: Stage, fs: Files, i: Inputs, repackage: bool, l: Scene, failed: set<Stage>, fate: Fate)
    requires Perform(fs, PlanOf(s, fs, i, repackage, l, failed), fate).skip
    ensures s == CheckEarlyExit
  {
  }

  /** Nothing `CheckEarlyExit` looks at has changed when it runs. */
  lemma ExitTestStable(fs0: Files, fs: Files, i: Inputs, repackage: bool)
    requires MasterKept(fs0, fs, 1)
    ensures ExitsEarly(fs0, i, repackage) == ExitsEarly(fs, i, repackage) && ExitImage(fs0) == ExitImage(fs)
  {
    assert ConcernsMaster(MasterHash) && ConcernsMaster(MasterDone);
    assert ConcernsMaster(At(OutputDir, OsImage)) && ConcernsMaster(At(Cache, OsImage));
  }

  // ShipImage

  /** No compile stage failed. */
  ghost predicate AllCompiled(status: map<Stage, Status>) {
    forall s :: Compiles(s) ==> !HasFailed(status, s)
  }

  /** If no compile stage failed, the restore test of `ShipImage` depends on the starting files only. */
  lemma ShipTestStable(fs0: Files, fs: Files, status: map<Stage, Status>, i: Inputs, repackage: bool)
    requires Progress(fs0, fs, status, i, repackage, 15) && AllCompiled(status)
    ensures ShipCached(fs, i, repackage) <==> ShipHit(fs0, i, repackage)
  {
    assert ConcernsMaster(HashFile(ShipImage)) && ConcernsMaster(DoneFile(ShipImage));
    assert ConcernsMaster(At(Cache, OsImage));
    assert ShippedFiles(fs)[0] == OsImage;
    if !repackage {
      BinsCached(fs0, fs, status, i);
    }
  }

  lemma BinsCached(fs0: Files, fs: Files, status: map<Stage, Status>, i: Inputs)
    requires Progress(fs0, fs, status, i, false, 15) && AllCompiled(status)
    ensures forall a <- Present(fs, Workspace, SHIPPED) :: At(Cache, a) in fs
  {
    forall a | a in Present(fs, Workspace, SHIPPED) ensures At(Cache, a) in fs {
      BinsCompiled(a);
      assert CompileProgress(fs0, fs, status, i, false, Owner(a), 15) && Finished(fs0, fs, i, a);
    }
  }

  lemma ShipRestoreDelivers(fs: Files)
    requires At(Cache, OsImage) in fs
    ensures Holds(Exec(fs, ShipRestoreOps(fs)), At(OutputDir, OsImage), fs[At(Cache, OsImage)])
  {
    var image := [Copy(At(Cache, OsImage), At(OutputDir, OsImage))];
    var rest := CopyAll(In(Cache), In(OutputDir), Present(fs, Workspace, SHIPPED));
    ExecAppend(fs, image, rest);
    assert image[1..] == [] && Exec(fs, image) == Apply(fs, image[0]);
    forall op | op in rest ensures op.path != At(OutputDir, OsImage) {
      CopyAllTouches(In(Cache), In(OutputDir), Present(fs, Workspace, SHIPPED), op);
    }
    ExecFrame(Exec(fs, image), rest, At(OutputDir, OsImage));
  }

  lemma ShipPlanDelivers(fs: Files, i: Inputs, repackage: bool, plan: Plan, b: Blob)
    requires plan == ShipPlan(fs, i, repackage) && Holds(fs, At(WorkDir, OsImage), b)
    ensures !plan.raises && (ShipCached(fs, i, repackage) ==> At(Cache, OsImage) in fs)
    ensures Holds(Exec(fs, plan.ops), At(OutputDir, OsImage),
                  if ShipCached(fs, i, repackage) then fs[At(Cache, OsImage)] else b)
  {
    if ShipCached(fs, i, repackage) {
      assert ShippedFiles(fs)[0] == OsImage;
      ShipRestoreDelivers(fs);
    } else {
      ShippedState(fs, i);
    }
  }

  /** `ShipImage`, if it passes, delivers what the run has staged or the cached image. */
  lemma ShipDelivers(fs0: Files, fs: Files, status: map<Stage, Status>, i: Inputs, repackage: bool, plan: Plan)
    requires Progress(fs0, fs, status, i, repackage, 15) && forall s :: Packages(s) ==> !HasFailed(status, s)
    requires plan == ShipPlan(fs, i, repackage)
    ensures !plan.raises
    ensures Holds(Exec(fs, plan.ops), At(OutputDir, OsImage),
                  if ShipCached(fs, i, repackage) then Get(fs0, At(Cache, OsImage)) else ImageFrom(fs, i))
  {
    StagedImage(fs, status, i);
    ShipPlanDelivers(fs, i, repackage, plan, ImageFrom(fs, i));
    assert ConcernsMaster(At(Cache, OsImage));
  }

  lemma StagedImage(fs: Files, status: map<Stage, Status>, i: Inputs)
    requires PackagingProgress(fs, PastOf(status, 15), i) && forall s :: Packages(s) ==> !HasFailed(status, s)
    ensures Holds(fs, At(WorkDir, OsImage), ImageFrom(fs, i))
  {
  }

  /** What the ship path leaves: both images are the staged one and all four whole-image flags are valid. */
  lemma ShippedState(fs: Files, i: Inputs)
    requires At(WorkDir, OsImage) in fs
    ensures var gs := Exec(fs, ShipOps(fs, i));
            && Holds(gs, At(OutputDir, OsImage), fs[At(WorkDir, OsImage)])
            && Holds(gs, At(Cache, OsImage), fs[At(WorkDir, OsImage)])
            && Holds(gs, MasterHash, Digest(i.Master())) && MasterDone in gs
            && Holds(gs, HashFile(ShipImage), Digest(i.Master())) && DoneFile(ShipImage) in gs
  {
    var bins := Present(fs, Workspace, SHIPPED);
    var front, each, seal := CLEAR_SHIP + SHIP_IMAGE, ShipEach(bins), SealOps(i);
    ExecAppend(fs, front + each, seal);
    ExecAppend(fs, front, each);
    FrontState(fs);
    var fs1 := Exec(fs, front);
    ShipEachFrame(fs1, bins, At(OutputDir, OsImage));
    ShipEachFrame(fs1, bins, At(Cache, OsImage));
    var fs2 := Exec(fs1, each);
    SealState(fs2, i);
    assert Same(fs2, Exec(fs2, seal), At(OutputDir, OsImage)) && Same(fs2, Exec(fs2, seal), At(Cache, OsImage));
  }

  lemma FrontState(fs: Files)
    requires At(WorkDir, OsImage) in fs
    ensures var gs := Exec(fs, CLEAR_SHIP + SHIP_IMAGE);
            && Holds(gs, At(OutputDir, OsImage), fs[At(WorkDir, OsImage)])
            && Holds(gs, At(Cache, OsImage), fs[At(WorkDir, OsImage)])
  {
    ExecAppend(fs, CLEAR_SHIP, SHIP_IMAGE);
    ExecFrame(fs, CLEAR_SHIP, At(WorkDir, OsImage));
    ExecTwo(Exec(fs, CLEAR_SHIP), SHIP_IMAGE[0], SHIP_IMAGE[1]);
  }

  /** The files that are written when an image is sealed. */
  predicate SealFile(p: Path) {
    || p == MasterHash || p == MasterDone || p == HashesJson
    || p == HashFile(ShipImage) || p == DoneFile(ShipImage)
  }

  lemma SealState(fs: Files, i: Inputs)
    ensures var gs := Exec(fs, SealOps(i));
            && Holds(gs, MasterHash, Digest(i.Master())) && Holds(gs, MasterDone, Flag)
            && Holds(gs, HashFile(ShipImage), Digest(i.Master())) && Holds(gs, DoneFile(ShipImage), Flag)
            && forall p :: !SealFile(p) ==> Same(fs, gs, p)
  {
    var m := FlagOps(MasterHash, MasterDone, i.Master());
    var s := FlagOps(HashFile(ShipImage), DoneFile(ShipImage), i.Master());
    var early := m + [Write(HashesJson, Snapshot(i))];
    ExecAppend(fs, early + m, s);
    ExecAppend(fs, early, m);
    ExecTwo(Exec(fs, early), m[0], m[1]);
    var fs1 := Exec(fs, early + m);
    ExecTwo(fs1, s[0], s[1]);
    forall p | !SealFile(p) ensures Same(fs, Exec(fs, SealOps(i)), p) {
      ExecFrame(fs, SealOps(i), p);
    }
  }

  // The run

  /** The state of a run after `k` stages, short of `ShipImage`, whatever may fail. */
  ghost predicate OnTrack(fs: Files, setup: Setup, repackage: bool, st: State<Stage, Files>, k: nat) {
    var i := setup.inputs;
    && st.final == Unfinished && st.repackage == repackage
    && (st.skip ==> ExitsEarly(fs, i, repackage) && Holds(st.world, At(OutputDir, OsImage), ExitImage(fs)))
    && (!st.skip ==>
          && Progress(fs, st.world, st.status, i, repackage, k)
          && (Through(st.status, CheckEarlyExit, k) ==> !ExitsEarly(fs, i, repackage)))
  }

  /** The plan that stage `s` performs in state `st`. */
  function PlanIn(setup: Setup, st: State<Stage, Files>, s: Stage): Plan {
    PlanOf(s, st.world, setup.inputs, st.repackage, setup.scene,
           FailedWithLeave(st.status[s := Running], setup.allowed))
  }

  function Config(setup: Setup): Settings<Stage> {
    Settings(setup.allowed, BUILDING)
  }

  /** `next` is `st` after stage `s` has been entered: its plan done and settled, or a failure. */
  ghost predicate Handled(st: State<Stage, Files>, s: Stage, plan: Plan, fate: Fate, next: State<Stage, Files>) {
    && next.world == StoppedAt(st.world, plan, fate) && next.repackage == st.repackage
    && next.skip == Perform(st.world, plan, fate).skip
    && next.status == st.status[s := if Succeeds(plan, fate) then Settled(plan.report) else Failed]
  }

  lemma HandlePerforms(cfg: Settings<Stage>, body: Body<Stage, Files>, st: State<Stage, Files>, s: Stage, plan: Plan,
                       fate: Fate)
    requires !Bypassed(cfg, st, s) && st.final == Unfinished
    requires body(s, st.world, st.status[s := Running]) == Perform(st.world, plan, fate)
    ensures var next := Handle(cfg, body, st, s);
            && Handled(st, s, plan, fate, next)
            && next.final == if Succeeds(plan, fate) || s in cfg.allowed then Unfinished else Fatal
  {
  }

  lemma BodyPerforms(setup: Setup, st: State<Stage, Files>, s: Stage)
    ensures StageBody(setup, st.repackage)(s, st.world, st.status[s := Running])
            == Perform(st.world, PlanIn(setup, st, s), setup.fates(s))
  {
  }

  lemma ExitOnTrack(fs: Files, st: State<Stage, Files>, i: Inputs, plan: Plan, fate: Fate)
    requires MasterKept(fs, st.world, 1) && plan == EarlyExitPlan(st.world, i, st.repackage)
    ensures Perform(st.world, plan, fate).skip ==>
        && ExitsEarly(fs, i, st.repackage)
        && Holds(Perform(st.world, plan, fate).world, At(OutputDir, OsImage), ExitImage(fs))
    ensures Succeeds(plan, fate) && !Perform(st.world, plan, fate).skip ==> !ExitsEarly(fs, i, st.repackage)
  {
    ExitTestStable(fs, st.world, i, st.repackage);
    if Perform(st.world, plan, fate).skip {
      EarlyExitDelivers(st.world, i, st.repackage, fate);
    }
  }

  lemma EnteredOnTrack(fs: Files, setup: Setup, repackage: bool, st: State<Stage, Files>, s: Stage, plan: Plan,
                       next: State<Stage, Files>, failed: set<Stage>)
    requires setup.inputs.WellFormed() && s != ShipImage && (repackage ==> !Compiles(s))
    requires OnTrack(fs, setup, repackage, st, Index(s)) && !st.skip
    requires plan == PlanOf(s, st.world, setup.inputs, repackage, setup.scene, failed)
    requires Handled(st, s, plan, setup.fates(s), next) && next.final == Unfinished
    ensures OnTrack(fs, setup, repackage, next, Index(s) + 1)
  {
    var i, fate := setup.inputs, setup.fates(s);
    if s == CheckEarlyExit {
      ExitOnTrack(fs, st, i, plan, fate);
    } else if next.skip {
      OnlyEarlyExitSkips(s, st.world, i, repackage, setup.scene, failed, fate);
    }
    if !next.skip {
      PlanFrames(s, st.world, i, repackage, setup.scene, failed, fate);
      EnteredStatus(st, s, plan, fate, next);
      StageProgress(fs, st.world, next.world, st.status, next.status, i, repackage, setup.scene, failed, s, plan);
    }
  }

  lemma EnteredStatus(st: State<Stage, Files>, s: Stage, plan: Plan, fate: Fate, next: State<Stage, Files>)
    requires Handled(st, s, plan, fate, next)
    ensures OnlyStatus(st.status, next.status, s) && (HasFailed(next.status, s) <==> !Succeeds(plan, fate))
    ensures !HasFailed(next.status, s) ==> !plan.raises && next.world == Exec(st.world, plan.ops)
  {
  }

  lemma BypassedOnTrack(fs: Files, st: State<Stage, Files>, setup: Setup, s: Stage)
    requires setup.inputs.WellFormed() && OnTrack(fs, setup, true, st, Index(s)) && !st.skip && Compiles(s)
    ensures OnTrack(fs, setup, true, Mark(st, s, Skipped), Index(s) + 1)
  {
    BypassedProgress(fs, st.world, st.status, setup, s);
  }

  lemma BypassedProgress(fs0: Files, fs: Files, status: map<Stage, Status>, setup: Setup, s: Stage)
    requires setup.inputs.WellFormed() && Progress(fs0, fs, status, setup.inputs, true, Index(s)) && Compiles(s)
    ensures Progress(fs0, fs, status[s := Skipped], setup.inputs, true, Index(s) + 1)
  {
    StageProgress(fs0, fs, fs, status, status[s := Skipped], setup.inputs, true, setup.scene, {}, s,
                  PlanOf(s, fs, setup.inputs, true, setup.scene, {}));
  }

  lemma HandledOnTrack(fs: Files, setup: Setup, repackage: bool, st: State<Stage, Files>, s: Stage, plan: Plan,
                       body: Body<Stage, Files>, failed: set<Stage>)
    requires setup.inputs.WellFormed() && s != ShipImage && (repackage ==> !Compiles(s))
    requires OnTrack(fs, setup, repackage, st, Index(s)) && !st.skip
    requires plan == PlanOf(s, st.world, setup.inputs, repackage, setup.scene, failed)
    requires body(s, st.world, st.status[s := Running]) == Perform(st.world, plan, setup.fates(s))
    ensures var next := Handle(Config(setup), body, st, s);
            next.final == Fatal || OnTrack(fs, setup, repackage, next, Index(s) + 1)
  {
    assert !Bypassed(Config(setup), st, s);
    HandlePerforms(Config(setup), body, st, s, plan, setup.fates(s));
    var next := Handle(Config(setup), body, st, s);
    if next.final != Fatal {
      EnteredOnTrack(fs, setup, repackage, st, s, plan, next, failed);
    }
  }

  lemma StageOnTrack(fs: Files, setup: Setup, repackage: bool, st: State<Stage, Files>, s: Stage)
    requires setup.inputs.WellFormed() && s != ShipImage && OnTrack(fs, setup, repackage, st, Index(s))
    ensures var next := Handle(Config(setup), StageBody(setup, repackage), st, s);
            next.final == Fatal || OnTrack(fs, setup, repackage, next, Index(s) + 1)
  {
    if !st.skip {
      if repackage && Compiles(s) {
        BypassedOnTrack(fs, st, setup, s);
      } else {
        var failed := FailedWithLeave(st.status[s := Running], setup.allowed);
        BodyPerforms(setup, st, s);
        HandledOnTrack(fs, setup, repackage, st, s, PlanIn(setup, st, s), StageBody(setup, repackage), failed);
      }
    }
  }

  lemma StartProgress(fs: Files, i: Inputs, repackage: bool)
    ensures Progress(fs, fs, PENDING, i, repackage, 0)
  {
  }

  lemma OrderIndex(k: nat)
    requires k < 16
    ensures Index(ORDER[k]) == k
  {
  }

  lemma NextOnTrack(fs: Files, setup: Setup, repackage: bool, order: seq<Stage>, start: State<Stage, Files>,
                    k: nat, s: Stage)
    requires setup.inputs.WellFormed()
    requires k < |order| && order[k] == s && Index(s) == k && s != ShipImage
    requires var st := After(Config(setup), StageBody(setup, repackage), order, start, k);
             st.final == Fatal || OnTrack(fs, setup, repackage, st, k)
    ensures var next := After(Config(setup), StageBody(setup, repackage), order, start, k + 1);
            next.final == Fatal || OnTrack(fs, setup, repackage, next, k + 1)
  {
    var st := After(Config(setup), StageBody(setup, repackage), order, start, k);
    AfterNext(Config(setup), StageBody(setup, repackage), order, start, k);
    if st.final != Fatal {
      StageOnTrack(fs, setup, repackage, st, s);
    }
  }

  /** After any number of stages a run that goes on has exited early with the image in place, or made
      the progress that its stages are for, as far as they did not fail. */
  lemma {:induction false} RunOnTrack(fs: Files, setup: Setup, repackage: bool, k: nat)
    requires setup.inputs.WellFormed() && k <= 15
    ensures var st := Partial(fs, setup, repackage, k);
            st.final == Fatal || OnTrack(fs, setup, repackage, st, k)
    decreases k
  {
    if k == 0 {
      StartProgress(fs, setup.inputs, repackage);
    } else {
      RunOnTrack(fs, setup, repackage, k - 1);
      OrderIndex(k - 1);
      NextOnTrack(fs, setup, repackage, ORDER, Start(fs, repackage), k - 1, ORDER[k - 1]);
    }
  }

  /** A fatal failure is where the run ends. */
  lemma BuildIsPartial(fs: Files, setup: Setup, repackage: bool, k: nat)
    requires k <= 16 && Partial(fs, setup, repackage, k).final == Fatal
    ensures Build(fs, setup, repackage) == Partial(fs, setup, repackage, k)
  {
    FatalIsLast(Config(setup), StageBody(setup, repackage), ORDER, Start(fs, repackage), k);
  }

  lemma LastStage(fs: Files, setup: Setup, repackage: bool)
    ensures var st := Partial(fs, setup, repackage, 15);
            var last := if st.final == Fatal then st
                        else Handle(Config(setup), StageBody(setup, repackage), st, ShipImage);
            Build(fs, setup, repackage)
            == if last.final == Fatal then last else last.(final := Complete, repackage := false)
  {
  }

  /** The state before `ShipImage` of a run that completed. */
  lemma CompleteIsLate(fs: Files, setup: Setup, repackage: bool) returns (late: State<Stage, Files>)
    requires setup.inputs.WellFormed() && Build(fs, setup, repackage).final == Complete
    ensures late == Partial(fs, setup, repackage, 15) && OnTrack(fs, setup, repackage, late, 15)
    ensures var st := Build(fs, setup, repackage);
            var last := Handle(Config(setup), StageBody(setup, repackage), late, ShipImage);
            && last.final != Fatal && st.world == last.world && st.status == last.status && st.skip == last.skip
  {
    RunOnTrack(fs, setup, repackage, 15);
    LastStage(fs, setup, repackage);
    late := Partial(fs, setup, repackage, 15);
  }

  lemma ShipPlanIn(setup: Setup, st: State<Stage, Files>)
    ensures PlanIn(setup, st, ShipImage) == ShipPlan(st.world, setup.inputs, st.repackage)
  {
  }

  lemma ShipHandled(setup: Setup, st: State<Stage, Files>)
    requires st.final == Unfinished && !st.skip
    ensures var last := Handle(Config(setup), StageBody(setup, st.repackage), st, ShipImage);
            Handled(st, ShipImage, ShipPlan(st.world, setup.inputs, st.repackage), setup.fates(ShipImage), last)
  {
    BodyPerforms(setup, st, ShipImage);
    var plan := PlanIn(setup, st, ShipImage);
    assert !Bypassed(Config(setup), st, ShipImage);
    HandlePerforms(Config(setup), StageBody(setup, st.repackage), st, ShipImage, plan, setup.fates(ShipImage));
    ShipPlanIn(setup, st);
  }

  /** No packaging stage failed, nor did `ShipImage`. */
  ghost predicate Shipped(status: map<Stage, Status>) {
    forall s :: Packages(s) || s == ShipImage ==> !HasFailed(status, s)
  }

  /** From any starting files, and whatever may fail: a run that ends "Complete" has exactly this image
      in the output directory, unless a packaging stage or `ShipImage` failed with leave. */
  lemma LateDelivers(fs: Files, setup: Setup, late: State<Stage, Files>, plan: Plan, last: State<Stage, Files>)
    requires OnTrack(fs, setup, late.repackage, late, 15) && !late.skip
    requires plan == ShipPlan(late.world, setup.inputs, late.repackage)
    requires Handled(late, ShipImage, plan, setup.fates(ShipImage), last) && Shipped(last.status)
    ensures Holds(last.world, At(OutputDir, OsImage), Delivered(fs, late, setup.inputs))
  {
    EnteredStatus(late, ShipImage, plan, setup.fates(ShipImage), last);
    ShipDelivers(fs, late.world, late.status, setup.inputs, late.repackage, plan);
  }

  /** From any starting files, and whatever may fail: a run that ends "Complete" has exactly this image
      in the output directory, unless a packaging stage or `ShipImage` failed with leave. */
  lemma CompleteDelivers(fs: Files, setup: Setup, repackage: bool)
    requires setup.inputs.WellFormed()
    requires Build(fs, setup, repackage).final == Complete && Shipped(Build(fs, setup, repackage).status)
    ensures Holds(Build(fs, setup, repackage).world, At(OutputDir, OsImage),
                  Delivered(fs, Partial(fs, setup, repackage, 15), setup.inputs))
  {
    var late := CompleteIsLate(fs, setup, repackage);
    if !late.skip {
      ShipHandled(setup, late);
      LateDelivers(fs, setup, late, ShipPlan(late.world, setup.inputs, repackage),
                   Handle(Config(setup), StageBody(setup, repackage), late, ShipImage));
    }
  }
}
