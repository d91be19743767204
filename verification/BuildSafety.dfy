/** Runs that start from files satisfying the cache invariant: what they leave wherever they
    stop, that they can complete, and exactly when the delivered image is the current one. */
module BuildSafety {
  import opened Store
  import opened Cache
  import opened RunLoop
  import opened CompileStages
  import opened ShipStages
  import opened BuildRun

  /** The live files of stage `s` are the ones a clean build gives. */
  ghost predicate StageCurrent(fs: Files, i: Inputs, s: Stage) {
    forall a :: Owner(a) == s ==> Holds(fs, LivePath(a, i), Fresh(a, i))
  }

  /** Every live compiled file is the one the current inputs give. */
  ghost predicate LiveCurrent(fs: Files, i: Inputs) {
    forall a :: Compiles(Owner(a)) ==> Holds(fs, LivePath(a, i), Fresh(a, i))
  }

  // What a run must not do

  /** No source tree of `i` is torn, nor the default configuration of its headers. */
  ghost predicate TreesWhole(fs: Files, i: Inputs) {
    && (forall p <- Trees(i) :: !Holds(fs, p, Torn))
    && (i.headers != i.linuxVer ==> !Holds(fs, KernelConfig(i.headers), Torn))
  }

  /** In the state that stage `s` has left, it has failed with leave. */
  predicate FailedHere(st: State<Stage, Files>, s: Stage) {
    st.final == Unfinished && !st.skip && HasFailed(st.status, s)
  }

  /** What later stages rely on is there although `s` failed: no whole-image flags match when the image was
      not restored; the source trees are there; the kernel is configured. */
  ghost predicate Reliable(s: Stage, fs: Files, i: Inputs, repackage: bool) {
    match s
    case CheckEarlyExit => !MasterHit(fs, i, repackage)
    case ExtractTarballs => repackage || TreesThere(fs, i)
    case CompileKernel => repackage || ConfigReady(fs, i)
    case _ => true
  }

  /** Although stage `s` failed, what it makes is there and as in a clean build. */
  ghost predicate Harmless(s: Stage, fs: Files, i: Inputs) {
    match s
    case AssembleRootfs => Holds(fs, RootfsTree, CleanTree(i)) && RootfsOverlay !in fs
    case CopyConfigurationSetup => Get(fs, RootfsOverlay) == Overlay(i)
    case PackageBtrfsImage => Holds(fs, RootfsImg, Btrfs(CleanTree(i), Overlay(i)))
    case PackageESPImage => Holds(fs, EspImg, Esp(Fresh(BzImage, i)))
    case AssembleGPTImage => Holds(fs, At(WorkDir, OsImage), Image(i))
    case _ => Compiles(s) ==> StageCurrent(fs, i, s)
  }

  function CleanTree(i: Inputs): Blob {
    RootTree(Parts(a => Fresh(a, i), RootfsTargets(i)))
  }

  /** No stage leaves a torn source tree, and a failure with leave takes nothing from later stages. */
  ghost predicate Orderly(fs: Files, setup: Setup, repackage: bool) {
    && (forall k: nat :: k <= 16 ==> TreesWhole(Partial(fs, setup, repackage, k).world, setup.inputs))
    && (forall k: nat :: k < 15 && FailedHere(Partial(fs, setup, repackage, k + 1), ORDER[k]) ==>
          Reliable(ORDER[k], Partial(fs, setup, repackage, k + 1).world, setup.inputs, repackage))
  }

  /** A stage that failed with leave had nevertheless left what it is for. */
  ghost predicate Forgiven(fs: Files, setup: Setup, repackage: bool) {
    forall k: nat :: k < 15 && FailedHere(Partial(fs, setup, repackage, k + 1), ORDER[k]) ==>
      Harmless(ORDER[k], Partial(fs, setup, repackage, k + 1).world, setup.inputs)
  }

  // The invariant along a run

  /** What every stage of an orderly run finds, besides the invariant. */
  ghost predicate Ready(fs0: Files, st: State<Stage, Files>, i: Inputs, k: nat) {
    !st.skip ==>
      && (k > 1 ==> !ExitsEarly(fs0, i, st.repackage))
      && (k > 2 && !st.repackage ==> TreesThere(st.world, i))
      && (k > 3 && !st.repackage ==> ConfigReady(st.world, i))
  }

  lemma PlainSafe(pins: Pins, fs: Files, s: Stage)
    requires Inv(pins, fs) && !Compiles(s) && s != ShipImage
    ensures SafeAlong(pins, fs, [Write(DoneFile(s), Flag)])
  {
    NeutralSafe(pins, fs, [Write(DoneFile(s), Flag)]);
  }

  lemma CleanSafe(pins: Pins, fs: Files, i: Inputs, repackage: bool, l: Scene)
    requires Inv(pins, fs)
    ensures SafeAlong(pins, fs, CleanPlan(fs, i, repackage, l).ops)
  {
    WipeSafe(pins, fs, l.order, l.stuck);
    assert SafeAlong(pins, fs, []);
  }

  lemma NeedsThere(fs: Files, i: Inputs, s: Stage)
    requires TreesThere(fs, i)
    ensures forall p <- Needs(s, i) :: p in fs
  {
    var ps := Trees(i);
    assert ps[0] in ps && ps[1] in ps && ps[2] in ps && ps[3] in ps && ps[4] in ps;
  }

  lemma StageSafe(pins: Pins, fs: Files, i: Inputs, repackage: bool, l: Scene, failed: set<Stage>, s: Stage)
    requires Inv(pins, fs) && Admissible(pins, i) && s != ShipImage && TreesWhole(fs, i)
    requires Compiles(s) ==> TreesThere(fs, i) && (s == CompileKernelModule ==> ConfigReady(fs, i))
    ensures SafeAlong(pins, fs, PlanOf(s, fs, i, repackage, l, failed).ops)
  {
    match s
    case DownloadTarballs => PlainSafe(pins, fs, s);
    case ExtractTarballs => ExtractSafe(pins, fs, i);
    case CheckEarlyExit => EarlyExitSafe(pins, fs, i, repackage);
    case AssembleRootfs => RootfsSafe(pins, fs, i, failed, l.absent);
    case CopyConfigurationSetup | PackageBtrfsImage | PackageESPImage | AssembleGPTImage => PackagingSafe(pins, fs, i);
    case CleanOutput => CleanSafe(pins, fs, i, repackage, l);
    case _ =>
      NeedsThere(fs, i, s);
      CompileSafe(pins, fs, i, s);
  }

  lemma TreeWriters(s: Stage, i: Inputs, fs: Files, repackage: bool, p: Path)
    requires MayWrite(s, i, fs, repackage, p) && (p.SourceTree? || p.KernelConfig?) && s != ShipImage
    ensures || p in Trees(i) || (s == CompileKernel && p == KernelConfig(i.linuxVer))
            || (s == CompileKernelModule && p == KernelConfig(i.headers) && p !in fs)
  {
    var ps := Trees(i);
    assert ps[0] == SourceTree(Linux, i.linuxVer) && ps[0] in ps;
    assert i.headers != i.linuxVer ==> ps[5] == SourceTree(Linux, i.headers) && ps[5] in ps;
  }

  /** The delicate operations of a stage are on the trees of its sources, and on a configuration that was not there. */
  lemma DelicateWhere(fs: Files, i: Inputs, repackage: bool, l: Scene, failed: set<Stage>, s: Stage, op: Op)
    requires op in PlanOf(s, fs, i, repackage, l, failed).ops && Delicate(op) && s != ShipImage
    requires s == CompileKernelModule ==> ConfigReady(fs, i)
    ensures op.path in Trees(i) || (op.path == KernelConfig(i.headers) && i.headers != i.linuxVer)
  {
    if !MayWrite(s, i, fs, repackage, op.path) {
      PlanTouches(s, fs, i, repackage, l, failed, op.path);
      assert false;
    }
    TreeWriters(s, i, fs, repackage, op.path);
    if s == CompileKernel && op.path == KernelConfig(i.linuxVer) {
      PlanIsOwn(s, fs, i, repackage, l, failed);
      ConfiguresFully(fs, i, op);
    }
  }

  lemma ConfiguresFully(fs: Files, i: Inputs, op: Op)
    requires op in CompilePlan(fs, i, CompileKernel).ops && op.path.KernelConfig?
    ensures !Delicate(op)
  {
    if op in RestoreOps(CompileKernel, i) {
      RestoreOwned(CompileKernel, i, op);
    } else if op in BuildOps(Exec(fs, Prepare(fs, i, CompileKernel)), CompileKernel, i) {
      BuildOwned(Exec(fs, Prepare(fs, i, CompileKernel)), CompileKernel, i, op);
    }
  }

  /** Where a stage stops, the invariant holds, unless it left a torn tree. */
  lemma StopSafe(pins: Pins, fs: Files, i: Inputs, repackage: bool, l: Scene, failed: set<Stage>, s: Stage,
                 plan: Plan, fate: Fate)
    requires SafeAlong(pins, fs, plan.ops) && plan == PlanOf(s, fs, i, repackage, l, failed) && s != ShipImage
    requires (s == CompileKernelModule ==> ConfigReady(fs, i)) && TreesWhole(StoppedAt(fs, plan, fate), i)
    ensures Inv(pins, StoppedAt(fs, plan, fate))
  {
    match fate
    case Finishes => SafeAtCrash(pins, fs, plan.ops, Cut(0, false));
    case Stops(cut) =>
      SafeAtCrash(pins, fs, plan.ops, cut);
      if TearsDelicate(plan.ops, cut) {
        var op := plan.ops[cut.steps];
        DelicateWhere(fs, i, repackage, l, failed, s, op);
        TornByCrash(fs, plan.ops, cut);
        assert false;
      }
  }

  /** After the kernel stage passes, the tree of its kernel is configured. */
  lemma KernelConfigures(pins: Pins, fs: Files, i: Inputs)
    requires Inv(pins, fs) && Admissible(pins, i) && !CompilePlan(fs, i, CompileKernel).raises
    ensures ConfigReady(Exec(fs, CompilePlan(fs, i, CompileKernel).ops), i)
  {
    var s, p := CompileKernel, KernelConfig(i.linuxVer);
    if Restores(fs, i, s) {
      KernelConfigured(pins, fs, i);
      PlantedKeeps(fs, i, s);
      forall op | op in RestoreOps(s, i) ensures op.path != p {
        RestoreOwned(s, i, op);
      }
      ExecFrame(Exec(fs, Planted(fs, i, s)), RestoreOps(s, i), p);
    } else {
      RebuildRead(fs, i, s, p);
      PreparedReads(fs, i, s, BzImage, SourceTree(Linux, i.linuxVer));
    }
  }

  /** A kernel in the cache under a matching key has its tree configured. */
  lemma KernelConfigured(pins: Pins, fs: Files, i: Inputs)
    requires Inv(pins, fs) && Admissible(pins, i) && Restores(fs, i, CompileKernel)
    ensures Holds(fs, KernelConfig(i.linuxVer), Configured(true))
  {
    var s := CompileKernel;
    KeyNotEmpty(i, s);
    assert StageInv(pins, fs, s) && Flagged(fs, s) && Owner(BzImage) == s;
    assert Sound(pins, fs, BzImage, fs[HashFile(s)].hash) && SoundFor(fs, BzImage, i);
  }

  lemma ConfigStays(s: Stage, i: Inputs, fs: Files, gs: Files, repackage: bool)
    requires Frame(s, i, repackage, fs, gs) && s != CompileKernel && s != ShipImage && ConfigReady(fs, i)
    ensures ConfigReady(gs, i)
  {
    if i.headers == i.linuxVer {
      assert !MayWrite(s, i, fs, repackage, KernelConfig(i.linuxVer));
    }
  }

  lemma HitStays(fs0: Files, fs: Files, i: Inputs, repackage: bool)
    requires MasterKept(fs0, fs, 2) && !MasterHit(fs, i, repackage)
    ensures !ExitsEarly(fs0, i, repackage)
  {
    assert ConcernsMaster(MasterHash) && ConcernsMaster(MasterDone);
  }

  lemma ReadyNext(pins: Pins, fs0: Files, setup: Setup, st: State<Stage, Files>, s: Stage, plan: Plan,
                  next: State<Stage, Files>, failed: set<Stage>)
    requires Admissible(pins, setup.inputs) && s != ShipImage && (st.repackage ==> !Compiles(s))
    requires Inv(pins, st.world) && Ready(fs0, st, setup.inputs, Index(s)) && !st.skip
    requires plan == PlanOf(s, st.world, setup.inputs, st.repackage, setup.scene, failed)
    requires Handled(st, s, plan, setup.fates(s), next) && next.final == Unfinished
    requires OnTrack(fs0, setup, st.repackage, next, Index(s) + 1)
    requires FailedHere(next, s) ==> Reliable(s, next.world, setup.inputs, st.repackage)
    ensures Ready(fs0, next, setup.inputs, Index(s) + 1)
  {
    if !next.skip {
      var i := setup.inputs;
      PlanFrames(s, st.world, i, st.repackage, setup.scene, failed, setup.fates(s));
      EnteredStatus(st, s, plan, setup.fates(s), next);
      if s == CheckEarlyExit && HasFailed(next.status, s) {
        HitStays(fs0, next.world, i, st.repackage);
      }
      TreesNext(i, st.world, next, s);
      ConfigNext(pins, i, st, next, s, plan);
    }
  }

  lemma TreesNext(i: Inputs, fs: Files, next: State<Stage, Files>, s: Stage)
    requires Frame(s, i, next.repackage, fs, next.world) && s != ShipImage
    requires Index(s) > 2 && !next.repackage ==> TreesThere(fs, i)
    requires s == ExtractTarballs && !next.repackage ==> TreesThere(next.world, i)
    ensures Index(s) + 1 > 2 && !next.repackage ==> TreesThere(next.world, i)
  {
    if Index(s) > 2 && !next.repackage {
      forall p | p in Trees(i) ensures p in next.world {
        assert p in fs && p.SourceTree? && !MayWrite(s, i, fs, next.repackage, p);
      }
    } else {
      assert Index(s) == 2 ==> s == ExtractTarballs;
    }
  }

  lemma ConfigNext(pins: Pins, i: Inputs, st: State<Stage, Files>, next: State<Stage, Files>, s: Stage, plan: Plan)
    requires Admissible(pins, i) && Inv(pins, st.world) && s != ShipImage && next.repackage == st.repackage
    requires Frame(s, i, st.repackage, st.world, next.world) && (st.repackage ==> !Compiles(s))
    requires Index(s) > 3 && !st.repackage ==> ConfigReady(st.world, i)
    requires s == CompileKernel ==> plan == CompilePlan(st.world, i, s)
    requires s == CompileKernel ==> if HasFailed(next.status, s) then ConfigReady(next.world, i)
                                    else !plan.raises && next.world == Exec(st.world, plan.ops)
    ensures Index(s) + 1 > 3 && !st.repackage ==> ConfigReady(next.world, i)
  {
    if Index(s) + 1 > 3 && !st.repackage {
      if s == CompileKernel {
        if !HasFailed(next.status, s) {
          KernelConfigures(pins, st.world, i);
        }
      } else {
        assert Index(s) == 3 ==> s == CompileKernel;
        ConfigStays(s, i, st.world, next.world, st.repackage);
      }
    }
  }

  lemma StageKeepsInv(pins: Pins, fs: Files, setup: Setup, st: State<Stage, Files>, s: Stage, plan: Plan,
                      next: State<Stage, Files>, failed: set<Stage>)
    requires Admissible(pins, setup.inputs) && s != ShipImage && (st.repackage ==> !Compiles(s)) && !st.skip
    requires Inv(pins, st.world) && Ready(fs, st, setup.inputs, Index(s))
    requires plan == PlanOf(s, st.world, setup.inputs, st.repackage, setup.scene, failed)
    requires Handled(st, s, plan, setup.fates(s), next)
    requires TreesWhole(st.world, setup.inputs) && TreesWhole(next.world, setup.inputs)
    ensures Inv(pins, next.world)
  {
    assert Compiles(s) ==> Index(s) > 2 && (s == CompileKernelModule ==> Index(s) > 3);
    StageSafe(pins, st.world, setup.inputs, st.repackage, setup.scene, failed, s);
    StopSafe(pins, st.world, setup.inputs, st.repackage, setup.scene, failed, s, plan, setup.fates(s));
  }

  /** A step of an orderly run. */
  ghost predicate OrderlyStep(setup: Setup, st: State<Stage, Files>, s: Stage, next: State<Stage, Files>) {
    && TreesWhole(st.world, setup.inputs) && TreesWhole(next.world, setup.inputs)
    && (FailedHere(next, s) ==> Reliable(s, next.world, setup.inputs, st.repackage))
  }

  lemma EnteredSafe(pins: Pins, fs: Files, setup: Setup, st: State<Stage, Files>, s: Stage, plan: Plan,
                    body: Body<Stage, Files>, failed: set<Stage>)
    requires Admissible(pins, setup.inputs) && s != ShipImage && (st.repackage ==> !Compiles(s)) && !st.skip
    requires Inv(pins, st.world) && Ready(fs, st, setup.inputs, Index(s))
    requires OnTrack(fs, setup, st.repackage, st, Index(s))
    requires plan == PlanOf(s, st.world, setup.inputs, st.repackage, setup.scene, failed)
    requires body(s, st.world, st.status[s := Running]) == Perform(st.world, plan, setup.fates(s))
    requires OrderlyStep(setup, st, s, Handle(Config(setup), body, st, s))
    ensures var next := Handle(Config(setup), body, st, s);
            Inv(pins, next.world) && (next.final == Fatal || Ready(fs, next, setup.inputs, Index(s) + 1))
  {
    var next := Handle(Config(setup), body, st, s);
    assert !Bypassed(Config(setup), st, s);
    HandlePerforms(Config(setup), body, st, s, plan, setup.fates(s));
    StageKeepsInv(pins, fs, setup, st, s, plan, next, failed);
    if next.final != Fatal {
      HandledOnTrack(fs, setup, st.repackage, st, s, plan, body, failed);
      EnteredReady(pins, fs, setup, st, s, plan, next, failed);
    }
  }

  lemma EnteredReady(pins: Pins, fs: Files, setup: Setup, st: State<Stage, Files>, s: Stage, plan: Plan,
                     next: State<Stage, Files>, failed: set<Stage>)
    requires Admissible(pins, setup.inputs) && s != ShipImage && (st.repackage ==> !Compiles(s)) && !st.skip
    requires Inv(pins, st.world) && Ready(fs, st, setup.inputs, Index(s))
    requires plan == PlanOf(s, st.world, setup.inputs, st.repackage, setup.scene, failed)
    requires Handled(st, s, plan, setup.fates(s), next) && next.final == Unfinished
    requires OnTrack(fs, setup, st.repackage, next, Index(s) + 1) && OrderlyStep(setup, st, s, next)
    ensures Ready(fs, next, setup.inputs, Index(s) + 1)
  {
    ReadyNext(pins, fs, setup, st, s, plan, next, failed);
  }

  lemma BypassedReady(fs: Files, setup: Setup, st: State<Stage, Files>, s: Stage)
    requires Ready(fs, st, setup.inputs, Index(s)) && (st.skip || (st.repackage && Compiles(s)))
    ensures Ready(fs, Mark(st, s, Skipped), setup.inputs, Index(s) + 1)
  {
  }

  lemma StageKeepsSafe(pins: Pins, fs: Files, setup: Setup, st: State<Stage, Files>, s: Stage)
    requires Admissible(pins, setup.inputs) && s != ShipImage
    requires Inv(pins, st.world) && Ready(fs, st, setup.inputs, Index(s))
    requires OnTrack(fs, setup, st.repackage, st, Index(s))
    requires OrderlyStep(setup, st, s, Handle(Config(setup), StageBody(setup, st.repackage), st, s))
    ensures var next := Handle(Config(setup), StageBody(setup, st.repackage), st, s);
            Inv(pins, next.world) && (next.final == Fatal || Ready(fs, next, setup.inputs, Index(s) + 1))
  {
    if st.skip || (st.repackage && Compiles(s)) {
      BypassedReady(fs, setup, st, s);
    } else {
      BodyPerforms(setup, st, s);
      EnteredSafe(pins, fs, setup, st, s, PlanIn(setup, st, s), StageBody(setup, st.repackage),
                  FailedWithLeave(st.status[s := Running], setup.allowed));
    }
  }

  lemma PartialNext(fs: Files, setup: Setup, repackage: bool, k: nat)
    requires k < 16
    ensures var st := Partial(fs, setup, repackage, k);
            Partial(fs, setup, repackage, k + 1)
            == if st.final == Fatal then st else Handle(Config(setup), StageBody(setup, repackage), st, ORDER[k])
  {
    AfterNext(Config(setup), StageBody(setup, repackage), ORDER, Start(fs, repackage), k);
  }

  lemma OrderlyNext(fs: Files, setup: Setup, repackage: bool, k: nat)
    requires Orderly(fs, setup, repackage) && k < 15 && Partial(fs, setup, repackage, k).final == Unfinished
    requires Partial(fs, setup, repackage, k).repackage == repackage
    ensures OrderlyStep(setup, Partial(fs, setup, repackage, k), ORDER[k], Partial(fs, setup, repackage, k + 1))
  {
    assert TreesWhole(Partial(fs, setup, repackage, k).world, setup.inputs);
    assert TreesWhole(Partial(fs, setup, repackage, k + 1).world, setup.inputs);
  }

  /** Before `ShipImage` the invariant holds wherever an orderly run stops, whatever it has made. */
  lemma {:induction false} PartialSafe(pins: Pins, fs: Files, setup: Setup, repackage: bool, k: nat)
    requires Inv(pins, fs) && Admissible(pins, setup.inputs) && Orderly(fs, setup, repackage) && k <= 15
    ensures var st := Partial(fs, setup, repackage, k);
            Inv(pins, st.world) && (st.final == Fatal || Ready(fs, st, setup.inputs, k))
    decreases k
  {
    if k > 0 {
      PartialSafe(pins, fs, setup, repackage, k - 1);
      RunOnTrack(fs, setup, repackage, k - 1);
      PartialNext(fs, setup, repackage, k - 1);
      var st := Partial(fs, setup, repackage, k - 1);
      if st.final != Fatal {
        OrderIndex(k - 1);
        OrderlyNext(fs, setup, repackage, k - 1);
        StageKeepsSafe(pins, fs, setup, st, ORDER[k - 1]);
      }
    }
  }

  // What passes is current, and what failed with leave is forgiven

  lemma ReadIsPristine(pins: Pins, fs: Files, i: Inputs, a: Art, p: Path)
    requires TreesInv(pins, fs) && Admissible(pins, i) && p in Reads(a, i) && p in fs
    requires a == PronzeKo ==> ConfigReady(fs, i) && TreesWhole(fs, i)
    ensures Get(fs, p) == Get(Pristine(i), p)
  {
    ReadsPristine(i, a);
    PristinePinned(pins, i, p);
    assert TreeSound(pins, p, fs[p]);
  }

  /** A restored artifact, or one built over the trees of an orderly run, is the one a clean build gives. */
  lemma OutcomeCurrent(pins: Pins, fs0: Files, fs: Files, i: Inputs, a: Art)
    requires Inv(pins, fs0) && TreesInv(pins, fs) && Admissible(pins, i) && Compiles(Owner(a))
    requires a == PronzeKo ==> ConfigReady(fs, i) && TreesWhole(fs, i)
    requires !Restores(fs0, i, Owner(a)) ==> forall p <- Reads(a, i) :: p in fs
    ensures Product(fs0, fs, i, a) == Fresh(a, i)
  {
    var s := Owner(a);
    if Restores(fs0, i, s) {
      KeyNotEmpty(i, s);
      assert StageInv(pins, fs0, s) && Flagged(fs0, s);
      assert Sound(pins, fs0, a, fs0[HashFile(s)].hash) && SoundFor(fs0, a, i);
      ArtifactsOwned(s, a);
    } else {
      forall p | p in Reads(a, i) ensures Get(fs, p) == Get(Pristine(i), p) {
        ReadIsPristine(pins, fs, i, a, p);
      }
      CompileFreshIff(fs, a, i);
    }
  }

  lemma PassedIsCurrent(pins: Pins, fs0: Files, st: State<Stage, Files>, i: Inputs, s: Stage, k: nat)
    requires Inv(pins, fs0) && TreesInv(pins, st.world) && Admissible(pins, i) && Compiles(s)
    requires CompileProgress(fs0, st.world, st.status, i, false, s, k) && Through(st.status, s, k)
    requires s == CompileKernelModule ==> ConfigReady(st.world, i) && TreesWhole(st.world, i)
    ensures StageCurrent(st.world, i, s)
  {
    forall a | Owner(a) == s ensures Holds(st.world, LivePath(a, i), Fresh(a, i)) {
      assert Finished(fs0, st.world, i, a);
      OutcomeCurrent(pins, fs0, st.world, i, a);
    }
  }

  function PastAll(k: nat): Past {
    Past(k > 9, k > 10, k > 11, k > 12, k > 13, k == 10)
  }

  /** The compile stages that failed with leave have left what they are for. */
  ghost predicate FineLive(st: State<Stage, Files>, i: Inputs, k: nat) {
    && (st.repackage ==> LiveCurrent(st.world, i))
    && (!st.repackage ==>
          forall s :: Compiles(s) && Index(s) < k && HasFailed(st.status, s) ==> StageCurrent(st.world, i, s))
  }

  /** So have the packaging stages, and the packaging is as in a clean build. */
  ghost predicate Fine(st: State<Stage, Files>, i: Inputs, k: nat) {
    !st.skip ==> FineLive(st, i, k) && (k > 9 ==> PackagingProgress(st.world, PastAll(k), i))
  }

  /** After the compile stages, all live files are current if those of the stages that failed are. */
  lemma RestCurrent(pins: Pins, fs0: Files, st: State<Stage, Files>, i: Inputs, k: nat)
    requires Inv(pins, fs0) && TreesInv(pins, st.world) && Admissible(pins, i) && k >= 9
    requires forall s :: Compiles(s) ==> CompileProgress(fs0, st.world, st.status, i, false, s, k)
    requires ConfigReady(st.world, i) && TreesWhole(st.world, i)
    requires forall s :: Compiles(s) && HasFailed(st.status, s) ==> StageCurrent(st.world, i, s)
    ensures LiveCurrent(st.world, i)
  {
    forall a | Compiles(Owner(a)) ensures Holds(st.world, LivePath(a, i), Fresh(a, i)) {
      var s := Owner(a);
      if HasFailed(st.status, s) {
        assert StageCurrent(st.world, i, s);
      } else {
        assert CompileProgress(fs0, st.world, st.status, i, false, s, k);
        PassedIsCurrent(pins, fs0, st, i, s, k);
      }
    }
  }

  lemma AllCurrent(pins: Pins, fs0: Files, st: State<Stage, Files>, i: Inputs, k: nat)
    requires Inv(pins, fs0) && TreesInv(pins, st.world) && Admissible(pins, i) && k >= 9
    requires forall s :: Compiles(s) ==> CompileProgress(fs0, st.world, st.status, i, st.repackage, s, k)
    requires FineLive(st, i, k) && TreesWhole(st.world, i) && (!st.repackage ==> ConfigReady(st.world, i))
    ensures LiveCurrent(st.world, i)
  {
    if !st.repackage {
      assert forall s :: Compiles(s) ==> Index(s) < k;
      RestCurrent(pins, fs0, st, i, k);
    }
  }

  /** With current live files the image is the one of a clean build. */
  lemma CurrentParts(fs: Files, i: Inputs)
    requires LiveCurrent(fs, i)
    ensures TreeOf(fs, i) == CleanTree(i) && ImageFrom(fs, i) == Image(i)
    ensures Get(fs, LivePath(BzImage, i)) == Fresh(BzImage, i)
  {
    var ts := RootfsTargets(i);
    forall t | t in ts && t.Bin? ensures LiveThere(fs, i, t.art) && LiveIn(fs, i)(t.art) == Fresh(t.art, i) {
      TargetsCompiled(i, t);
    }
    AllThere(fs, i, ts);
    PartsAgree(LiveIn(fs, i), a => Fresh(a, i), ts);
    assert Owner(BzImage) == CompileKernel;
  }

  lemma HarmlessAdds(fs: Files, gs: Files, i: Inputs, s: Stage)
    requires Packages(s) && Harmless(s, gs, i) && LiveCurrent(fs, i)
    requires s != AssembleRootfs ==> PackagingProgress(fs, PastAll(Index(s)), i)
    ensures Adds(s, fs, gs, i)
  {
    CurrentParts(fs, i);
  }

  lemma LiveFrame(fs: Files, gs: Files, i: Inputs, repackage: bool, s: Stage, t: Stage)
    requires Frame(t, i, repackage, fs, gs) && t != ShipImage && Compiles(s) && StageCurrent(fs, i, s)
    requires s != t && (t == CheckEarlyExit ==> repackage)
    ensures StageCurrent(gs, i, s)
  {
    forall a | Owner(a) == s ensures Same(fs, gs, LivePath(a, i)) {
      NotMine(s, i, fs, repackage, t, LivePath(a, i));
    }
  }

  lemma FineCompiling(st: State<Stage, Files>, next: State<Stage, Files>, i: Inputs, s: Stage)
    requires FineLive(st, i, Index(s)) && Frame(s, i, st.repackage, st.world, next.world)
    requires next.repackage == st.repackage && s != ShipImage
    requires st.repackage ==> !Compiles(s) || next.world == st.world
    requires OnlyStatus(st.status, next.status, s)
    requires Compiles(s) && HasFailed(next.status, s) ==> StageCurrent(next.world, i, s)
    ensures FineLive(next, i, Index(s) + 1)
  {
    if st.repackage {
      forall a | Compiles(Owner(a)) ensures Holds(next.world, LivePath(a, i), Fresh(a, i)) {
        if next.world != st.world {
          assert StageCurrent(st.world, i, Owner(a));
          LiveFrame(st.world, next.world, i, true, Owner(a), s);
        }
      }
    } else {
      forall t | Compiles(t) && Index(t) < Index(s) + 1 && HasFailed(next.status, t)
        ensures StageCurrent(next.world, i, t)
      {
        if t != s {
          assert ORDER[Index(t)] != ORDER[Index(s)];
          LiveFrame(st.world, next.world, i, false, t, s);
        }
      }
    }
  }

  lemma FinePackaging(pins: Pins, fs0: Files, st: State<Stage, Files>, next: State<Stage, Files>, i: Inputs, s: Stage,
                      plan: Plan, l: Scene, failed: set<Stage>)
    requires Fine(st, i, Index(s)) && Frame(s, i, st.repackage, st.world, next.world) && s != ShipImage && !st.skip
    requires Packages(s) || s == CleanOutput
    requires LiveCurrent(st.world, i) && plan == PlanOf(s, st.world, i, st.repackage, l, failed)
    requires if HasFailed(next.status, s) then Harmless(s, next.world, i)
             else !plan.raises && next.world == Exec(st.world, plan.ops)
    ensures PackagingProgress(next.world, PastAll(Index(s) + 1), i)
  {
    var fs, gs := st.world, next.world;
    if s == CleanOutput {
      PackagingKept(fs, gs, PastAll(14), i, st.repackage, s);
    } else {
      LiveKept(fs, gs, i, st.repackage, s);
      PackagingFrame(fs, gs, i, st.repackage, s);
      if HasFailed(next.status, s) {
        HarmlessAdds(fs, gs, i, s);
      } else {
        PackagingAdds(s, fs, i, st.repackage, l, failed, plan);
      }
      PackagingStage(fs, gs, if s == AssembleRootfs then Past(false, false, false, false, false, false)
                             else PastAll(Index(s)), PastAll(Index(s) + 1), i, s, true);
    }
  }

  lemma CurrentWhenPackaging(pins: Pins, fs0: Files, setup: Setup, st: State<Stage, Files>, s: Stage)
    requires Inv(pins, fs0) && Inv(pins, st.world) && Admissible(pins, setup.inputs) && !st.skip
    requires OnTrack(fs0, setup, st.repackage, st, Index(s)) && Ready(fs0, st, setup.inputs, Index(s))
    requires TreesWhole(st.world, setup.inputs) && Fine(st, setup.inputs, Index(s))
    ensures Packages(s) || s == CleanOutput ==> LiveCurrent(st.world, setup.inputs)
  {
    if Packages(s) || s == CleanOutput {
      AllCurrent(pins, fs0, st, setup.inputs, Index(s));
    }
  }

  lemma FinePackaged(pins: Pins, fs0: Files, setup: Setup, st: State<Stage, Files>, s: Stage, plan: Plan,
                     next: State<Stage, Files>, failed: set<Stage>)
    requires s != ShipImage && !st.skip && Fine(st, setup.inputs, Index(s))
    requires Packages(s) || s == CleanOutput ==> LiveCurrent(st.world, setup.inputs)
    requires plan == PlanOf(s, st.world, setup.inputs, st.repackage, setup.scene, failed)
    requires Frame(s, setup.inputs, st.repackage, st.world, next.world)
    requires if HasFailed(next.status, s) then Harmless(s, next.world, setup.inputs)
             else !plan.raises && next.world == Exec(st.world, plan.ops)
    ensures Index(s) + 1 > 9 ==> PackagingProgress(next.world, PastAll(Index(s) + 1), setup.inputs)
  {
    if Packages(s) || s == CleanOutput {
      FinePackaging(pins, fs0, st, next, setup.inputs, s, plan, setup.scene, failed);
    }
  }

  lemma FineNext(pins: Pins, fs0: Files, setup: Setup, st: State<Stage, Files>, s: Stage, plan: Plan,
                 next: State<Stage, Files>, failed: set<Stage>)
    requires Inv(pins, fs0) && Inv(pins, st.world) && Admissible(pins, setup.inputs) && s != ShipImage && !st.skip
    requires OnTrack(fs0, setup, st.repackage, st, Index(s)) && Ready(fs0, st, setup.inputs, Index(s))
    requires TreesWhole(st.world, setup.inputs) && Fine(st, setup.inputs, Index(s)) && (st.repackage ==> !Compiles(s))
    requires plan == PlanOf(s, st.world, setup.inputs, st.repackage, setup.scene, failed)
    requires Frame(s, setup.inputs, st.repackage, st.world, next.world)
    requires Handled(st, s, plan, setup.fates(s), next) && next.final == Unfinished
    requires FailedHere(next, s) ==> Harmless(s, next.world, setup.inputs)
    ensures Fine(next, setup.inputs, Index(s) + 1)
  {
    if !next.skip {
      EnteredStatus(st, s, plan, setup.fates(s), next);
      FineCompiling(st, next, setup.inputs, s);
      CurrentWhenPackaging(pins, fs0, setup, st, s);
      FinePackaged(pins, fs0, setup, st, s, plan, next, failed);
    }
  }

  lemma EnteredFine(pins: Pins, fs: Files, setup: Setup, st: State<Stage, Files>, s: Stage, plan: Plan,
                    body: Body<Stage, Files>, failed: set<Stage>)
    requires Inv(pins, fs) && Inv(pins, st.world) && Admissible(pins, setup.inputs) && s != ShipImage && !st.skip
    requires OnTrack(fs, setup, st.repackage, st, Index(s)) && Ready(fs, st, setup.inputs, Index(s))
    requires TreesWhole(st.world, setup.inputs) && Fine(st, setup.inputs, Index(s)) && (st.repackage ==> !Compiles(s))
    requires plan == PlanOf(s, st.world, setup.inputs, st.repackage, setup.scene, failed)
    requires body(s, st.world, st.status[s := Running]) == Perform(st.world, plan, setup.fates(s))
    requires FailedHere(Handle(Config(setup), body, st, s), s) ==>
               Harmless(s, Handle(Config(setup), body, st, s).world, setup.inputs)
    ensures var next := Handle(Config(setup), body, st, s);
            next.final == Fatal || Fine(next, setup.inputs, Index(s) + 1)
  {
    var next := Handle(Config(setup), body, st, s);
    assert !Bypassed(Config(setup), st, s);
    HandlePerforms(Config(setup), body, st, s, plan, setup.fates(s));
    if next.final != Fatal {
      PlanFrames(s, st.world, setup.inputs, st.repackage, setup.scene, failed, setup.fates(s));
      FineNext(pins, fs, setup, st, s, plan, next, failed);
    }
  }

  lemma BypassedFine(setup: Setup, st: State<Stage, Files>, s: Stage)
    requires Fine(st, setup.inputs, Index(s)) && (st.skip || (st.repackage && Compiles(s)))
    ensures Fine(Mark(st, s, Skipped), setup.inputs, Index(s) + 1)
  {
  }

  lemma StageKeepsFine(pins: Pins, fs: Files, setup: Setup, st: State<Stage, Files>, s: Stage)
    requires Inv(pins, fs) && Inv(pins, st.world) && Admissible(pins, setup.inputs) && s != ShipImage
    requires OnTrack(fs, setup, st.repackage, st, Index(s)) && Ready(fs, st, setup.inputs, Index(s))
    requires TreesWhole(st.world, setup.inputs) && Fine(st, setup.inputs, Index(s))
    requires var next := Handle(Config(setup), StageBody(setup, st.repackage), st, s);
             FailedHere(next, s) ==> Harmless(s, next.world, setup.inputs)
    ensures var next := Handle(Config(setup), StageBody(setup, st.repackage), st, s);
            next.final == Fatal || Fine(next, setup.inputs, Index(s) + 1)
  {
    if st.skip || (st.repackage && Compiles(s)) {
      BypassedFine(setup, st, s);
    } else {
      BodyPerforms(setup, st, s);
      EnteredFine(pins, fs, setup, st, s, PlanIn(setup, st, s), StageBody(setup, st.repackage),
                  FailedWithLeave(st.status[s := Running], setup.allowed));
    }
  }

  lemma {:induction false} PartialFine(pins: Pins, fs: Files, setup: Setup, repackage: bool, k: nat)
    requires Inv(pins, fs) && Admissible(pins, setup.inputs) && (repackage ==> LiveCurrent(fs, setup.inputs)) && k <= 15
    requires Orderly(fs, setup, repackage) && Forgiven(fs, setup, repackage)
    ensures var st := Partial(fs, setup, repackage, k); st.final == Fatal || Fine(st, setup.inputs, k)
    decreases k
  {
    if k > 0 {
      PartialFine(pins, fs, setup, repackage, k - 1);
      PartialSafe(pins, fs, setup, repackage, k - 1);
      RunOnTrack(fs, setup, repackage, k - 1);
      PartialNext(fs, setup, repackage, k - 1);
      var st := Partial(fs, setup, repackage, k - 1);
      if st.final != Fatal {
        OrderIndex(k - 1);
        OrderlyNext(fs, setup, repackage, k - 1);
        ForgivenNext(fs, setup, repackage, k - 1, Partial(fs, setup, repackage, k), ORDER[k - 1]);
        StageKeepsFine(pins, fs, setup, st, ORDER[k - 1]);
      }
    }
  }

  lemma ForgivenNext(fs: Files, setup: Setup, repackage: bool, k: nat, next: State<Stage, Files>, s: Stage)
    requires Forgiven(fs, setup, repackage) && k < 15 && next == Partial(fs, setup, repackage, k + 1) && s == ORDER[k]
    ensures FailedHere(next, s) ==> Harmless(s, next.world, setup.inputs)
  {
  }

  // ShipImage

  /** When `ShipImage` is about to restore, `master.*` is not in force: otherwise the run would have exited early. */
  lemma MasterNotInForce(pins: Pins, fs0: Files, fs: Files, i: Inputs, repackage: bool)
    requires MasterInv(pins, fs) && MasterKept(fs0, fs, 15) && !ExitsEarly(fs0, i, repackage)
    requires ShipCached(fs, i, repackage)
    ensures !MasterFlagged(fs)
  {
    assert ConcernsMaster(MasterHash) && ConcernsMaster(MasterDone) && ConcernsMaster(At(Cache, OsImage));
    assert ShippedFiles(fs)[0] == OsImage;
  }

  /** `ShipImage` at the end of a run with current live files and image is safe at every step. */
  lemma LastStageSafe(pins: Pins, fs0: Files, fs: Files, i: Inputs, repackage: bool)
    requires Inv(pins, fs) && Admissible(pins, i) && MasterKept(fs0, fs, 15) && !ExitsEarly(fs0, i, repackage)
    requires LiveCurrent(fs, i) && Holds(fs, At(WorkDir, OsImage), Image(i))
    ensures SafeAlong(pins, fs, ShipPlan(fs, i, repackage).ops)
  {
    if ShipCached(fs, i, repackage) {
      MasterNotInForce(pins, fs0, fs, i, repackage);
      assert ShippedFiles(fs)[0] == OsImage;
      ShipRestoreSafe(pins, fs);
    } else {
      forall a | a in Present(fs, Workspace, SHIPPED) ensures fs[At(Workspace, a)] != Torn {
        BinsCompiled(a);
        assert Holds(fs, LivePath(a, i), Fresh(a, i));
      }
      ShipSafe(pins, fs, i);
    }
  }

  /** Paths in source trees. */
  predicate InTree(p: Path) {
    p.SourceTree? || p.KernelConfig? || (p.At? && p.place.Tree?)
  }

  lemma ShippingOutside(fs: Files, i: Inputs, op: Op)
    requires op in ShipOps(fs, i)
    ensures !InTree(op.path)
  {
    var bins := Present(fs, Workspace, SHIPPED);
    if op in ShipEach(bins) {
      ShipEachTouches(bins, op);
    }
  }

  lemma RestoringOutside(fs: Files, op: Op)
    requires op in ShipRestoreOps(fs)
    ensures !InTree(op.path)
  {
    var bins := Present(fs, Workspace, SHIPPED);
    if op in CopyAll(In(Cache), In(OutputDir), bins) {
      CopyAllTouches(In(Cache), In(OutputDir), bins, op);
    }
  }

  /** `ShipImage` writes nothing in source trees. */
  lemma ShipOutside(fs: Files, i: Inputs, repackage: bool, op: Op)
    requires op in ShipPlan(fs, i, repackage).ops
    ensures !InTree(op.path)
  {
    if op in ShipOps(fs, i) {
      ShippingOutside(fs, i, op);
    } else if op in ShipRestoreOps(fs) {
      RestoringOutside(fs, op);
    }
  }

  lemma ShipNotDelicate(fs: Files, i: Inputs, repackage: bool, cut: Cut)
    ensures !TearsDelicate(ShipPlan(fs, i, repackage).ops, cut)
  {
    forall op | op in ShipPlan(fs, i, repackage).ops ensures !Delicate(op) {
      ShipOutside(fs, i, repackage, op);
    }
  }

  lemma ShipStopSafe(pins: Pins, fs: Files, i: Inputs, repackage: bool, fate: Fate, plan: Plan)
    requires plan == ShipPlan(fs, i, repackage) && SafeAlong(pins, fs, plan.ops)
    ensures Inv(pins, StoppedAt(fs, plan, fate))
  {
    match fate
    case Finishes => SafeAtCrash(pins, fs, plan.ops, Cut(0, false));
    case Stops(cut) =>
      SafeAtCrash(pins, fs, plan.ops, cut);
      ShipNotDelicate(fs, i, repackage, cut);
  }

  /** A run that has come to `ShipImage` with every live file current, and the staged image too. */
  lemma LateSafe(pins: Pins, fs: Files, setup: Setup, late: State<Stage, Files>)
    requires Admissible(pins, setup.inputs) && Inv(pins, late.world) && OnTrack(fs, setup, late.repackage, late, 15)
    requires Ready(fs, late, setup.inputs, 15)
    requires !late.skip ==>
               LiveCurrent(late.world, setup.inputs) && Holds(late.world, At(WorkDir, OsImage), Image(setup.inputs))
    ensures Inv(pins, Handle(Config(setup), StageBody(setup, late.repackage), late, ShipImage).world)
  {
    if !late.skip {
      var plan := ShipPlan(late.world, setup.inputs, late.repackage);
      LastStageSafe(pins, fs, late.world, setup.inputs, late.repackage);
      ShipStopSafe(pins, late.world, setup.inputs, late.repackage, setup.fates(ShipImage), plan);
      ShipHandled(setup, late);
    }
  }

  lemma FineLate(pins: Pins, fs: Files, setup: Setup, repackage: bool)
    requires Inv(pins, fs) && Admissible(pins, setup.inputs) && (repackage ==> LiveCurrent(fs, setup.inputs))
    requires Orderly(fs, setup, repackage) && Forgiven(fs, setup, repackage)
    ensures var late, i := Partial(fs, setup, repackage, 15), setup.inputs;
            || late.final == Fatal || late.skip
            || (LiveCurrent(late.world, i) && Holds(late.world, At(WorkDir, OsImage), Image(i)))
  {
    var late, i := Partial(fs, setup, repackage, 15), setup.inputs;
    PartialFine(pins, fs, setup, repackage, 15);
    PartialSafe(pins, fs, setup, repackage, 15);
    RunOnTrack(fs, setup, repackage, 15);
    if late.final != Fatal && !late.skip {
      assert TreesWhole(late.world, i);
      AllCurrent(pins, fs, late, i, 15);
      CurrentParts(late.world, i);
    }
  }

  /** Wherever a run stops, by failure, by a crash between or inside operations, or at its
      end, the files it leaves satisfy the invariant of both cache levels; stages may fail with
      leave, as long as they leave what they are for. */
  lemma RunSafe(pins: Pins, fs: Files, setup: Setup, repackage: bool)
    requires Inv(pins, fs) && Admissible(pins, setup.inputs) && (repackage ==> LiveCurrent(fs, setup.inputs))
    requires Orderly(fs, setup, repackage) && Forgiven(fs, setup, repackage)
    ensures Inv(pins, Build(fs, setup, repackage).world)
  {
    FineLate(pins, fs, setup, repackage);
    PartialSafe(pins, fs, setup, repackage, 15);
    RunOnTrack(fs, setup, repackage, 15);
    LastStage(fs, setup, repackage);
    var late := Partial(fs, setup, repackage, 15);
    if late.final != Fatal {
      LateSafe(pins, fs, setup, late);
    }
  }

  /** Under the invariant, an early exit and a restore by `ShipImage` deliver the image of a clean build, and
      packaging does exactly when the live files are current. */
  lemma DeliveredCurrent(pins: Pins, fs: Files, setup: Setup, late: State<Stage, Files>)
    requires Inv(pins, fs) && Admissible(pins, setup.inputs) && OnTrack(fs, setup, late.repackage, late, 15)
    ensures Delivered(fs, late, setup.inputs) == Image(setup.inputs)
            <==> late.skip || ShipCached(late.world, setup.inputs, late.repackage)
                 || LiveCurrent(late.world, setup.inputs)
  {
    var fs1 := late.world;
    if late.skip {
      assert CachedImage(pins, fs, setup.inputs.Master());
    } else if ShipCached(fs1, setup.inputs, late.repackage) {
      assert ConcernsMaster(HashFile(ShipImage)) && ConcernsMaster(DoneFile(ShipImage));
      assert Flagged(fs, ShipImage) && CachedImage(pins, fs, setup.inputs.Master());
    } else {
      ImageFromIff(fs1, setup.inputs);
    }
  }

  lemma LateImage(pins: Pins, fs: Files, setup: Setup, late: State<Stage, Files>, plan: Plan, last: State<Stage, Files>,
                  cached: bool)
    requires Inv(pins, fs) && Admissible(pins, setup.inputs)
    requires OnTrack(fs, setup, late.repackage, late, 15) && !late.skip
    requires LiveCurrent(late.world, setup.inputs) && cached == ShipCached(late.world, setup.inputs, late.repackage)
    requires Holds(Exec(late.world, plan.ops), At(OutputDir, OsImage),
                   if cached then Get(late.world, At(Cache, OsImage)) else Image(setup.inputs))
    requires Handled(late, ShipImage, plan, setup.fates(ShipImage), last) && !HasFailed(last.status, ShipImage)
    ensures Holds(last.world, At(OutputDir, OsImage), Image(setup.inputs))
  {
    EnteredStatus(late, ShipImage, plan, setup.fates(ShipImage), last);
    if cached {
      DeliveredCurrent(pins, fs, setup, late);
      assert ConcernsMaster(At(Cache, OsImage));
    }
  }

  /** A complete run under the invariant ends with the image of a clean build, unless `ShipImage`
      itself failed with leave. */
  lemma RunDelivers(pins: Pins, fs: Files, setup: Setup, repackage: bool)
    requires Inv(pins, fs) && Admissible(pins, setup.inputs) && (repackage ==> LiveCurrent(fs, setup.inputs))
    requires Orderly(fs, setup, repackage) && Forgiven(fs, setup, repackage)
    requires Build(fs, setup, repackage).final == Complete && !HasFailed(Build(fs, setup, repackage).status, ShipImage)
    ensures Holds(Build(fs, setup, repackage).world, At(OutputDir, OsImage), Image(setup.inputs))
  {
    FineLate(pins, fs, setup, repackage);
    var late := CompleteIsLate(fs, setup, repackage);
    if late.skip {
      DeliveredCurrent(pins, fs, setup, late);
    } else {
      var plan := ShipPlan(late.world, setup.inputs, repackage);
      ShipHandled(setup, late);
      ShipPlanDelivers(late.world, setup.inputs, repackage, plan, Image(setup.inputs));
      LateImage(pins, fs, setup, late, plan, Handle(Config(setup), StageBody(setup, repackage), late, ShipImage),
                ShipCached(late.world, setup.inputs, repackage));
    }
  }

  // Exactly when the delivered image is the current one

  lemma {:induction false} PartAt(f: Live, ts: seq<Target>, k: nat)
    requires k < |ts|
    ensures |Parts(f, ts)| == |ts| && Parts(f, ts)[k] == Part(f, ts[k])
    decreases |ts|
  {
    if |ts| > 1 {
      PartAt(f, ts[1..], if k > 0 then k - 1 else 0);
    }
  }

  lemma ImagesDiffer(f: Live, g: Live, i: Inputs, a: Art, k: nat)
    requires k < |RootfsTargets(i)| && RootfsTargets(i)[k] == Bin(a) && f(a) != g(a)
    ensures ImageOf(f, i) != ImageOf(g, i)
  {
    PartAt(f, RootfsTargets(i), k);
    PartAt(g, RootfsTargets(i), k);
  }

  function Slot(a: Art): nat {
    match a
    case BusyboxInstall => 0
    case S6Install => 1
    case Pronzed => 3
    case LibPronze => 4
    case TestAlloc => 5
    case TestBounds => 6
    case TestZig => 7
    case TestRust => 8
    case _ => 10
  }

  lemma SameLiveSameParts(f: Live, g: Live, i: Inputs, ts: seq<Target>)
    requires ts == RootfsTargets(i) && forall a :: Compiles(Owner(a)) ==> f(a) == g(a)
    ensures Parts(f, ts) == Parts(g, ts)
  {
    forall t | t in ts && t.Bin? ensures f(t.art) == g(t.art) {
      TargetsCompiled(i, t);
    }
    PartsAgree(f, g, ts);
  }

  lemma SlotOf(i: Inputs, a: Art)
    requires Compiles(Owner(a)) && a != BzImage
    ensures Slot(a) < |RootfsTargets(i)| && RootfsTargets(i)[Slot(a)] == Bin(a)
  {
  }

  /** An image shows every compiled file that went into it. */
  lemma ImageShowsLive(f: Live, g: Live, i: Inputs)
    ensures ImageOf(f, i) == ImageOf(g, i) <==> forall a :: Compiles(Owner(a)) ==> f(a) == g(a)
  {
    forall a | Compiles(Owner(a)) && f(a) != g(a) ensures ImageOf(f, i) != ImageOf(g, i) {
      if a != BzImage {
        SlotOf(i, a);
        ImagesDiffer(f, g, i, a, Slot(a));
      }
    }
    if forall a :: Compiles(Owner(a)) ==> f(a) == g(a) {
      SameLiveSameParts(f, g, i, RootfsTargets(i));
    }
  }

  lemma {:induction false} ThereIsShorter(fs: Files, i: Inputs, ts: seq<Target>)
    ensures |There(fs, i, ts)| <= |ts|
    ensures |There(fs, i, ts)| == |ts| ==> There(fs, i, ts) == ts
    decreases |ts|
  {
    if ts != [] {
      ThereIsShorter(fs, i, ts[1..]);
      if |There(fs, i, ts)| == |ts| {
        assert ts == [ts[0]] + ts[1..];
      }
    }
  }

  lemma {:induction false} PartsLength(f: Live, ts: seq<Target>)
    ensures |Parts(f, ts)| == |ts|
    decreases |ts|
  {
    if ts != [] {
      PartsLength(f, ts[1..]);
    }
  }

  /** An image is the current one exactly when no target was passed over and all live files are current. */
  lemma ImageFromIff(fs: Files, i: Inputs)
    ensures ImageFrom(fs, i) == Image(i) <==> LiveCurrent(fs, i)
  {
    var ts, clean: Live := RootfsTargets(i), a => Fresh(a, i);
    if LiveCurrent(fs, i) {
      CurrentParts(fs, i);
    }
    if ImageFrom(fs, i) == Image(i) {
      PartsLength(LiveIn(fs, i), There(fs, i, ts));
      PartsLength(clean, ts);
      ThereIsShorter(fs, i, ts);
      ImageShowsLive(LiveIn(fs, i), clean, i);
      forall a | Compiles(Owner(a)) ensures Holds(fs, LivePath(a, i), Fresh(a, i)) {
        assert LiveIn(fs, i)(a) == Fresh(a, i) != Gap;
      }
    }
  }

  /** The run comes to `ShipImage`, and it does not restore. */
  ghost predicate Ships(fs: Files, setup: Setup, repackage: bool) {
    var late := Partial(fs, setup, repackage, 15);
    !late.skip && !ShipCached(late.world, setup.inputs, repackage)
  }

  /** With no hypothesis on the starting files or on what may fail: a complete run that ships ends with the
      current image exactly when no target was passed over and all live files are what a clean build gives. */
  lemma ShippedIsCurrentIff(fs: Files, setup: Setup, repackage: bool)
    requires setup.inputs.WellFormed() && Ships(fs, setup, repackage)
    requires Build(fs, setup, repackage).final == Complete && Shipped(Build(fs, setup, repackage).status)
    ensures Get(Build(fs, setup, repackage).world, At(OutputDir, OsImage)) == Image(setup.inputs)
            <==> LiveCurrent(Partial(fs, setup, repackage, 15).world, setup.inputs)
  {
    CompleteDelivers(fs, setup, repackage);
    var late := CompleteIsLate(fs, setup, repackage);
    ImageFromIff(late.world, setup.inputs);
  }

  lemma StatusKept(fs: Files, setup: Setup, repackage: bool, late: State<Stage, Files>)
    requires setup.inputs.WellFormed() && Build(fs, setup, repackage).final == Complete
    requires late == Partial(fs, setup, repackage, 15)
    ensures OnlyStatus(late.status, Build(fs, setup, repackage).status, ShipImage)
  {
    var again := CompleteIsLate(fs, setup, repackage);
    if !late.skip {
      ShipHandled(setup, late);
    }
  }

  /** If no compile stage failed, whether a complete run ships can be told from the starting files. */
  lemma ShipsFrom(fs: Files, setup: Setup, repackage: bool)
    requires setup.inputs.WellFormed() && Build(fs, setup, repackage).final == Complete
    requires AllCompiled(Build(fs, setup, repackage).status)
    requires !ExitsEarly(fs, setup.inputs, repackage) && !ShipHit(fs, setup.inputs, repackage)
    ensures Ships(fs, setup, repackage)
  {
    var late := CompleteIsLate(fs, setup, repackage);
    StatusKept(fs, setup, repackage, late);
    if !late.skip {
      ShipTestStable(fs, late.world, late.status, setup.inputs, repackage);
    }
  }

  lemma RepackageLive(fs: Files, late: Files, status: map<Stage, Status>, i: Inputs, k: nat)
    requires forall s :: Compiles(s) ==> CompileProgress(fs, late, status, i, true, s, k)
    ensures LiveCurrent(fs, i) <==> LiveCurrent(late, i)
  {
    forall a | Compiles(Owner(a)) ensures Same(fs, late, LivePath(a, i)) {
      HeldLive(fs, late, status, i, k, a);
    }
  }

  lemma HeldLive(fs: Files, late: Files, status: map<Stage, Status>, i: Inputs, k: nat, a: Art)
    requires CompileProgress(fs, late, status, i, true, Owner(a), k)
    ensures Same(fs, late, LivePath(a, i))
  {
    assert Held(Owner(a), LivePath(a, i));
  }

  /** A complete repackage run ends with the current image exactly when the live files were current. */
  lemma RepackageExact(fs: Files, setup: Setup)
    requires setup.inputs.WellFormed()
    requires Build(fs, setup, true).final == Complete && Shipped(Build(fs, setup, true).status)
    ensures Get(Build(fs, setup, true).world, At(OutputDir, OsImage)) == Image(setup.inputs)
            <==> LiveCurrent(fs, setup.inputs)
  {
    var late := CompleteIsLate(fs, setup, true);
    ShippedIsCurrentIff(fs, setup, true);
    RepackageLive(fs, late.world, late.status, setup.inputs, 15);
  }

  /** In an orderly run from sound files, exactly the stages that failed with leave decide whether all
      live files are current. */
  lemma FailedStagesDecide(pins: Pins, fs: Files, setup: Setup, repackage: bool)
    requires Inv(pins, fs) && Admissible(pins, setup.inputs) && (repackage ==> LiveCurrent(fs, setup.inputs))
    requires Orderly(fs, setup, repackage)
    requires var late := Partial(fs, setup, repackage, 15); late.final == Unfinished && !late.skip
    ensures var late := Partial(fs, setup, repackage, 15);
            LiveCurrent(late.world, setup.inputs) <==>
              forall s :: Compiles(s) && HasFailed(late.status, s) ==> StageCurrent(late.world, setup.inputs, s)
  {
    var late, i := Partial(fs, setup, repackage, 15), setup.inputs;
    RunOnTrack(fs, setup, repackage, 15);
    PartialSafe(pins, fs, setup, repackage, 15);
    assert TreesWhole(late.world, i);
    if repackage {
      RepackageLive(fs, late.world, late.status, i, 15);
    } else {
      FailedDecide(pins, fs, late, i);
    }
  }

  lemma FailedDecide(pins: Pins, fs: Files, late: State<Stage, Files>, i: Inputs)
    requires Inv(pins, fs) && TreesInv(pins, late.world) && Admissible(pins, i)
    requires Progress(fs, late.world, late.status, i, false, 15)
    requires ConfigReady(late.world, i) && TreesWhole(late.world, i)
    ensures LiveCurrent(late.world, i) <==>
              forall s :: Compiles(s) && HasFailed(late.status, s) ==> StageCurrent(late.world, i, s)
  {
    if forall s :: Compiles(s) && HasFailed(late.status, s) ==> StageCurrent(late.world, i, s) {
      RestCurrent(pins, fs, late, i, 15);
    }
  }

  /** What a shipping run leaves for the next one. */
  ghost predicate Sealed(fs: Files, i: Inputs) {
    && Holds(fs, MasterHash, Digest(i.Master())) && MasterDone in fs
    && Holds(fs, HashFile(ShipImage), Digest(i.Master()))
    && At(OutputDir, OsImage) in fs
  }

  /** A run that ships, seen from the files `ShipImage` found. */
  lemma ShipRun(fs: Files, setup: Setup, repackage: bool) returns (late: State<Stage, Files>)
    requires setup.inputs.WellFormed() && Ships(fs, setup, repackage)
    requires Build(fs, setup, repackage).final == Complete && Shipped(Build(fs, setup, repackage).status)
    ensures late == Partial(fs, setup, repackage, 15) && OnTrack(fs, setup, repackage, late, 15)
    ensures Holds(late.world, At(WorkDir, OsImage), ImageFrom(late.world, setup.inputs))
    ensures Build(fs, setup, repackage).world == Exec(late.world, ShipOps(late.world, setup.inputs))
  {
    late := CompleteIsLate(fs, setup, repackage);
    StatusKept(fs, setup, repackage, late);
    StagedImage(late.world, late.status, setup.inputs);
    ShipHandled(setup, late);
    var plan := ShipPlan(late.world, setup.inputs, repackage);
    EnteredStatus(late, ShipImage, plan, setup.fates(ShipImage),
                  Handle(Config(setup), StageBody(setup, repackage), late, ShipImage));
  }

  /** Whatever failed with leave before it, packaging included: if `ShipImage` ships, the image is the staged one,
      and valid flags vouch for it. */
  lemma StagedIsShipped(fs: Files, setup: Setup, repackage: bool)
    requires setup.inputs.WellFormed() && Ships(fs, setup, repackage)
    requires Build(fs, setup, repackage).final == Complete && !HasFailed(Build(fs, setup, repackage).status, ShipImage)
    ensures var late, gs := Partial(fs, setup, repackage, 15).world, Build(fs, setup, repackage).world;
            && At(WorkDir, OsImage) in late && Holds(gs, At(OutputDir, OsImage), late[At(WorkDir, OsImage)])
            && Sealed(gs, setup.inputs)
  {
    var late := CompleteIsLate(fs, setup, repackage);
    var plan := ShipPlan(late.world, setup.inputs, repackage);
    ShipHandled(setup, late);
    EnteredStatus(late, ShipImage, plan, setup.fates(ShipImage),
                  Handle(Config(setup), StageBody(setup, repackage), late, ShipImage));
    ShippedState(late.world, setup.inputs);
  }

  lemma ShippingSeals(fs: Files, setup: Setup, repackage: bool)
    requires setup.inputs.WellFormed() && Ships(fs, setup, repackage)
    requires Build(fs, setup, repackage).final == Complete && Shipped(Build(fs, setup, repackage).status)
    ensures Sealed(Build(fs, setup, repackage).world, setup.inputs)
  {
    var late := ShipRun(fs, setup, repackage);
    ShippedState(late.world, setup.inputs);
  }

  lemma SealedPromises(pins: Pins, fs: Files, i: Inputs)
    requires Sealed(fs, i) && Inv(pins, fs) && Admissible(pins, i)
    ensures fs[At(OutputDir, OsImage)] == Image(i)
  {
    assert OutputImage(pins, fs, i.Master());
  }

  /** A complete orderly run that ships keeps what valid flags promise exactly when it ends with the
      current image, and so exactly when the live files of every stage that failed with leave are
      what a clean build gives. */
  lemma LeaveKeepsPromisesIff(pins: Pins, fs: Files, setup: Setup, repackage: bool)
    requires Inv(pins, fs) && Admissible(pins, setup.inputs) && (repackage ==> LiveCurrent(fs, setup.inputs))
    requires Orderly(fs, setup, repackage) && Ships(fs, setup, repackage)
    requires Build(fs, setup, repackage).final == Complete && Shipped(Build(fs, setup, repackage).status)
    ensures var st, late, i := Build(fs, setup, repackage), Partial(fs, setup, repackage, 15), setup.inputs;
            var current := Get(st.world, At(OutputDir, OsImage)) == Image(i);
            && (Inv(pins, st.world) <==> current)
            && (current <==>
                  forall s :: Compiles(s) && HasFailed(late.status, s) ==> StageCurrent(late.world, i, s))
  {
    var late := ShipRun(fs, setup, repackage);
    var i := setup.inputs;
    ShippedIsCurrentIff(fs, setup, repackage);
    FailedStagesDecide(pins, fs, setup, repackage);
    ShippingSeals(fs, setup, repackage);
    if Inv(pins, Build(fs, setup, repackage).world) {
      SealedPromises(pins, Build(fs, setup, repackage).world, i);
    } else if LiveCurrent(late.world, i) {
      CurrentParts(late.world, i);
      PartialSafe(pins, fs, setup, repackage, 15);
      LateSafe(pins, fs, setup, late);
      var again := CompleteIsLate(fs, setup, repackage);
    }
  }
}
