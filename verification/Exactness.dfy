/** Where the hypotheses of the main theorem come from: what building one version leaves behind for
    another, and when that makes the next image wrong. */
module Exactness {
  import opened Store
  import opened Cache
  import opened RunLoop
  import opened CompileStages
  import opened ShipStages
  import opened BuildRun
  import opened BuildSafety
  import opened Completion
  import opened Histories
  import opened Deliveries

  // What a shipping run leaves

  lemma {:induction false} ShipEachCache(fs: Files, arts: seq<Art>, a: Art, b: Blob)
    requires (a in arts ==> Holds(fs, At(Workspace, a), b)) && Holds(fs, At(Cache, a), b)
    ensures Holds(Exec(fs, ShipEach(arts)), At(Cache, a), b)
    decreases |arts|
  {
    if arts != [] {
      var live := At(Workspace, arts[0]);
      var pair := [Copy(live, At(OutputDir, arts[0])), Install(live, At(Cache, arts[0]))];
      ExecAppend(fs, pair, ShipEach(arts[1..]));
      ExecTwo(fs, pair[0], pair[1]);
      ShipEachCache(Exec(fs, pair), arts[1..], a, b);
    }
  }

  predicate WholeImageFile(p: Path) {
    SealFile(p) || p == At(OutputDir, OsImage) || p == At(Cache, OsImage)
  }

  lemma FrontKeeps(fs: Files, p: Path)
    requires !WholeImageFile(p)
    ensures Same(fs, Exec(fs, CLEAR_SHIP + SHIP_IMAGE), p)
  {
    ExecFrame(fs, CLEAR_SHIP + SHIP_IMAGE, p);
  }

  /** Shipping leaves everything but flags, images and exported binaries as it was. */
  lemma ShipKeeps(fs: Files, i: Inputs, p: Path)
    requires !WholeImageFile(p) && !(p.At? && p.place in {OutputDir, Cache})
    ensures Same(fs, Exec(fs, ShipOps(fs, i)), p)
  {
    var bins := Present(fs, Workspace, SHIPPED);
    var front, each := CLEAR_SHIP + SHIP_IMAGE, ShipEach(bins);
    ExecAppend(fs, front + each, SealOps(i));
    ExecAppend(fs, front, each);
    FrontKeeps(fs, p);
    ShipEachFrame(Exec(fs, front), bins, p);
    SealState(Exec(fs, front + each), i);
    assert Same(Exec(fs, front + each), Exec(fs, ShipOps(fs, i)), p);
  }

  lemma ShipKeepsCached(fs: Files, i: Inputs, a: Art, b: Blob)
    requires a != OsImage && Holds(fs, LivePath(a, i), b) && Holds(fs, At(Cache, a), b)
    ensures Holds(Exec(fs, ShipOps(fs, i)), At(Cache, a), b)
  {
    var bins := Present(fs, Workspace, SHIPPED);
    var front, each := CLEAR_SHIP + SHIP_IMAGE, ShipEach(bins);
    ExecAppend(fs, front + each, SealOps(i));
    ExecAppend(fs, front, each);
    FrontKeeps(fs, At(Cache, a));
    FrontKeeps(fs, At(Workspace, a));
    if a in bins {
      BinsCompiled(a);
    }
    ShipEachCache(Exec(fs, front), bins, a, b);
    SealState(Exec(fs, front + each), i);
    assert Same(Exec(fs, front + each), Exec(fs, ShipOps(fs, i)), At(Cache, a));
  }

  /** Artifact `a` is live and cached as `b`, under valid flags with key `key`. */
  ghost predicate CachedAs(fs: Files, i: Inputs, a: Art, b: Blob, key: Hash) {
    Compiled(fs, i, a, b) && Flagged(fs, Owner(a)) && fs[HashFile(Owner(a))].hash == key
  }

  lemma ShipKeepsFlags(w: Files, i: Inputs, s: Stage)
    requires Compiles(s)
    ensures var gs := Exec(w, ShipOps(w, i)); Same(w, gs, HashFile(s)) && Same(w, gs, DoneFile(s))
  {
    ShipKeeps(w, i, HashFile(s));
    ShipKeeps(w, i, DoneFile(s));
  }

  lemma ShipKeepsLive(w: Files, i: Inputs, a: Art)
    ensures Same(w, Exec(w, ShipOps(w, i)), LivePath(a, i))
  {
    ShipKeeps(w, i, LivePath(a, i));
  }

  lemma ShipKeepsStage(w: Files, i: Inputs, a: Art, b: Blob, key: Hash)
    requires Compiles(Owner(a)) && CachedAs(w, i, a, b, key)
    ensures CachedAs(Exec(w, ShipOps(w, i)), i, a, b, key)
  {
    ShipKeepsCached(w, i, a, b);
    ShipKeepsLive(w, i, a);
    ShipKeepsFlags(w, i, Owner(a));
    StoredStays(w, Exec(w, ShipOps(w, i)), i, a, b, key);
  }

  lemma StoredStays(fs: Files, gs: Files, i: Inputs, a: Art, b: Blob, key: Hash)
    requires CachedAs(fs, i, a, b, key) && Holds(gs, At(Cache, a), b) && Same(fs, gs, LivePath(a, i))
    requires Same(fs, gs, HashFile(Owner(a))) && Same(fs, gs, DoneFile(Owner(a)))
    ensures CachedAs(gs, i, a, b, key)
  {
  }

  /** After a shipping run in which stage `Owner(a)` passed, its artifact is live and cached as the run
      made it, under valid flags for the current key. */
  lemma ShippingCaches(fs: Files, setup: Setup, a: Art)
    requires setup.inputs.WellFormed() && Compiles(Owner(a)) && Ships(fs, setup, false)
    requires Build(fs, setup, false).final == Complete && Shipped(Build(fs, setup, false).status)
    requires !HasFailed(Build(fs, setup, false).status, Owner(a))
    ensures var gs, late := Build(fs, setup, false).world, Partial(fs, setup, false, 15).world;
            CachedAs(gs, setup.inputs, a, Product(fs, late, setup.inputs, a), Key(Owner(a), setup.inputs))
  {
    var late := ShipRun(fs, setup, false);
    StatusKept(fs, setup, false, late);
    FinishedAt(fs, late.world, late.status, setup.inputs, a, 15);
    ShipKeepsStage(late.world, setup.inputs, a, Product(fs, late.world, setup.inputs, a), Key(Owner(a), setup.inputs));
  }

  // What a run does not change

  /** A compiled file in a source tree that the sources of a run do not look at. */
  predicate OtherTree(p: Path, i: Inputs) {
    p.At? && p.place.Tree? && p != LivePath(p.art, i)
  }

  /** Compiled files of other versions, source trees that are there, and the configurations of other kernels. */
  predicate Left(fs: Files, i: Inputs, p: Path) {
    || OtherTree(p, i)
    || (p in fs && (p.SourceTree? || (p.KernelConfig? && p.version != i.linuxVer)))
  }

  lemma LeftNotWritten(s: Stage, fs: Files, i: Inputs, repackage: bool, p: Path)
    requires Left(fs, i, p) && s != ShipImage
    ensures !MayWrite(s, i, fs, repackage, p)
  {
  }

  lemma PlanLeaves(s: Stage, fs: Files, i: Inputs, repackage: bool, l: Scene, failed: set<Stage>, fate: Fate, p: Path)
    requires Left(fs, i, p)
    ensures Same(fs, StoppedAt(fs, PlanOf(s, fs, i, repackage, l, failed), fate), p)
  {
    if s == ShipImage {
      ShipLeavesTree(fs, i, repackage, fate, p);
    } else {
      LeftNotWritten(s, fs, i, repackage, p);
      PlanFrames(s, fs, i, repackage, l, failed, fate);
    }
  }

  lemma HandleLeaves(setup: Setup, st: State<Stage, Files>, s: Stage, p: Path)
    requires Left(st.world, setup.inputs, p) && st.final == Unfinished
    ensures Same(st.world, Handle(Config(setup), StageBody(setup, st.repackage), st, s).world, p)
  {
    if !Bypassed(Config(setup), st, s) {
      BodyPerforms(setup, st, s);
      HandlePerforms(Config(setup), StageBody(setup, st.repackage), st, s, PlanIn(setup, st, s), setup.fates(s));
      PlanLeaves(s, st.world, setup.inputs, st.repackage, setup.scene,
                 FailedWithLeave(st.status[s := Running], setup.allowed), setup.fates(s), p);
    }
  }

  /** No run changes a source tree that is there, the configuration of another kernel, or the compiled
      files of another version. */
  lemma {:induction false} TreesKept(fs: Files, setup: Setup, repackage: bool, k: nat, p: Path)
    requires Left(fs, setup.inputs, p) && k <= 16
    ensures Same(fs, Partial(fs, setup, repackage, k).world, p)
    decreases k
  {
    if k > 0 {
      TreesKept(fs, setup, repackage, k - 1, p);
      PartialNext(fs, setup, repackage, k - 1);
      var st := Partial(fs, setup, repackage, k - 1);
      NeverComplete(Config(setup), StageBody(setup, repackage), ORDER, Start(fs, repackage), k - 1);
      ModeIsKept(Config(setup), StageBody(setup, repackage), ORDER, Start(fs, repackage), k - 1);
      if st.final != Fatal {
        HandleLeaves(setup, st, ORDER[k - 1], p);
      }
    }
  }

  /** The image of an undisturbed run is wrong if some compiled file is. */
  lemma WrongFile(fs: Files, setup: Setup, a: Art)
    requires setup.inputs.WellFormed() && Undisturbed(fs, setup, false) && Compiles(Owner(a))
    requires !ExitsEarly(fs, setup.inputs, false) && !ShipHit(fs, setup.inputs, false)
    requires Product(fs, Partial(fs, setup, false, 15).world, setup.inputs, a) != Fresh(a, setup.inputs)
    ensures var st := Build(fs, setup, false);
            st.final == Complete && Get(st.world, At(OutputDir, OsImage)) != Image(setup.inputs)
  {
    UndisturbedCompletes(fs, setup, false);
    ShipsFrom(fs, setup, false);
    ShippedIsCurrentIff(fs, setup, false);
    var late := UndisturbedLate(fs, setup, false);
    FinishedAt(fs, late.world, late.status, setup.inputs, a, 15);
  }

  /** A source tree that is not of the current tarball, or is torn, is kept, and compiling over it completes
      with a wrong image; clearing the flags does not help. */
  lemma StaleTreeShips(fs: Files, setup: Setup, a: Art, p: Path)
    requires setup.inputs.WellFormed() && Undisturbed(fs, setup, false) && Compiles(Owner(a))
    requires !ExitsEarly(fs, setup.inputs, false) && !ShipHit(fs, setup.inputs, false)
    requires !Restores(fs, setup.inputs, Owner(a)) && p in Reads(a, setup.inputs)
    requires Left(fs, setup.inputs, p) && Get(fs, p) != Get(Pristine(setup.inputs), p)
    ensures var st := Build(fs, setup, false);
            st.final == Complete && Get(st.world, At(OutputDir, OsImage)) != Image(setup.inputs)
  {
    var late := Partial(fs, setup, false, 15).world;
    TreesKept(fs, setup, false, 15, p);
    CompileFreshIff(late, a, setup.inputs);
    WrongFile(fs, setup, a);
  }

  // One version after another

  /** The files after one clean build of `i`. */
  ghost predicate BuiltOnce(fs: Files, i: Inputs) {
    && Sealed(fs, i) && Holds(fs, At(OutputDir, OsImage), Image(i))
    && (forall a :: Compiles(Owner(a)) ==> CachedAs(fs, i, a, Fresh(a, i), Key(Owner(a), i)))
    && (forall p <- Trees(i) :: Holds(fs, p, Get(Pristine(i), p)))
    && Holds(fs, KernelConfig(i.linuxVer), Configured(true))
    && TreesInv(PinsFor(i), fs)
  }

  /** An undisturbed run from sound files ships what it should, if it ships. */
  lemma CurrentProduct(pins: Pins, fs: Files, setup: Setup, a: Art)
    requires Inv(pins, fs) && Admissible(pins, setup.inputs) && Undisturbed(fs, setup, false)
    requires TreesWhole(fs, setup.inputs) && !ExitsEarly(fs, setup.inputs, false) && Compiles(Owner(a))
    ensures Product(fs, Partial(fs, setup, false, 15).world, setup.inputs, a) == Fresh(a, setup.inputs)
  {
    var i := setup.inputs;
    var late := UndisturbedLate(fs, setup, false);
    UndisturbedIsSafe(fs, setup, false);
    PartialSafe(pins, fs, setup, false, 15);
    assert TreesWhole(late.world, i);
    FinishedAt(fs, late.world, late.status, i, a, 15);
    OutcomeCurrent(pins, fs, late.world, i, a);
  }

  /** A run that ships and in which nothing fails. */
  lemma UndisturbedSeals(fs: Files, setup: Setup)
    requires setup.inputs.WellFormed() && Undisturbed(fs, setup, false)
    requires !ExitsEarly(fs, setup.inputs, false) && !ShipHit(fs, setup.inputs, false)
    ensures var st := Build(fs, setup, false);
            && Ships(fs, setup, false) && st.final == Complete && Sealed(st.world, setup.inputs)
            && TreesThere(st.world, setup.inputs) && forall s :: !HasFailed(st.status, s)
  {
    UndisturbedCompletes(fs, setup, false);
    ShipsFrom(fs, setup, false);
    ShippingSeals(fs, setup, false);
    UndisturbedTrees(fs, setup);
  }

  lemma UndisturbedTrees(fs: Files, setup: Setup)
    requires setup.inputs.WellFormed() && Undisturbed(fs, setup, false) && Ships(fs, setup, false)
    requires Build(fs, setup, false).final == Complete && Shipped(Build(fs, setup, false).status)
    ensures TreesThere(Build(fs, setup, false).world, setup.inputs)
  {
    var late := ShipRun(fs, setup, false);
    var again := UndisturbedLate(fs, setup, false);
    ShippedTrees(late.world, setup.inputs);
  }

  lemma ShippedTrees(w: Files, i: Inputs)
    requires TreesThere(w, i)
    ensures TreesThere(Exec(w, ShipOps(w, i)), i)
  {
    forall p | p in Trees(i) ensures p in Exec(w, ShipOps(w, i)) {
      ShippedTree(w, i, p);
    }
  }

  lemma ShippedTree(w: Files, i: Inputs, p: Path)
    requires p in Trees(i) && p in w
    ensures p in Exec(w, ShipOps(w, i))
  {
    TreesPristine(i, p);
    ShipKeeps(w, i, p);
  }

  lemma FirstCaches(i: Inputs, a: Art)
    requires i.WellFormed() && Compiles(Owner(a))
    ensures var s := CleanBuild(i);
            && CachedAs(s.files, i, a, Fresh(a, i), Key(Owner(a), i)) && Sealed(s.files, i)
            && TreesThere(s.files, i)
  {
    var fs, setup := EmptyServer(i).files, SetupFor(i, SMOOTH);
    OwnPins(i);
    UnbuiltInv(PinsFor(i), EmptyServer(i));
    CurrentProduct(PinsFor(i), fs, setup, a);
    UndisturbedSeals(fs, setup);
    ShippingCaches(fs, setup, a);
  }

  /** The server after one clean build. */
  lemma FirstBuild(i: Inputs)
    requires i.WellFormed()
    ensures var s := CleanBuild(i);
            s.last == Complete && s.inputs == i && !s.repackageOnly && BuiltOnce(s.files, i)
  {
    var s, pins := CleanBuild(i), PinsFor(i);
    CleanBuildDelivers(i, {});
    OwnPins(i);
    UnbuiltInv(pins, EmptyServer(i));
    SmoothIsCareful(EmptyServer(i), SMOOTH);
    RunKeeps(pins, EmptyServer(i), SMOOTH);
    forall a | Compiles(Owner(a)) ensures CachedAs(s.files, i, a, Fresh(a, i), Key(Owner(a), i)) {
      FirstCaches(i, a);
    }
    FirstCaches(i, BzImage);
    FirstTrees(pins, s.files, i);
  }

  lemma FirstTree(pins: Pins, fs: Files, i: Inputs, p: Path)
    requires Inv(pins, fs) && Admissible(pins, i) && p in Trees(i) && p in fs
    ensures Holds(fs, p, Get(Pristine(i), p))
  {
    TreesPristine(i, p);
    PristinePinned(pins, i, p);
    assert TreeSound(pins, p, fs[p]);
  }

  lemma FirstTrees(pins: Pins, fs: Files, i: Inputs)
    requires Inv(pins, fs) && Admissible(pins, i) && TreesThere(fs, i)
    requires CachedAs(fs, i, BzImage, Fresh(BzImage, i), Key(CompileKernel, i))
    ensures forall p <- Trees(i) :: Holds(fs, p, Get(Pristine(i), p))
    ensures Holds(fs, KernelConfig(i.linuxVer), Configured(true))
  {
    forall p | p in Trees(i) ensures Holds(fs, p, Get(Pristine(i), p)) {
      FirstTree(pins, fs, i, p);
    }
    FirstConfiguration(pins, fs, i);
  }

  lemma FirstConfiguration(pins: Pins, fs: Files, i: Inputs)
    requires StageInv(pins, fs, CompileKernel) && Admissible(pins, i)
    requires Flagged(fs, CompileKernel) && fs[HashFile(CompileKernel)].hash == Key(CompileKernel, i)
    ensures Holds(fs, KernelConfig(i.linuxVer), Configured(true))
  {
    assert Owner(BzImage) == CompileKernel;
    assert Sound(pins, fs, BzImage, Key(CompileKernel, i)) && SoundFor(fs, BzImage, i);
  }

  lemma FreshDiffer(i: Inputs, j: Inputs, a: Art, p: Path)
    requires p in Reads(a, j) && Get(Pristine(i), p) != Get(Pristine(j), p)
    ensures Fresh(a, i) != Fresh(a, j)
  {
    if Reads(a, i) == Reads(a, j) {
      SeenIff(Pristine(i), Pristine(j), Reads(a, j));
    } else if Seen(Pristine(i), Reads(a, i)) == Seen(Pristine(j), Reads(a, j)) {
      SameReadsIfSame(i, j, a);
    }
  }

  /** What a compilation has read shows which versions it read. */
  lemma SameReadsIfSame(i: Inputs, j: Inputs, a: Art)
    requires Seen(Pristine(i), Reads(a, i)) == Seen(Pristine(j), Reads(a, j))
    ensures Reads(a, i) == Reads(a, j)
  {
    var seen, also := Seen(Pristine(i), Reads(a, i)), Seen(Pristine(j), Reads(a, j));
    SeenAt(Pristine(i), Reads(a, i));
    SeenAt(Pristine(j), Reads(a, j));
    forall k | 0 <= k < |seen| && Reads(a, i)[k].SourceTree? ensures Reads(a, i)[k] == Reads(a, j)[k] {
      assert seen[k] == also[k];
      UnpackedNames(i, a, k);
      UnpackedNames(j, a, k);
    }
  }

  lemma {:induction false} SeenAt(fs: Files, ps: seq<Path>)
    ensures |Seen(fs, ps)| == |ps| && forall k :: 0 <= k < |ps| ==> Seen(fs, ps)[k] == Get(fs, ps[k])
    decreases |ps|
  {
    if ps != [] {
      SeenAt(fs, ps[1..]);
    }
  }

  lemma UnpackedNames(i: Inputs, a: Art, k: nat)
    requires k < |Reads(a, i)| && Reads(a, i)[k].SourceTree?
    ensures var p, b := Reads(a, i)[k], Get(Pristine(i), Reads(a, i)[k]);
            b.Unpacked? && b.package == p.package && b.version == p.version
  {
  }

  lemma ImagesOfDiffer(i: Inputs, j: Inputs, a: Art)
    requires Compiles(Owner(a)) && Fresh(a, i) != Fresh(a, j)
    ensures Image(i) != Image(j)
  {
    if a != BzImage {
      var f, g: Live := c => Fresh(c, i), c => Fresh(c, j);
      SlotOf(i, a);
      SlotOf(j, a);
      PartAt(f, RootfsTargets(i), Slot(a));
      PartAt(g, RootfsTargets(j), Slot(a));
    }
  }

  /** A run that exits early serves what was there. */
  lemma ExitServes(fs: Files, setup: Setup)
    requires setup.inputs.WellFormed() && Undisturbed(fs, setup, false)
    requires MasterHit(fs, setup.inputs, false) && At(OutputDir, OsImage) in fs
    ensures var st := Build(fs, setup, false);
            st.final == Complete && Holds(st.world, At(OutputDir, OsImage), fs[At(OutputDir, OsImage)])
  {
    UndisturbedCompletes(fs, setup, false);
    CompleteDelivers(fs, setup, false);
    var late := UndisturbedLate(fs, setup, false);
    assert Through(late.status, CheckEarlyExit, 15);
  }

  /** After a clean build of `i`, a build of `j` completes with a wrong image if it reads a tree of `i`
      that is not its own. */
  lemma LeftoverMisleads(fs: Files, i: Inputs, setup: Setup, a: Art, p: Path)
    requires setup.inputs.WellFormed() && Undisturbed(fs, setup, false) && Compiles(Owner(a)) && BuiltOnce(fs, i)
    requires p in Reads(a, setup.inputs) && Left(fs, setup.inputs, p) && Get(fs, p) == Get(Pristine(i), p)
    requires Get(Pristine(i), p) != Get(Pristine(setup.inputs), p)
    ensures var st := Build(fs, setup, false);
            st.final == Complete && Get(st.world, At(OutputDir, OsImage)) != Image(setup.inputs)
  {
    var j := setup.inputs;
    FreshDiffer(i, j, a, p);
    if i.Master() == j.Master() {
      ServedMisleads(fs, i, setup, a);
    } else if Restores(fs, j, Owner(a)) {
      RestoredMisleads(fs, i, setup, a);
    } else {
      StaleTreeShips(fs, setup, a, p);
    }
  }

  lemma ServedMisleads(fs: Files, i: Inputs, setup: Setup, a: Art)
    requires setup.inputs.WellFormed() && Undisturbed(fs, setup, false) && Compiles(Owner(a)) && BuiltOnce(fs, i)
    requires i.Master() == setup.inputs.Master() && Fresh(a, i) != Fresh(a, setup.inputs)
    ensures var st := Build(fs, setup, false);
            st.final == Complete && Get(st.world, At(OutputDir, OsImage)) != Image(setup.inputs)
  {
    ExitServes(fs, setup);
    ImagesOfDiffer(i, setup.inputs, a);
  }

  lemma RestoredMisleads(fs: Files, i: Inputs, setup: Setup, a: Art)
    requires setup.inputs.WellFormed() && Undisturbed(fs, setup, false) && Compiles(Owner(a)) && BuiltOnce(fs, i)
    requires Restores(fs, setup.inputs, Owner(a)) && Fresh(a, i) != Fresh(a, setup.inputs)
    requires i.Master() != setup.inputs.Master()
    ensures var st := Build(fs, setup, false);
            st.final == Complete && Get(st.world, At(OutputDir, OsImage)) != Image(setup.inputs)
  {
    assert CachedAs(fs, i, a, Fresh(a, i), Key(Owner(a), i));
    WrongFile(fs, setup, a);
  }

  lemma StayingTree(fs: Files, i: Inputs, j: Inputs, p: Path)
    requires BuiltOnce(fs, i) && (p in Trees(i) || (p == KernelConfig(i.linuxVer) && i.linuxVer != j.linuxVer))
    ensures Left(fs, j, p) && Get(fs, p) == Get(Pristine(i), p)
  {
    if p in Trees(i) {
      TreesPristine(i, p);
      assert Holds(fs, p, Get(Pristine(i), p));
    }
  }

  lemma TreeOfHeaders(i: Inputs)
    requires i.WellFormed()
    ensures SourceTree(Linux, i.headers) in Trees(i)
    ensures Get(Pristine(i), SourceTree(Linux, i.headers)) == Unpacked(Linux, i.headers, i.headersTar)
    ensures Get(Pristine(i), KernelConfig(i.headers)) == Configured(i.headers == i.linuxVer)
  {
    var ps := Trees(i);
    assert ps[0] in ps && (i.headers != i.linuxVer ==> ps[5] in ps);
  }

  function Compiler(q: Package): Art {
    match q
    case Linux => BzImage
    case Busybox => BusyboxInstall
    case _ => S6Install
  }

  /** A tree or configuration that building `i` leaves, that compiling `a` for `j` reads, and that is not what
      `j` has it to be. */
  ghost predicate Misleads(i: Inputs, j: Inputs, a: Art, p: Path) {
    && p in Reads(a, j) && Get(Pristine(i), p) != Get(Pristine(j), p)
    && (p in Trees(i) || (p == KernelConfig(i.linuxVer) && i.linuxVer != j.linuxVer))
  }

  /** The leftovers that mislead: a tree of the same version from another tarball, for a package or for the
      headers, and the configuration that a kernel has left in the headers tree of another version. */
  lemma MisledWhere(i: Inputs, j: Inputs) returns (a: Art, p: Path)
    requires i.WellFormed() && j.WellFormed() && !Compatible(i, j)
    requires i.kernelDir == j.kernelDir ==> i.headers == j.headers
    ensures Compiles(Owner(a)) && Misleads(i, j, a, p)
  {
    if q :| i.Version(q) == j.Version(q) && i.Tarball(q) != j.Tarball(q) {
      PackageMisleads(i, j, q);
      a, p := Compiler(q), SourceTree(q, i.Version(q));
    } else if i.headers == j.headers && i.headersTar != j.headersTar {
      HeadersMislead(i, j);
      a, p := PronzeKo, SourceTree(Linux, i.headers);
    } else {
      ConfigurationMisleads(i, j);
      a, p := PronzeKo, KernelConfig(i.linuxVer);
    }
  }

  lemma PackageMisleads(i: Inputs, j: Inputs, q: Package)
    requires i.Version(q) == j.Version(q) && i.Tarball(q) != j.Tarball(q)
    ensures Misleads(i, j, Compiler(q), SourceTree(q, i.Version(q)))
  {
    PackageTree(i, q);
    PackageTree(j, q);
  }

  lemma HeadersMislead(i: Inputs, j: Inputs)
    requires i.WellFormed() && j.WellFormed() && i.headers == j.headers && i.headersTar != j.headersTar
    ensures Misleads(i, j, PronzeKo, SourceTree(Linux, i.headers))
  {
    TreeOfHeaders(i);
    TreeOfHeaders(j);
  }

  lemma ConfigurationMisleads(i: Inputs, j: Inputs)
    requires j.WellFormed() && i.linuxVer == j.headers && j.linuxVer != j.headers
    ensures Misleads(i, j, PronzeKo, KernelConfig(i.linuxVer))
  {
    TreeOfHeaders(j);
  }

  lemma MisledBuild(fs: Files, i: Inputs, setup: Setup, a: Art, p: Path)
    requires setup.inputs.WellFormed() && Undisturbed(fs, setup, false) && Compiles(Owner(a)) && BuiltOnce(fs, i)
    requires Misleads(i, setup.inputs, a, p)
    ensures var st := Build(fs, setup, false);
            st.final == Complete && Get(st.world, At(OutputDir, OsImage)) != Image(setup.inputs)
  {
    StayingTree(fs, i, setup.inputs, p);
    LeftoverMisleads(fs, i, setup, a, p);
  }

  /** With the same digest of `kernel/` and other headers, the module has the same key and is another file. */
  lemma ModulesDiffer(i: Inputs, j: Inputs) returns (a: Art)
    requires i.kernelDir == j.kernelDir && i.headers != j.headers
    ensures Compiles(Owner(a)) && Key(Owner(a), i) == Key(Owner(a), j) && Fresh(a, i) != Fresh(a, j)
  {
    a := PronzeKo;
    if Fresh(a, i) == Fresh(a, j) {
      SameReadsIfSame(i, j, a);
      assert false;
    }
  }

  lemma SameKeyRestores(fs: Files, i: Inputs, j: Inputs, s: Stage)
    requires forall a :: Compiles(Owner(a)) ==> CachedAs(fs, i, a, Fresh(a, i), Key(Owner(a), i))
    requires Compiles(s) && Key(s, i) == Key(s, j)
    ensures Restores(fs, j, s)
  {
    forall a | a in Artifacts(s) ensures At(Cache, a) in fs && Flagged(fs, s) && fs[HashFile(s)].hash == Key(s, i) {
      ArtifactsOwned(s, a);
      assert CachedAs(fs, i, a, Fresh(a, i), Key(Owner(a), i));
    }
    assert Artifacts(s)[0] in Artifacts(s);
  }

  /** A cache key that is the same for two versions whose artifact is not misleads. */
  lemma KeyMisleads(fs: Files, i: Inputs, setup: Setup, a: Art)
    requires setup.inputs.WellFormed() && Undisturbed(fs, setup, false) && Compiles(Owner(a)) && BuiltOnce(fs, i)
    requires Key(Owner(a), i) == Key(Owner(a), setup.inputs) && Fresh(a, i) != Fresh(a, setup.inputs)
    ensures var st := Build(fs, setup, false);
            st.final == Complete && Get(st.world, At(OutputDir, OsImage)) != Image(setup.inputs)
  {
    if i.Master() == setup.inputs.Master() {
      ServedMisleads(fs, i, setup, a);
    } else {
      SameKeyRestores(fs, i, setup.inputs, Owner(a));
      RestoredMisleads(fs, i, setup, a);
    }
  }

  /** Same digest of `kernel/`, other headers: the module is restored, because its key ignores the headers. */
  lemma HeadersMatter(fs: Files, i: Inputs, setup: Setup)
    requires setup.inputs.WellFormed() && Undisturbed(fs, setup, false) && BuiltOnce(fs, i)
    requires i.kernelDir == setup.inputs.kernelDir && i.headers != setup.inputs.headers
    ensures var st := Build(fs, setup, false);
            st.final == Complete && Get(st.world, At(OutputDir, OsImage)) != Image(setup.inputs)
  {
    var a := ModulesDiffer(i, setup.inputs);
    KeyMisleads(fs, i, setup, a);
  }

  /** The build of `j` after a clean build of `i`. */
  function Second(i: Inputs, j: Inputs): Server {
    RunBuild(CleanBuild(i).(inputs := j, last := Unfinished), SMOOTH)
  }

  /** Building one version and then another completes with a wrong image whenever the leftovers of the first
      have to do with the second. */
  lemma IncompatibleIsWrong(i: Inputs, j: Inputs)
    requires i.WellFormed() && j.WellFormed() && !Compatible(i, j)
    ensures var t := Second(i, j); t.last == Complete && Get(t.files, At(OutputDir, OsImage)) != Image(j)
  {
    FirstBuild(i);
    var fs, setup := CleanBuild(i).files, SetupFor(j, SMOOTH);
    if i.kernelDir == j.kernelDir && i.headers != j.headers {
      HeadersMatter(fs, i, setup);
    } else {
      var a, p := MisledWhere(i, j);
      MisledBuild(fs, i, setup, a, p);
    }
  }

  /** Over a set of versions, incremental building always agrees with clean building exactly
      when what no cache key shows is the same for all of them. */
  lemma SafeVersionsIff(versions: set<Inputs>)
    requires forall i <- versions :: i.WellFormed()
    ensures Determined(versions) <==>
        forall s: Server, es: seq<Event> ::
          Unbuilt(s) && History(versions, s, es) && Histories.After(s, es).last == Complete ==>
          Get(Histories.After(s, es).files, At(OutputDir, OsImage)) == Image(Histories.After(s, es).inputs)
  {
    if Determined(versions) {
      forall s: Server, es: seq<Event> |
        Unbuilt(s) && History(versions, s, es) && Histories.After(s, es).last == Complete
        ensures Get(Histories.After(s, es).files, At(OutputDir, OsImage)) == Image(Histories.After(s, es).inputs)
      {
        forall i | i in versions ensures Admissible(PinsOf(versions), i) {
          DeterminedAdmissible(versions, i);
        }
        InvAlways(PinsOf(versions), versions, s, es);
      }
    } else {
      var i, j :| i in versions && j in versions && !Compatible(i, j);
      WrongHistory(versions, i, j);
    }
  }

  lemma WholeForAnother(fs: Files, i: Inputs, j: Inputs)
    requires TreesInv(PinsFor(i), fs) && Holds(fs, KernelConfig(i.linuxVer), Configured(true))
    ensures TreesWhole(fs, j)
  {
    forall p | Watched(j, p) ensures !Holds(fs, p, Torn) {
      assert p in fs ==> TreeSound(PinsFor(i), p, fs[p]);
    }
    WholeIsUntorn(fs, j);
  }

  /** Both runs are careful. */
  lemma TwoCareful(i: Inputs, j: Inputs)
    requires i.WellFormed() && j.WellFormed()
    ensures CarefulRun(EmptyServer(i), SMOOTH) && CarefulRun(CleanBuild(i).(inputs := j, last := Unfinished), SMOOTH)
  {
    SmoothIsCareful(EmptyServer(i), SMOOTH);
    FirstBuild(i);
    WholeForAnother(CleanBuild(i).files, i, j);
    SmoothIsCareful(CleanBuild(i).(inputs := j, last := Unfinished), SMOOTH);
  }

  lemma WrongHistory(versions: set<Inputs>, i: Inputs, j: Inputs)
    requires i in versions && j in versions && i.WellFormed() && j.WellFormed() && !Compatible(i, j)
    ensures exists s: Server, es: seq<Event> ::
        && Unbuilt(s) && History(versions, s, es) && Histories.After(s, es).last == Complete
        && Get(Histories.After(s, es).files, At(OutputDir, OsImage)) != Image(Histories.After(s, es).inputs)
  {
    var s := EmptyServer(i);
    var es := [BuildRequest(SMOOTH), Edit(j), BuildRequest(SMOOTH)];
    TwoCareful(i, j);
    IncompatibleIsWrong(i, j);
    EditHistory(versions, s, j, SMOOTH);
    Witness(versions, s, es, Second(i, j));
  }

  lemma Witness(versions: set<Inputs>, s: Server, es: seq<Event>, t: Server)
    requires Unbuilt(s) && History(versions, s, es) && t == Histories.After(s, es)
    requires t.last == Complete && Get(t.files, At(OutputDir, OsImage)) != Image(t.inputs)
    ensures exists s: Server, es: seq<Event> ::
        && Unbuilt(s) && History(versions, s, es) && Histories.After(s, es).last == Complete
        && Get(Histories.After(s, es).files, At(OutputDir, OsImage)) != Image(Histories.After(s, es).inputs)
  {
  }

  /** Building, editing and building again is a history. */
  lemma EditHistory(versions: set<Inputs>, s: Server, j: Inputs, luck: Luck)
    requires s.inputs in versions && j in versions
    requires CarefulRun(s, luck) && CarefulRun(RunBuild(s, luck).(inputs := j, last := Unfinished), luck)
    ensures var es := [BuildRequest(luck), Edit(j), BuildRequest(luck)];
            && History(versions, s, es)
            && Histories.After(s, es) == RunBuild(RunBuild(s, luck).(inputs := j, last := Unfinished), luck)
  {
    ThreeHistory(versions, s, BuildRequest(luck), Edit(j), BuildRequest(luck));
    ThreeEvents(s, BuildRequest(luck), Edit(j), BuildRequest(luck));
  }

  lemma ThreeHistory(versions: set<Inputs>, s: Server, a: Event, b: Event, c: Event)
    requires s.inputs in versions && forall e <- [a, b, c] :: e.Edit? ==> e.inputs in versions
    requires Careful(s, a) && Careful(Step(s, a), b) && Careful(Step(Step(s, a), b), c)
    ensures History(versions, s, [a, b, c])
  {
    ThreeEvents(s, a, b, c);
    var es := [a, b, c];
    forall k | 0 <= k < |es| ensures Careful(Histories.After(s, es[..k]), es[k]) {
      assert k == 0 || k == 1 || k == 2;
    }
  }

  lemma ThreeEvents(s: Server, a: Event, b: Event, c: Event)
    ensures var es := [a, b, c];
            && Histories.After(s, es[..0]) == s
            && Histories.After(s, es[..1]) == Step(s, a)
            && Histories.After(s, es[..2]) == Step(Step(s, a), b)
            && Histories.After(s, es) == Step(Step(Step(s, a), b), c)
  {
  }
}
