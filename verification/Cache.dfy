/** The two levels of the build cache: what a valid pair of flags promises about the
    cached files, and which file operations keep that promise. */
module Cache {
  import opened Store

  predicate Compiles(s: Stage) {
    || s.CompileKernel? || s.CompileBusybox? || s.CompileS6?
    || s.CompileKernelModule? || s.CompileSDK? || s.CompileDaemon?
  }

  /** The files a compile stage caches, in the order it handles them. */
  function Artifacts(s: Stage): seq<Art> {
    match s
    case CompileKernel => [BzImage]
    case CompileBusybox => [BusyboxInstall]
    case CompileS6 => [S6Install]
    case CompileKernelModule => [PronzeKo]
    case CompileSDK => [LibPronze, TestAlloc, TestBounds, TestZig, TestRust]
    case CompileDaemon => [Pronzed]
    case _ => []
  }

  function Owner(a: Art): Stage {
    match a
    case BzImage => CompileKernel
    case BusyboxInstall => CompileBusybox
    case S6Install => CompileS6
    case PronzeKo => CompileKernelModule
    case LibPronze | TestAlloc | TestBounds | TestZig | TestRust => CompileSDK
    case Pronzed => CompileDaemon
    case OsImage => ShipImage
    case Foreign(_) => CleanOutput
  }

  lemma ArtifactsOwned(s: Stage, a: Art)
    ensures a in Artifacts(s) <==> Compiles(s) && Owner(a) == s
  {
  }

  /** The cache key of a compile stage. */
  function Key(s: Stage, i: Inputs): Hash {
    match s
    case CompileKernel => Sha(Joined.Join([i.linuxVer, i.linuxTar]))
    case CompileBusybox => Sha(Joined.Join([i.busyboxVer, i.busyboxTar]))
    case CompileS6 => Sha(Joined.Join([i.skalibsVer, i.execlineVer, i.s6Ver, i.skalibsTar, i.execlineTar, i.s6Tar]))
    case CompileKernelModule => Raw(i.kernelDir)
    case CompileSDK => Sha(Joined.Join([i.sdkDir, i.testDir, i.conf]))
    case CompileDaemon => Raw(i.daemonDir)
    case _ => Raw("")
  }

  lemma KeyNotEmpty(i: Inputs, s: Stage)
    requires Compiles(s) && i.WellFormed()
    ensures Key(s, i) != Raw("")
  {
  }

  /** The source trees and kernel configuration that compiling `a` reads. */
  function Reads(a: Art, i: Inputs): seq<Path> {
    match a
    case BzImage => [SourceTree(Linux, i.linuxVer)]
    case BusyboxInstall => [SourceTree(Busybox, i.busyboxVer)]
    case S6Install => [SourceTree(Skalibs, i.skalibsVer), SourceTree(Execline, i.execlineVer), SourceTree(S6, i.s6Ver)]
    case PronzeKo => [SourceTree(Linux, i.headers), KernelConfig(i.headers)]
    case _ => []
  }

  function Seen(fs: Files, ps: seq<Path>): seq<Blob> {
    if ps == [] then [] else [Get(fs, ps[0])] + Seen(fs, ps[1..])
  }

  /** The workspace directories and files that compiling `a` reads besides, by their digests. */
  function Recipe(a: Art, i: Inputs): seq<string> {
    match a
    case PronzeKo => [i.kernelDir]
    case LibPronze | TestAlloc | TestBounds | TestZig | TestRust => [i.sdkDir, i.testDir, i.conf]
    case Pronzed => [i.daemonDir]
    case _ => []
  }

  /** What compiling `a` gives over the source trees in `fs`. */
  function Compile(fs: Files, a: Art, i: Inputs): Blob {
    Binary(a, Recipe(a, i), Seen(fs, Reads(a, i)))
  }

  /** The source trees and kernel configurations of a clean build. */
  function Pristine(i: Inputs): Files {
    map[SourceTree(Linux, i.headers) := Unpacked(Linux, i.headers, i.headersTar),
        KernelConfig(i.headers) := Configured(false)]
    + map[SourceTree(Linux, i.linuxVer) := Unpacked(Linux, i.linuxVer, i.linuxTar),
          SourceTree(Busybox, i.busyboxVer) := Unpacked(Busybox, i.busyboxVer, i.busyboxTar),
          SourceTree(Skalibs, i.skalibsVer) := Unpacked(Skalibs, i.skalibsVer, i.skalibsTar),
          SourceTree(Execline, i.execlineVer) := Unpacked(Execline, i.execlineVer, i.execlineTar),
          SourceTree(S6, i.s6Ver) := Unpacked(S6, i.s6Ver, i.s6Tar),
          KernelConfig(i.linuxVer) := Configured(true)]
  }

  /** What compiling `a` gives in a clean build. */
  function Fresh(a: Art, i: Inputs): Blob {
    Compile(Pristine(i), a, i)
  }

  /** A file of a clean build as the versions in use determine it. */
  function Pinned(pins: Pins, p: Path): Blob {
    match p
    case SourceTree(q, v) => Unpacked(q, v, pins.tarball(q, v))
    case KernelConfig(v) => Configured(pins.kernels(v))
    case _ => Gap
  }

  lemma PristinePinned(pins: Pins, i: Inputs, p: Path)
    requires Admissible(pins, i) && p in Pristine(i)
    ensures Pristine(i)[p] == Pinned(pins, p)
  {
    if p.SourceTree? {
      assert i.Tarball(p.package) == pins.tarball(p.package, i.Version(p.package));
    }
  }

  lemma ReadsPristine(i: Inputs, a: Art)
    ensures forall p <- Reads(a, i) :: p in Pristine(i)
  {
  }

  /** Compiling sees what it reads, and nothing else. */
  lemma {:induction false} SeenIff(fs: Files, gs: Files, ps: seq<Path>)
    ensures Seen(fs, ps) == Seen(gs, ps) <==> forall p <- ps :: Get(fs, p) == Get(gs, p)
    decreases |ps|
  {
    if ps != [] {
      SeenIff(fs, gs, ps[1..]);
      assert ps == [ps[0]] + ps[1..];
      assert Seen(fs, ps)[0] == Get(fs, ps[0]) && Seen(fs, ps)[1..] == Seen(fs, ps[1..]);
      assert Seen(gs, ps)[0] == Get(gs, ps[0]) && Seen(gs, ps)[1..] == Seen(gs, ps[1..]);
    }
  }

  /** A compilation gives what a clean build gives exactly when it reads what a clean build reads. */
  lemma CompileFreshIff(fs: Files, a: Art, i: Inputs)
    ensures Compile(fs, a, i) == Fresh(a, i) <==> forall p <- Reads(a, i) :: Get(fs, p) == Get(Pristine(i), p)
  {
    SeenIff(fs, Pristine(i), Reads(a, i));
  }

  /** What `AssembleRootfs` puts together, in order: compiled files, a file from a source
      directory with the given digest, and what the stage writes itself. */
  datatype Target = Bin(art: Art) | Src(text: string) | Own(text: string)

  function RootfsTargets(i: Inputs): seq<Target> {
    [Bin(BusyboxInstall), Bin(S6Install), Src(i.s6Dir),
     Bin(Pronzed), Bin(LibPronze), Bin(TestAlloc), Bin(TestBounds), Bin(TestZig), Bin(TestRust),
     Src(i.profilesDir), Bin(PronzeKo), Own(i.pipelineDir)]
  }

  /** The live compiled files, as the packaging stages find them. */
  type Live = Art -> Blob

  function Part(live: Live, t: Target): Blob {
    match t
    case Bin(a) => live(a)
    case Src(text) => Source(text)
    case Own(text) => Source(text)
  }

  function Parts(live: Live, ts: seq<Target>): seq<Blob> {
    if ts == [] then [] else [Part(live, ts[0])] + Parts(live, ts[1..])
  }

  function Overlay(i: Inputs): Blob {
    if i.configDir == "" then Gap else Source(i.configDir)
  }

  /** The disk image assembled from given live files. */
  function ImageOf(live: Live, i: Inputs): Blob {
    Disk(Esp(live(BzImage)), Btrfs(RootTree(Parts(live, RootfsTargets(i))), Overlay(i)))
  }

  /** The image of a clean build. */
  function Image(i: Inputs): Blob {
    ImageOf(a => Fresh(a, i), i)
  }

  /** The cached file is what a clean build of `i` gives, the live one too unless a crash tore it,
      and the kernel's tree is configured. */
  ghost predicate SoundFor(fs: Files, a: Art, i: Inputs) {
    && (At(Cache, a) in fs ==> fs[At(Cache, a)] == Fresh(a, i))
    && (LivePath(a, i) in fs ==> fs[LivePath(a, i)] in {Torn, Fresh(a, i)})
    && (a == BzImage ==> Holds(fs, KernelConfig(i.linuxVer), Configured(true)))
  }

  /** Artifact `a` is right for all sources with key `k`. */
  ghost predicate Sound(pins: Pins, fs: Files, a: Art, k: Hash) {
    forall i :: Admissible(pins, i) && Key(Owner(a), i) == k ==> SoundFor(fs, a, i)
  }

  /** Sources with the same key have their live files in the same place. */
  lemma KeyFixesPlace(i: Inputs, j: Inputs, a: Art)
    requires i.WellFormed() && Key(Owner(a), i) == Key(Owner(a), j)
    ensures LivePath(a, i) == LivePath(a, j) && (a == BzImage ==> i.linuxVer == j.linuxVer)
  {
    if a == BzImage {
      KernelKey(i, j);
    } else if a == BusyboxInstall {
      BusyboxKey(i, j);
    }
  }

  lemma KeyFixesReads(pins: Pins, i: Inputs, j: Inputs, a: Art)
    requires Admissible(pins, i) && Admissible(pins, j) && Compiles(Owner(a)) && Key(Owner(a), i) == Key(Owner(a), j)
    ensures Reads(a, i) == Reads(a, j) && Recipe(a, i) == Recipe(a, j)
  {
    if a == BzImage {
      KernelKey(i, j);
    } else if a == BusyboxInstall {
      BusyboxKey(i, j);
    } else if a == S6Install {
      S6Key(i, j);
    } else if Owner(a) == CompileSDK {
      SdkKey(i, j);
    }
  }

  /** Among versions that agree on what no key shows, a key determines the artifact. */
  lemma KeyFixesFresh(pins: Pins, i: Inputs, j: Inputs, a: Art)
    requires Admissible(pins, i) && Admissible(pins, j) && Compiles(Owner(a)) && Key(Owner(a), i) == Key(Owner(a), j)
    ensures Fresh(a, i) == Fresh(a, j)
  {
    KeyFixesReads(pins, i, j, a);
    ReadsPristine(i, a);
    ReadsPristine(j, a);
    forall p | p in Reads(a, i) ensures Get(Pristine(i), p) == Get(Pristine(j), p) {
      PristinePinned(pins, i, p);
      PristinePinned(pins, j, p);
    }
    SeenIff(Pristine(i), Pristine(j), Reads(a, i));
  }

  lemma KernelKey(i: Inputs, j: Inputs)
    requires i.WellFormed()
    ensures Key(CompileKernel, i) == Key(CompileKernel, j) <==> i.linuxVer == j.linuxVer && i.linuxTar == j.linuxTar
  {
    assert i.Fields()[9] == i.linuxVer && i.Fields()[14] == i.linuxTar;
    TwoFields(i.linuxVer, i.linuxTar, j.linuxVer, j.linuxTar);
  }

  lemma BusyboxKey(i: Inputs, j: Inputs)
    requires i.WellFormed()
    ensures Key(CompileBusybox, i) == Key(CompileBusybox, j)
            <==> i.busyboxVer == j.busyboxVer && i.busyboxTar == j.busyboxTar
  {
    assert i.Fields()[10] == i.busyboxVer && i.Fields()[15] == i.busyboxTar;
    TwoFields(i.busyboxVer, i.busyboxTar, j.busyboxVer, j.busyboxTar);
  }

  lemma TwoFields(p: string, q: string, r: string, s: string)
    requires '-' !in p && '-' !in q
    ensures Joined.Join([p, q]) == Joined.Join([r, s]) <==> p == r && q == s
  {
    if Joined.Join([p, q]) == Joined.Join([r, s]) {
      var a, b := [p, q], [r, s];
      Joined.JoinInjective(a, b);
      assert a[0] == b[0] && a[1] == b[1];
    }
  }

  lemma S6Key(i: Inputs, j: Inputs)
    requires i.WellFormed()
    ensures Key(CompileS6, i) == Key(CompileS6, j) <==>
        && i.skalibsVer == j.skalibsVer && i.execlineVer == j.execlineVer && i.s6Ver == j.s6Ver
        && i.skalibsTar == j.skalibsTar && i.execlineTar == j.execlineTar && i.s6Tar == j.s6Tar
  {
    var a := [i.skalibsVer, i.execlineVer, i.s6Ver, i.skalibsTar, i.execlineTar, i.s6Tar];
    var b := [j.skalibsVer, j.execlineVer, j.s6Ver, j.skalibsTar, j.execlineTar, j.s6Tar];
    assert i.Fields()[11..14] == a[..3] && i.Fields()[16..] == a[3..];
    forall f | f in a ensures '-' !in f {
      assert f in a[..3] || f in a[3..];
      assert f in i.Fields();
    }
    if Key(CompileS6, i) == Key(CompileS6, j) {
      Joined.JoinInjective(a, b);
      assert a[0] == b[0] && a[1] == b[1] && a[2] == b[2] && a[3] == b[3] && a[4] == b[4] && a[5] == b[5];
    }
  }

  lemma SdkKey(i: Inputs, j: Inputs)
    requires i.WellFormed()
    ensures Key(CompileSDK, i) == Key(CompileSDK, j)
            <==> i.sdkDir == j.sdkDir && i.testDir == j.testDir && i.conf == j.conf
  {
    var a, b := [i.sdkDir, i.testDir, i.conf], [j.sdkDir, j.testDir, j.conf];
    assert i.Fields()[1] == i.sdkDir && i.Fields()[4] == i.testDir && i.Fields()[8] == i.conf;
    if Key(CompileSDK, i) == Key(CompileSDK, j) {
      Joined.JoinInjective(a, b);
      assert a[0] == b[0] && a[1] == b[1] && a[2] == b[2];
    }
  }

  /** What each cache key shows, and nothing more: these fields of the sources. */
  lemma KeysShow(i: Inputs, j: Inputs)
    requires i.WellFormed()
    ensures Key(CompileKernel, i) == Key(CompileKernel, j) <==> i.linuxVer == j.linuxVer && i.linuxTar == j.linuxTar
    ensures Key(CompileBusybox, i) == Key(CompileBusybox, j)
            <==> i.busyboxVer == j.busyboxVer && i.busyboxTar == j.busyboxTar
    ensures Key(CompileS6, i) == Key(CompileS6, j) <==>
        && i.skalibsVer == j.skalibsVer && i.execlineVer == j.execlineVer && i.s6Ver == j.s6Ver
        && i.skalibsTar == j.skalibsTar && i.execlineTar == j.execlineTar && i.s6Tar == j.s6Tar
    ensures Key(CompileKernelModule, i) == Key(CompileKernelModule, j) <==> i.kernelDir == j.kernelDir
    ensures Key(CompileSDK, i) == Key(CompileSDK, j)
            <==> i.sdkDir == j.sdkDir && i.testDir == j.testDir && i.conf == j.conf
    ensures Key(CompileDaemon, i) == Key(CompileDaemon, j) <==> i.daemonDir == j.daemonDir
  {
    KernelKey(i, j);
    BusyboxKey(i, j);
    S6Key(i, j);
    SdkKey(i, j);
  }

  /** Both flags of stage `s` are present and the hash is whole. */
  predicate Flagged(fs: Files, s: Stage) {
    DoneFile(s) in fs && HashFile(s) in fs && fs[HashFile(s)].Digest?
  }

  /** Valid stage flags with key `k` promise that every artifact is right for the sources with that key. */
  ghost predicate StageInv(pins: Pins, fs: Files, s: Stage) {
    Compiles(s) && Flagged(fs, s) ==> forall a :: Owner(a) == s ==> Sound(pins, fs, a, fs[HashFile(s)].hash)
  }

  ghost predicate CachedImage(pins: Pins, fs: Files, h: Hash) {
    At(Cache, OsImage) in fs
    && forall i: Inputs :: Admissible(pins, i) && i.Master() == h ==> fs[At(Cache, OsImage)] == Image(i)
  }

  ghost predicate OutputImage(pins: Pins, fs: Files, h: Hash) {
    At(OutputDir, OsImage) in fs ==>
      forall i: Inputs :: Admissible(pins, i) && i.Master() == h ==> fs[At(OutputDir, OsImage)] == Image(i)
  }

  predicate MasterFlagged(fs: Files) {
    MasterDone in fs && MasterHash in fs && fs[MasterHash].Digest?
  }

  /** The promises of the whole-pipeline flags `master.*` and `ShipImage.*`. */
  ghost predicate MasterInv(pins: Pins, fs: Files) {
    && (MasterFlagged(fs) ==> CachedImage(pins, fs, fs[MasterHash].hash) && OutputImage(pins, fs, fs[MasterHash].hash))
    && (Flagged(fs, ShipImage) ==> CachedImage(pins, fs, fs[HashFile(ShipImage)].hash))
    && (MasterHash in fs && fs[MasterHash].Digest? && HashFile(ShipImage) in fs && fs[HashFile(ShipImage)].Digest?
        ==> fs[MasterHash] == fs[HashFile(ShipImage)])
  }

  /** What the files of a source tree may be: whole, and of the tarball that goes with the version; its
      kernel configuration is the one of a clean build, or not finished in a tree whose kernel is built. */
  ghost predicate TreeSound(pins: Pins, p: Path, b: Blob) {
    match p
    case SourceTree(_, _) => b == Pinned(pins, p)
    case KernelConfig(v) => b == Pinned(pins, p) || (b == Torn && pins.kernels(v))
    case _ => true
  }

  ghost predicate TreesInv(pins: Pins, fs: Files) {
    forall p :: p in fs ==> TreeSound(pins, p, fs[p])
  }

  ghost predicate Inv(pins: Pins, fs: Files) {
    (forall s :: StageInv(pins, fs, s)) && MasterInv(pins, fs) && TreesInv(pins, fs)
  }

  /** Operations that must not be torn: unpacking a tarball, and writing a headers tree its default configuration. */
  predicate Delicate(op: Op) {
    op.Write? && (op.path.SourceTree? || (op.path.KernelConfig? && op.blob == Configured(false)))
  }

  predicate TearsDelicate(ops: seq<Op>, cut: Cut) {
    cut.torn && cut.steps < |ops| && Delicate(ops[cut.steps])
  }

  /** The invariant holds before, after and, but for delicate ones, in the middle of every operation. */
  ghost predicate SafeAlong(pins: Pins, fs: Files, ops: seq<Op>)
    decreases |ops|
  {
    Inv(pins, fs)
    && (ops != [] ==>
          && (Delicate(ops[0]) || Inv(pins, Tear(fs, ops[0])))
          && SafeAlong(pins, Apply(fs, ops[0]), ops[1..]))
  }

  /** A crash at any point of a safe sequence leaves the invariant, unless it tears a delicate operation. */
  lemma {:induction false} SafeAtCrash(pins: Pins, fs: Files, ops: seq<Op>, cut: Cut)
    requires SafeAlong(pins, fs, ops)
    ensures Inv(pins, Exec(fs, ops)) && (TearsDelicate(ops, cut) || Inv(pins, Crash(fs, ops, cut)))
    decreases |ops|
  {
    SafeAtEnd(pins, fs, ops);
    if ops != [] && cut.steps > 0 {
      SafeAtCrash(pins, Apply(fs, ops[0]), ops[1..], cut.(steps := cut.steps - 1));
    }
  }

  lemma {:induction false} SafeAtEnd(pins: Pins, fs: Files, ops: seq<Op>)
    requires SafeAlong(pins, fs, ops)
    ensures Inv(pins, Exec(fs, ops))
    decreases |ops|
  {
    if ops != [] {
      SafeAtEnd(pins, Apply(fs, ops[0]), ops[1..]);
    }
  }

  lemma SafeStep(pins: Pins, fs: Files, op: Op, rest: seq<Op>)
    requires Inv(pins, fs) && Inv(pins, Tear(fs, op)) && SafeAlong(pins, Apply(fs, op), rest)
    ensures SafeAlong(pins, fs, [op] + rest)
  {
    assert ([op] + rest)[1..] == rest;
  }

  lemma {:induction false} SafeAppend(pins: Pins, fs: Files, a: seq<Op>, b: seq<Op>)
    requires SafeAlong(pins, fs, a) && SafeAlong(pins, Exec(fs, a), b)
    ensures SafeAlong(pins, fs, a + b)
    decreases |a|
  {
    if a == [] {
      assert a + b == b;
    } else {
      SafeAppend(pins, Apply(fs, a[0]), a[1..], b);
      assert (a + b)[1..] == a[1..] + b;
    }
  }

  /** Paths the invariant says nothing about. */
  predicate Neutral(p: Path) {
    match p
    case At(place, a) => place == WorkDir || (place == OutputDir && a != OsImage) || a.Foreign?
                         || ((place == Workspace || place.Tree?) && a == OsImage)
    case HashFile(s) => !Compiles(s) && s != ShipImage
    case DoneFile(s) => !Compiles(s) && s != ShipImage
    case MasterHash | MasterDone | SourceTree(_, _) | KernelConfig(_) => false
    case _ => true
  }

  /** A change at one path. */
  ghost predicate OnlyAt(fs: Files, gs: Files, p: Path) {
    forall q :: q != p ==> Same(fs, gs, q)
  }

  lemma OneStep(fs: Files, op: Op)
    ensures OnlyAt(fs, Apply(fs, op), op.path) && OnlyAt(fs, Tear(fs, op), op.path)
  {
  }

  lemma TreesKeep(pins: Pins, fs: Files, gs: Files, p: Path)
    requires TreesInv(pins, fs) && OnlyAt(fs, gs, p) && (p in gs ==> TreeSound(pins, p, gs[p]))
    ensures TreesInv(pins, gs)
  {
    forall q | q in gs ensures TreeSound(pins, q, gs[q]) {
      assert q != p ==> Same(fs, gs, q);
    }
  }

  lemma NeutralKeeps(pins: Pins, fs: Files, gs: Files, p: Path)
    requires Inv(pins, fs) && Neutral(p) && OnlyAt(fs, gs, p)
    ensures Inv(pins, gs)
  {
    StagesKeep(pins, fs, gs, p);
    MasterKeeps(pins, fs, gs, p);
    TreesKeep(pins, fs, gs, p);
  }

  /** A compile stage's promise depends on its own files only. */
  predicate Concerns(s: Stage, p: Path) {
    match p
    case At(place, a) => (place == Cache || place == Workspace || place.Tree?) && Owner(a) == s
    case HashFile(t) => t == s
    case DoneFile(t) => t == s
    case KernelConfig(_) => s == CompileKernel
    case _ => false
  }

  lemma SoundKept(pins: Pins, fs: Files, gs: Files, a: Art, k: Hash)
    requires Sound(pins, fs, a, k) && Same(fs, gs, At(Cache, a)) && forall i :: Same(fs, gs, LivePath(a, i))
    requires a == BzImage ==> forall v :: Same(fs, gs, KernelConfig(v))
    ensures Sound(pins, gs, a, k)
  {
    forall i | Admissible(pins, i) && Key(Owner(a), i) == k ensures SoundFor(gs, a, i) {
      assert SoundFor(fs, a, i);
      assert Same(fs, gs, LivePath(a, i)) && (a == BzImage ==> Same(fs, gs, KernelConfig(i.linuxVer)));
    }
  }

  lemma StageKeeps(pins: Pins, fs: Files, gs: Files, s: Stage, p: Path)
    requires StageInv(pins, fs, s) && OnlyAt(fs, gs, p) && !(Compiles(s) && Concerns(s, p))
    ensures StageInv(pins, gs, s)
  {
    if Compiles(s) && Flagged(gs, s) {
      assert Same(fs, gs, DoneFile(s)) && Same(fs, gs, HashFile(s));
      forall a | Owner(a) == s ensures Sound(pins, gs, a, gs[HashFile(s)].hash) {
        SoundKept(pins, fs, gs, a, fs[HashFile(s)].hash);
      }
    }
  }

  lemma StagesKeep(pins: Pins, fs: Files, gs: Files, p: Path)
    requires Inv(pins, fs) && OnlyAt(fs, gs, p) && forall s :: Compiles(s) ==> !Concerns(s, p)
    ensures forall s :: StageInv(pins, gs, s)
  {
    forall s ensures StageInv(pins, gs, s) {
      StageKeeps(pins, fs, gs, s, p);
    }
  }

  predicate ConcernsMaster(p: Path) {
    || p == MasterHash || p == MasterDone || p == HashFile(ShipImage) || p == DoneFile(ShipImage)
    || p == At(Cache, OsImage) || p == At(OutputDir, OsImage)
  }

  lemma MasterKeeps(pins: Pins, fs: Files, gs: Files, p: Path)
    requires MasterInv(pins, fs) && OnlyAt(fs, gs, p) && !ConcernsMaster(p)
    ensures MasterInv(pins, gs)
  {
    assert Same(fs, gs, MasterHash) && Same(fs, gs, MasterDone);
    assert Same(fs, gs, HashFile(ShipImage)) && Same(fs, gs, DoneFile(ShipImage));
    assert Same(fs, gs, At(Cache, OsImage)) && Same(fs, gs, At(OutputDir, OsImage));
  }

  predicate IsFlag(p: Path) {
    p.HashFile? || p.DoneFile? || p == MasterHash || p == MasterDone
  }

  /** Removing a flag, or the shipped image, never breaks a promise. */
  lemma RemovalKeeps(pins: Pins, fs: Files, p: Path)
    requires Inv(pins, fs) && (IsFlag(p) || (p.At? && p.place == OutputDir))
    ensures Inv(pins, fs - {p})
  {
    var gs := fs - {p};
    forall s ensures StageInv(pins, gs, s) {
      if Compiles(s) && Flagged(gs, s) {
        assert StageInv(pins, fs, s) && Flagged(fs, s);
        forall a | Owner(a) == s ensures Sound(pins, gs, a, gs[HashFile(s)].hash) {
          SoundKept(pins, fs, gs, a, fs[HashFile(s)].hash);
        }
      }
    }
    TreesKeep(pins, fs, gs, p);
  }

  /** While a stage's done flag is absent its own files may change freely. */
  predicate Unflagged(s: Stage, p: Path) {
    Concerns(s, p) && p != DoneFile(s) && !p.KernelConfig?
  }

  lemma UnflaggedKeeps(pins: Pins, fs: Files, gs: Files, s: Stage, p: Path)
    requires Inv(pins, fs) && Compiles(s) && DoneFile(s) !in fs && Unflagged(s, p) && OnlyAt(fs, gs, p)
    ensures Inv(pins, gs)
  {
    assert Same(fs, gs, DoneFile(s));
    forall t ensures StageInv(pins, gs, t) {
      if t != s {
        StageKeeps(pins, fs, gs, t, p);
      }
    }
    MasterKeeps(pins, fs, gs, p);
    TreesKeep(pins, fs, gs, p);
  }

  /** A sequence of operations on neutral paths is safe. */
  lemma {:induction false} NeutralSafe(pins: Pins, fs: Files, ops: seq<Op>)
    requires Inv(pins, fs) && forall op <- ops :: Neutral(op.path)
    ensures SafeAlong(pins, fs, ops)
    decreases |ops|
  {
    if ops != [] {
      OneStep(fs, ops[0]);
      NeutralKeeps(pins, fs, Apply(fs, ops[0]), ops[0].path);
      NeutralKeeps(pins, fs, Tear(fs, ops[0]), ops[0].path);
      NeutralSafe(pins, Apply(fs, ops[0]), ops[1..]);
    }
  }

  /** A sequence of operations on a stage's own files, while its done flag is absent, is safe. */
  lemma {:induction false} UnflaggedSafe(pins: Pins, fs: Files, ops: seq<Op>, s: Stage)
    requires Inv(pins, fs) && Compiles(s) && DoneFile(s) !in fs
    requires forall op <- ops :: Unflagged(s, op.path) || Neutral(op.path)
    ensures SafeAlong(pins, fs, ops)
    decreases |ops|
  {
    if ops != [] {
      var op := ops[0];
      OneStep(fs, op);
      assert op in ops;
      if Neutral(op.path) {
        NeutralKeeps(pins, fs, Apply(fs, op), op.path);
        NeutralKeeps(pins, fs, Tear(fs, op), op.path);
      } else {
        UnflaggedKeeps(pins, fs, Apply(fs, op), s, op.path);
        UnflaggedKeeps(pins, fs, Tear(fs, op), s, op.path);
      }
      assert Same(fs, Apply(fs, op), DoneFile(s));
      UnflaggedSafe(pins, Apply(fs, op), ops[1..], s);
    }
  }
}
