/** The files the build touches, as a map from places to contents.  Contents are terms
    over what a compiler or packager was given, so equal terms stand for equal files
    whatever the (deterministic) tools do, and a digest is injective by construction. */
module Store {
  import opened Joined

  /** The stages, as registered in `main`. */
  datatype Stage =
    | DownloadTarballs | CheckEarlyExit | ExtractTarballs
    | CompileKernel | CompileBusybox | CompileS6 | CompileKernelModule | CompileSDK | CompileDaemon
    | AssembleRootfs | CopyConfigurationSetup | PackageBtrfsImage | PackageESPImage | AssembleGPTImage
    | CleanOutput | ShipImage

  /** Files a stage makes; `Foreign` is any other file of the output directory. */
  datatype Art =
    | BzImage | BusyboxInstall | S6Install | PronzeKo
    | LibPronze | TestAlloc | TestBounds | TestZig | TestRust | Pronzed
    | OsImage | Foreign(n: nat)

  /** Directories.  A source tree is named after the version it was unpacked from. */
  datatype Place = Cache | OutputDir | Workspace | WorkDir | Tree(version: string)

  /** What is unpacked from tarballs. */
  datatype Package = Linux | Busybox | Skalibs | Execline | S6

  /** `SourceTree` stands for the unpacked files of a source tree, `KernelConfig` for the `.config` in a kernel's. */
  datatype Path =
    | At(place: Place, art: Art)
    | HashFile(stage: Stage) | DoneFile(stage: Stage)
    | MasterHash | MasterDone | HashesJson
    | RootfsTree | RootfsOverlay | RootfsImg | EspImg
    | SourceTree(package: Package, version: string) | KernelConfig(version: string)

  /** The text of a `.hash` file: a directory digest written as is, or the SHA-256 of a joined string. */
  datatype Hash = Raw(text: string) | Sha(text: string)

  /** The 19 fields of `compute_all_hashes`, in the order `CheckEarlyExit` joins them, and
      the version and tarball of the kernel headers, which the kernel module is compiled against. */
  datatype Inputs = Inputs(
    kernelDir: string, sdkDir: string, daemonDir: string, s6Dir: string, testDir: string,
    profilesDir: string, pipelineDir: string, configDir: string, conf: string,
    linuxVer: string, busyboxVer: string, skalibsVer: string, execlineVer: string, s6Ver: string,
    linuxTar: string, busyboxTar: string, skalibsTar: string, execlineTar: string, s6Tar: string,
    headers: string, headersTar: string)
  {
    function Version(p: Package): string {
      match p
      case Linux => linuxVer
      case Busybox => busyboxVer
      case Skalibs => skalibsVer
      case Execline => execlineVer
      case S6 => s6Ver
    }

    function Tarball(p: Package): string {
      match p
      case Linux => linuxTar
      case Busybox => busyboxTar
      case Skalibs => skalibsTar
      case Execline => execlineTar
      case S6 => s6Tar
    }

    function Fields(): seq<string> {
      [kernelDir, sdkDir, daemonDir, s6Dir, testDir, profilesDir, pipelineDir, configDir, conf,
       linuxVer, busyboxVer, skalibsVer, execlineVer, s6Ver,
       linuxTar, busyboxTar, skalibsTar, execlineTar, s6Tar]
    }

    function Master(): Hash {
      Sha(Join(Fields()))
    }

    /** No field contains the separator, `kernel/` and `daemon/` exist, and a version has one tarball. */
    ghost predicate WellFormed() {
      && DashFree(Fields()) && kernelDir != "" && daemonDir != ""
      && (headers == linuxVer ==> headersTar == linuxTar)
    }
  }

  /** What the versions in use have in common and no cache key shows: the headers version for each
      digest of `kernel/`, the tarball of each version of a package, and which kernels are built. */
  datatype Pins = Pins(headers: string -> string, tarball: (Package, string) -> string, kernels: string -> bool)

  ghost predicate Admissible(pins: Pins, i: Inputs) {
    && i.WellFormed()
    && i.headers == pins.headers(i.kernelDir)
    && (forall p :: i.Tarball(p) == pins.tarball(p, i.Version(p)))
    && i.headersTar == pins.tarball(Linux, i.headers)
    && pins.kernels(i.linuxVer) && (pins.kernels(i.headers) ==> i.headers == i.linuxVer)
  }

  /** Inputs that are told apart by nothing in the master key are the same inputs. */
  lemma MasterInjective(pins: Pins, i: Inputs, j: Inputs)
    requires Admissible(pins, i) && i.Master() == j.Master()
    requires j.headers == pins.headers(j.kernelDir) && j.headersTar == pins.tarball(Linux, j.headers)
    ensures i == j
  {
    JoinInjective(i.Fields(), j.Fields());
    var a, b := i.Fields(), j.Fields();
    assert forall k :: 0 <= k < 19 ==> a[k] == b[k];
    assert a[0] == b[0] && a[1] == b[1] && a[2] == b[2] && a[3] == b[3] && a[4] == b[4] && a[5] == b[5] && a[6] == b[6];
    assert a[7] == b[7] && a[8] == b[8] && a[9] == b[9] && a[10] == b[10] && a[11] == b[11] && a[12] == b[12];
    assert a[13] == b[13] && a[14] == b[14] && a[15] == b[15] && a[16] == b[16] && a[17] == b[17] && a[18] == b[18];
  }

  datatype Blob =
    | Torn
    | Flag
    | Digest(hash: Hash)
    | Unpacked(package: Package, version: string, tar: string)
    | Configured(custom: bool)
    | Binary(art: Art, recipe: seq<string>, read: seq<Blob>)
    | Source(text: string)
    | Gap
    | RootTree(parts: seq<Blob>)
    | Btrfs(tree: Blob, overlay: Blob)
    | Esp(kernel: Blob)
    | Disk(esp: Blob, rootfs: Blob)
    | Snapshot(inputs: Inputs)

  /** Artifacts whose live file is inside a versioned source tree. */
  predicate Versioned(a: Art) {
    a == BzImage || a == BusyboxInstall
  }

  /** Where the live file of an artifact is when the sources are `i`. */
  function LivePath(a: Art, i: Inputs): Path {
    match a
    case BzImage => At(Tree(i.linuxVer), a)
    case BusyboxInstall => At(Tree(i.busyboxVer), a)
    case _ => At(Workspace, a)
  }

  /** One side of a copy: a directory, or the live files for given sources. */
  datatype Side = In(place: Place) | LiveFor(inputs: Inputs)

  function Spot(side: Side, a: Art): Path {
    match side
    case In(place) => At(place, a)
    case LiveFor(i) => LivePath(a, i)
  }

  type Files = map<Path, Blob>

  function Get(fs: Files, p: Path): Blob {
    if p in fs then fs[p] else Gap
  }

  /** What a reader of a `.hash` file gets: "" when there is none or only a torn one. */
  function ReadHash(fs: Files, p: Path): Hash {
    if p in fs && fs[p].Digest? then fs[p].hash else Raw("")
  }

  /** One file operation.  `Install` is a copy over a file that valid flags vouch for, taken to be atomic. */
  datatype Op =
    | Remove(path: Path)
    | Write(path: Path, blob: Blob)
    | Copy(src: Path, path: Path)
    | Install(src: Path, path: Path)

  function Apply(fs: Files, op: Op): Files {
    match op
    case Remove(p) => fs - {p}
    case Write(p, b) => fs[p := b]
    case Copy(src, p) => fs[p := Get(fs, src)]
    case Install(src, p) => fs[p := Get(fs, src)]
  }

  /** What a crash in the middle of `op` may leave. */
  function Tear(fs: Files, op: Op): Files {
    match op
    case Write(p, _) => fs[p := Torn]
    case Copy(_, p) => fs[p := Torn]
    case Remove(_) => fs
    case Install(_, _) => fs
  }

  function Exec(fs: Files, ops: seq<Op>): Files
    decreases |ops|
  {
    if ops == [] then fs else Exec(Apply(fs, ops[0]), ops[1..])
  }

  /** Where a stage stops: after `steps` operations, the next one torn or not begun. */
  datatype Cut = Cut(steps: nat, torn: bool)

  function Crash(fs: Files, ops: seq<Op>, cut: Cut): Files
    decreases |ops|
  {
    if ops == [] then fs
    else if cut.steps == 0 then if cut.torn then Tear(fs, ops[0]) else fs
    else Crash(Apply(fs, ops[0]), ops[1..], cut.(steps := cut.steps - 1))
  }

  /** The two stores agree on `p`. */
  predicate Same(fs: Files, gs: Files, p: Path) {
    (p in fs <==> p in gs) && (p in fs ==> fs[p] == gs[p])
  }

  predicate Holds(fs: Files, p: Path, b: Blob) {
    p in fs && fs[p] == b
  }

  predicate Touches(ops: seq<Op>, p: Path) {
    exists op <- ops :: op.path == p
  }

  /** The next operation of a torn crash leaves its file torn. */
  lemma {:induction false} TornByCrash(fs: Files, ops: seq<Op>, cut: Cut)
    requires cut.torn && cut.steps < |ops| && ops[cut.steps].Write?
    ensures Holds(Crash(fs, ops, cut), ops[cut.steps].path, Torn)
    decreases |ops|
  {
    if cut.steps > 0 {
      TornByCrash(Apply(fs, ops[0]), ops[1..], cut.(steps := cut.steps - 1));
    }
  }

  lemma Assoc3(a: seq<Op>, b: seq<Op>, c: seq<Op>)
    ensures a + b + c == a + (b + c)
  {
  }

  lemma Assoc4(a: seq<Op>, b: seq<Op>, c: seq<Op>, d: seq<Op>)
    ensures a + b + c + d == a + (b + (c + d))
  {
  }

  lemma OneOp(fs: Files, ops: seq<Op>)
    requires |ops| <= 1
    ensures Exec(fs, ops) == if ops == [] then fs else Apply(fs, ops[0])
  {
    if ops != [] {
      assert ops[1..] == [];
    }
  }

  lemma ExecTwo(fs: Files, first: Op, second: Op)
    ensures Exec(fs, [first, second]) == Apply(Apply(fs, first), second)
  {
    assert [first, second][1..] == [second] && [second][1..] == [];
    assert Exec(Apply(Apply(fs, first), second), []) == Apply(Apply(fs, first), second);
  }

  lemma {:induction false} ExecAppend(fs: Files, a: seq<Op>, b: seq<Op>)
    ensures Exec(fs, a + b) == Exec(Exec(fs, a), b)
    decreases |a|
  {
    if a == [] {
      assert a + b == b;
    } else {
      ExecAppend(Apply(fs, a[0]), a[1..], b);
      assert (a + b)[1..] == a[1..] + b;
    }
  }

  /** Performing `a + b` is performing `a`, and then `b` with what is left of the allowance. */
  lemma {:induction false} CrashSplit(fs: Files, a: seq<Op>, b: seq<Op>, cut: Cut)
    ensures Crash(fs, a + b, cut) ==
      if |a| <= cut.steps then Crash(Exec(fs, a), b, cut.(steps := cut.steps - |a|)) else Crash(fs, a, cut)
    decreases |a|
  {
    if a == [] {
      assert a + b == b;
    } else {
      assert (a + b)[1..] == a[1..] + b;
      if cut.steps > 0 {
        CrashSplit(Apply(fs, a[0]), a[1..], b, cut.(steps := cut.steps - 1));
      }
    }
  }

  lemma {:induction false} ExecFrame(fs: Files, ops: seq<Op>, p: Path)
    requires !Touches(ops, p)
    ensures Same(fs, Exec(fs, ops), p)
    decreases |ops|
  {
    if ops != [] {
      assert ops[0] in ops;
      assert forall op <- ops[1..] :: op in ops;
      ExecFrame(Apply(fs, ops[0]), ops[1..], p);
    }
  }

  lemma {:induction false} CrashFrame(fs: Files, ops: seq<Op>, cut: Cut, p: Path)
    requires !Touches(ops, p)
    ensures Same(fs, Crash(fs, ops, cut), p)
    decreases |ops|
  {
    if ops != [] {
      assert ops[0] in ops;
      assert forall op <- ops[1..] :: op in ops;
      if cut.steps > 0 {
        CrashFrame(Apply(fs, ops[0]), ops[1..], cut.(steps := cut.steps - 1), p);
      }
    }
  }

  lemma {:induction false} CrashLate(fs: Files, ops: seq<Op>, cut: Cut)
    requires |ops| <= cut.steps
    ensures Crash(fs, ops, cut) == Exec(fs, ops)
    decreases |ops|
  {
    if ops != [] {
      CrashLate(Apply(fs, ops[0]), ops[1..], cut.(steps := cut.steps - 1));
    }
  }

  function CopyAll(from: Side, to: Side, arts: seq<Art>): seq<Op> {
    if arts == [] then [] else [Copy(Spot(from, arts[0]), Spot(to, arts[0]))] + CopyAll(from, to, arts[1..])
  }

  lemma {:induction false} CopyAllTouches(from: Side, to: Side, arts: seq<Art>, op: Op)
    requires op in CopyAll(from, to, arts)
    ensures op.Copy? && op.path.At? && op.path.art in arts
    ensures op.path == Spot(to, op.path.art) && op.src == Spot(from, op.path.art)
    decreases |arts|
  {
    if arts != [] && op != CopyAll(from, to, arts)[0] {
      CopyAllTouches(from, to, arts[1..], op);
    }
  }

  lemma {:induction false} CopyAllCopies(fs: Files, from: Side, to: Side, arts: seq<Art>, a: Art)
    requires a in arts && forall c, d: Art :: Spot(from, c) != Spot(to, d)
    ensures var gs := Exec(fs, CopyAll(from, to, arts)); Holds(gs, Spot(to, a), Get(fs, Spot(from, a)))
    decreases |arts|
  {
    var ops := CopyAll(from, to, arts);
    var fs1 := Apply(fs, ops[0]);
    assert ops[1..] == CopyAll(from, to, arts[1..]);
    if a in arts[1..] {
      CopyAllCopies(fs1, from, to, arts[1..], a);
    } else {
      if Touches(ops[1..], Spot(to, a)) {
        var op :| op in ops[1..] && op.path == Spot(to, a);
        CopyAllTouches(from, to, arts[1..], op);
        assert false;
      }
      ExecFrame(fs1, ops[1..], Spot(to, a));
    }
  }
}
