/** Unpacking, and the six compile stages: restore from the cache when the key matches, otherwise clear
    the flags, compile, cache, and write the hash and the done flag last. */
module CompileStages {
  import opened Store
  import opened Cache
  import opened RunLoop

  /** What one call of a stage's `run` does to the files, in order, and how it ends when nothing fails. */
  datatype Plan = Plan(ops: seq<Op>, raises: bool, report: Report, skip: bool)

  // ExtractTarballs

  /** The source trees that `ExtractTarballs` looks for, in order. */
  function Trees(i: Inputs): seq<Path> {
    [SourceTree(Linux, i.linuxVer), SourceTree(Busybox, i.busyboxVer), SourceTree(Skalibs, i.skalibsVer),
     SourceTree(Execline, i.execlineVer), SourceTree(S6, i.s6Ver)]
    + if i.headers == i.linuxVer then [] else [SourceTree(Linux, i.headers)]
  }

  /** A tree that is there is kept, whatever tarball it came from. */
  function Unpacks(fs: Files, i: Inputs, ps: seq<Path>): seq<Op> {
    if ps == [] then []
    else (if ps[0] in fs then [] else [Write(ps[0], Get(Pristine(i), ps[0]))]) + Unpacks(fs, i, ps[1..])
  }

  function ExtractPlan(fs: Files, i: Inputs): Plan {
    Plan(Unpacks(fs, i, Trees(i)) + [Write(DoneFile(ExtractTarballs), Flag)], false, Silent, false)
  }

  predicate TreesThere(fs: Files, i: Inputs) {
    forall p <- Trees(i) :: p in fs
  }

  lemma {:induction false} UnpackTouches(fs: Files, i: Inputs, ps: seq<Path>, op: Op)
    requires op in Unpacks(fs, i, ps)
    ensures op.Write? && op.path in ps && op.path !in fs && op.blob == Get(Pristine(i), op.path)
    decreases |ps|
  {
    if op in Unpacks(fs, i, ps[1..]) {
      UnpackTouches(fs, i, ps[1..], op);
    }
  }

  /** Unpacking leaves every tree there: the old one, or what a clean build unpacks. */
  lemma {:induction false} UnpackResult(fs: Files, now: Files, i: Inputs, ps: seq<Path>, p: Path)
    requires p in ps && (p in fs ==> p in now)
    ensures var gs := Exec(now, Unpacks(fs, i, ps));
            p in gs && gs[p] == if p in fs then now[p] else Get(Pristine(i), p)
    decreases |ps|
  {
    var ops, rest := Unpacks(fs, i, ps), Unpacks(fs, i, ps[1..]);
    var next := if ps[0] in fs then now else now[ps[0] := Get(Pristine(i), ps[0])];
    assert Exec(now, ops) == Exec(next, rest) by {
      assert ps[0] in fs ==> ops == rest;
      assert ps[0] !in fs ==> ops[1..] == rest;
    }
    if p in ps[1..] {
      UnpackResult(fs, next, i, ps[1..], p);
    } else {
      forall op | op in rest ensures op.path != p {
        UnpackTouches(fs, i, ps[1..], op);
      }
      ExecFrame(next, rest, p);
    }
  }

  /** The cache test of stage `s`. */
  predicate Restores(fs: Files, i: Inputs, s: Stage) {
    && ReadHash(fs, HashFile(s)) == Key(s, i)
    && DoneFile(s) in fs
    && forall a <- Artifacts(s) :: At(Cache, a) in fs
  }

  predicate Exports(s: Stage) {
    s.CompileKernelModule? || s.CompileSDK? || s.CompileDaemon?
  }

  function Exported(s: Stage, from: Place): seq<Op> {
    if Exports(s) then CopyAll(In(from), In(OutputDir), Artifacts(s)) else []
  }

  function RestoreOps(s: Stage, i: Inputs): seq<Op> {
    CopyAll(In(Cache), LiveFor(i), Artifacts(s)) + Exported(s, Cache) + [Write(DoneFile(s), Flag)]
  }

  /** Restoring a kernel makes the directories on its way, and so a tree without sources where there was none. */
  function Planted(fs: Files, i: Inputs, s: Stage): seq<Op> {
    if s == CompileKernel && SourceTree(Linux, i.linuxVer) !in fs then [Write(SourceTree(Linux, i.linuxVer), Torn)]
    else []
  }

  /** The source trees without which a compilation fails. */
  function Needs(s: Stage, i: Inputs): seq<Path> {
    match s
    case CompileKernel => [SourceTree(Linux, i.linuxVer)]
    case CompileBusybox => [SourceTree(Busybox, i.busyboxVer), SourceTree(Linux, i.linuxVer)]
    case CompileS6 => Reads(S6Install, i)
    case _ => []
  }

  /** What a compilation does to source trees first: the kernel is configured; a missing headers tree is
      fetched, and given the default configuration if it has none. */
  function Prepare(fs: Files, i: Inputs, s: Stage): seq<Op> {
    var tree, config := SourceTree(Linux, i.headers), KernelConfig(i.headers);
    match s
    case CompileKernel => [Write(KernelConfig(i.linuxVer), Configured(true))]
    case CompileKernelModule =>
      (if tree in fs then [] else [Write(tree, Unpacked(Linux, i.headers, i.headersTar))])
      + if config in fs then [] else [Write(config, Configured(false))]
    case _ => []
  }

  /** `made` are the files that the commands read. */
  function CompileAll(made: Files, arts: seq<Art>, i: Inputs): seq<Op> {
    if arts == [] then []
    else [Write(LivePath(arts[0], i), Compile(made, arts[0], i))] + CompileAll(made, arts[1..], i)
  }

  /** Compiling, caching and exporting. */
  function BuildOps(made: Files, s: Stage, i: Inputs): seq<Op> {
    CompileAll(made, Artifacts(s), i) + CopyAll(LiveFor(i), In(Cache), Artifacts(s))
    + Exported(s, if s == CompileKernelModule then Workspace else Cache)
  }

  function ClearOps(s: Stage): seq<Op> {
    [Remove(DoneFile(s)), Remove(HashFile(s))]
  }

  function RebuildOps(fs: Files, s: Stage, i: Inputs): seq<Op> {
    ClearOps(s) + Prepare(fs, i, s) + BuildOps(Exec(fs, Prepare(fs, i, s)), s, i)
    + [Write(HashFile(s), Digest(Key(s, i))), Write(DoneFile(s), Flag)]
  }

  predicate NoTree(fs: Files, i: Inputs, s: Stage) {
    exists p <- Needs(s, i) :: p !in fs
  }

  function CompilePlan(fs: Files, i: Inputs, s: Stage): Plan {
    if Restores(fs, i, s) then
      if s == CompileBusybox && SourceTree(Busybox, i.busyboxVer) !in fs then Plan([], true, Silent, false)
      else Plan(Planted(fs, i, s) + RestoreOps(s, i), false, SaysSkipped, false)
    else if NoTree(fs, i, s) then Plan(ClearOps(s), true, Silent, false)
    else Plan(RebuildOps(fs, s, i), false, if s == CompileSDK then SaysSuccess else Silent, false)
  }

  /** What a complete call leaves as the live file `a`. */
  function Made(fs: Files, i: Inputs, a: Art): Blob {
    if Restores(fs, i, Owner(a)) then Get(fs, At(Cache, a)) else Compile(Exec(fs, Prepare(fs, i, Owner(a))), a, i)
  }

  lemma {:induction false} CompileAllTouches(made: Files, arts: seq<Art>, i: Inputs, op: Op)
    requires op in CompileAll(made, arts, i)
    ensures op.Write? && op.path.At? && op.path.art in arts
    ensures op.path == LivePath(op.path.art, i) && op.blob == Compile(made, op.path.art, i)
    decreases |arts|
  {
    if arts != [] && op != CompileAll(made, arts, i)[0] {
      CompileAllTouches(made, arts[1..], i, op);
    }
  }

  lemma {:induction false} CompileAllBuilds(fs: Files, made: Files, arts: seq<Art>, i: Inputs, a: Art)
    requires a in arts
    ensures Holds(Exec(fs, CompileAll(made, arts, i)), LivePath(a, i), Compile(made, a, i))
    decreases |arts|
  {
    var ops := CompileAll(made, arts, i);
    assert ops[1..] == CompileAll(made, arts[1..], i);
    if a in arts[1..] {
      CompileAllBuilds(Apply(fs, ops[0]), made, arts[1..], i, a);
    } else {
      if Touches(ops[1..], LivePath(a, i)) {
        var op :| op in ops[1..] && op.path == LivePath(a, i);
        CompileAllTouches(made, arts[1..], i, op);
        assert false;
      }
      ExecFrame(Apply(fs, ops[0]), ops[1..], LivePath(a, i));
    }
  }

  /** A stage's own files for given sources: its flags, its artifacts, and copies of them in the output directory. */
  predicate Owns(s: Stage, i: Inputs, p: Path) {
    || p == HashFile(s) || p == DoneFile(s)
    || (p.At? && Owner(p.art) == s && (p == LivePath(p.art, i) || p.place == Cache || p.place == OutputDir))
  }

  lemma ExportedOwned(s: Stage, from: Place, op: Op)
    requires Compiles(s) && op in Exported(s, from)
    ensures op.Copy? && op.path.At? && op.path.place == OutputDir && Owner(op.path.art) == s && Neutral(op.path)
  {
    CopyAllTouches(In(from), In(OutputDir), Artifacts(s), op);
    ArtifactsOwned(s, op.path.art);
  }

  lemma MadeOwned(s: Stage, i: Inputs, p: Path, a: Art)
    requires a in Artifacts(s) && (p == LivePath(a, i) || p == At(Cache, a))
    ensures Compiles(s) && Owns(s, i, p) && Unflagged(s, p) && p != HashFile(s)
  {
    ArtifactsOwned(s, a);
  }

  lemma BuildOwned(made: Files, s: Stage, i: Inputs, op: Op)
    requires Compiles(s) && op in BuildOps(made, s, i)
    ensures Owns(s, i, op.path) && (Unflagged(s, op.path) || Neutral(op.path))
    ensures op.path != DoneFile(s) && op.path != HashFile(s)
  {
    var arts := Artifacts(s);
    if op in CompileAll(made, arts, i) {
      CompileAllTouches(made, arts, i, op);
      MadeOwned(s, i, op.path, op.path.art);
    } else if op in CopyAll(LiveFor(i), In(Cache), arts) {
      CopyAllTouches(LiveFor(i), In(Cache), arts, op);
      MadeOwned(s, i, op.path, op.path.art);
    } else {
      ExportedOwned(s, if s == CompileKernelModule then Workspace else Cache, op);
    }
  }

  lemma RestoreOwned(s: Stage, i: Inputs, op: Op)
    requires Compiles(s) && op in RestoreOps(s, i)
    ensures Owns(s, i, op.path) && op.path != HashFile(s) && !(op.path.At? && op.path.place == Cache)
  {
    if op in CopyAll(In(Cache), LiveFor(i), Artifacts(s)) {
      CopyAllTouches(In(Cache), LiveFor(i), Artifacts(s), op);
      ArtifactsOwned(s, op.path.art);
    } else if op in Exported(s, Cache) {
      ExportedOwned(s, Cache, op);
    }
  }

  /** What a stage may change in source trees: the configuration of the kernel it builds, and what is not there. */
  predicate Tends(s: Stage, fs: Files, i: Inputs, p: Path) {
    || (s == CompileKernel && (p == KernelConfig(i.linuxVer) || (p == SourceTree(Linux, i.linuxVer) && p !in fs)))
    || (s == CompileKernelModule && p !in fs && (p == SourceTree(Linux, i.headers) || p == KernelConfig(i.headers)))
  }

  lemma RebuildOwned(fs: Files, s: Stage, i: Inputs, op: Op)
    requires Compiles(s) && op in RebuildOps(fs, s, i)
    ensures Owns(s, i, op.path) || Tends(s, fs, i, op.path)
  {
    var made := Exec(fs, Prepare(fs, i, s));
    if op in BuildOps(made, s, i) {
      BuildOwned(made, s, i, op);
    }
  }

  /** A compile stage writes its own files, and what it tends, only. */
  lemma CompileFrame(fs: Files, i: Inputs, s: Stage, p: Path)
    requires Compiles(s) && !Owns(s, i, p) && !Tends(s, fs, i, p)
    ensures !Touches(CompilePlan(fs, i, s).ops, p)
  {
    forall op | op in CompilePlan(fs, i, s).ops ensures op.path != p {
      CompileOp(fs, i, s, op);
      if op in RestoreOps(s, i) {
        RestoreOwned(s, i, op);
      } else if op in RebuildOps(fs, s, i) {
        RebuildOwned(fs, s, i, op);
      }
    }
  }

  lemma CompileOp(fs: Files, i: Inputs, s: Stage, op: Op)
    requires op in CompilePlan(fs, i, s).ops
    ensures op in Planted(fs, i, s) || op in RestoreOps(s, i) || op in ClearOps(s) || op in RebuildOps(fs, s, i)
  {
  }

  lemma LiveNotCached(i: Inputs)
    ensures forall c, d: Art ::
      Spot(LiveFor(i), c) != Spot(In(Cache), d) && Spot(In(Cache), c) != Spot(LiveFor(i), d)
  {
  }

  /** The effect of the build steps: every artifact is compiled from what the commands read, and cached. */
  lemma BuildResult(fs: Files, made: Files, i: Inputs, s: Stage, a: Art)
    requires Compiles(s) && Owner(a) == s
    ensures var gs := Exec(fs, BuildOps(made, s, i));
            Holds(gs, LivePath(a, i), Compile(made, a, i)) && Holds(gs, At(Cache, a), Compile(made, a, i))
  {
    LiveNotCached(i);
    var arts, from := Artifacts(s), if s == CompileKernelModule then Workspace else Cache;
    ArtifactsOwned(s, a);
    var compiled, cached, sent := CompileAll(made, arts, i), CopyAll(LiveFor(i), In(Cache), arts), Exported(s, from);
    ExecAppend(fs, compiled + cached, sent);
    ExecAppend(fs, compiled, cached);
    CompileAllBuilds(fs, made, arts, i, a);
    var fs1 := Exec(fs, compiled);
    CopyAllCopies(fs1, LiveFor(i), In(Cache), arts, a);
    if Touches(cached, LivePath(a, i)) {
      var op :| op in cached && op.path == LivePath(a, i);
      CopyAllTouches(LiveFor(i), In(Cache), arts, op);
      assert false;
    }
    ExecFrame(fs1, cached, LivePath(a, i));
    forall op | op in sent ensures op.path != LivePath(a, i) && op.path != At(Cache, a) {
      ExportedOwned(s, from, op);
    }
    ExecFrame(Exec(fs1, cached), sent, LivePath(a, i));
    ExecFrame(Exec(fs1, cached), sent, At(Cache, a));
  }

  lemma RestoreLive(fs: Files, i: Inputs, s: Stage, a: Art, back: seq<Op>, rest: seq<Op>)
    requires Compiles(s) && a in Artifacts(s) && At(Cache, a) in fs
    requires back == CopyAll(In(Cache), LiveFor(i), Artifacts(s))
    requires rest == Exported(s, Cache) + [Write(DoneFile(s), Flag)]
    ensures Holds(Exec(Exec(fs, back), rest), LivePath(a, i), fs[At(Cache, a)])
  {
    LiveNotCached(i);
    CopyAllCopies(fs, In(Cache), LiveFor(i), Artifacts(s), a);
    forall op | op in rest ensures op.path != LivePath(a, i) {
      if op in Exported(s, Cache) {
        ExportedOwned(s, Cache, op);
      }
    }
    ExecFrame(Exec(fs, back), rest, LivePath(a, i));
  }

  lemma RestoreKeeps(fs: Files, i: Inputs, s: Stage, p: Path)
    requires Compiles(s) && (p == HashFile(s) || (p.At? && p.place == Cache))
    ensures Same(fs, Exec(fs, RestoreOps(s, i)), p)
  {
    forall op | op in RestoreOps(s, i) ensures op.path != p {
      RestoreOwned(s, i, op);
    }
    ExecFrame(fs, RestoreOps(s, i), p);
  }

  lemma RestoreResult(fs: Files, i: Inputs, s: Stage, a: Art)
    requires Compiles(s) && Owner(a) == s && Restores(fs, i, s)
    ensures var gs := Exec(fs, RestoreOps(s, i));
            && LivePath(a, i) in gs && gs[LivePath(a, i)] == fs[At(Cache, a)]
            && Same(fs, gs, At(Cache, a)) && Same(fs, gs, HashFile(s)) && DoneFile(s) in gs
  {
    ArtifactsOwned(s, a);
    var back, sent := CopyAll(In(Cache), LiveFor(i), Artifacts(s)), Exported(s, Cache);
    var done := [Write(DoneFile(s), Flag)];
    Assoc3(back, sent, done);
    ExecAppend(fs, back, sent + done);
    RestoreLive(fs, i, s, a, back, sent + done);
    ExecAppend(fs, back + sent, done);
    RestoreKeeps(fs, i, s, HashFile(s));
    RestoreKeeps(fs, i, s, At(Cache, a));
  }

  /** A rebuild in four parts: flags cleared, trees prepared, artifacts built, flags set. */
  lemma RebuildUnfolds(fs: Files, i: Inputs, s: Stage)
    ensures var cleared := fs - {DoneFile(s)} - {HashFile(s)};
            var prepared := Exec(cleared, Prepare(fs, i, s));
            Exec(fs, RebuildOps(fs, s, i))
            == Exec(prepared, BuildOps(Exec(fs, Prepare(fs, i, s)), s, i))
                 [HashFile(s) := Digest(Key(s, i))][DoneFile(s) := Flag]
  {
    var clear, prepare := ClearOps(s), Prepare(fs, i, s);
    var build := BuildOps(Exec(fs, prepare), s, i);
    var set2 := [Write(HashFile(s), Digest(Key(s, i))), Write(DoneFile(s), Flag)];
    ExecAppend(fs, clear + prepare + build, set2);
    ExecAppend(fs, clear + prepare, build);
    ExecAppend(fs, clear, prepare);
    ExecTwo(fs, clear[0], clear[1]);
    ExecTwo(Exec(fs, clear + prepare + build), set2[0], set2[1]);
  }

  lemma RebuildResult(fs: Files, i: Inputs, s: Stage, a: Art)
    requires Compiles(s) && Owner(a) == s
    ensures var gs, b := Exec(fs, RebuildOps(fs, s, i)), Compile(Exec(fs, Prepare(fs, i, s)), a, i);
            && Holds(gs, LivePath(a, i), b) && Holds(gs, At(Cache, a), b)
            && Holds(gs, HashFile(s), Digest(Key(s, i))) && DoneFile(s) in gs
  {
    RebuildUnfolds(fs, i, s);
    var cleared, made := fs - {DoneFile(s)} - {HashFile(s)}, Exec(fs, Prepare(fs, i, s));
    BuildResult(Exec(cleared, Prepare(fs, i, s)), made, i, s, a);
  }

  lemma PlantedKeeps(fs: Files, i: Inputs, s: Stage)
    ensures var gs := Exec(fs, Planted(fs, i, s)); forall p: Path :: !p.SourceTree? ==> Same(fs, gs, p)
    ensures Exec(fs, Planted(fs, i, s) + RestoreOps(s, i)) == Exec(Exec(fs, Planted(fs, i, s)), RestoreOps(s, i))
  {
    ExecAppend(fs, Planted(fs, i, s), RestoreOps(s, i));
    forall p: Path | !p.SourceTree? ensures Same(fs, Exec(fs, Planted(fs, i, s)), p) {
      ExecFrame(fs, Planted(fs, i, s), p);
    }
  }

  /** What a call that ran to its end leaves: live and cached artifacts agree, and the flags are
      valid for the current key. */
  lemma CompileResult(fs: Files, i: Inputs, s: Stage, a: Art)
    requires Compiles(s) && Owner(a) == s && i.WellFormed() && !CompilePlan(fs, i, s).raises
    ensures var gs := Exec(fs, CompilePlan(fs, i, s).ops);
            && Holds(gs, LivePath(a, i), Made(fs, i, a)) && Holds(gs, At(Cache, a), Made(fs, i, a))
            && Flagged(gs, s) && gs[HashFile(s)].hash == Key(s, i)
  {
    if Restores(fs, i, s) {
      ArtifactsOwned(s, a);
      PlantedKeeps(fs, i, s);
      RestoreResult(Exec(fs, Planted(fs, i, s)), i, s, a);
    } else {
      RebuildResult(fs, i, s, a);
    }
  }

  lemma CompileFlags(fs: Files, i: Inputs, s: Stage)
    requires Compiles(s) && i.WellFormed() && !CompilePlan(fs, i, s).raises
    ensures var gs := Exec(fs, CompilePlan(fs, i, s).ops); Flagged(gs, s) && gs[HashFile(s)].hash == Key(s, i)
  {
    var a := Artifacts(s)[0];
    assert a in Artifacts(s);
    ArtifactsOwned(s, a);
    CompileResult(fs, i, s, a);
  }

  /** Copying cached artifacts back is safe at every step, torn copies included. */
  lemma {:induction false} CopyBackSafe(pins: Pins, fs: Files, i: Inputs, arts: seq<Art>)
    requires Inv(pins, fs) && forall a <- arts :: Compiles(Owner(a)) && At(Cache, a) in fs
    ensures SafeAlong(pins, fs, CopyAll(In(Cache), LiveFor(i), arts))
    decreases |arts|
  {
    if arts != [] {
      var op := Copy(At(Cache, arts[0]), LivePath(arts[0], i));
      var s := Owner(arts[0]);
      assert arts[0] in arts;
      assert StageInv(pins, fs, s);
      assert Flagged(fs, s) ==> Sound(pins, fs, arts[0], fs[HashFile(s)].hash);
      LiveMayBe(pins, fs, i, arts[0], Torn);
      LiveMayBe(pins, fs, i, arts[0], fs[At(Cache, arts[0])]);
      CopyBackSafe(pins, Apply(fs, op), i, arts[1..]);
      assert CopyAll(In(Cache), LiveFor(i), arts)[1..] == CopyAll(In(Cache), LiveFor(i), arts[1..]);
    }
  }

  /** What a live file may become under flags with key `k`. */
  ghost predicate Fits(pins: Pins, a: Art, k: Hash, b: Blob) {
    b == Torn || forall j :: Admissible(pins, j) && Key(Owner(a), j) == k ==> b == Fresh(a, j)
  }

  lemma SoundWith(pins: Pins, fs: Files, i: Inputs, a: Art, b: Blob, c: Art, k: Hash)
    requires Sound(pins, fs, c, k) && (c == a ==> Fits(pins, a, k, b))
    ensures Sound(pins, fs[LivePath(a, i) := b], c, k)
  {
    forall j | Admissible(pins, j) && Key(Owner(c), j) == k ensures SoundFor(fs[LivePath(a, i) := b], c, j) {
      assert SoundFor(fs, c, j);
    }
  }

  /** Under valid flags a live file may become torn or equal to its sound cached copy. */
  lemma LiveMayBe(pins: Pins, fs: Files, i: Inputs, a: Art, b: Blob)
    requires Inv(pins, fs) && Compiles(Owner(a))
    requires Flagged(fs, Owner(a)) ==> Fits(pins, a, fs[HashFile(Owner(a))].hash, b)
    ensures Inv(pins, fs[LivePath(a, i) := b])
  {
    var gs, s := fs[LivePath(a, i) := b], Owner(a);
    assert OnlyAt(fs, gs, LivePath(a, i));
    forall t ensures StageInv(pins, gs, t) {
      if t == s {
        if Flagged(gs, s) {
          assert StageInv(pins, fs, s) && Flagged(fs, s);
          forall c | Owner(c) == s ensures Sound(pins, gs, c, gs[HashFile(s)].hash) {
            SoundWith(pins, fs, i, a, b, c, fs[HashFile(s)].hash);
          }
        }
      } else {
        StageKeeps(pins, fs, gs, t, LivePath(a, i));
      }
    }
    MasterKeeps(pins, fs, gs, LivePath(a, i));
    TreesKeep(pins, fs, gs, LivePath(a, i));
  }

  /** Setting a done flag is safe once everything it promises holds. */
  lemma FlaggingSafe(pins: Pins, fs: Files, s: Stage)
    requires Inv(pins, fs) && Compiles(s) && HashFile(s) in fs && fs[HashFile(s)].Digest?
    requires forall a :: Owner(a) == s ==> Sound(pins, fs, a, fs[HashFile(s)].hash)
    ensures SafeAlong(pins, fs, [Write(DoneFile(s), Flag)])
  {
    var op := Write(DoneFile(s), Flag);
    forall gs: Files | gs == Apply(fs, op) || gs == Tear(fs, op) ensures Inv(pins, gs) {
      forall t ensures StageInv(pins, gs, t) {
        if t == s {
          forall a | Owner(a) == s ensures Sound(pins, gs, a, gs[HashFile(s)].hash) {
            SoundKept(pins, fs, gs, a, fs[HashFile(s)].hash);
          }
        } else {
          StageKeeps(pins, fs, gs, t, DoneFile(s));
        }
      }
      MasterKeeps(pins, fs, gs, DoneFile(s));
      TreesKeep(pins, fs, gs, DoneFile(s));
    }
    assert [op][1..] == [];
  }

  lemma RestoreSafe(pins: Pins, fs: Files, i: Inputs, s: Stage)
    requires Inv(pins, fs) && Compiles(s) && i.WellFormed() && Restores(fs, i, s)
    ensures SafeAlong(pins, fs, RestoreOps(s, i))
  {
    var back, sent := CopyAll(In(Cache), LiveFor(i), Artifacts(s)), Exported(s, Cache);
    var done := [Write(DoneFile(s), Flag)];
    CopiesSafe(pins, fs, i, s, back, sent);
    var fs2 := Exec(fs, back + sent);
    SafeAtCrash(pins, fs, back + sent, Cut(0, false));
    CopiesKeepFlags(fs, i, s, back, sent);
    assert StageInv(pins, fs2, s);
    FlaggingSafe(pins, fs2, s);
    SafeAppend(pins, fs, back + sent, done);
  }

  lemma CopiesSafe(pins: Pins, fs: Files, i: Inputs, s: Stage, back: seq<Op>, sent: seq<Op>)
    requires Inv(pins, fs) && Compiles(s) && (forall a <- Artifacts(s) :: At(Cache, a) in fs)
    requires back == CopyAll(In(Cache), LiveFor(i), Artifacts(s)) && sent == Exported(s, Cache)
    ensures SafeAlong(pins, fs, back + sent)
  {
    forall a | a in Artifacts(s) ensures Owner(a) == s && At(Cache, a) in fs {
      ArtifactsOwned(s, a);
    }
    CopyBackSafe(pins, fs, i, Artifacts(s));
    SafeAtCrash(pins, fs, back, Cut(0, false));
    forall op | op in sent ensures Neutral(op.path) {
      ExportedOwned(s, Cache, op);
    }
    NeutralSafe(pins, Exec(fs, back), sent);
    SafeAppend(pins, fs, back, sent);
  }

  lemma CopiesKeepFlags(fs: Files, i: Inputs, s: Stage, back: seq<Op>, sent: seq<Op>)
    requires Compiles(s) && back == CopyAll(In(Cache), LiveFor(i), Artifacts(s)) && sent == Exported(s, Cache)
    ensures var gs := Exec(fs, back + sent); Same(fs, gs, HashFile(s)) && Same(fs, gs, DoneFile(s))
  {
    forall op | op in back + sent ensures op.path != HashFile(s) && op.path != DoneFile(s) {
      if op in back {
        CopyAllTouches(In(Cache), LiveFor(i), Artifacts(s), op);
      } else {
        ExportedOwned(s, Cache, op);
      }
    }
    ExecFrame(fs, back + sent, HashFile(s));
    ExecFrame(fs, back + sent, DoneFile(s));
  }

  lemma ClearingSafe(pins: Pins, fs: Files, s: Stage)
    requires Inv(pins, fs) && Compiles(s)
    ensures SafeAlong(pins, fs, ClearOps(s)) && Exec(fs, ClearOps(s)) == fs - {DoneFile(s)} - {HashFile(s)}
  {
    var ops := ClearOps(s);
    var fs1 := fs - {DoneFile(s)};
    RemovalKeeps(pins, fs, DoneFile(s));
    RemovalKeeps(pins, fs1, HashFile(s));
    ExecTwo(fs, ops[0], ops[1]);
    assert ops[1..] == [Remove(HashFile(s))] && ops[1..][1..] == [];
    assert Apply(fs1, ops[1]) == fs1 - {HashFile(s)};
    assert SafeAlong(pins, fs1, ops[1..]);
  }

  /** The tree of a kernel that is built is configured for it: what the module's compilation relies on. */
  predicate ConfigReady(fs: Files, i: Inputs) {
    i.headers == i.linuxVer ==> Holds(fs, KernelConfig(i.linuxVer), Configured(true))
  }

  /** Writing to a source tree what a clean build has there is safe, given that no promise is about what was there. */
  lemma TreeWriteKeeps(pins: Pins, fs: Files, p: Path, b: Blob)
    requires Inv(pins, fs) && (p.SourceTree? || p.KernelConfig?) && TreeSound(pins, p, b)
    requires p.KernelConfig? ==> p !in fs || DoneFile(CompileKernel) !in fs
    ensures Inv(pins, fs[p := b])
  {
    var gs := fs[p := b];
    forall s ensures StageInv(pins, gs, s) {
      if s == CompileKernel && p.KernelConfig? {
        ConfigWriteKeeps(pins, fs, p, b);
      } else {
        StageKeeps(pins, fs, gs, s, p);
      }
    }
    MasterKeeps(pins, fs, gs, p);
    TreesKeep(pins, fs, gs, p);
  }

  lemma ConfigWriteKeeps(pins: Pins, fs: Files, p: Path, b: Blob)
    requires Inv(pins, fs) && p.KernelConfig? && (p !in fs || DoneFile(CompileKernel) !in fs)
    ensures StageInv(pins, fs[p := b], CompileKernel)
  {
    var gs := fs[p := b];
    if Flagged(gs, CompileKernel) {
      assert StageInv(pins, fs, CompileKernel) && Flagged(fs, CompileKernel);
      var k := fs[HashFile(CompileKernel)].hash;
      forall i | Admissible(pins, i) && Key(CompileKernel, i) == k ensures SoundFor(gs, BzImage, i) {
        assert Sound(pins, fs, BzImage, k) && SoundFor(fs, BzImage, i);
      }
      assert forall a :: Owner(a) == CompileKernel ==> a == BzImage;
    }
  }

  lemma TreesPristine(i: Inputs, p: Path)
    requires p in Trees(i)
    ensures p.SourceTree? && p in Pristine(i)
  {
  }

  lemma {:induction false} UnpackSafe(pins: Pins, fs: Files, now: Files, i: Inputs, ps: seq<Path>)
    requires Inv(pins, now) && Admissible(pins, i) && forall p <- ps :: p in Trees(i)
    ensures SafeAlong(pins, now, Unpacks(fs, i, ps))
    decreases |ps|
  {
    if ps != [] {
      var ops, rest := Unpacks(fs, i, ps), Unpacks(fs, i, ps[1..]);
      if ps[0] in fs {
        assert ops == rest;
        UnpackSafe(pins, fs, now, i, ps[1..]);
      } else {
        TreesPristine(i, ps[0]);
        PristinePinned(pins, i, ps[0]);
        TreeWriteKeeps(pins, now, ps[0], Get(Pristine(i), ps[0]));
        UnpackSafe(pins, fs, Apply(now, ops[0]), i, ps[1..]);
        assert ops[1..] == rest;
      }
    }
  }

  /** Unpacking is safe at every step that is not torn. */
  lemma ExtractSafe(pins: Pins, fs: Files, i: Inputs)
    requires Inv(pins, fs) && Admissible(pins, i)
    ensures SafeAlong(pins, fs, ExtractPlan(fs, i).ops)
  {
    var unpack, done := Unpacks(fs, i, Trees(i)), [Write(DoneFile(ExtractTarballs), Flag)];
    UnpackSafe(pins, fs, fs, i, Trees(i));
    SafeAtCrash(pins, fs, unpack, Cut(0, false));
    NeutralSafe(pins, Exec(fs, unpack), done);
    SafeAppend(pins, fs, unpack, done);
  }

  lemma PrepareSafe(pins: Pins, fs: Files, i: Inputs, s: Stage)
    requires Inv(pins, fs) && Admissible(pins, i) && Compiles(s) && DoneFile(s) !in fs
    requires s == CompileKernelModule ==> ConfigReady(fs, i)
    ensures SafeAlong(pins, fs, Prepare(fs, i, s))
  {
    var ops := Prepare(fs, i, s);
    if s == CompileKernel {
      TreeWriteKeeps(pins, fs, KernelConfig(i.linuxVer), Configured(true));
      TreeWriteKeeps(pins, fs, KernelConfig(i.linuxVer), Torn);
      assert ops[1..] == [];
    } else if s == CompileKernelModule {
      var tree, config := SourceTree(Linux, i.headers), KernelConfig(i.headers);
      var fetch := if tree in fs then [] else [Write(tree, Unpacked(Linux, i.headers, i.headersTar))];
      var configure := if config in fs then [] else [Write(config, Configured(false))];
      FetchSafe(pins, fs, i, fetch);
      SafeAtCrash(pins, fs, fetch, Cut(0, false));
      ConfigureSafe(pins, Exec(fs, fetch), i, configure);
      SafeAppend(pins, fs, fetch, configure);
    }
  }

  lemma FetchSafe(pins: Pins, fs: Files, i: Inputs, ops: seq<Op>)
    requires Inv(pins, fs) && Admissible(pins, i)
    requires ops in {[], [Write(SourceTree(Linux, i.headers), Unpacked(Linux, i.headers, i.headersTar))]}
    ensures SafeAlong(pins, fs, ops) && Same(fs, Exec(fs, ops), KernelConfig(i.headers))
  {
    if ops != [] {
      TreeWriteKeeps(pins, fs, ops[0].path, ops[0].blob);
      assert ops[1..] == [];
    }
  }

  lemma ConfigureSafe(pins: Pins, fs: Files, i: Inputs, ops: seq<Op>)
    requires Inv(pins, fs) && Admissible(pins, i)
    requires var config := KernelConfig(i.headers);
             ops == if config in fs then [] else [Write(config, Configured(false))]
    requires KernelConfig(i.headers) !in fs ==> i.headers != i.linuxVer
    ensures SafeAlong(pins, fs, ops)
  {
    if ops != [] {
      TreeWriteKeeps(pins, fs, ops[0].path, ops[0].blob);
      assert ops[1..] == [];
    }
  }

  /** Preparing touches the trees only. */
  lemma PrepareFrame(fs: Files, gs: Files, i: Inputs, s: Stage, p: Path)
    requires !p.SourceTree? && !p.KernelConfig?
    ensures Same(gs, Exec(gs, Prepare(fs, i, s)), p)
  {
    ExecFrame(gs, Prepare(fs, i, s), p);
  }

  /** The trees a stage reads are there and whole. */
  ghost predicate TreesReady(fs: Files, i: Inputs, s: Stage) {
    && (forall p <- Needs(s, i) :: p in fs)
    && (s == CompileKernelModule ==>
          ConfigReady(fs, i) && (i.headers != i.linuxVer ==> !Holds(fs, KernelConfig(i.headers), Torn)))
  }

  lemma PreparedReads(fs: Files, i: Inputs, s: Stage, a: Art, p: Path)
    requires Compiles(s) && Owner(a) == s && p in Reads(a, i) && forall q <- Needs(s, i) :: q in fs
    ensures p in Exec(fs, Prepare(fs, i, s))
    ensures s == CompileKernel ==> Holds(Exec(fs, Prepare(fs, i, s)), KernelConfig(i.linuxVer), Configured(true))
    ensures s == CompileKernelModule && KernelConfig(i.headers) in fs ==>
              Same(fs, Exec(fs, Prepare(fs, i, s)), KernelConfig(i.headers))
  {
    var ops := Prepare(fs, i, s);
    if |ops| == 1 {
      assert ops[1..] == [] && Exec(fs, ops) == Apply(fs, ops[0]);
    } else if |ops| == 2 {
      assert ops == [ops[0], ops[1]];
      ExecTwo(fs, ops[0], ops[1]);
    }
  }

  /** What the commands read is what they read in a clean build. */
  lemma PreparedPristine(pins: Pins, fs: Files, i: Inputs, s: Stage, a: Art)
    requires Inv(pins, fs) && Inv(pins, Exec(fs, Prepare(fs, i, s))) && Admissible(pins, i)
    requires Compiles(s) && Owner(a) == s && TreesReady(fs, i, s)
    ensures Compile(Exec(fs, Prepare(fs, i, s)), a, i) == Fresh(a, i)
  {
    var made := Exec(fs, Prepare(fs, i, s));
    ReadsPristine(i, a);
    forall p | p in Reads(a, i) ensures Get(made, p) == Get(Pristine(i), p) {
      PreparedReads(fs, i, s, a, p);
      PristinePinned(pins, i, p);
      assert TreeSound(pins, p, made[p]);
    }
    CompileFreshIff(made, a, i);
  }

  lemma BuiltSound(pins: Pins, fs: Files, i: Inputs, a: Art)
    requires Admissible(pins, i) && Compiles(Owner(a))
    requires Holds(fs, LivePath(a, i), Fresh(a, i)) && Holds(fs, At(Cache, a), Fresh(a, i))
    requires a == BzImage ==> Holds(fs, KernelConfig(i.linuxVer), Configured(true))
    ensures Sound(pins, fs, a, Key(Owner(a), i))
  {
    forall j | Admissible(pins, j) && Key(Owner(a), j) == Key(Owner(a), i) ensures SoundFor(fs, a, j) {
      KeyFixesPlace(i, j, a);
      KeyFixesFresh(pins, i, j, a);
    }
  }

  /** Compiling, caching, exporting and writing the hash are safe once the done flag is gone. */
  lemma BuildSafe(pins: Pins, fs: Files, made: Files, i: Inputs, s: Stage)
    requires Inv(pins, fs) && Compiles(s) && Admissible(pins, i) && DoneFile(s) !in fs
    requires forall a :: Owner(a) == s ==> Compile(made, a, i) == Fresh(a, i)
    requires s == CompileKernel ==> Holds(fs, KernelConfig(i.linuxVer), Configured(true))
    ensures var ops := BuildOps(made, s, i) + [Write(HashFile(s), Digest(Key(s, i)))];
            && SafeAlong(pins, fs, ops)
            && Holds(Exec(fs, ops), HashFile(s), Digest(Key(s, i)))
            && forall a :: Owner(a) == s ==> Sound(pins, Exec(fs, ops), a, Key(s, i))
  {
    var build, hash := BuildOps(made, s, i), [Write(HashFile(s), Digest(Key(s, i)))];
    forall op: Op | op in build + hash ensures Unflagged(s, op.path) || Neutral(op.path) {
      if op in build {
        BuildOwned(made, s, i, op);
      }
    }
    UnflaggedSafe(pins, fs, build + hash, s);
    ExecAppend(fs, build, hash);
    BuiltThenHashed(pins, fs, made, i, s, build, hash);
  }

  lemma BuiltThenHashed(pins: Pins, fs: Files, made: Files, i: Inputs, s: Stage, build: seq<Op>, hash: seq<Op>)
    requires Compiles(s) && Admissible(pins, i)
    requires build == BuildOps(made, s, i) && hash == [Write(HashFile(s), Digest(Key(s, i)))]
    requires forall a :: Owner(a) == s ==> Compile(made, a, i) == Fresh(a, i)
    requires s == CompileKernel ==> Holds(fs, KernelConfig(i.linuxVer), Configured(true))
    ensures var gs := Exec(Exec(fs, build), hash);
            Holds(gs, HashFile(s), Digest(Key(s, i))) && forall a :: Owner(a) == s ==> Sound(pins, gs, a, Key(s, i))
  {
    var fs1 := Exec(fs, build);
    assert hash[1..] == [] && Exec(fs1, hash) == Apply(fs1, hash[0]);
    BuildLeavesTrees(fs, made, i, s, KernelConfig(i.linuxVer));
    forall a | Owner(a) == s ensures Sound(pins, Exec(fs1, hash), a, Key(s, i)) {
      BuildResult(fs, made, i, s, a);
      HashedSound(pins, fs1, Exec(fs1, hash), i, a);
    }
  }

  lemma HashedSound(pins: Pins, fs: Files, gs: Files, i: Inputs, a: Art)
    requires Admissible(pins, i) && Compiles(Owner(a)) && gs == fs[HashFile(Owner(a)) := Digest(Key(Owner(a), i))]
    requires Holds(fs, LivePath(a, i), Fresh(a, i)) && Holds(fs, At(Cache, a), Fresh(a, i))
    requires a == BzImage ==> Holds(fs, KernelConfig(i.linuxVer), Configured(true))
    ensures Sound(pins, gs, a, Key(Owner(a), i))
  {
    BuiltSound(pins, gs, i, a);
  }

  /** Clearing the flags changes nothing that preparing looks at. */
  lemma PreparedAfterClearing(pins: Pins, fs: Files, i: Inputs, s: Stage)
    requires Inv(pins, fs) && Compiles(s) && Admissible(pins, i) && TreesReady(fs, i, s)
    ensures var fs1 := Exec(fs, ClearOps(s));
            && Inv(pins, fs1) && SafeAlong(pins, fs, ClearOps(s)) && fs1 == fs - {DoneFile(s)} - {HashFile(s)}
            && TreesReady(fs1, i, s) && Prepare(fs1, i, s) == Prepare(fs, i, s)
  {
    ClearingSafe(pins, fs, s);
    SafeAtCrash(pins, fs, ClearOps(s), Cut(0, false));
  }

  /** After a rebuild the trees are as its commands found them, and compiling again would give the same. */
  lemma RebuildReads(fs: Files, i: Inputs, s: Stage, a: Art)
    requires Compiles(s) && Owner(a) == s && !NoTree(fs, i, s)
    ensures var made, gs := Exec(fs, Prepare(fs, i, s)), Exec(fs, RebuildOps(fs, s, i));
            Compile(made, a, i) == Compile(gs, a, i) && forall p <- Reads(a, i) :: p in gs
  {
    var made, gs := Exec(fs, Prepare(fs, i, s)), Exec(fs, RebuildOps(fs, s, i));
    forall p | p in Reads(a, i) ensures Same(made, gs, p) && p in gs {
      RebuildRead(fs, i, s, p);
      PreparedReads(fs, i, s, a, p);
    }
    SeenIff(made, gs, Reads(a, i));
  }

  lemma RebuildRead(fs: Files, i: Inputs, s: Stage, p: Path)
    requires Compiles(s) && (p.SourceTree? || p.KernelConfig?)
    ensures Same(Exec(fs, Prepare(fs, i, s)), Exec(fs, RebuildOps(fs, s, i)), p)
  {
    var cleared, made := fs - {DoneFile(s)} - {HashFile(s)}, Exec(fs, Prepare(fs, i, s));
    RebuildUnfolds(fs, i, s);
    SameExec(fs, cleared, Prepare(fs, i, s), p);
    BuildLeavesTrees(Exec(cleared, Prepare(fs, i, s)), made, i, s, p);
  }

  lemma BuildLeavesTrees(fs: Files, made: Files, i: Inputs, s: Stage, p: Path)
    requires Compiles(s) && (p.SourceTree? || p.KernelConfig?)
    ensures Same(fs, Exec(fs, BuildOps(made, s, i)), p)
  {
    forall op | op in BuildOps(made, s, i) ensures op.path != p {
      BuildOwned(made, s, i, op);
    }
    ExecFrame(fs, BuildOps(made, s, i), p);
  }

  lemma SameReads(fs: Files, gs: Files, i: Inputs, s: Stage, a: Art)
    requires gs == fs - {DoneFile(s)} - {HashFile(s)}
    ensures Compile(Exec(fs, Prepare(fs, i, s)), a, i) == Compile(Exec(gs, Prepare(fs, i, s)), a, i)
  {
    var ops := Prepare(fs, i, s);
    assert forall p <- Reads(a, i) :: p.SourceTree? || p.KernelConfig?;
    assert Prepare(gs, i, s) == ops;
    forall p | p in Reads(a, i) ensures Get(Exec(fs, ops), p) == Get(Exec(gs, ops), p) {
      SameExec(fs, gs, ops, p);
    }
    SeenIff(Exec(fs, ops), Exec(gs, ops), Reads(a, i));
  }

  lemma {:induction false} SameExec(fs: Files, gs: Files, ops: seq<Op>, p: Path)
    requires Same(fs, gs, p) && forall op <- ops :: op.Write?
    ensures Same(Exec(fs, ops), Exec(gs, ops), p)
    decreases |ops|
  {
    if ops != [] {
      assert ops[0] in ops;
      SameExec(Apply(fs, ops[0]), Apply(gs, ops[0]), ops[1..], p);
    }
  }

  lemma RebuildSafe(pins: Pins, fs: Files, i: Inputs, s: Stage)
    requires Inv(pins, fs) && Compiles(s) && Admissible(pins, i) && TreesReady(fs, i, s)
    ensures SafeAlong(pins, fs, RebuildOps(fs, s, i))
  {
    PreparedAfterClearing(pins, fs, i, s);
    ClearedRebuildSafe(pins, fs, Exec(fs, ClearOps(s)), i, s, Prepare(fs, i, s));
  }

  lemma ClearedRebuildSafe(pins: Pins, fs: Files, fs1: Files, i: Inputs, s: Stage, prepare: seq<Op>)
    requires SafeAlong(pins, fs, ClearOps(s)) && fs1 == Exec(fs, ClearOps(s)) == fs - {DoneFile(s)} - {HashFile(s)}
    requires prepare == Prepare(fs, i, s) == Prepare(fs1, i, s)
    requires Inv(pins, fs1) && Compiles(s) && Admissible(pins, i) && TreesReady(fs1, i, s)
    ensures SafeAlong(pins, fs, RebuildOps(fs, s, i))
  {
    PrepareSafe(pins, fs1, i, s);
    SafeAtCrash(pins, fs1, prepare, Cut(0, false));
    var fs2, made := Exec(fs1, prepare), Exec(fs, prepare);
    forall a | Owner(a) == s ensures Compile(made, a, i) == Fresh(a, i) {
      RebuiltFresh(pins, fs, fs1, i, s, a);
    }
    PrepareFrame(fs1, fs1, i, s, DoneFile(s));
    if s == CompileKernel {
      PreparedReads(fs1, i, s, BzImage, SourceTree(Linux, i.linuxVer));
    }
    RebuildParts(pins, fs, made, i, s, fs1, prepare, fs2);
  }

  lemma RebuiltFresh(pins: Pins, fs: Files, fs1: Files, i: Inputs, s: Stage, a: Art)
    requires fs1 == fs - {DoneFile(s)} - {HashFile(s)} && Prepare(fs1, i, s) == Prepare(fs, i, s)
    requires Inv(pins, fs1) && Inv(pins, Exec(fs1, Prepare(fs, i, s))) && Admissible(pins, i)
    requires Compiles(s) && Owner(a) == s && TreesReady(fs1, i, s)
    ensures Compile(Exec(fs, Prepare(fs, i, s)), a, i) == Fresh(a, i)
  {
    PreparedPristine(pins, fs1, i, s, a);
    SameReads(fs, fs1, i, s, a);
  }

  lemma RebuildParts(pins: Pins, fs: Files, made: Files, i: Inputs, s: Stage, fs1: Files, prepare: seq<Op>, fs2: Files)
    requires Compiles(s) && Admissible(pins, i) && prepare == Prepare(fs, i, s) && made == Exec(fs, prepare)
    requires SafeAlong(pins, fs, ClearOps(s)) && fs1 == Exec(fs, ClearOps(s))
    requires SafeAlong(pins, fs1, prepare) && fs2 == Exec(fs1, prepare) && Inv(pins, fs2) && DoneFile(s) !in fs2
    requires forall a :: Owner(a) == s ==> Compile(made, a, i) == Fresh(a, i)
    requires s == CompileKernel ==> Holds(fs2, KernelConfig(i.linuxVer), Configured(true))
    ensures SafeAlong(pins, fs, RebuildOps(fs, s, i))
  {
    var middle := BuildOps(made, s, i) + [Write(HashFile(s), Digest(Key(s, i)))];
    var done := [Write(DoneFile(s), Flag)];
    BuildFlagged(pins, fs2, made, i, s, middle, done);
    SafeInThree(pins, fs, ClearOps(s), prepare, middle + done);
    RebuildInThree(fs, i, s, prepare, made, middle, done);
  }

  lemma RebuildInThree(fs: Files, i: Inputs, s: Stage, prepare: seq<Op>, made: Files, middle: seq<Op>, done: seq<Op>)
    requires prepare == Prepare(fs, i, s) && made == Exec(fs, prepare)
    requires middle == BuildOps(made, s, i) + [Write(HashFile(s), Digest(Key(s, i)))]
    requires done == [Write(DoneFile(s), Flag)]
    ensures RebuildOps(fs, s, i) == (ClearOps(s) + prepare) + (middle + done)
  {
  }

  lemma SafeInThree(pins: Pins, fs: Files, first: seq<Op>, second: seq<Op>, third: seq<Op>)
    requires SafeAlong(pins, fs, first) && SafeAlong(pins, Exec(fs, first), second)
    requires SafeAlong(pins, Exec(Exec(fs, first), second), third)
    ensures SafeAlong(pins, fs, (first + second) + third)
  {
    SafeAppend(pins, fs, first, second);
    ExecAppend(fs, first, second);
    SafeAppend(pins, fs, first + second, third);
  }

  /** Building and flagging, over prepared trees. */
  lemma BuildFlagged(pins: Pins, fs: Files, made: Files, i: Inputs, s: Stage, middle: seq<Op>, done: seq<Op>)
    requires Inv(pins, fs) && Compiles(s) && Admissible(pins, i) && DoneFile(s) !in fs
    requires forall a :: Owner(a) == s ==> Compile(made, a, i) == Fresh(a, i)
    requires s == CompileKernel ==> Holds(fs, KernelConfig(i.linuxVer), Configured(true))
    requires middle == BuildOps(made, s, i) + [Write(HashFile(s), Digest(Key(s, i)))]
    requires done == [Write(DoneFile(s), Flag)]
    ensures SafeAlong(pins, fs, middle + done)
  {
    BuildSafe(pins, fs, made, i, s);
    SafeAtCrash(pins, fs, middle, Cut(0, false));
    FlaggingSafe(pins, Exec(fs, middle), s);
    SafeAppend(pins, fs, middle, done);
  }

  /** Crash safety of all six stages: every operation of a stage's run, torn or whole,
      keeps what valid flags promise, at this level and at the whole-image level. */
  lemma CompileSafe(pins: Pins, fs: Files, i: Inputs, s: Stage)
    requires Inv(pins, fs) && Compiles(s) && Admissible(pins, i) && TreesReady(fs, i, s)
    ensures SafeAlong(pins, fs, CompilePlan(fs, i, s).ops)
  {
    if Restores(fs, i, s) {
      RestorePlanSafe(pins, fs, i, s);
    } else {
      RebuildSafe(pins, fs, i, s);
    }
  }

  lemma RestorePlanSafe(pins: Pins, fs: Files, i: Inputs, s: Stage)
    requires Inv(pins, fs) && Compiles(s) && Admissible(pins, i) && TreesReady(fs, i, s) && Restores(fs, i, s)
    ensures SafeAlong(pins, fs, CompilePlan(fs, i, s).ops)
  {
    RestoreSafe(pins, fs, i, s);
    assert Planted(fs, i, s) + RestoreOps(s, i) == RestoreOps(s, i);
  }
}
