/** What the stages leave, file by file and status by status. */
module Deliveries {
  import opened Store
  import opened Cache
  import opened RunLoop
  import opened CompileStages
  import opened ShipStages
  import opened BuildRun

  /** The files that leave the build besides the image: the module, the SDK with its tests, and the daemon. */
  predicate Leaves(a: Art) {
    Owner(a) in {CompileKernelModule, CompileSDK, CompileDaemon}
  }

  lemma LeavesIs(a: Art)
    ensures Leaves(a) <==> a in {PronzeKo, LibPronze, TestAlloc, TestBounds, TestZig, TestRust, Pronzed}
    ensures Leaves(a) <==> a in EXIT_OUTPUT
    ensures Leaves(a) <==> a in EXIT_WORKSPACE
    ensures Leaves(a) <==> a in SHIPPED
    ensures Leaves(a) <==> Compiles(Owner(a)) && Exports(Owner(a))
  {
    InSeven(EXIT_OUTPUT, a);
    InSeven(EXIT_WORKSPACE, a);
    InSeven(SHIPPED, a);
  }

  lemma InSeven(arts: seq<Art>, a: Art)
    requires |arts| == 7
    ensures a in arts <==> || a == arts[0] || a == arts[1] || a == arts[2] || a == arts[3] || a == arts[4]
                           || a == arts[5] || a == arts[6]
  {
  }

  /** Copying a list of files copies these and no others. */
  lemma CopyAllEffect(fs: Files, from: Side, to: Side, arts: seq<Art>, a: Art)
    requires forall c, d: Art :: Spot(from, c) != Spot(to, d)
    ensures var gs := Exec(fs, CopyAll(from, to, arts));
            if a in arts then Holds(gs, Spot(to, a), Get(fs, Spot(from, a))) else Same(fs, gs, Spot(to, a))
  {
    if a in arts {
      CopyAllCopies(fs, from, to, arts, a);
    } else {
      forall op | op in CopyAll(from, to, arts) ensures op.path != Spot(to, a) {
        CopyAllTouches(from, to, arts, op);
      }
      ExecFrame(fs, CopyAll(from, to, arts), Spot(to, a));
    }
  }

  lemma CopyAllFrame(fs: Files, from: Side, to: Side, arts: seq<Art>, p: Path)
    requires forall a <- arts :: Spot(to, a) != p
    ensures Same(fs, Exec(fs, CopyAll(from, to, arts)), p)
  {
    forall op | op in CopyAll(from, to, arts) ensures op.path != p {
      CopyAllTouches(from, to, arts, op);
    }
    ExecFrame(fs, CopyAll(from, to, arts), p);
  }

  // CheckEarlyExit

  /** A restore by `CheckEarlyExit`: the image, then what is sent out, then what is put back. */
  function Restored(fs: Files, image: Blob, i: Inputs, sent: seq<Art>, back: seq<Art>): Files {
    Exec(Exec(fs[At(OutputDir, OsImage) := image], CopyAll(In(Cache), In(OutputDir), sent)),
         CopyAll(In(Cache), LiveFor(i), back))
  }

  lemma ExitSteps(fs: Files, i: Inputs, a: Art, cached: bool) returns (sent: seq<Art>, back: seq<Art>)
    requires MasterHit(fs, i, false) && At(OutputDir, OsImage) !in fs && At(Cache, OsImage) in fs
    requires cached == (Owner(a) in {CompileKernelModule, CompileSDK, CompileDaemon} && At(Cache, a) in fs)
    ensures (a in sent <==> cached) && (a in back <==> cached) && OsImage !in sent && forall b <- back :: Leaves(b)
    ensures Exec(fs, EarlyExitPlan(fs, i, false).ops)
            == Restored(fs, fs[At(Cache, OsImage)], i, sent, back)[DoneFile(CheckEarlyExit) := Flag]
  {
    ListsLeave();
    sent, back := PresentOnes(fs, EXIT_OUTPUT, EXIT_WORKSPACE, a);
    ExitUnfolds(fs, i, CopyAll(In(Cache), In(OutputDir), sent), CopyAll(In(Cache), LiveFor(i), back));
  }

  lemma ListsLeave()
    ensures (forall a :: a in EXIT_OUTPUT <==> Leaves(a)) && forall a :: a in EXIT_WORKSPACE <==> Leaves(a)
  {
    forall a ensures (a in EXIT_OUTPUT <==> Leaves(a)) && (a in EXIT_WORKSPACE <==> Leaves(a)) {
      LeavesIs(a);
    }
  }

  lemma PresentOnes(fs: Files, out: seq<Art>, live: seq<Art>, a: Art) returns (sent: seq<Art>, back: seq<Art>)
    requires (forall b :: b in out <==> Leaves(b)) && forall b :: b in live <==> Leaves(b)
    ensures sent == Present(fs, Cache, out) && back == Present(fs, Cache, live)
    ensures a in sent <==> Leaves(a) && At(Cache, a) in fs
    ensures a in back <==> Leaves(a) && At(Cache, a) in fs
    ensures OsImage !in sent && forall b <- back :: Leaves(b)
  {
    sent, back := Present(fs, Cache, out), Present(fs, Cache, live);
    assert !Leaves(OsImage);
  }

  lemma ExitUnfolds(fs: Files, i: Inputs, out: seq<Op>, back: seq<Op>)
    requires At(Cache, OsImage) in fs
    ensures var image := [Install(At(Cache, OsImage), At(OutputDir, OsImage))];
            Exec(fs, image + out + back + [Write(DoneFile(CheckEarlyExit), Flag)])
            == Exec(Exec(fs[At(OutputDir, OsImage) := fs[At(Cache, OsImage)]], out), back)
                 [DoneFile(CheckEarlyExit) := Flag]
  {
    var image, done := [Install(At(Cache, OsImage), At(OutputDir, OsImage))], [Write(DoneFile(CheckEarlyExit), Flag)];
    ExecAppend(fs, image + out + back, done);
    ExecAppend(fs, image + out, back);
    ExecAppend(fs, image, out);
    OneOp(fs, image);
    OneOp(Exec(fs, image + out + back), done);
  }

  lemma LiveIsNotCached(i: Inputs)
    ensures forall c, d: Art :: Spot(In(Cache), c) != Spot(LiveFor(i), d)
    ensures forall c, d: Art :: Spot(In(Cache), c) != Spot(In(OutputDir), d)
  {
  }

  lemma RestoredOut(fs: Files, image: Blob, i: Inputs, sent: seq<Art>, back: seq<Art>, a: Art)
    requires a != OsImage
    ensures var gs := Restored(fs, image, i, sent, back);
            if a in sent then Holds(gs, At(OutputDir, a), Get(fs, At(Cache, a))) else Same(fs, gs, At(OutputDir, a))
  {
    var fs1 := fs[At(OutputDir, OsImage) := image];
    LiveIsNotCached(i);
    CopyAllEffect(fs1, In(Cache), In(OutputDir), sent, a);
    CopyAllFrame(Exec(fs1, CopyAll(In(Cache), In(OutputDir), sent)), In(Cache), LiveFor(i), back, At(OutputDir, a));
  }

  lemma RestoredImage(fs: Files, image: Blob, i: Inputs, sent: seq<Art>, back: seq<Art>)
    requires OsImage !in sent
    ensures Holds(Restored(fs, image, i, sent, back), At(OutputDir, OsImage), image)
  {
    var fs1 := fs[At(OutputDir, OsImage) := image];
    CopyAllFrame(fs1, In(Cache), In(OutputDir), sent, At(OutputDir, OsImage));
    CopyAllFrame(Exec(fs1, CopyAll(In(Cache), In(OutputDir), sent)), In(Cache), LiveFor(i), back,
                 At(OutputDir, OsImage));
  }

  lemma RestoredLive(fs: Files, image: Blob, i: Inputs, sent: seq<Art>, back: seq<Art>, a: Art)
    ensures var gs := Restored(fs, image, i, sent, back);
            if a in back then Holds(gs, LivePath(a, i), Get(fs, At(Cache, a))) else Same(fs, gs, LivePath(a, i))
  {
    var fs1 := fs[At(OutputDir, OsImage) := image];
    LiveIsNotCached(i);
    CopyAllFrame(fs1, In(Cache), In(OutputDir), sent, At(Cache, a));
    CopyAllFrame(fs1, In(Cache), In(OutputDir), sent, LivePath(a, i));
    CopyAllEffect(Exec(fs1, CopyAll(In(Cache), In(OutputDir), sent)), In(Cache), LiveFor(i), back, a);
  }

  lemma RestoredFrame(fs: Files, image: Blob, i: Inputs, sent: seq<Art>, back: seq<Art>, p: Path)
    requires !(p.At? && p.place == OutputDir) && forall a <- back :: LivePath(a, i) != p
    ensures Same(fs, Restored(fs, image, i, sent, back), p)
  {
    var fs1 := fs[At(OutputDir, OsImage) := image];
    CopyAllFrame(fs1, In(Cache), In(OutputDir), sent, p);
    CopyAllFrame(Exec(fs1, CopyAll(In(Cache), In(OutputDir), sent)), In(Cache), LiveFor(i), back, p);
  }

  /** What a restore leaves of file `a`. */
  ghost predicate PutBack(fs: Files, gs: Files, i: Inputs, a: Art, cached: bool) {
    if cached then
      Holds(gs, At(OutputDir, a), Get(fs, At(Cache, a))) && Holds(gs, LivePath(a, i), Get(fs, At(Cache, a)))
    else Same(fs, gs, LivePath(a, i)) && (a != OsImage ==> Same(fs, gs, At(OutputDir, a)))
  }

  lemma RestoredAll(fs: Files, image: Blob, i: Inputs, sent: seq<Art>, back: seq<Art>, a: Art, gs: Files)
    requires gs == Restored(fs, image, i, sent, back)[DoneFile(CheckEarlyExit) := Flag]
    requires OsImage !in sent && (a in sent <==> a in back)
    ensures Holds(gs, At(OutputDir, OsImage), image) && PutBack(fs, gs, i, a, a in back)
  {
    RestoredImage(fs, image, i, sent, back);
    RestoredLive(fs, image, i, sent, back, a);
    if a != OsImage {
      RestoredOut(fs, image, i, sent, back, a);
    }
  }

  /** On a hit without an image in the output directory, an early exit puts the cached image back, and every cached
      binary of the module, the SDK and the daemon, both into the output directory and where it is built;
      what is not cached stays as it was. */
  lemma ExitRestores(fs: Files, i: Inputs, a: Art) returns (gs: Files)
    requires MasterHit(fs, i, false) && At(OutputDir, OsImage) !in fs && At(Cache, OsImage) in fs
    ensures gs == Exec(fs, EarlyExitPlan(fs, i, false).ops)
    ensures Holds(gs, At(OutputDir, OsImage), fs[At(Cache, OsImage)])
    ensures Owner(a) in {CompileKernelModule, CompileSDK, CompileDaemon} && At(Cache, a) in fs ==>
              Holds(gs, At(OutputDir, a), fs[At(Cache, a)]) && Holds(gs, LivePath(a, i), fs[At(Cache, a)])
    ensures Owner(a) !in {CompileKernelModule, CompileSDK, CompileDaemon} || At(Cache, a) !in fs ==>
              Same(fs, gs, LivePath(a, i)) && (a != OsImage ==> Same(fs, gs, At(OutputDir, a)))
  {
    var cached := Owner(a) in {CompileKernelModule, CompileSDK, CompileDaemon} && At(Cache, a) in fs;
    var sent, back := ExitSteps(fs, i, a, cached);
    gs := RestoredBy(fs, fs[At(Cache, OsImage)], i, sent, back, a, cached);
  }

  lemma RestoredBy(fs: Files, image: Blob, i: Inputs, sent: seq<Art>, back: seq<Art>, a: Art, cached: bool)
    returns (gs: Files)
    requires (a in sent <==> cached) && (a in back <==> cached) && OsImage !in sent
    ensures gs == Restored(fs, image, i, sent, back)[DoneFile(CheckEarlyExit) := Flag]
    ensures Holds(gs, At(OutputDir, OsImage), image) && PutBack(fs, gs, i, a, cached)
  {
    gs := Restored(fs, image, i, sent, back)[DoneFile(CheckEarlyExit) := Flag];
    RestoredAll(fs, image, i, sent, back, a, gs);
  }

  lemma RestoredRest(fs: Files, image: Blob, i: Inputs, sent: seq<Art>, back: seq<Art>, p: Path, gs: Files)
    requires gs == Restored(fs, image, i, sent, back)[DoneFile(CheckEarlyExit) := Flag]
    requires !(p.At? && p.place in {OutputDir, Workspace}) && p != DoneFile(CheckEarlyExit)
    requires forall a <- back :: Leaves(a)
    ensures Same(fs, gs, p)
  {
    forall a | a in back ensures LivePath(a, i) != p {
      assert Leaves(a) && !Versioned(a);
    }
    RestoredFrame(fs, image, i, sent, back, p);
  }

  /** What a restore leaves of all files that compile stages make, and of the image. */
  ghost predicate ExitRestored(fs: Files, gs: Files, i: Inputs) {
    && Holds(gs, At(OutputDir, OsImage), Get(fs, At(Cache, OsImage)))
    && forall a :: Compiles(Owner(a)) ==>
         if Owner(a) in {CompileKernelModule, CompileSDK, CompileDaemon} && At(Cache, a) in fs
         then Holds(gs, At(OutputDir, a), fs[At(Cache, a)]) && Holds(gs, LivePath(a, i), fs[At(Cache, a)])
         else Same(fs, gs, At(OutputDir, a)) && Same(fs, gs, LivePath(a, i))
  }

  /** A hit for which the image has to be restored. */
  predicate ExitRestoring(fs: Files, i: Inputs, repackage: bool) {
    MasterHit(fs, i, repackage) && At(OutputDir, OsImage) !in fs && At(Cache, OsImage) in fs
  }

  lemma ExitRestoresAll(fs: Files, i: Inputs) returns (gs: Files)
    requires MasterHit(fs, i, false) && At(OutputDir, OsImage) !in fs && At(Cache, OsImage) in fs
    ensures gs == Exec(fs, EarlyExitPlan(fs, i, false).ops) && ExitRestored(fs, gs, i)
  {
    gs := ExitRestores(fs, i, OsImage);
    forall a | Compiles(Owner(a))
      ensures if Owner(a) in {CompileKernelModule, CompileSDK, CompileDaemon} && At(Cache, a) in fs
              then Holds(gs, At(OutputDir, a), fs[At(Cache, a)]) && Holds(gs, LivePath(a, i), fs[At(Cache, a)])
              else Same(fs, gs, At(OutputDir, a)) && Same(fs, gs, LivePath(a, i))
    {
      var hs := ExitRestores(fs, i, a);
    }
  }

  /** And every other file stays as it was, but for the stage's done flag. */
  lemma ExitRestoresNoMore(fs: Files, i: Inputs, p: Path)
    requires MasterHit(fs, i, false) && At(OutputDir, OsImage) !in fs && At(Cache, OsImage) in fs
    requires !(p.At? && p.place in {OutputDir, Workspace}) && p != DoneFile(CheckEarlyExit)
    ensures Same(fs, Exec(fs, EarlyExitPlan(fs, i, false).ops), p)
  {
    var sent, back := ExitSteps(fs, i, OsImage, false);
    RestoredRest(fs, fs[At(Cache, OsImage)], i, sent, back, p, Exec(fs, EarlyExitPlan(fs, i, false).ops));
  }

  /** `CheckEarlyExit` ends the run early exactly on a hit for which an image is there or cached; otherwise,
      and when the image is there, it writes its done flag only. */
  lemma ExitsIff(fs: Files, i: Inputs, repackage: bool)
    ensures EarlyExitPlan(fs, i, repackage).skip <==>
        && !repackage && Holds(fs, MasterHash, Digest(i.Master())) && MasterDone in fs
        && (At(OutputDir, OsImage) in fs || At(Cache, OsImage) in fs)
    ensures !EarlyExitPlan(fs, i, repackage).skip || At(OutputDir, OsImage) in fs ==>
        Exec(fs, EarlyExitPlan(fs, i, repackage).ops) == fs[DoneFile(CheckEarlyExit) := Flag]
  {
    OneOp(fs, [Write(DoneFile(CheckEarlyExit), Flag)]);
  }

  // ExtractTarballs

  /** Unpacking leaves the tree of every package and of the headers there: the one that was, or the tarball's. */
  lemma ExtractLeaves(fs: Files, i: Inputs)
    requires i.WellFormed()
    ensures var gs := Exec(fs, ExtractPlan(fs, i).ops);
            && (forall q: Package :: var p := SourceTree(q, i.Version(q));
                  Holds(gs, p, if p in fs then fs[p] else Unpacked(q, i.Version(q), i.Tarball(q))))
            && var p := SourceTree(Linux, i.headers);
               Holds(gs, p, if p in fs then fs[p] else Unpacked(Linux, i.headers, i.headersTar))
  {
    forall q: Package
      ensures var p := SourceTree(q, i.Version(q));
              Holds(Exec(fs, ExtractPlan(fs, i).ops), p,
                    if p in fs then fs[p] else Unpacked(q, i.Version(q), i.Tarball(q)))
    {
      PackageTree(i, q);
      ExtractResult(fs, i, SourceTree(q, i.Version(q)));
    }
    HeadersTree(i);
    ExtractResult(fs, i, SourceTree(Linux, i.headers));
  }

  lemma PackageTree(i: Inputs, q: Package)
    ensures SourceTree(q, i.Version(q)) in Trees(i)
    ensures Get(Pristine(i), SourceTree(q, i.Version(q))) == Unpacked(q, i.Version(q), i.Tarball(q))
  {
    var ps := Trees(i);
    assert ps[0] in ps && ps[1] in ps && ps[2] in ps && ps[3] in ps && ps[4] in ps;
  }

  lemma HeadersTree(i: Inputs)
    requires i.WellFormed()
    ensures SourceTree(Linux, i.headers) in Trees(i)
    ensures Get(Pristine(i), SourceTree(Linux, i.headers)) == Unpacked(Linux, i.headers, i.headersTar)
  {
    var ps := Trees(i);
    assert ps[0] in ps && (i.headers != i.linuxVer ==> ps[5] in ps);
  }

  // The compile stages

  /** A call that passes sends the files of the module, SDK and daemon stages to the output directory,
      and no others. */
  lemma CompileSends(fs: Files, i: Inputs, a: Art)
    requires i.WellFormed() && Compiles(Owner(a)) && !CompilePlan(fs, i, Owner(a)).raises
    ensures var gs := Exec(fs, CompilePlan(fs, i, Owner(a)).ops);
            if Owner(a) in {CompileKernelModule, CompileSDK, CompileDaemon}
            then Holds(gs, At(OutputDir, a), Made(fs, i, a)) else Same(fs, gs, At(OutputDir, a))
  {
    PlanThatPasses(fs, i, Owner(a));
    OpsSend(fs, i, Owner(a), a, CompilePlan(fs, i, Owner(a)).ops);
  }

  lemma PlanThatPasses(fs: Files, i: Inputs, s: Stage)
    requires !CompilePlan(fs, i, s).raises
    ensures CompilePlan(fs, i, s).ops ==
              if Restores(fs, i, s) then Planted(fs, i, s) + RestoreOps(s, i) else RebuildOps(fs, s, i)
  {
  }

  lemma OpsSend(fs: Files, i: Inputs, s: Stage, a: Art, ops: seq<Op>)
    requires Compiles(s) && Owner(a) == s
    requires ops == if Restores(fs, i, s) then Planted(fs, i, s) + RestoreOps(s, i) else RebuildOps(fs, s, i)
    ensures if s in {CompileKernelModule, CompileSDK, CompileDaemon}
            then Holds(Exec(fs, ops), At(OutputDir, a), Made(fs, i, a)) else Same(fs, Exec(fs, ops), At(OutputDir, a))
  {
    if Restores(fs, i, s) {
      ArtifactsOwned(s, a);
      RestoreSends(fs, i, s, a);
    } else {
      RebuildSends(fs, i, s, a);
    }
  }

  /** What a call that passes leaves of a stage's own files: each as it was cached when the flags named these sources
      and all were cached, and otherwise as compiled now, both where it is built and in the cache. */
  ghost predicate CompileDone(fs: Files, gs: Files, i: Inputs, s: Stage) {
    var restored := Holds(fs, HashFile(s), Digest(Key(s, i))) && DoneFile(s) in fs
                    && forall b :: Owner(b) == s ==> At(Cache, b) in fs;
    && Holds(gs, HashFile(s), Digest(Key(s, i))) && DoneFile(s) in gs
    && forall a :: Owner(a) == s ==>
         var made := if restored then Get(fs, At(Cache, a)) else Compile(Exec(fs, Prepare(fs, i, s)), a, i);
         && Holds(gs, LivePath(a, i), made) && Holds(gs, At(Cache, a), made)
         && if s in {CompileKernelModule, CompileSDK, CompileDaemon} then Holds(gs, At(OutputDir, a), made)
            else Same(fs, gs, At(OutputDir, a))
  }

  lemma RestoresWhen(fs: Files, i: Inputs, s: Stage)
    requires i.WellFormed() && Compiles(s)
    ensures Restores(fs, i, s) <==> Holds(fs, HashFile(s), Digest(Key(s, i))) && DoneFile(s) in fs
                                    && forall b :: Owner(b) == s ==> At(Cache, b) in fs
  {
    KeyNotEmpty(i, s);
    forall b ensures b in Artifacts(s) <==> Owner(b) == s {
      ArtifactsOwned(s, b);
    }
  }

  lemma CompileIsDone(fs: Files, i: Inputs, s: Stage)
    requires i.WellFormed() && Compiles(s) && !CompilePlan(fs, i, s).raises
    ensures CompileDone(fs, Exec(fs, CompilePlan(fs, i, s).ops), i, s)
  {
    RestoresWhen(fs, i, s);
    var gs := Exec(fs, CompilePlan(fs, i, s).ops);
    forall a | Owner(a) == s
      ensures Holds(gs, HashFile(s), Digest(Key(s, i))) && DoneFile(s) in gs
      ensures Holds(gs, LivePath(a, i), Made(fs, i, a)) && Holds(gs, At(Cache, a), Made(fs, i, a))
      ensures if s in {CompileKernelModule, CompileSDK, CompileDaemon} then Holds(gs, At(OutputDir, a), Made(fs, i, a))
              else Same(fs, gs, At(OutputDir, a))
    {
      CompileResult(fs, i, s, a);
      CompileSends(fs, i, a);
    }
    ArtifactsOwned(s, Artifacts(s)[0]);
  }

  lemma RestoreSends(fs: Files, i: Inputs, s: Stage, a: Art)
    requires Compiles(s) && Owner(a) == s && Restores(fs, i, s)
    ensures var gs := Exec(fs, Planted(fs, i, s) + RestoreOps(s, i));
            if Exports(s) then Holds(gs, At(OutputDir, a), fs[At(Cache, a)]) else Same(fs, gs, At(OutputDir, a))
  {
    ArtifactsOwned(s, a);
    var fs0 := Exec(fs, Planted(fs, i, s));
    ExecAppend(fs, Planted(fs, i, s), RestoreOps(s, i));
    OneOp(fs, Planted(fs, i, s));
    SentAfter(fs0, i, Artifacts(s), Exports(s), DoneFile(s), a);
    assert Same(fs, fs0, At(OutputDir, a)) && Same(fs, fs0, At(Cache, a));
  }

  /** Copying cached files back, and then, for a stage that exports, out. */
  lemma SentAfter(fs: Files, i: Inputs, arts: seq<Art>, exports: bool, done: Path, a: Art)
    requires a in arts && !done.At?
    ensures var sent := if exports then CopyAll(In(Cache), In(OutputDir), arts) else [];
            var gs := Exec(fs, CopyAll(In(Cache), LiveFor(i), arts) + sent + [Write(done, Flag)]);
            if exports then Holds(gs, At(OutputDir, a), Get(fs, At(Cache, a))) else Same(fs, gs, At(OutputDir, a))
  {
    var back, flag := CopyAll(In(Cache), LiveFor(i), arts), [Write(done, Flag)];
    var sent := if exports then CopyAll(In(Cache), In(OutputDir), arts) else [];
    ExecAppend(fs, back + sent, flag);
    ExecAppend(fs, back, sent);
    OneOp(Exec(fs, back + sent), flag);
    LiveIsNotCached(i);
    CopyAllFrame(fs, In(Cache), LiveFor(i), arts, At(OutputDir, a));
    CopyAllFrame(fs, In(Cache), LiveFor(i), arts, At(Cache, a));
    if exports {
      CopyAllEffect(Exec(fs, back), In(Cache), In(OutputDir), arts, a);
    }
  }

  lemma BuildSends(fs: Files, made: Files, i: Inputs, s: Stage, a: Art)
    requires Compiles(s) && Owner(a) == s
    ensures var gs := Exec(fs, BuildOps(made, s, i));
            if Exports(s) then Holds(gs, At(OutputDir, a), Compile(made, a, i)) else Same(fs, gs, At(OutputDir, a))
  {
    ArtifactsOwned(s, a);
    var arts, from := Artifacts(s), if s == CompileKernelModule then Workspace else Cache;
    var compiled, cached, sent := CompileAll(made, arts, i), CopyAll(LiveFor(i), In(Cache), arts), Exported(s, from);
    ExecAppend(fs, compiled + cached, sent);
    ExecAppend(fs, compiled, cached);
    var fs1 := Exec(fs, compiled);
    forall op | op in compiled ensures op.path != At(OutputDir, a) {
      CompileAllTouches(made, arts, i, op);
    }
    ExecFrame(fs, compiled, At(OutputDir, a));
    CopyAllFrame(fs1, LiveFor(i), In(Cache), arts, At(OutputDir, a));
    if Exports(s) {
      CompileAllBuilds(fs, made, arts, i, a);
      LiveNotCached(i);
      CopyAllCopies(fs1, LiveFor(i), In(Cache), arts, a);
      CopyAllFrame(fs1, LiveFor(i), In(Cache), arts, LivePath(a, i));
      CopyAllEffect(Exec(fs1, cached), In(from), In(OutputDir), arts, a);
    }
  }

  lemma RebuildSends(fs: Files, i: Inputs, s: Stage, a: Art)
    requires Compiles(s) && Owner(a) == s
    ensures var gs := Exec(fs, RebuildOps(fs, s, i));
            if Exports(s) then Holds(gs, At(OutputDir, a), Compile(Exec(fs, Prepare(fs, i, s)), a, i))
            else Same(fs, gs, At(OutputDir, a))
  {
    var cleared, made := fs - {DoneFile(s)} - {HashFile(s)}, Exec(fs, Prepare(fs, i, s));
    RebuildUnfolds(fs, i, s);
    PrepareFrame(fs, cleared, i, s, At(OutputDir, a));
    BuildSends(Exec(cleared, Prepare(fs, i, s)), made, i, s, a);
  }

  // CleanOutput and ShipImage

  lemma {:induction false} WipeLeaves(fs: Files, order: seq<Art>, stuck: set<Art>, a: Art)
    ensures At(OutputDir, a) in Exec(fs, WipeOps(order, stuck))
            <==> At(OutputDir, a) in fs && (a in stuck || a !in order)
    decreases |order|
  {
    if order != [] {
      var ops := WipeOps(order, stuck);
      if order[0] in stuck {
        assert ops == WipeOps(order[1..], stuck);
        WipeLeaves(fs, order[1..], stuck, a);
      } else {
        assert ops[1..] == WipeOps(order[1..], stuck);
        WipeLeaves(Apply(fs, ops[0]), order[1..], stuck, a);
      }
    }
  }

  /** `CleanOutput` leaves nothing in the output directory but entries it could not delete or did not see;
      it does nothing at all when `ShipImage` is about to restore. */
  lemma CleanLeaves(fs: Files, i: Inputs, repackage: bool, l: Scene, a: Art)
    ensures var gs := Exec(fs, CleanPlan(fs, i, repackage, l).ops);
            if ShipCached(fs, i, repackage) then gs == fs
            else At(OutputDir, a) in gs <==> At(OutputDir, a) in fs && (a in l.stuck || a !in l.order)
  {
    WipeLeaves(fs, l.order, l.stuck, a);
  }

  /** When `ShipImage` restores: its flags are valid for the current sources, it is not a repackage run, and the
      image and every binary that the workspace has are cached. */
  lemma ShipRestoresIff(fs: Files, i: Inputs, repackage: bool)
    ensures ShipCached(fs, i, repackage) <==>
        && !repackage && Holds(fs, HashFile(ShipImage), Digest(i.Master())) && DoneFile(ShipImage) in fs
        && At(Cache, OsImage) in fs
        && forall a :: a in {PronzeKo, LibPronze, TestAlloc, TestBounds, TestZig, TestRust, Pronzed} ==>
             At(Workspace, a) in fs ==> At(Cache, a) in fs
  {
    forall a ensures a in SHIPPED <==> a in {PronzeKo, LibPronze, TestAlloc, TestBounds, TestZig, TestRust, Pronzed} {
      LeavesIs(a);
    }
    assert ShippedFiles(fs)[0] == OsImage;
    assert forall a :: a in ShippedFiles(fs) <==> a == OsImage || (a in SHIPPED && At(Workspace, a) in fs);
  }

  /** Restoring puts the cached image, and the cached copy of every binary that the workspace has, into the output
      directory, and changes nothing else. */
  lemma ShipRestores(fs: Files, i: Inputs, a: Art)
    requires ShipCached(fs, i, false)
    ensures var gs := Exec(fs, ShipPlan(fs, i, false).ops);
            var shipped := a == OsImage || (Owner(a) in {CompileKernelModule, CompileSDK, CompileDaemon}
                                            && At(Workspace, a) in fs);
            if shipped then Holds(gs, At(OutputDir, a), Get(fs, At(Cache, a))) && At(Cache, a) in fs
            else Same(fs, gs, At(OutputDir, a))
    ensures forall p: Path :: !(p.At? && p.place == OutputDir) ==> Same(fs, Exec(fs, ShipPlan(fs, i, false).ops), p)
  {
    var bins := Present(fs, Workspace, SHIPPED);
    ShipRestoresIff(fs, i, false);
    LeavesIs(a);
    LeavesIs(OsImage);
    ImageAndCopies(fs, bins, a);
    forall p: Path | !(p.At? && p.place == OutputDir) ensures Same(fs, Exec(fs, ShipPlan(fs, i, false).ops), p) {
      ImageAndCopiesFrame(fs, bins, p);
    }
  }

  lemma ImageAndCopies(fs: Files, bins: seq<Art>, a: Art)
    requires OsImage !in bins
    ensures var gs := Exec(fs, [Copy(At(Cache, OsImage), At(OutputDir, OsImage))]
                               + CopyAll(In(Cache), In(OutputDir), bins));
            if a == OsImage || a in bins then Holds(gs, At(OutputDir, a), Get(fs, At(Cache, a)))
            else Same(fs, gs, At(OutputDir, a))
  {
    var image := [Copy(At(Cache, OsImage), At(OutputDir, OsImage))];
    ExecAppend(fs, image, CopyAll(In(Cache), In(OutputDir), bins));
    OneOp(fs, image);
    CopyAllEffect(Exec(fs, image), In(Cache), In(OutputDir), bins, a);
  }

  lemma ImageAndCopiesFrame(fs: Files, bins: seq<Art>, p: Path)
    requires !(p.At? && p.place == OutputDir)
    ensures Same(fs, Exec(fs, [Copy(At(Cache, OsImage), At(OutputDir, OsImage))]
                              + CopyAll(In(Cache), In(OutputDir), bins)), p)
  {
    var image := [Copy(At(Cache, OsImage), At(OutputDir, OsImage))];
    ExecAppend(fs, image, CopyAll(In(Cache), In(OutputDir), bins));
    OneOp(fs, image);
    CopyAllFrame(Exec(fs, image), In(Cache), In(OutputDir), bins, p);
  }

  // Statuses

  /** How a stage that is entered and runs to its end is reported: a restore is "Skipped", and so is a `CleanOutput`
      that has nothing to do; everything else is "Success". */
  lemma StatusAfter(setup: Setup, st: State<Stage, Files>, s: Stage)
    requires st.final == Unfinished && !Bypassed(Config(setup), st, s)
    requires setup.fates(s).Finishes? && !PlanIn(setup, st, s).raises
    ensures var next := Handle(Config(setup), StageBody(setup, st.repackage), st, s);
            next.status[s] ==
              if (Compiles(s) && Restores(st.world, setup.inputs, s))
                 || (s in {CleanOutput, ShipImage} && ShipCached(st.world, setup.inputs, st.repackage))
              then Skipped else Success
  {
    BodyPerforms(setup, st, s);
    HandlePerforms(Config(setup), StageBody(setup, st.repackage), st, s, PlanIn(setup, st, s), setup.fates(s));
    Reports(setup, st, s, PlanIn(setup, st, s));
  }

  lemma Reports(setup: Setup, st: State<Stage, Files>, s: Stage, plan: Plan)
    requires plan == PlanIn(setup, st, s) && !plan.raises
    ensures plan.report == SaysSkipped <==>
        || (Compiles(s) && Restores(st.world, setup.inputs, s))
        || (s in {CleanOutput, ShipImage} && ShipCached(st.world, setup.inputs, st.repackage))
  {
  }
}
