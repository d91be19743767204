/** What keys, compiled files, the root file system and the image show of the sources, field by field. */
module Fingerprints {
  import opened Store
  import opened Cache
  import opened RunLoop
  import opened CompileStages
  import opened ShipStages
  import opened BuildRun
  import opened BuildSafety

  // Compiled files

  lemma SeenOne(fs: Files, p: Path)
    ensures Seen(fs, [p]) == [Get(fs, p)]
  {
    assert [p][1..] == [];
  }

  lemma SeenTwo(fs: Files, p: Path, q: Path)
    ensures Seen(fs, [p, q]) == [Get(fs, p), Get(fs, q)]
  {
    assert [p, q][1..] == [q];
    SeenOne(fs, q);
  }

  lemma SeenThree(fs: Files, p: Path, q: Path, r: Path)
    ensures Seen(fs, [p, q, r]) == [Get(fs, p), Get(fs, q), Get(fs, r)]
  {
    assert [p, q, r][1..] == [q, r];
    SeenTwo(fs, q, r);
  }

  lemma KernelShows(i: Inputs, j: Inputs)
    ensures Fresh(BzImage, i) == Fresh(BzImage, j) <==> i.linuxVer == j.linuxVer && i.linuxTar == j.linuxTar
  {
    SeenOne(Pristine(i), SourceTree(Linux, i.linuxVer));
    SeenOne(Pristine(j), SourceTree(Linux, j.linuxVer));
    OneShows(Get(Pristine(i), SourceTree(Linux, i.linuxVer)), Get(Pristine(j), SourceTree(Linux, j.linuxVer)));
  }

  lemma OneShows(a: Blob, b: Blob)
    ensures [a] == [b] <==> a == b
  {
    assert [a] == [b] ==> [a][0] == [b][0];
  }

  lemma BusyboxShows(i: Inputs, j: Inputs)
    ensures Fresh(BusyboxInstall, i) == Fresh(BusyboxInstall, j)
            <==> i.busyboxVer == j.busyboxVer && i.busyboxTar == j.busyboxTar
  {
    SeenOne(Pristine(i), SourceTree(Busybox, i.busyboxVer));
    SeenOne(Pristine(j), SourceTree(Busybox, j.busyboxVer));
    OneShows(Get(Pristine(i), SourceTree(Busybox, i.busyboxVer)), Get(Pristine(j), SourceTree(Busybox, j.busyboxVer)));
  }

  lemma S6Reads(i: Inputs)
    ensures Seen(Pristine(i), Reads(S6Install, i)) ==
        [Unpacked(Skalibs, i.skalibsVer, i.skalibsTar), Unpacked(Execline, i.execlineVer, i.execlineTar),
         Unpacked(S6, i.s6Ver, i.s6Tar)]
  {
    SeenThree(Pristine(i), SourceTree(Skalibs, i.skalibsVer), SourceTree(Execline, i.execlineVer),
              SourceTree(S6, i.s6Ver));
  }

  lemma S6Shows(i: Inputs, j: Inputs)
    ensures Fresh(S6Install, i) == Fresh(S6Install, j) <==>
        && i.skalibsVer == j.skalibsVer && i.execlineVer == j.execlineVer && i.s6Ver == j.s6Ver
        && i.skalibsTar == j.skalibsTar && i.execlineTar == j.execlineTar && i.s6Tar == j.s6Tar
  {
    S6Reads(i);
    S6Reads(j);
    var a, b := Seen(Pristine(i), Reads(S6Install, i)), Seen(Pristine(j), Reads(S6Install, j));
    assert a == b ==> a[0] == b[0] && a[1] == b[1] && a[2] == b[2];
  }

  lemma ModuleReads(i: Inputs)
    requires i.WellFormed()
    ensures Seen(Pristine(i), Reads(PronzeKo, i))
            == [Unpacked(Linux, i.headers, i.headersTar), Configured(i.headers == i.linuxVer)]
  {
    SeenTwo(Pristine(i), SourceTree(Linux, i.headers), KernelConfig(i.headers));
  }

  lemma ModuleShows(i: Inputs, j: Inputs)
    requires i.WellFormed() && j.WellFormed()
    ensures Fresh(PronzeKo, i) == Fresh(PronzeKo, j) <==>
        && i.kernelDir == j.kernelDir && i.headers == j.headers && i.headersTar == j.headersTar
        && (i.headers == i.linuxVer <==> j.headers == j.linuxVer)
  {
    ModuleReads(i);
    ModuleReads(j);
    var a, b := Seen(Pristine(i), Reads(PronzeKo, i)), Seen(Pristine(j), Reads(PronzeKo, j));
    assert a == b ==> a[0] == b[0] && a[1] == b[1];
    assert Recipe(PronzeKo, i) == Recipe(PronzeKo, j) ==> [i.kernelDir][0] == [j.kernelDir][0];
  }

  lemma SdkShows(i: Inputs, j: Inputs, a: Art)
    requires a in {LibPronze, TestAlloc, TestBounds, TestZig, TestRust}
    ensures Fresh(a, i) == Fresh(a, j) <==> i.sdkDir == j.sdkDir && i.testDir == j.testDir && i.conf == j.conf
  {
    var r, s := [i.sdkDir, i.testDir, i.conf], [j.sdkDir, j.testDir, j.conf];
    assert Recipe(a, i) == r && Recipe(a, j) == s;
    assert r == s ==> r[0] == s[0] && r[1] == s[1] && r[2] == s[2];
  }

  lemma DaemonShows(i: Inputs, j: Inputs)
    ensures Fresh(Pronzed, i) == Fresh(Pronzed, j) <==> i.daemonDir == j.daemonDir
  {
    assert Recipe(Pronzed, i) == Recipe(Pronzed, j) ==> [i.daemonDir][0] == [j.daemonDir][0];
  }

  /** What each compiled file of a clean build depends on, and nothing more: these fields of the sources. */
  lemma FreshShows(i: Inputs, j: Inputs)
    requires i.WellFormed() && j.WellFormed()
    ensures Fresh(BzImage, i) == Fresh(BzImage, j) <==> i.linuxVer == j.linuxVer && i.linuxTar == j.linuxTar
    ensures Fresh(BusyboxInstall, i) == Fresh(BusyboxInstall, j)
            <==> i.busyboxVer == j.busyboxVer && i.busyboxTar == j.busyboxTar
    ensures Fresh(S6Install, i) == Fresh(S6Install, j) <==>
        && i.skalibsVer == j.skalibsVer && i.execlineVer == j.execlineVer && i.s6Ver == j.s6Ver
        && i.skalibsTar == j.skalibsTar && i.execlineTar == j.execlineTar && i.s6Tar == j.s6Tar
    ensures Fresh(PronzeKo, i) == Fresh(PronzeKo, j) <==>
        && i.kernelDir == j.kernelDir && i.headers == j.headers && i.headersTar == j.headersTar
        && (i.headers == i.linuxVer <==> j.headers == j.linuxVer)
    ensures forall a :: a in {LibPronze, TestAlloc, TestBounds, TestZig, TestRust} ==>
        (Fresh(a, i) == Fresh(a, j) <==> i.sdkDir == j.sdkDir && i.testDir == j.testDir && i.conf == j.conf)
    ensures Fresh(Pronzed, i) == Fresh(Pronzed, j) <==> i.daemonDir == j.daemonDir
  {
    KernelShows(i, j);
    BusyboxShows(i, j);
    S6Shows(i, j);
    ModuleShows(i, j);
    DaemonShows(i, j);
    forall a | a in {LibPronze, TestAlloc, TestBounds, TestZig, TestRust}
      ensures Fresh(a, i) == Fresh(a, j) <==> i.sdkDir == j.sdkDir && i.testDir == j.testDir && i.conf == j.conf
    {
      SdkShows(i, j, a);
    }
  }

  // The restore test

  /** With flags that a stage has set for `i`, it restores for `j` exactly when these fields of the sources are
      the same and these files are cached. */
  lemma RestoresIff(fs: Files, i: Inputs, j: Inputs, s: Stage)
    requires i.WellFormed() && Compiles(s) && Flagged(fs, s) && fs[HashFile(s)].hash == Key(s, i)
    ensures Restores(fs, j, s) <==>
        match s
        case CompileKernel => i.linuxVer == j.linuxVer && i.linuxTar == j.linuxTar && At(Cache, BzImage) in fs
        case CompileBusybox =>
          i.busyboxVer == j.busyboxVer && i.busyboxTar == j.busyboxTar && At(Cache, BusyboxInstall) in fs
        case CompileS6 =>
          && i.skalibsVer == j.skalibsVer && i.execlineVer == j.execlineVer && i.s6Ver == j.s6Ver
          && i.skalibsTar == j.skalibsTar && i.execlineTar == j.execlineTar && i.s6Tar == j.s6Tar
          && At(Cache, S6Install) in fs
        case CompileKernelModule => i.kernelDir == j.kernelDir && At(Cache, PronzeKo) in fs
        case CompileSDK =>
          && i.sdkDir == j.sdkDir && i.testDir == j.testDir && i.conf == j.conf
          && At(Cache, LibPronze) in fs && At(Cache, TestAlloc) in fs && At(Cache, TestBounds) in fs
          && At(Cache, TestZig) in fs && At(Cache, TestRust) in fs
        case _ => i.daemonDir == j.daemonDir && At(Cache, Pronzed) in fs
  {
    KeysShow(i, j);
    KeyAndFiles(fs, i, j, s);
    FilesOf(fs, s);
  }

  lemma KeyAndFiles(fs: Files, i: Inputs, j: Inputs, s: Stage)
    requires i.WellFormed() && Compiles(s) && Flagged(fs, s) && fs[HashFile(s)].hash == Key(s, i)
    ensures Restores(fs, j, s) <==> Key(s, i) == Key(s, j) && forall b :: Owner(b) == s ==> At(Cache, b) in fs
  {
    forall b ensures b in Artifacts(s) <==> Owner(b) == s {
      ArtifactsOwned(s, b);
    }
  }

  lemma FilesOf(fs: Files, s: Stage)
    requires Compiles(s)
    ensures (forall b :: Owner(b) == s ==> At(Cache, b) in fs) <==>
        match s
        case CompileKernel => At(Cache, BzImage) in fs
        case CompileBusybox => At(Cache, BusyboxInstall) in fs
        case CompileS6 => At(Cache, S6Install) in fs
        case CompileKernelModule => At(Cache, PronzeKo) in fs
        case CompileSDK =>
          && At(Cache, LibPronze) in fs && At(Cache, TestAlloc) in fs && At(Cache, TestBounds) in fs
          && At(Cache, TestZig) in fs && At(Cache, TestRust) in fs
        case _ => At(Cache, Pronzed) in fs
  {
    assert Owner(LibPronze) == Owner(TestAlloc) == Owner(TestBounds) == Owner(TestZig) == Owner(TestRust) == CompileSDK;
    assert Owner(BzImage) == CompileKernel && Owner(BusyboxInstall) == CompileBusybox;
    assert Owner(S6Install) == CompileS6 && Owner(PronzeKo) == CompileKernelModule && Owner(Pronzed) == CompileDaemon;
  }

  /** A stage that finds flags for `i` compiles `j` afresh when one of its sources differs, and then sets the
      flags for `j`; it restores otherwise. */
  lemma EditRebuilds(fs: Files, i: Inputs, j: Inputs, a: Art)
    requires i.WellFormed() && j.WellFormed() && Compiles(Owner(a)) && !CompilePlan(fs, j, Owner(a)).raises
    requires Flagged(fs, Owner(a)) && fs[HashFile(Owner(a))].hash == Key(Owner(a), i)
    ensures var s, gs := Owner(a), Exec(fs, CompilePlan(fs, j, Owner(a)).ops);
            && Holds(gs, HashFile(s), Digest(Key(s, j)))
            && Holds(gs, LivePath(a, j), if Key(s, i) == Key(s, j) && forall b :: Owner(b) == s ==> At(Cache, b) in fs
                                         then fs[At(Cache, a)] else Compile(Exec(fs, Prepare(fs, j, s)), a, j))
  {
    var s := Owner(a);
    CompileResult(fs, j, s, a);
    KeyAndFiles(fs, i, j, s);
  }

  // The root file system

  function IfThere(fs: Files, p: Path): seq<Blob> {
    if p in fs then [fs[p]] else []
  }

  /** The root file system assembled from given files: BusyBox, s6, the service's run script, the binaries of
      the daemon, the SDK and its tests, the profile, the module and the boot script, less those not there. */
  function RootfsOf(fs: Files, i: Inputs): seq<Blob> {
    IfThere(fs, At(Tree(i.busyboxVer), BusyboxInstall)) + (IfThere(fs, At(Workspace, S6Install)) + ([Source(i.s6Dir)]
    + (IfThere(fs, At(Workspace, Pronzed)) + (IfThere(fs, At(Workspace, LibPronze))
    + (IfThere(fs, At(Workspace, TestAlloc)) + (IfThere(fs, At(Workspace, TestBounds))
    + (IfThere(fs, At(Workspace, TestZig)) + (IfThere(fs, At(Workspace, TestRust))
    + ([Source(i.profilesDir)] + (IfThere(fs, At(Workspace, PronzeKo)) + [Source(i.pipelineDir)]))))))))))
  }

  /** What the targets from the `k`th on add. */
  function From(fs: Files, i: Inputs, ts: seq<Target>, k: nat): seq<Blob>
    requires k <= |ts|
  {
    Parts(LiveIn(fs, i), There(fs, i, ts[k..]))
  }

  lemma FromBin(fs: Files, i: Inputs, ts: seq<Target>, k: nat, a: Art)
    requires k < |ts| && ts[k] == Bin(a)
    ensures From(fs, i, ts, k) == IfThere(fs, LivePath(a, i)) + From(fs, i, ts, k + 1)
  {
    FromNext(fs, i, ts, k);
  }

  lemma FromText(fs: Files, i: Inputs, ts: seq<Target>, k: nat, text: string)
    requires k < |ts| && (ts[k] == Src(text) || ts[k] == Own(text))
    ensures From(fs, i, ts, k) == [Source(text)] + From(fs, i, ts, k + 1)
  {
    FromNext(fs, i, ts, k);
  }

  lemma FromNext(fs: Files, i: Inputs, ts: seq<Target>, k: nat)
    requires k < |ts|
    ensures From(fs, i, ts, k) == (if ts[k].Bin? then IfThere(fs, LivePath(ts[k].art, i)) else [Source(ts[k].text)])
                                  + From(fs, i, ts, k + 1)
  {
    var rest := There(fs, i, ts[k + 1..]);
    assert ts[k..][0] == ts[k] && ts[k..][1..] == ts[k + 1..];
    if ts[k].Bin? && !LiveThere(fs, i, ts[k].art) {
      assert There(fs, i, ts[k..]) == rest;
    } else {
      assert There(fs, i, ts[k..]) == [ts[k]] + rest;
      PartsCons(LiveIn(fs, i), [], ts[k], rest);
    }
  }

  lemma FromEnd(fs: Files, i: Inputs, ts: seq<Target>)
    ensures From(fs, i, ts, |ts|) == []
  {
  }

  lemma LastSix(fs: Files, i: Inputs, ts: seq<Target>)
    requires |ts| == 12 && ts[6] == Bin(TestBounds) && ts[7] == Bin(TestZig) && ts[8] == Bin(TestRust)
    requires ts[9] == Src(i.profilesDir) && ts[10] == Bin(PronzeKo) && ts[11] == Own(i.pipelineDir)
    ensures From(fs, i, ts, 6) ==
        IfThere(fs, At(Workspace, TestBounds)) + (IfThere(fs, At(Workspace, TestZig))
        + (IfThere(fs, At(Workspace, TestRust)) + ([Source(i.profilesDir)]
        + (IfThere(fs, At(Workspace, PronzeKo)) + [Source(i.pipelineDir)]))))
  {
    FromEnd(fs, i, ts);
    FromText(fs, i, ts, 11, i.pipelineDir);
    assert [Source(i.pipelineDir)] + [] == [Source(i.pipelineDir)];
    FromBin(fs, i, ts, 10, PronzeKo);
    FromText(fs, i, ts, 9, i.profilesDir);
    FromBin(fs, i, ts, 8, TestRust);
    FromBin(fs, i, ts, 7, TestZig);
    FromBin(fs, i, ts, 6, TestBounds);
  }

  lemma NextThree(fs: Files, i: Inputs, ts: seq<Target>, rest: seq<Blob>)
    requires |ts| == 12 && ts[3] == Bin(Pronzed) && ts[4] == Bin(LibPronze) && ts[5] == Bin(TestAlloc)
    requires rest == From(fs, i, ts, 6)
    ensures From(fs, i, ts, 3) ==
        IfThere(fs, At(Workspace, Pronzed)) + (IfThere(fs, At(Workspace, LibPronze))
        + (IfThere(fs, At(Workspace, TestAlloc)) + rest))
  {
    FromBin(fs, i, ts, 5, TestAlloc);
    FromBin(fs, i, ts, 4, LibPronze);
    FromBin(fs, i, ts, 3, Pronzed);
  }

  lemma FirstThree(fs: Files, i: Inputs, ts: seq<Target>, rest: seq<Blob>)
    requires |ts| == 12 && ts[0] == Bin(BusyboxInstall) && ts[1] == Bin(S6Install) && ts[2] == Src(i.s6Dir)
    requires rest == From(fs, i, ts, 3)
    ensures From(fs, i, ts, 0) == IfThere(fs, At(Tree(i.busyboxVer), BusyboxInstall))
                                  + (IfThere(fs, At(Workspace, S6Install)) + ([Source(i.s6Dir)] + rest))
  {
    FromText(fs, i, ts, 2, i.s6Dir);
    FromBin(fs, i, ts, 1, S6Install);
    FromBin(fs, i, ts, 0, BusyboxInstall);
  }

  lemma TwelveParts(fs: Files, i: Inputs)
    ensures Parts(LiveIn(fs, i), There(fs, i, RootfsTargets(i))) == RootfsOf(fs, i)
  {
    var ts := RootfsTargets(i);
    LastSix(fs, i, ts);
    NextThree(fs, i, ts, From(fs, i, ts, 6));
    FirstThree(fs, i, ts, From(fs, i, ts, 3));
    assert ts[0..] == ts;
  }

  /** `AssembleRootfs` leaves exactly these contents, and nothing of the configuration overlay. */
  lemma RootfsHolds(fs: Files, i: Inputs, failed: set<Stage>, absent: set<string>)
    requires !RootfsPlan(fs, i, failed, absent).raises
    ensures var gs := Exec(fs, RootfsPlan(fs, i, failed, absent).ops);
            Holds(gs, RootfsTree, RootTree(RootfsOf(fs, i))) && RootfsOverlay !in gs
  {
    RootfsResult(fs, i, failed, absent);
    TwelveParts(fs, i);
  }

  /** `AssembleRootfs` fails exactly for want of one of these files; only those of the daemon, SDK and module
      stages are excused, and only when their stage failed with leave. */
  lemma RootfsFailsIff(fs: Files, i: Inputs, failed: set<Stage>, absent: set<string>)
    ensures RootfsPlan(fs, i, failed, absent).raises <==>
        || At(Tree(i.busyboxVer), BusyboxInstall) !in fs || At(Workspace, S6Install) !in fs
        || i.s6Dir in absent || i.profilesDir in absent
        || (CompileDaemon !in failed && At(Workspace, Pronzed) !in fs)
        || (CompileKernelModule !in failed && At(Workspace, PronzeKo) !in fs)
        || (CompileSDK !in failed
            && (|| At(Workspace, LibPronze) !in fs || At(Workspace, TestAlloc) !in fs
                || At(Workspace, TestBounds) !in fs || At(Workspace, TestZig) !in fs || At(Workspace, TestRust) !in fs))
  {
    var ts := RootfsTargets(i);
    MissingOne(fs, i, ts, failed, absent);
    MissingPackages(fs, i, failed, absent);
    MissingBinaries(fs, i, failed, absent);
  }

  lemma MissingPackages(fs: Files, i: Inputs, failed: set<Stage>, absent: set<string>)
    ensures Missing(fs, i, Bin(BusyboxInstall), failed, absent) <==> At(Tree(i.busyboxVer), BusyboxInstall) !in fs
    ensures Missing(fs, i, Bin(S6Install), failed, absent) <==> At(Workspace, S6Install) !in fs
    ensures forall text :: Missing(fs, i, Src(text), failed, absent) <==> text in absent
  {
  }

  lemma MissingBinaries(fs: Files, i: Inputs, failed: set<Stage>, absent: set<string>)
    ensures Missing(fs, i, Bin(Pronzed), failed, absent) <==> CompileDaemon !in failed && At(Workspace, Pronzed) !in fs
    ensures Missing(fs, i, Bin(PronzeKo), failed, absent)
            <==> CompileKernelModule !in failed && At(Workspace, PronzeKo) !in fs
    ensures forall a :: a in {LibPronze, TestAlloc, TestBounds, TestZig, TestRust} ==>
              (Missing(fs, i, Bin(a), failed, absent) <==> CompileSDK !in failed && At(Workspace, a) !in fs)
  {
  }

  lemma MissingOne(fs: Files, i: Inputs, ts: seq<Target>, failed: set<Stage>, absent: set<string>)
    requires ts == RootfsTargets(i)
    ensures (exists t <- ts :: Missing(fs, i, t, failed, absent)) <==>
        || Missing(fs, i, Bin(BusyboxInstall), failed, absent) || Missing(fs, i, Bin(S6Install), failed, absent)
        || Missing(fs, i, Src(i.s6Dir), failed, absent) || Missing(fs, i, Bin(Pronzed), failed, absent)
        || Missing(fs, i, Bin(LibPronze), failed, absent) || Missing(fs, i, Bin(TestAlloc), failed, absent)
        || Missing(fs, i, Bin(TestBounds), failed, absent) || Missing(fs, i, Bin(TestZig), failed, absent)
        || Missing(fs, i, Bin(TestRust), failed, absent) || Missing(fs, i, Src(i.profilesDir), failed, absent)
        || Missing(fs, i, Bin(PronzeKo), failed, absent)
  {
    var all := [Bin(BusyboxInstall), Bin(S6Install), Src(i.s6Dir), Bin(Pronzed), Bin(LibPronze), Bin(TestAlloc),
                Bin(TestBounds), Bin(TestZig), Bin(TestRust), Src(i.profilesDir), Bin(PronzeKo)];
    assert ts == all + [Own(i.pipelineDir)];
    AnyOfEleven(fs, i, all, failed, absent);
    assert forall t <- ts :: t in all || t == Own(i.pipelineDir);
    assert forall t <- all :: t in ts;
  }

  lemma AnyOfEleven(fs: Files, i: Inputs, ts: seq<Target>, failed: set<Stage>, absent: set<string>)
    requires |ts| == 11
    ensures (exists t <- ts :: Missing(fs, i, t, failed, absent)) <==>
        || Missing(fs, i, ts[0], failed, absent) || Missing(fs, i, ts[1], failed, absent)
        || Missing(fs, i, ts[2], failed, absent) || Missing(fs, i, ts[3], failed, absent)
        || Missing(fs, i, ts[4], failed, absent) || Missing(fs, i, ts[5], failed, absent)
        || Missing(fs, i, ts[6], failed, absent) || Missing(fs, i, ts[7], failed, absent)
        || Missing(fs, i, ts[8], failed, absent) || Missing(fs, i, ts[9], failed, absent)
        || Missing(fs, i, ts[10], failed, absent)
  {
  }

  /** When every file is there, the contents are these twelve. */
  lemma WholeRootfs(fs: Files, i: Inputs)
    requires forall a :: Compiles(Owner(a)) ==> LiveThere(fs, i, a)
    ensures RootfsOf(fs, i) ==
        [Get(fs, At(Tree(i.busyboxVer), BusyboxInstall)), Get(fs, At(Workspace, S6Install)), Source(i.s6Dir),
         Get(fs, At(Workspace, Pronzed)), Get(fs, At(Workspace, LibPronze)), Get(fs, At(Workspace, TestAlloc)),
         Get(fs, At(Workspace, TestBounds)), Get(fs, At(Workspace, TestZig)), Get(fs, At(Workspace, TestRust)),
         Source(i.profilesDir), Get(fs, At(Workspace, PronzeKo)), Source(i.pipelineDir)]
  {
    ThereIs(fs, i, BusyboxInstall);
    ThereIs(fs, i, S6Install);
    ThereIs(fs, i, Pronzed);
    ThereIs(fs, i, LibPronze);
    ThereIs(fs, i, TestAlloc);
    ThereIs(fs, i, TestBounds);
    ThereIs(fs, i, TestZig);
    ThereIs(fs, i, TestRust);
    ThereIs(fs, i, PronzeKo);
    Twelve(RootfsOf(fs, i), Get(fs, At(Tree(i.busyboxVer), BusyboxInstall)), Get(fs, At(Workspace, S6Install)),
           Source(i.s6Dir), Get(fs, At(Workspace, Pronzed)), Get(fs, At(Workspace, LibPronze)),
           Get(fs, At(Workspace, TestAlloc)), Get(fs, At(Workspace, TestBounds)), Get(fs, At(Workspace, TestZig)),
           Get(fs, At(Workspace, TestRust)), Source(i.profilesDir), Get(fs, At(Workspace, PronzeKo)),
           Source(i.pipelineDir));
  }

  lemma ThereIs(fs: Files, i: Inputs, a: Art)
    requires forall b :: Compiles(Owner(b)) ==> LiveThere(fs, i, b)
    requires a !in {BzImage, OsImage} && !a.Foreign?
    ensures IfThere(fs, LivePath(a, i)) == [Get(fs, LivePath(a, i))]
  {
    assert Compiles(Owner(a)) && LiveThere(fs, i, a);
  }

  lemma Twelve(all: seq<Blob>, a: Blob, b: Blob, c: Blob, d: Blob, e: Blob, f: Blob, g: Blob, h: Blob, k: Blob, l: Blob,
               m: Blob, n: Blob)
    requires all == [a] + ([b] + ([c] + ([d] + ([e] + ([f] + ([g] + ([h] + ([k] + ([l] + ([m] + [n]))))))))))
    ensures all == [a, b, c, d, e, f, g, h, k, l, m, n]
  {
    var last := [g] + ([h] + ([k] + ([l] + ([m] + [n]))));
    Six(g, h, k, l, m, [n]);
    Six(a, b, c, d, e, [f] + last);
    assert last == [g, h, k, l, m] + [n];
  }

  lemma Six(a: Blob, b: Blob, c: Blob, d: Blob, e: Blob, rest: seq<Blob>)
    ensures [a] + ([b] + ([c] + ([d] + ([e] + rest)))) == [a, b, c, d, e] + rest
  {
  }

  lemma TwelveAgree(a: seq<Blob>, b: seq<Blob>)
    requires |a| == |b| == 12
    ensures a == b <==>
        && a[0] == b[0] && a[1] == b[1] && a[2] == b[2] && a[3] == b[3] && a[4] == b[4] && a[5] == b[5]
        && a[6] == b[6] && a[7] == b[7] && a[8] == b[8] && a[9] == b[9] && a[10] == b[10] && a[11] == b[11]
  {
  }

  /** Two root file systems for which every file is there are the same exactly when all nine compiled files are,
      and what is taken from `s6/`, `profiles/` and the pipeline itself. */
  lemma RootfsShows(fs: Files, i: Inputs, gs: Files, j: Inputs)
    requires forall a :: Compiles(Owner(a)) ==> LiveThere(fs, i, a) && LiveThere(gs, j, a)
    ensures RootfsOf(fs, i) == RootfsOf(gs, j) <==>
        && (forall a :: Compiles(Owner(a)) && a != BzImage ==> Get(fs, LivePath(a, i)) == Get(gs, LivePath(a, j)))
        && i.s6Dir == j.s6Dir && i.profilesDir == j.profilesDir && i.pipelineDir == j.pipelineDir
  {
    WholeIsParts(fs, i);
    WholeIsParts(gs, j);
    PartsShow(LiveIn(fs, i), i, LiveIn(gs, j), j);
    assert forall a :: LiveIn(fs, i)(a) == Get(fs, LivePath(a, i)) && LiveIn(gs, j)(a) == Get(gs, LivePath(a, j));
  }

  lemma WholeIsParts(fs: Files, i: Inputs)
    requires forall a :: Compiles(Owner(a)) ==> LiveThere(fs, i, a)
    ensures RootfsOf(fs, i) == Parts(LiveIn(fs, i), RootfsTargets(i))
  {
    WholeRootfs(fs, i);
    PartsAre(LiveIn(fs, i), i);
  }

  lemma PartsShow(f: Live, i: Inputs, g: Live, j: Inputs)
    ensures Parts(f, RootfsTargets(i)) == Parts(g, RootfsTargets(j)) <==>
        && (forall a :: Compiles(Owner(a)) && a != BzImage ==> f(a) == g(a))
        && i.s6Dir == j.s6Dir && i.profilesDir == j.profilesDir && i.pipelineDir == j.pipelineDir
  {
    PartsAre(f, i);
    PartsAre(g, j);
    TwelveAgree(Parts(f, RootfsTargets(i)), Parts(g, RootfsTargets(j)));
    NineFiles(f, g);
  }

  lemma NineFiles(f: Live, g: Live)
    ensures (forall a :: Compiles(Owner(a)) && a != BzImage ==> f(a) == g(a)) <==>
        && f(BusyboxInstall) == g(BusyboxInstall) && f(S6Install) == g(S6Install) && f(Pronzed) == g(Pronzed)
        && f(LibPronze) == g(LibPronze) && f(TestAlloc) == g(TestAlloc) && f(TestBounds) == g(TestBounds)
        && f(TestZig) == g(TestZig) && f(TestRust) == g(TestRust) && f(PronzeKo) == g(PronzeKo)
  {
    var nine := {BusyboxInstall, S6Install, Pronzed, LibPronze, TestAlloc, TestBounds, TestZig, TestRust, PronzeKo};
    assert forall a :: a in nine ==> Compiles(Owner(a)) && a != BzImage;
  }

  /** What `CopyConfigurationSetup` adds over a root file system without an overlay: the files of
      `configuration_setup/`, or nothing when there is no such directory. */
  lemma OverlayHolds(fs: Files, i: Inputs)
    requires RootfsOverlay !in fs
    ensures var gs := Exec(fs, OverlayPlan(i).ops);
            && (RootfsOverlay in gs <==> i.configDir != "")
            && (i.configDir != "" ==> gs[RootfsOverlay] == Source(i.configDir))
            && forall p :: p != RootfsOverlay ==> Same(fs, gs, p)
    ensures Get(Exec(fs, OverlayPlan(i).ops), RootfsOverlay) == Overlay(i)
  {
    OneOp(fs, OverlayPlan(i).ops);
  }

  lemma OverlayShows(i: Inputs, j: Inputs)
    ensures Overlay(i) == Overlay(j) <==> i.configDir == j.configDir
  {
  }

  // The image

  lemma PartsAre(f: Live, i: Inputs)
    ensures Parts(f, RootfsTargets(i)) ==
        [f(BusyboxInstall), f(S6Install), Source(i.s6Dir), f(Pronzed), f(LibPronze), f(TestAlloc), f(TestBounds),
         f(TestZig), f(TestRust), Source(i.profilesDir), f(PronzeKo), Source(i.pipelineDir)]
  {
    var ts := RootfsTargets(i);
    forall k | 0 <= k < 12 ensures |Parts(f, ts)| == 12 && Parts(f, ts)[k] == Part(f, ts[k]) {
      PartAt(f, ts, k);
    }
    PartAt(f, ts, 0);
  }

  /** Two images are the same exactly when all ten compiled files are, and what was taken from the four
      directories whose files go in as they are. */
  lemma ImageOfShows(f: Live, i: Inputs, g: Live, j: Inputs)
    ensures ImageOf(f, i) == ImageOf(g, j) <==>
        && (forall a :: Compiles(Owner(a)) ==> f(a) == g(a))
        && i.s6Dir == j.s6Dir && i.profilesDir == j.profilesDir && i.pipelineDir == j.pipelineDir
        && i.configDir == j.configDir
  {
    PartsShow(f, i, g, j);
    OverlayShows(i, j);
    assert (forall a :: Compiles(Owner(a)) ==> f(a) == g(a)) <==>
             f(BzImage) == g(BzImage) && forall a :: Compiles(Owner(a)) && a != BzImage ==> f(a) == g(a) by {
      assert Compiles(Owner(BzImage));
    }
  }

  lemma ImageShows(i: Inputs, j: Inputs)
    ensures Image(i) == Image(j) <==>
        && (forall a :: Compiles(Owner(a)) ==> Fresh(a, i) == Fresh(a, j))
        && i.s6Dir == j.s6Dir && i.profilesDir == j.profilesDir && i.pipelineDir == j.pipelineDir
        && i.configDir == j.configDir
  {
    ImageOfShows(a => Fresh(a, i), i, a => Fresh(a, j), j);
  }

  /** The image of a clean build shows every field of the sources: no edit of any of them is lost. */
  lemma ImageShowsSources(i: Inputs, j: Inputs)
    requires i.WellFormed() && j.WellFormed()
    ensures Image(i) == Image(j) <==> i == j
  {
    ImageShows(i, j);
    if Image(i) == Image(j) {
      SixFiles(a => Fresh(a, i), a => Fresh(a, j));
      SameSources(i, j);
    }
  }

  lemma SixFiles(f: Live, g: Live)
    requires forall a :: Compiles(Owner(a)) ==> f(a) == g(a)
    ensures f(BzImage) == g(BzImage) && f(BusyboxInstall) == g(BusyboxInstall) && f(S6Install) == g(S6Install)
    ensures f(PronzeKo) == g(PronzeKo) && f(LibPronze) == g(LibPronze) && f(Pronzed) == g(Pronzed)
  {
    assert Compiles(Owner(BzImage)) && Compiles(Owner(BusyboxInstall)) && Compiles(Owner(S6Install));
    assert Compiles(Owner(PronzeKo)) && Compiles(Owner(LibPronze)) && Compiles(Owner(Pronzed));
  }

  lemma SameSources(i: Inputs, j: Inputs)
    requires i.WellFormed() && j.WellFormed()
    requires Fresh(BzImage, i) == Fresh(BzImage, j) && Fresh(BusyboxInstall, i) == Fresh(BusyboxInstall, j)
    requires Fresh(S6Install, i) == Fresh(S6Install, j) && Fresh(PronzeKo, i) == Fresh(PronzeKo, j)
    requires Fresh(LibPronze, i) == Fresh(LibPronze, j) && Fresh(Pronzed, i) == Fresh(Pronzed, j)
    requires i.s6Dir == j.s6Dir && i.profilesDir == j.profilesDir && i.pipelineDir == j.pipelineDir
    requires i.configDir == j.configDir
    ensures i == j
  {
    FreshShows(i, j);
  }

  /** Among versions that agree on what no key shows, the master key shows exactly what the image does. */
  lemma MasterShowsImage(pins: Pins, i: Inputs, j: Inputs)
    requires Admissible(pins, i) && Admissible(pins, j)
    ensures i.Master() == j.Master() <==> Image(i) == Image(j)
  {
    ImageShowsSources(i, j);
    if i.Master() == j.Master() {
      MasterInjective(pins, i, j);
    }
  }
}
