/** `main`: the sixteen registrations, `build_graph`, and `execute` over the order it gives. */
module MainPipeline {
  import opened Cache
  import opened Scheduler
  import opened Store
  import opened RunLoop
  import opened BuildRun
  import opened QuietBuilds

  /** The dependency list each stage passes to its constructor. */
  function Dependencies(s: Stage): seq<Stage> {
    match s
    case DownloadTarballs => []
    case CheckEarlyExit => [DownloadTarballs]
    case ExtractTarballs => [CheckEarlyExit]
    case CompileKernel => [ExtractTarballs]
    case CompileBusybox => [CompileKernel]
    case CompileS6 => [CompileBusybox]
    case CompileKernelModule => [CompileKernel]
    case CompileSDK => [CheckEarlyExit]
    case CompileDaemon => [CheckEarlyExit]
    case AssembleRootfs => [CompileS6, CompileBusybox, CompileKernelModule, CompileSDK, CompileDaemon]
    case CopyConfigurationSetup => [AssembleRootfs]
    case PackageBtrfsImage => [CopyConfigurationSetup]
    case PackageESPImage => [CompileKernel]
    case AssembleGPTImage => [PackageBtrfsImage, PackageESPImage]
    case CleanOutput => [AssembleGPTImage]
    case ShipImage => [CleanOutput]
  }

  function Registered(k: nat): map<Stage, seq<Stage>>
    requires k <= |ORDER|
  {
    map s | s in ORDER[..k] :: Dependencies(s)
  }

  lemma DependsBackwards(s: Stage, d: Stage)
    requires d in Dependencies(s)
    ensures Index(d) < Index(s)
  {
  }

  lemma OrderTopological()
    ensures Topological(Registered(16), ORDER)
  {
    assert ORDER[..16] == ORDER;
    forall k | 0 <= k < |ORDER| ensures ReadyAt(Registered(16), ORDER, k) {
      assert Index(ORDER[k]) == k || ORDER[Index(ORDER[k])] == ORDER[k];
      OrderDistinct();
      forall d | d in Dependencies(ORDER[k]) ensures d in ORDER[..k] {
        DependsBackwards(ORDER[k], d);
        assert ORDER[..k][Index(d)] == d;
      }
    }
  }

  /** A stage that depends directly on the given one. */
  function Dependent(s: Stage): Stage {
    match s
    case DownloadTarballs => CheckEarlyExit
    case CheckEarlyExit => ExtractTarballs
    case ExtractTarballs => CompileKernel
    case CompileKernel => PackageESPImage
    case CompileBusybox => CompileS6
    case CopyConfigurationSetup => PackageBtrfsImage
    case PackageBtrfsImage | PackageESPImage => AssembleGPTImage
    case AssembleRootfs => CopyConfigurationSetup
    case AssembleGPTImage => CleanOutput
    case CleanOutput | ShipImage => ShipImage
    case CompileS6 | CompileKernelModule | CompileSDK | CompileDaemon => AssembleRootfs
  }

  lemma DependentDepends(s: Stage)
    requires s != ShipImage
    ensures s in Dependencies(Dependent(s)) && Index(s) < Index(Dependent(s))
  {
    var ds := Dependencies(Dependent(s));
    assert ds[0] in ds && (|ds| > 1 ==> ds[1] in ds) && (|ds| > 2 ==> ds[2] in ds) && (|ds| > 3 ==> ds[3] in ds)
           && (|ds| > 4 ==> ds[4] in ds);
  }

  /** Every stage works for the shipped image: `ShipImage` depends on all others, directly or through others, so
      that it is entered only when each of them has succeeded, was skipped, or failed with leave. */
  lemma {:induction false} EverythingShips(s: Stage)
    requires s != ShipImage
    ensures DependsOn(Registered(16), ShipImage, s)
    decreases 16 - Index(s)
  {
    var t := Dependent(s);
    DependentDepends(s);
    AllRegistered(t);
    if t != ShipImage {
      EverythingShips(t);
    }
    OneMore(Registered(16), ShipImage, t, s);
  }

  /** Every later stage depends on `CheckEarlyExit`, which decides whether there is anything to do. */
  lemma {:induction false} ExitIsCheckedFirst(s: Stage)
    requires s != DownloadTarballs && s != CheckEarlyExit
    ensures DependsOn(Registered(16), s, CheckEarlyExit)
    decreases Index(s)
  {
    var d := Dependencies(s)[0];
    AllRegistered(s);
    DependsBackwards(s, d);
    if d == CheckEarlyExit {
      OneMore(Registered(16), s, s, d);
    } else {
      ExitIsCheckedFirst(d);
      OneBefore(Registered(16), s, d, CheckEarlyExit);
    }
  }

  /** What a stage reads is made by a stage that it depends on: source trees, compiled files, and the parts of
      the image. */
  lemma MakersComeFirst(a: Art)
    ensures var deps := Registered(16);
            && DependsOn(deps, CompileKernel, ExtractTarballs) && DependsOn(deps, CompileBusybox, ExtractTarballs)
            && DependsOn(deps, CompileS6, ExtractTarballs) && DependsOn(deps, CompileKernelModule, ExtractTarballs)
            && DependsOn(deps, CompileKernelModule, CompileKernel)
            && (Compiles(Owner(a)) && a != BzImage ==> DependsOn(deps, AssembleRootfs, Owner(a)))
            && DependsOn(deps, CopyConfigurationSetup, AssembleRootfs)
            && DependsOn(deps, PackageBtrfsImage, CopyConfigurationSetup)
            && DependsOn(deps, PackageESPImage, CompileKernel)
            && DependsOn(deps, AssembleGPTImage, PackageBtrfsImage)
            && DependsOn(deps, AssembleGPTImage, PackageESPImage)
  {
    TreesFirst();
    PartsFirst();
    if Compiles(Owner(a)) && a != BzImage {
      var ds := Dependencies(AssembleRootfs);
      assert Owner(a) in [ds[0], ds[1], ds[2], ds[3], ds[4]];
      var k :| 0 <= k < |ds| && ds[k] == Owner(a);
      Needs(AssembleRootfs, AssembleRootfs, k);
    }
  }

  lemma TreesFirst()
    ensures var deps := Registered(16);
            && DependsOn(deps, CompileKernel, ExtractTarballs) && DependsOn(deps, CompileBusybox, ExtractTarballs)
            && DependsOn(deps, CompileS6, ExtractTarballs) && DependsOn(deps, CompileKernelModule, ExtractTarballs)
            && DependsOn(deps, CompileKernelModule, CompileKernel)
  {
    Needs(CompileKernel, CompileKernel, 0);
    Needs(CompileBusybox, CompileBusybox, 0);
    Needs(CompileBusybox, CompileKernel, 0);
    Needs(CompileS6, CompileS6, 0);
    Needs(CompileS6, CompileBusybox, 0);
    Needs(CompileS6, CompileKernel, 0);
    Needs(CompileKernelModule, CompileKernelModule, 0);
    Needs(CompileKernelModule, CompileKernel, 0);
  }

  lemma PartsFirst()
    ensures var deps := Registered(16);
            && DependsOn(deps, CopyConfigurationSetup, AssembleRootfs)
            && DependsOn(deps, PackageBtrfsImage, CopyConfigurationSetup)
            && DependsOn(deps, PackageESPImage, CompileKernel)
            && DependsOn(deps, AssembleGPTImage, PackageBtrfsImage)
            && DependsOn(deps, AssembleGPTImage, PackageESPImage)
  {
    Needs(CopyConfigurationSetup, CopyConfigurationSetup, 0);
    Needs(PackageBtrfsImage, PackageBtrfsImage, 0);
    Needs(PackageESPImage, PackageESPImage, 0);
    Needs(AssembleGPTImage, AssembleGPTImage, 0);
    Needs(AssembleGPTImage, AssembleGPTImage, 1);
  }

  lemma Needs(top: Stage, n: Stage, k: nat)
    requires k < |Dependencies(n)| && (n == top || DependsOn(Registered(16), top, n))
    ensures DependsOn(Registered(16), top, Dependencies(n)[k])
  {
    AllRegistered(n);
    OneMore(Registered(16), top, n, Dependencies(n)[k]);
  }

  lemma OneBefore<N(!new)>(deps: map<N, seq<N>>, top: N, n: N, d: N)
    requires top in deps && n in deps[top] && DependsOn(deps, n, d)
    ensures DependsOn(deps, top, d)
  {
    var path :| Chain(deps, path) && |path| > 1 && path[0] == n && path[|path| - 1] == d;
    assert Chain(deps, [top] + path);
  }

  lemma AllRegistered(s: Stage)
    ensures s in Registered(16) && Registered(16)[s] == Dependencies(s)
  {
    assert ORDER[..16] == ORDER && ORDER[Index(s)] == s;
  }

  lemma OneMore<N(!new)>(deps: map<N, seq<N>>, top: N, n: N, d: N)
    requires n in deps && d in deps[n] && (n == top || DependsOn(deps, top, n))
    ensures DependsOn(deps, top, d)
  {
    if n == top {
      assert Chain(deps, [top, d]);
    } else {
      var path :| Chain(deps, path) && |path| > 1 && path[0] == top && path[|path| - 1] == n;
      assert Chain(deps, path + [d]);
    }
  }

  lemma RegisteredNext(k: nat)
    requires k < 16
    ensures ORDER[k] !in ORDER[..k] && ORDER[..k + 1] == ORDER[..k] + [ORDER[k]]
    ensures Registered(k + 1) == Registered(k)[ORDER[k] := Dependencies(ORDER[k])]
  {
    OrderDistinct();
    assert ORDER[..k + 1] == ORDER[..k] + [ORDER[k]];
  }

  /** The registrations. */
  method Register() returns (pipeline: Pipeline<Stage>)
    ensures fresh(pipeline) && pipeline.Valid() && pipeline.executionOrder == []
    ensures pipeline.registered == ORDER && pipeline.nodes == Registered(16)
  {
    pipeline := new Pipeline<Stage>();
    for k := 0 to |ORDER|
      invariant fresh(pipeline) && pipeline.Valid() && pipeline.executionOrder == []
      invariant pipeline.registered == ORDER[..k] && pipeline.nodes == Registered(k)
    {
      RegisteredNext(k);
      pipeline.AddNode(ORDER[k], Dependencies(ORDER[k]));
    }
    assert ORDER[..|ORDER|] == ORDER;
  }

  /** The order written in `main` is the order run, and the run is the one the other modules reason about. */
  method Launch(files: Files, setup: Setup, repackage: bool) returns (final: State<Stage, Files>)
    ensures final == Build(files, setup, repackage)
  {
    var pipeline := Register();
    OrderTopological();
    var built := pipeline.BuildGraph();
    var run := new RunLoop.Run<Stage, Files>(files, PENDING, repackage);
    run.Go(pipeline.executionOrder, Settings(setup.allowed, BUILDING), StageBody(setup, repackage));
    final := State(run.world, run.nodeStates, run.skipRemaining, run.finalStatus, run.repackageOnlyActive);
  }
}
