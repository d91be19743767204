/** `analyze_compilation_files`: the dashboard's prediction of which compile stages will restore. */
module Analyzer {
  import opened Store
  import opened Cache
  import opened CompileStages

  datatype Expected = None | Some(hash: Hash)

  /** Whether the tarballs a stage's key covers have been downloaded (a missing file has the digest ""). */
  predicate Downloaded(s: Stage, i: Inputs) {
    match s
    case CompileKernel => i.linuxTar != ""
    case CompileBusybox => i.busyboxTar != ""
    case CompileS6 => i.skalibsTar != "" && i.execlineTar != "" && i.s6Tar != ""
    case _ => true
  }

  function ExpectedHash(s: Stage, i: Inputs): Expected {
    if Downloaded(s, i) then Some(Key(s, i)) else None
  }

  /** `check_stage_cache`. */
  predicate CheckStageCache(fs: Files, s: Stage, expected: Expected) {
    && expected.Some? && expected.hash != Raw("")
    && HashFile(s) in fs && DoneFile(s) in fs
    && ReadHash(fs, HashFile(s)) == expected.hash
  }

  /** The one cached file the analyzer looks for. */
  function Marker(s: Stage): Art {
    match s
    case CompileKernel => BzImage
    case CompileBusybox => BusyboxInstall
    case CompileS6 => S6Install
    case CompileKernelModule => PronzeKo
    case CompileDaemon => Pronzed
    case _ => LibPronze
  }

  predicate ReportedCached(fs: Files, i: Inputs, s: Stage) {
    CheckStageCache(fs, s, ExpectedHash(s, i)) && At(Cache, Marker(s)) in fs
  }

  method StageIsCached(fs: Files, i: Inputs, s: Stage) returns (cached: bool)
    ensures cached == ReportedCached(fs, i, s)
  {
    var expected := ExpectedHash(s, i);
    cached := CheckStageCache(fs, s, expected) && At(Cache, Marker(s)) in fs;
  }

  /** One line of the report: how many files are to be compiled, and whether the status is "Cached". */
  datatype Entry = Entry(files: nat, cached: bool)

  method EntryFor(fs: Files, i: Inputs, s: Stage, count: nat) returns (e: Entry)
    ensures e.cached == ReportedCached(fs, i, s) && e.files == if e.cached then 0 else count
  {
    var cached := StageIsCached(fs, i, s);
    e := Entry(if cached then 0 else count, cached);
  }

  /** The report: six lines and the number of files to compile in all. */
  datatype Report = Report(kernel: Entry, busybox: Entry, s6: Entry, ko: Entry, sdk: Entry, daemon: Entry, total: nat)

  /** How many files of a stage there are to compile. */
  function ToCompile(fs: Files, i: Inputs, counts: Stage -> nat, s: Stage): nat {
    if ReportedCached(fs, i, s) then 0 else counts(s)
  }

  /** The line of a compile stage. */
  function Line(r: Report, s: Stage): Entry {
    match s
    case CompileKernel => r.kernel
    case CompileBusybox => r.busybox
    case CompileS6 => r.s6
    case CompileKernelModule => r.ko
    case CompileSDK => r.sdk
    case _ => r.daemon
  }

  /** The report; `counts` is what counting a stage's source files gives.  The total is what is to be compiled in
      all; with sources in every stage, it is 0 exactly when every stage is reported "Cached". */
  method Analyze(fs: Files, i: Inputs, counts: Stage -> nat) returns (r: Report)
    ensures forall s :: Compiles(s) ==> Line(r, s).cached == ReportedCached(fs, i, s)
    ensures forall s :: Compiles(s) ==> Line(r, s).files == if Line(r, s).cached then 0 else counts(s)
    ensures r.total == ToCompile(fs, i, counts, CompileKernel) + ToCompile(fs, i, counts, CompileBusybox)
                       + ToCompile(fs, i, counts, CompileS6) + ToCompile(fs, i, counts, CompileKernelModule)
                       + ToCompile(fs, i, counts, CompileSDK) + ToCompile(fs, i, counts, CompileDaemon)
    ensures (forall s :: Compiles(s) ==> counts(s) > 0) ==>
              (r.total == 0 <==> forall s :: Compiles(s) ==> Line(r, s).cached)
  {
    var kernel := EntryFor(fs, i, CompileKernel, counts(CompileKernel));
    var busybox := EntryFor(fs, i, CompileBusybox, counts(CompileBusybox));
    var s6 := EntryFor(fs, i, CompileS6, counts(CompileS6));
    var ko := EntryFor(fs, i, CompileKernelModule, counts(CompileKernelModule));
    var sdk := EntryFor(fs, i, CompileSDK, counts(CompileSDK));
    var daemon := EntryFor(fs, i, CompileDaemon, counts(CompileDaemon));
    var total := kernel.files + busybox.files + s6.files + ko.files + sdk.files + daemon.files;
    r := Report(kernel, busybox, s6, ko, sdk, daemon, total);
    Lines(r, counts, s => ReportedCached(fs, i, s));
    TotalOf(r, counts);
  }

  /** What holds of each line holds of the line of each stage. */
  lemma Lines(r: Report, counts: Stage -> nat, cached: Stage -> bool)
    requires r.kernel.cached == cached(CompileKernel)
    requires r.kernel.files == if r.kernel.cached then 0 else counts(CompileKernel)
    requires r.busybox.cached == cached(CompileBusybox)
    requires r.busybox.files == if r.busybox.cached then 0 else counts(CompileBusybox)
    requires r.s6.cached == cached(CompileS6)
    requires r.s6.files == if r.s6.cached then 0 else counts(CompileS6)
    requires r.ko.cached == cached(CompileKernelModule)
    requires r.ko.files == if r.ko.cached then 0 else counts(CompileKernelModule)
    requires r.sdk.cached == cached(CompileSDK)
    requires r.sdk.files == if r.sdk.cached then 0 else counts(CompileSDK)
    requires r.daemon.cached == cached(CompileDaemon)
    requires r.daemon.files == if r.daemon.cached then 0 else counts(CompileDaemon)
    ensures forall s :: Compiles(s) ==>
              Line(r, s).cached == cached(s) && Line(r, s).files == if Line(r, s).cached then 0 else counts(s)
  {
  }

  /** The total is 0 exactly when no line has files. */
  lemma TotalOf(r: Report, counts: Stage -> nat)
    requires r.total == r.kernel.files + r.busybox.files + r.s6.files + r.ko.files + r.sdk.files + r.daemon.files
    requires forall s :: Compiles(s) ==> Line(r, s).files == if Line(r, s).cached then 0 else counts(s)
    ensures (forall s :: Compiles(s) ==> counts(s) > 0) ==>
              (r.total == 0 <==> forall s :: Compiles(s) ==> Line(r, s).cached)
  {
    assert Line(r, CompileKernel) == r.kernel && Line(r, CompileBusybox) == r.busybox && Line(r, CompileS6) == r.s6;
    assert Line(r, CompileKernelModule) == r.ko && Line(r, CompileSDK) == r.sdk && Line(r, CompileDaemon) == r.daemon;
  }

  /** On one snapshot of the files: a stage with one artifact is reported "Cached" exactly when
      it would restore and the tarballs or the directory behind its key are there. */
  lemma ReportedIffRestores(fs: Files, i: Inputs, s: Stage)
    requires Compiles(s) && s != CompileSDK
    ensures ReportedCached(fs, i, s) <==>
        && Restores(fs, i, s)
        && match s
           case CompileKernel => i.linuxTar != ""
           case CompileBusybox => i.busyboxTar != ""
           case CompileS6 => i.skalibsTar != "" && i.execlineTar != "" && i.s6Tar != ""
           case CompileKernelModule => i.kernelDir != ""
           case _ => i.daemonDir != ""
  {
  }

  /** The SDK stage is reported "Cached" whenever it would restore; the converse also needs
      the four artifacts the analyzer does not look at. */
  lemma SdkReported(fs: Files, i: Inputs)
    ensures Restores(fs, i, CompileSDK) <==>
        && ReportedCached(fs, i, CompileSDK)
        && forall a <- [TestAlloc, TestBounds, TestZig, TestRust] :: At(Cache, a) in fs
  {
  }
}
