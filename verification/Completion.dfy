/** Runs in which no command fails, but in stages with leave whose targets are optional: when they complete,
    and that they keep the conditions under which the files they leave are sound. */
module Completion {
  import opened Store
  import opened Cache
  import opened RunLoop
  import opened CompileStages
  import opened ShipStages
  import opened BuildRun
  import opened BuildSafety

  /** The files that the root file system needs and that no compile stage of the run makes. */
  ghost predicate TargetsThere(fs: Files, i: Inputs, repackage: bool, absent: set<string>) {
    forall t <- RootfsTargets(i) ::
      match t
      case Bin(a) => repackage ==> LiveThere(fs, i, a)
      case Src(text) => text !in absent
      case Own(_) => true
  }

  ghost predicate KernelThere(fs: Files, i: Inputs, repackage: bool) {
    repackage ==> LiveThere(fs, i, BzImage)
  }

  /** What can make a stage fail although no command does: a file that is not there. */
  ghost predicate Starved(fs: Files, setup: Setup, repackage: bool, s: Stage) {
    && !ExitsEarly(fs, setup.inputs, repackage)
    && match s
       case AssembleRootfs => !TargetsThere(fs, setup.inputs, repackage, setup.scene.absent)
       case PackageESPImage => !KernelThere(fs, setup.inputs, repackage)
       case _ => false
  }

  lemma FinishedAt(fs0: Files, fs: Files, status: map<Stage, Status>, i: Inputs, a: Art, k: nat)
    requires Progress(fs0, fs, status, i, false, k) && k >= 9 && Compiles(Owner(a)) && !HasFailed(status, Owner(a))
    ensures Finished(fs0, fs, i, a) && Flagged(fs, Owner(a)) && fs[HashFile(Owner(a))].hash == Key(Owner(a), i)
  {
    assert CompileProgress(fs0, fs, status, i, false, Owner(a), k);
  }

  /** After the compile stages, live files are there, except that a repackage run has what there was. */
  lemma LiveFound(fs0: Files, fs: Files, status: map<Stage, Status>, i: Inputs, repackage: bool, k: nat, a: Art)
    requires Progress(fs0, fs, status, i, repackage, k) && k >= 9 && Compiles(Owner(a))
    requires !HasFailed(status, Owner(a))
    ensures LiveThere(fs, i, a) <==> (repackage ==> LiveThere(fs0, i, a))
  {
    assert CompileProgress(fs0, fs, status, i, repackage, Owner(a), k);
    if repackage {
      assert Held(Owner(a), LivePath(a, i));
    } else {
      assert Finished(fs0, fs, i, a);
    }
  }

  /** In which stages a command may fail without ending the run: those with leave whose targets are optional. */
  ghost predicate Lenient(setup: Setup) {
    forall s :: setup.fates(s).Finishes? || (Exports(s) && s in setup.allowed)
  }

  /** The compile stages that failed have leave and optional targets, and did not fail in repackage mode. */
  ghost predicate OptionalFailed(status: map<Stage, Status>, repackage: bool, allowed: set<Stage>) {
    forall s :: Compiles(s) && HasFailed(status, s) ==> Exports(s) && s in allowed && !repackage
  }

  lemma OptionalIsExcusable(a: Art)
    requires Exports(Owner(a))
    ensures Excusable(a)
  {
  }

  lemma MissingIff(fs0: Files, fs: Files, status: map<Stage, Status>, i: Inputs, repackage: bool, allowed: set<Stage>,
                   failed: set<Stage>, absent: set<string>, t: Target)
    requires Progress(fs0, fs, status, i, repackage, 9) && OptionalFailed(status, repackage, allowed)
    requires forall s :: s in failed <==> s in allowed && HasFailed(status, s)
    requires t in RootfsTargets(i) && t.Bin?
    ensures Missing(fs, i, t, failed, absent) <==> repackage && !LiveThere(fs0, i, t.art)
  {
    TargetsCompiled(i, t);
    if HasFailed(status, Owner(t.art)) {
      OptionalIsExcusable(t.art);
    } else {
      LiveFound(fs0, fs, status, i, repackage, 9, t.art);
    }
  }

  lemma RootfsRaisesIff(fs0: Files, fs: Files, status: map<Stage, Status>, i: Inputs, repackage: bool,
                        allowed: set<Stage>, failed: set<Stage>, absent: set<string>)
    requires Progress(fs0, fs, status, i, repackage, 9) && OptionalFailed(status, repackage, allowed)
    requires forall s :: s in failed <==> s in allowed && HasFailed(status, s)
    ensures RootfsPlan(fs, i, failed, absent).raises <==> !TargetsThere(fs0, i, repackage, absent)
  {
    forall t | t in RootfsTargets(i) && t.Bin?
      ensures Missing(fs, i, t, failed, absent) <==> repackage && !LiveThere(fs0, i, t.art)
    {
      MissingIff(fs0, fs, status, i, repackage, allowed, failed, absent, t);
    }
    RaisesIff(fs0, fs, i, repackage, failed, absent, RootfsTargets(i));
  }

  lemma RaisesIff(fs0: Files, fs: Files, i: Inputs, repackage: bool, failed: set<Stage>, absent: set<string>,
                  ts: seq<Target>)
    requires ts == RootfsTargets(i)
    requires forall t <- ts :: t.Bin? ==>
               (Missing(fs, i, t, failed, absent) <==> repackage && !LiveThere(fs0, i, t.art))
    ensures (exists t <- ts :: Missing(fs, i, t, failed, absent)) <==> !TargetsThere(fs0, i, repackage, absent)
  {
  }

  /** The staging files of a run in which no command fails are there once their stages are over. */
  predicate StagingThere(fs: Files, k: nat) {
    && (k > 11 ==> RootfsImg in fs) && (k > 12 ==> EspImg in fs) && (k > 13 ==> At(WorkDir, OsImage) in fs)
  }

  /** So far only starved stages and optional ones have failed, with leave. */
  ghost predicate Unhurt(fs: Files, setup: Setup, st: State<Stage, Files>, k: nat) {
    && (forall s :: HasFailed(st.status, s) ==>
          s in setup.allowed && Index(s) < k && MayFail(fs, setup, st.repackage, s))
    && (st.skip || StagingThere(st.world, k))
  }

  ghost predicate MayFail(fs: Files, setup: Setup, repackage: bool, s: Stage) {
    Starved(fs, setup, repackage, s) || (Exports(s) && !repackage && setup.fates(s).Stops?)
  }

  lemma CompileDoesNotRaise(fs: Files, i: Inputs, s: Stage)
    requires Compiles(s) && TreesThere(fs, i)
    ensures !CompilePlan(fs, i, s).raises
  {
    NeedsThere(fs, i, s);
    assert s == CompileBusybox ==> SourceTree(Busybox, i.busyboxVer) in Needs(s, i);
  }

  lemma PlanRaisesIff(fs: Files, setup: Setup, repackage: bool, now: Files, s: Stage, failed: set<Stage>)
    requires StagingThere(now, Index(s)) && (Index(s) > 2 ==> TreesThere(now, setup.inputs))
    requires s == AssembleRootfs ==> (RootfsPlan(now, setup.inputs, failed, setup.scene.absent).raises
                                      <==> Starved(fs, setup, repackage, s))
    requires s == PackageESPImage ==>
               (LiveThere(now, setup.inputs, BzImage) <==> !Starved(fs, setup, repackage, s))
    ensures PlanOf(s, now, setup.inputs, repackage, setup.scene, failed).raises <==> Starved(fs, setup, repackage, s)
  {
    if Compiles(s) {
      CompileDoesNotRaise(now, setup.inputs, s);
    }
  }

  lemma RootfsStarves(fs: Files, setup: Setup, st: State<Stage, Files>, failed: set<Stage>)
    requires Progress(fs, st.world, st.status, setup.inputs, st.repackage, 9) && Unhurt(fs, setup, st, 9)
    requires !ExitsEarly(fs, setup.inputs, st.repackage)
    requires failed == FailedWithLeave(st.status[AssembleRootfs := Running], setup.allowed)
    ensures RootfsPlan(st.world, setup.inputs, failed, setup.scene.absent).raises
            <==> Starved(fs, setup, st.repackage, AssembleRootfs)
  {
    OptionalSoFar(fs, setup, st, failed);
    RootfsRaisesIff(fs, st.world, st.status, setup.inputs, st.repackage, setup.allowed, failed, setup.scene.absent);
  }

  lemma EspStarves(fs: Files, setup: Setup, st: State<Stage, Files>)
    requires OnTrack(fs, setup, st.repackage, st, 12) && !st.skip
    requires Through(st.status, CheckEarlyExit, 12) && Through(st.status, CompileKernel, 12)
    ensures LiveThere(st.world, setup.inputs, BzImage) <==> !Starved(fs, setup, st.repackage, PackageESPImage)
  {
    LiveFound(fs, st.world, st.status, setup.inputs, st.repackage, 12, BzImage);
  }

  lemma TreesByThen(fs: Files, setup: Setup, st: State<Stage, Files>, k: nat)
    requires Unhurt(fs, setup, st, k) && !st.skip
    requires Through(st.status, ExtractTarballs, k) ==> TreesThere(st.world, setup.inputs)
    ensures StagingThere(st.world, k) && (k > 2 ==> TreesThere(st.world, setup.inputs))
    ensures k >= 9 ==> Through(st.status, CheckEarlyExit, k) && Through(st.status, CompileKernel, k)
  {
    UnhurtThrough(fs, setup, st, k);
    assert k > 2 ==> Through(st.status, ExtractTarballs, k);
  }

  lemma StageRaisesIff(fs: Files, setup: Setup, st: State<Stage, Files>, s: Stage, failed: set<Stage>)
    requires OnTrack(fs, setup, st.repackage, st, Index(s)) && Unhurt(fs, setup, st, Index(s)) && !st.skip
    requires failed == FailedWithLeave(st.status[s := Running], setup.allowed)
    ensures PlanOf(s, st.world, setup.inputs, st.repackage, setup.scene, failed).raises
            <==> Starved(fs, setup, st.repackage, s)
  {
    TreesByThen(fs, setup, st, Index(s));
    if s == AssembleRootfs {
      RootfsStarves(fs, setup, st, failed);
    } else if s == PackageESPImage {
      EspStarves(fs, setup, st);
    }
    PlanRaisesIff(fs, setup, st.repackage, st.world, s, failed);
  }

  lemma UnhurtThrough(fs: Files, setup: Setup, st: State<Stage, Files>, k: nat)
    requires Unhurt(fs, setup, st, k)
    ensures forall s :: !Packages(s) && !Exports(s) && Index(s) < k ==> Through(st.status, s, k)
  {
  }

  lemma OptionalSoFar(fs: Files, setup: Setup, st: State<Stage, Files>, failed: set<Stage>)
    requires Unhurt(fs, setup, st, 9) && failed == FailedWithLeave(st.status[AssembleRootfs := Running], setup.allowed)
    ensures OptionalFailed(st.status, st.repackage, setup.allowed)
    ensures forall s :: s in failed <==> s in setup.allowed && HasFailed(st.status, s)
  {
    assert !HasFailed(st.status, AssembleRootfs);
    assert forall t :: Starved(fs, setup, st.repackage, t) ==> Index(t) >= 9;
  }

  lemma StagingKept(fs: Files, gs: Files, i: Inputs, repackage: bool, s: Stage)
    requires Frame(s, i, repackage, fs, gs) && s != ShipImage && StagingThere(fs, Index(s))
    ensures s != PackageBtrfsImage && Index(s) >= 11 ==> RootfsImg in gs
    ensures s != PackageESPImage && Index(s) >= 12 ==> EspImg in gs
    ensures Index(s) > 13 ==> At(WorkDir, OsImage) in gs
  {
    assert s != PackageBtrfsImage ==> !MayWrite(s, i, fs, repackage, RootfsImg);
    assert s != PackageESPImage ==> !MayWrite(s, i, fs, repackage, EspImg);
    assert Index(s) > 13 ==> !MayWrite(s, i, fs, repackage, At(WorkDir, OsImage));
  }

  lemma StagingOwn(fs: Files, i: Inputs, s: Stage)
    ensures s == PackageBtrfsImage ==> RootfsImg in Exec(fs, BtrfsPlan(fs).ops)
    ensures s == PackageESPImage ==> EspImg in Exec(fs, EspPlan(fs, i).ops)
    ensures s == AssembleGPTImage ==> At(WorkDir, OsImage) in Exec(fs, GptPlan(fs).ops)
  {
    OneOp(fs, BtrfsPlan(fs).ops);
    EspMade(fs, i);
    OneOp(fs, GptPlan(fs).ops);
  }

  lemma PackagingPlans(s: Stage, fs: Files, i: Inputs, repackage: bool, l: Scene, failed: set<Stage>)
    ensures s == PackageBtrfsImage ==> PlanOf(s, fs, i, repackage, l, failed) == BtrfsPlan(fs)
    ensures s == PackageESPImage ==> PlanOf(s, fs, i, repackage, l, failed) == EspPlan(fs, i)
    ensures s == AssembleGPTImage ==> PlanOf(s, fs, i, repackage, l, failed) == GptPlan(fs)
  {
  }

  /** What a packaging stage that no command interrupts leaves in its place, even if it raises. */
  lemma StagingMade(fs: Files, i: Inputs, repackage: bool, l: Scene, failed: set<Stage>, s: Stage)
    requires StagingThere(fs, Index(s)) && s != ShipImage
    ensures StagingThere(Exec(fs, PlanOf(s, fs, i, repackage, l, failed).ops), Index(s) + 1)
  {
    PlanFrames(s, fs, i, repackage, l, failed, Finishes);
    StagingKept(fs, StoppedAt(fs, PlanOf(s, fs, i, repackage, l, failed), Finishes), i, repackage, s);
    StagingOwn(fs, i, s);
    PackagingPlans(s, fs, i, repackage, l, failed);
  }

  lemma EspMade(fs: Files, i: Inputs)
    ensures EspImg in Exec(fs, EspPlan(fs, i).ops)
  {
    var ops := EspPlan(fs, i).ops;
    if |ops| == 2 {
      ExecTwo(fs, ops[0], ops[1]);
      assert ops == [ops[0], ops[1]];
    } else {
      OneOp(fs, ops);
    }
  }

  lemma EnteredUnhurt(fs: Files, setup: Setup, st: State<Stage, Files>, s: Stage, plan: Plan, next: State<Stage, Files>,
                      failed: set<Stage>)
    requires Unhurt(fs, setup, st, Index(s)) && s != ShipImage && !st.skip
    requires plan == PlanOf(s, st.world, setup.inputs, st.repackage, setup.scene, failed)
    requires Handled(st, s, plan, setup.fates(s), next) && (plan.raises <==> Starved(fs, setup, st.repackage, s))
    requires setup.fates(s).Finishes? || Exports(s)
    requires HasFailed(next.status, s) ==> s in setup.allowed && MayFail(fs, setup, st.repackage, s)
    ensures Unhurt(fs, setup, next, Index(s) + 1)
  {
    EnteredStatus(st, s, plan, setup.fates(s), next);
    if setup.fates(s).Finishes? {
      StagingMade(st.world, setup.inputs, st.repackage, setup.scene, failed, s);
    }
  }

  /** How a stage leaves a run. */
  ghost predicate Ends(fs: Files, setup: Setup, st: State<Stage, Files>, s: Stage, next: State<Stage, Files>) {
    if Starved(fs, setup, st.repackage, s) && s !in setup.allowed then next.final == Fatal && HasFailed(next.status, s)
    else next.final == Unfinished && (s != ShipImage ==> Unhurt(fs, setup, next, Index(s) + 1))
  }

  lemma StageEntered(fs: Files, setup: Setup, st: State<Stage, Files>, s: Stage, plan: Plan, body: Body<Stage, Files>,
                     failed: set<Stage>)
    requires st.final == Unfinished && !Bypassed(Config(setup), st, s) && Unhurt(fs, setup, st, Index(s))
    requires plan == PlanOf(s, st.world, setup.inputs, st.repackage, setup.scene, failed)
    requires plan.raises <==> Starved(fs, setup, st.repackage, s)
    requires setup.fates(s).Finishes? || (Exports(s) && s in setup.allowed && !st.repackage)
    requires body(s, st.world, st.status[s := Running]) == Perform(st.world, plan, setup.fates(s))
    ensures Ends(fs, setup, st, s, Handle(Config(setup), body, st, s))
  {
    HandlePerforms(Config(setup), body, st, s, plan, setup.fates(s));
    var next := Handle(Config(setup), body, st, s);
    if next.final == Unfinished && s != ShipImage {
      EnteredUnhurt(fs, setup, st, s, plan, next, failed);
    }
  }

  lemma StagePassedOver(fs: Files, setup: Setup, st: State<Stage, Files>, s: Stage)
    requires OnTrack(fs, setup, st.repackage, st, Index(s)) && Unhurt(fs, setup, st, Index(s))
    requires st.skip || (st.repackage && Compiles(s))
    ensures Ends(fs, setup, st, s, Mark(st, s, Skipped))
  {
    assert !Starved(fs, setup, st.repackage, s);
    MarkedUnhurt(fs, setup, st, s);
  }

  lemma StageSkipped(fs: Files, setup: Setup, st: State<Stage, Files>, s: Stage, body: Body<Stage, Files>)
    requires OnTrack(fs, setup, st.repackage, st, Index(s)) && Unhurt(fs, setup, st, Index(s))
    requires st.skip || (st.repackage && Compiles(s))
    ensures Ends(fs, setup, st, s, Handle(Config(setup), body, st, s))
  {
    StagePassedOver(fs, setup, st, s);
  }

  lemma MarkedUnhurt(fs: Files, setup: Setup, st: State<Stage, Files>, s: Stage)
    requires Unhurt(fs, setup, st, Index(s)) && (st.skip || Compiles(s))
    ensures Unhurt(fs, setup, Mark(st, s, Skipped), Index(s) + 1)
  {
    var next := Mark(st, s, Skipped);
    assert forall t :: HasFailed(next.status, t) ==> HasFailed(st.status, t);
  }

  lemma StageRuns(fs: Files, setup: Setup, st: State<Stage, Files>, s: Stage, plan: Plan, body: Body<Stage, Files>,
                  failed: set<Stage>)
    requires st.final == Unfinished && Unhurt(fs, setup, st, Index(s)) && !st.skip && (st.repackage ==> !Compiles(s))
    requires plan == PlanOf(s, st.world, setup.inputs, st.repackage, setup.scene, failed)
    requires plan.raises <==> Starved(fs, setup, st.repackage, s)
    requires setup.fates(s).Finishes? || (Exports(s) && s in setup.allowed)
    requires body(s, st.world, st.status[s := Running]) == Perform(st.world, plan, setup.fates(s))
    ensures Ends(fs, setup, st, s, Handle(Config(setup), body, st, s))
  {
    assert !Bypassed(Config(setup), st, s);
    StageEntered(fs, setup, st, s, plan, body, failed);
  }

  /** A stage in which no command fails goes on to the next, unless a file is not there and it has no leave. */
  lemma StageEnds(fs: Files, setup: Setup, st: State<Stage, Files>, s: Stage)
    requires setup.fates(s).Finishes? || (Exports(s) && s in setup.allowed)
    requires OnTrack(fs, setup, st.repackage, st, Index(s)) && Unhurt(fs, setup, st, Index(s))
    ensures Ends(fs, setup, st, s, Handle(Config(setup), StageBody(setup, st.repackage), st, s))
  {
    if st.skip || (st.repackage && Compiles(s)) {
      StageSkipped(fs, setup, st, s, StageBody(setup, st.repackage));
    } else {
      var failed := FailedWithLeave(st.status[s := Running], setup.allowed);
      BodyPerforms(setup, st, s);
      StageGoes(fs, setup, st, s, PlanIn(setup, st, s), StageBody(setup, st.repackage), failed);
    }
  }

  lemma StageGoes(fs: Files, setup: Setup, st: State<Stage, Files>, s: Stage, plan: Plan, body: Body<Stage, Files>,
                  failed: set<Stage>)
    requires OnTrack(fs, setup, st.repackage, st, Index(s)) && Unhurt(fs, setup, st, Index(s))
    requires !st.skip && (st.repackage ==> !Compiles(s))
    requires failed == FailedWithLeave(st.status[s := Running], setup.allowed)
    requires plan == PlanOf(s, st.world, setup.inputs, st.repackage, setup.scene, failed)
    requires setup.fates(s).Finishes? || (Exports(s) && s in setup.allowed)
    requires body(s, st.world, st.status[s := Running]) == Perform(st.world, plan, setup.fates(s))
    ensures Ends(fs, setup, st, s, Handle(Config(setup), body, st, s))
  {
    StageRaisesIff(fs, setup, st, s, failed);
    StageRuns(fs, setup, st, s, plan, body, failed);
  }

  lemma NextEnds(fs: Files, setup: Setup, repackage: bool, k: nat)
    requires setup.inputs.WellFormed() && k < 16 && Lenient(setup)
    requires var st := Partial(fs, setup, repackage, k); st.final == Unfinished && Unhurt(fs, setup, st, k)
    requires Partial(fs, setup, repackage, k).repackage == repackage
    ensures Ends(fs, setup, Partial(fs, setup, repackage, k), ORDER[k], Partial(fs, setup, repackage, k + 1))
  {
    OrderIndex(k);
    RunOnTrack(fs, setup, repackage, k);
    PartialNext(fs, setup, repackage, k);
    StageEnds(fs, setup, Partial(fs, setup, repackage, k), ORDER[k]);
  }

  lemma StartUnhurt(fs: Files, setup: Setup, repackage: bool)
    ensures Unhurt(fs, setup, Start(fs, repackage), 0)
  {
  }

  lemma {:induction false} NeverFatal(fs: Files, setup: Setup, repackage: bool, k: nat)
    requires setup.inputs.WellFormed() && k <= 16 && Lenient(setup)
    requires forall j :: 0 <= j < k && Starved(fs, setup, repackage, ORDER[j]) ==> ORDER[j] in setup.allowed
    ensures var st := Partial(fs, setup, repackage, k);
            st.final == Unfinished && st.repackage == repackage && (k <= 15 ==> Unhurt(fs, setup, st, k))
    decreases k
  {
    if k == 0 {
      StartUnhurt(fs, setup, repackage);
    } else {
      NeverFatal(fs, setup, repackage, k - 1);
      NextEnds(fs, setup, repackage, k - 1);
      OrderIndex(k - 1);
      ModeIsKept(Config(setup), StageBody(setup, repackage), ORDER, Start(fs, repackage), k);
    }
  }

  lemma StopsAt(fs: Files, setup: Setup, repackage: bool, k: nat)
    requires setup.inputs.WellFormed() && k < 16 && Lenient(setup)
    requires forall j :: 0 <= j < k && Starved(fs, setup, repackage, ORDER[j]) ==> ORDER[j] in setup.allowed
    requires Starved(fs, setup, repackage, ORDER[k]) && ORDER[k] !in setup.allowed
    ensures var st := Build(fs, setup, repackage); st.final == Fatal && HasFailed(st.status, ORDER[k])
  {
    StarvedWhere(fs, setup, repackage, k);
    NeverFatal(fs, setup, repackage, k);
    NextEnds(fs, setup, repackage, k);
    BuildIsPartial(fs, setup, repackage, k + 1);
  }

  lemma StarvedWhere(fs: Files, setup: Setup, repackage: bool, k: nat)
    requires k < 16 && Starved(fs, setup, repackage, ORDER[k])
    ensures k == 9 || k == 12
  {
    assert Index(ORDER[k]) == k;
  }

  /** The stage has no leave to fail for want of a file that it needs and that is not there. */
  ghost predicate Blocked(fs: Files, setup: Setup, repackage: bool, s: Stage) {
    Starved(fs, setup, repackage, s) && s !in setup.allowed
  }

  /** A run in which no command fails, but in optional stages with leave, completes, from any files and with
      any other stages allowed to fail, exactly when it exits early, or the source files, and in repackage mode
      the live files, are there as far as the stages that need them have no leave to fail; otherwise it fails
      where the first of them is needed. */
  lemma UninterruptedCompletesIff(fs: Files, setup: Setup, repackage: bool)
    requires setup.inputs.WellFormed() && Lenient(setup)
    ensures var st := Build(fs, setup, repackage);
            var rootfs := Blocked(fs, setup, repackage, AssembleRootfs);
            var esp := Blocked(fs, setup, repackage, PackageESPImage);
            && (st.final == Complete <==> !rootfs && !esp)
            && (st.final == Complete || st.final == Fatal)
            && (rootfs ==> HasFailed(st.status, AssembleRootfs))
            && (esp && !rootfs ==> HasFailed(st.status, PackageESPImage))
  {
    assert ORDER[9] == AssembleRootfs && ORDER[12] == PackageESPImage;
    forall j | 0 <= j < 16 && j != 9 && j != 12 ensures !Starved(fs, setup, repackage, ORDER[j]) {
      if Starved(fs, setup, repackage, ORDER[j]) {
        StarvedWhere(fs, setup, repackage, j);
      }
    }
    if Blocked(fs, setup, repackage, AssembleRootfs) {
      StopsAt(fs, setup, repackage, 9);
    } else if Blocked(fs, setup, repackage, PackageESPImage) {
      StopsAt(fs, setup, repackage, 12);
    } else {
      NeverFatal(fs, setup, repackage, 16);
    }
  }

  ghost predicate LivePresent(fs: Files, i: Inputs) {
    forall a :: Compiles(Owner(a)) ==> LiveThere(fs, i, a)
  }

  /** Nothing is missing, and no command fails. */
  ghost predicate Undisturbed(fs: Files, setup: Setup, repackage: bool) {
    && (forall s :: setup.fates(s).Finishes?) && setup.scene.absent == {}
    && (repackage ==> LivePresent(fs, setup.inputs))
  }

  lemma NothingStarved(fs: Files, setup: Setup, repackage: bool)
    requires Undisturbed(fs, setup, repackage)
    ensures forall s :: !Starved(fs, setup, repackage, s)
  {
    forall t | repackage && t in RootfsTargets(setup.inputs) && t.Bin? ensures LiveThere(fs, setup.inputs, t.art) {
      TargetsCompiled(setup.inputs, t);
    }
    assert Owner(BzImage) == CompileKernel;
  }

  lemma NoneFails(fs: Files, setup: Setup, repackage: bool, k: nat)
    requires setup.inputs.WellFormed() && (forall s :: setup.fates(s).Finishes?) && k <= 15
    requires forall s :: !Starved(fs, setup, repackage, s)
    ensures var st := Partial(fs, setup, repackage, k);
            st.final == Unfinished && st.repackage == repackage && forall s :: !HasFailed(st.status, s)
  {
    NeverFatal(fs, setup, repackage, k);
  }

  /** The state before `ShipImage` of a run in which nothing fails. */
  lemma UndisturbedLate(fs: Files, setup: Setup, repackage: bool) returns (late: State<Stage, Files>)
    requires setup.inputs.WellFormed() && Undisturbed(fs, setup, repackage)
    ensures late == Partial(fs, setup, repackage, 15) && OnTrack(fs, setup, repackage, late, 15)
    ensures forall s :: !HasFailed(late.status, s)
    ensures !ExitsEarly(fs, setup.inputs, repackage) ==> !late.skip
    ensures !late.skip ==> TreesThere(late.world, setup.inputs)
  {
    late := Partial(fs, setup, repackage, 15);
    NothingStarved(fs, setup, repackage);
    NoneFails(fs, setup, repackage, 15);
    RunOnTrack(fs, setup, repackage, 15);
    UnfailedLate(fs, setup, late);
  }

  lemma UnfailedLate(fs: Files, setup: Setup, late: State<Stage, Files>)
    requires OnTrack(fs, setup, late.repackage, late, 15) && forall s :: !HasFailed(late.status, s)
    ensures !ExitsEarly(fs, setup.inputs, late.repackage) ==> !late.skip
    ensures !late.skip ==> TreesThere(late.world, setup.inputs)
  {
    assert Through(late.status, ExtractTarballs, 15);
  }

  lemma UndisturbedShips(setup: Setup, late: State<Stage, Files>)
    requires late.final == Unfinished && (late.skip || StagingThere(late.world, 15)) && setup.fates(ShipImage).Finishes?
    ensures var last := Handle(Config(setup), StageBody(setup, late.repackage), late, ShipImage);
            forall s :: HasFailed(last.status, s) ==> HasFailed(late.status, s) && s != ShipImage
  {
    if late.skip {
      assert Handle(Config(setup), StageBody(setup, late.repackage), late, ShipImage) == Mark(late, ShipImage, Skipped);
      assert forall s :: HasFailed(Mark(late, ShipImage, Skipped).status, s) ==> HasFailed(late.status, s);
    } else {
      var plan := ShipPlan(late.world, setup.inputs, late.repackage);
      ShipHandled(setup, late);
      EnteredStatus(late, ShipImage, plan, Finishes,
                    Handle(Config(setup), StageBody(setup, late.repackage), late, ShipImage));
      ShipPlanDelivers(late.world, setup.inputs, late.repackage, plan, late.world[At(WorkDir, OsImage)]);
    }
  }

  /** With nothing missing, a run in which only optional stages fail, with leave, completes, and no other fails. */
  lemma OptionalFailuresComplete(fs: Files, setup: Setup, repackage: bool)
    requires setup.inputs.WellFormed() && Lenient(setup) && forall s :: !Starved(fs, setup, repackage, s)
    ensures var st := Build(fs, setup, repackage);
            st.final == Complete && forall s :: HasFailed(st.status, s) ==> Exports(s) && setup.fates(s).Stops?
  {
    UninterruptedCompletesIff(fs, setup, repackage);
    NeverFatal(fs, setup, repackage, 15);
    var late := CompleteIsLate(fs, setup, repackage);
    UnhurtStaging(fs, setup, late);
  }

  lemma NoneStarvedCompletes(fs: Files, setup: Setup, repackage: bool)
    requires setup.inputs.WellFormed() && (forall s :: setup.fates(s).Finishes?)
    requires forall s :: !Starved(fs, setup, repackage, s)
    ensures var st := Build(fs, setup, repackage);
            st.final == Complete && forall s :: !HasFailed(st.status, s)
  {
    OptionalFailuresComplete(fs, setup, repackage);
  }

  lemma UndisturbedCompletes(fs: Files, setup: Setup, repackage: bool)
    requires setup.inputs.WellFormed() && Undisturbed(fs, setup, repackage)
    ensures var st := Build(fs, setup, repackage);
            st.final == Complete && forall s :: !HasFailed(st.status, s)
  {
    NothingStarved(fs, setup, repackage);
    NoneStarvedCompletes(fs, setup, repackage);
  }

  lemma UnhurtStaging(fs: Files, setup: Setup, late: State<Stage, Files>)
    requires Unhurt(fs, setup, late, 15) && late.final == Unfinished && Lenient(setup)
    requires forall s :: !Starved(fs, setup, late.repackage, s)
    ensures var last := Handle(Config(setup), StageBody(setup, late.repackage), late, ShipImage);
            forall s :: HasFailed(last.status, s) ==> Exports(s) && setup.fates(s).Stops?
  {
    assert forall s :: HasFailed(late.status, s) ==> MayFail(fs, setup, late.repackage, s);
    assert !Exports(ShipImage);
    UndisturbedShips(setup, late);
  }

  // Runs that disturb nothing

  /** No tree is torn when the run starts, unpacking and the module stage are not cut short inside an operation,
      and no stage fails with leave. */
  ghost predicate Untroubled(fs: Files, setup: Setup, repackage: bool) {
    && TreesWhole(fs, setup.inputs)
    && (forall s <- [ExtractTarballs, CompileKernelModule] :: setup.fates(s).Stops? ==> !setup.fates(s).cut.torn)
    && (forall k: nat :: k < 15 ==> !FailedHere(Partial(fs, setup, repackage, k + 1), ORDER[k]))
  }

  /** A tree path that `TreesWhole` is about. */
  predicate Watched(i: Inputs, p: Path) {
    p in Trees(i) || (p == KernelConfig(i.headers) && i.headers != i.linuxVer)
  }

  lemma WholeIsUntorn(fs: Files, i: Inputs)
    ensures TreesWhole(fs, i) <==> forall p :: Watched(i, p) ==> !Holds(fs, p, Torn)
  {
  }

  predicate WritesWhole(ops: seq<Op>, p: Path) {
    forall op <- ops :: op.path == p ==> op.Write? && op.blob != Torn
  }

  lemma {:induction false} StaysUntorn(fs: Files, ops: seq<Op>, cut: Cut, p: Path)
    requires WritesWhole(ops, p) && !Holds(fs, p, Torn)
    ensures !Holds(Exec(fs, ops), p, Torn) && (!cut.torn ==> !Holds(Crash(fs, ops, cut), p, Torn))
    decreases |ops|
  {
    if ops != [] {
      assert ops[0] in ops;
      StaysUntorn(Apply(fs, ops[0]), ops[1..], if cut.steps > 0 then cut.(steps := cut.steps - 1) else cut, p);
    }
  }

  lemma ExtractWritesWhole(fs: Files, i: Inputs, p: Path)
    requires p.SourceTree? || p.KernelConfig?
    ensures WritesWhole(ExtractPlan(fs, i).ops, p)
  {
    forall op | op in ExtractPlan(fs, i).ops && op.path == p ensures op.Write? && op.blob != Torn {
      UnpackTouches(fs, i, Trees(i), op);
      TreesPristine(i, p);
    }
  }

  lemma ModuleWritesWhole(fs: Files, i: Inputs, p: Path)
    requires p.SourceTree? || p.KernelConfig?
    ensures WritesWhole(CompilePlan(fs, i, CompileKernelModule).ops, p)
  {
    forall op | op in CompilePlan(fs, i, CompileKernelModule).ops && op.path == p ensures op.Write? && op.blob != Torn {
      if op in RestoreOps(CompileKernelModule, i) {
        RestoreOwned(CompileKernelModule, i, op);
      } else if op in RebuildOps(fs, CompileKernelModule, i) {
        RebuildWritesWhole(fs, i, CompileKernelModule, op);
      }
    }
  }

  lemma RebuildWritesWhole(fs: Files, i: Inputs, s: Stage, op: Op)
    requires Compiles(s) && op in RebuildOps(fs, s, i) && (op.path.SourceTree? || op.path.KernelConfig?)
    ensures op.Write? && op.blob != Torn
  {
    var made := Exec(fs, Prepare(fs, i, s));
    if op in BuildOps(made, s, i) {
      BuildOwned(made, s, i, op);
    } else if op in Prepare(fs, i, s) {
      PrepareWritesWhole(fs, i, s, op);
    }
  }

  lemma PrepareWritesWhole(fs: Files, i: Inputs, s: Stage, op: Op)
    requires op in Prepare(fs, i, s)
    ensures op.Write? && op.blob != Torn
  {
  }

  lemma WatchedNotWritten(s: Stage, i: Inputs, fs: Files, repackage: bool, p: Path)
    requires Watched(i, p) && s != ExtractTarballs && s != CompileKernelModule && s != ShipImage
    requires s == CompileKernel ==> TreesThere(fs, i)
    ensures !MayWrite(s, i, fs, repackage, p)
  {
    assert p in Trees(i) ==> p.SourceTree?;
  }

  lemma WatchedStays(setup: Setup, repackage: bool, fs: Files, s: Stage, plan: Plan, failed: set<Stage>, p: Path)
    requires plan == PlanOf(s, fs, setup.inputs, repackage, setup.scene, failed) && Watched(setup.inputs, p)
    requires !Holds(fs, p, Torn) && (s == CompileKernel ==> TreesThere(fs, setup.inputs))
    requires s != ExtractTarballs && s != CompileKernelModule
    ensures !Holds(StoppedAt(fs, plan, setup.fates(s)), p, Torn)
  {
    var i, fate := setup.inputs, setup.fates(s);
    if s == ShipImage {
      ShipLeavesTree(fs, i, repackage, fate, p);
    } else {
      WatchedNotWritten(s, i, fs, repackage, p);
      PlanFrames(s, fs, i, repackage, setup.scene, failed, fate);
    }
  }

  lemma WrittenWhole(setup: Setup, repackage: bool, fs: Files, s: Stage, plan: Plan, failed: set<Stage>, p: Path)
    requires plan == PlanOf(s, fs, setup.inputs, repackage, setup.scene, failed) && Watched(setup.inputs, p)
    requires !Holds(fs, p, Torn) && (s == ExtractTarballs || s == CompileKernelModule)
    requires setup.fates(s).Stops? ==> !setup.fates(s).cut.torn
    ensures !Holds(StoppedAt(fs, plan, setup.fates(s)), p, Torn)
  {
    var i, fate := setup.inputs, setup.fates(s);
    ExtractWritesWhole(fs, i, p);
    ModuleWritesWhole(fs, i, p);
    PlanIsOwn(s, fs, i, repackage, setup.scene, failed);
    StaysUntorn(fs, plan.ops, match fate case Stops(cut) => cut case Finishes => Cut(0, false), p);
  }

  lemma StopsWhole(setup: Setup, repackage: bool, fs: Files, s: Stage, plan: Plan, failed: set<Stage>)
    requires plan == PlanOf(s, fs, setup.inputs, repackage, setup.scene, failed)
    requires TreesWhole(fs, setup.inputs) && (s == CompileKernel ==> TreesThere(fs, setup.inputs))
    requires s == ExtractTarballs || s == CompileKernelModule ==>
               setup.fates(s).Stops? ==> !setup.fates(s).cut.torn
    ensures TreesWhole(StoppedAt(fs, plan, setup.fates(s)), setup.inputs)
  {
    WholeIsUntorn(fs, setup.inputs);
    forall p | Watched(setup.inputs, p) ensures !Holds(StoppedAt(fs, plan, setup.fates(s)), p, Torn) {
      if s == ExtractTarballs || s == CompileKernelModule {
        WrittenWhole(setup, repackage, fs, s, plan, failed, p);
      } else {
        WatchedStays(setup, repackage, fs, s, plan, failed, p);
      }
    }
    WholeIsUntorn(StoppedAt(fs, plan, setup.fates(s)), setup.inputs);
  }

  lemma ShipLeavesTree(fs: Files, i: Inputs, repackage: bool, fate: Fate, p: Path)
    requires InTree(p)
    ensures Same(fs, StoppedAt(fs, ShipPlan(fs, i, repackage), fate), p)
  {
    var plan := ShipPlan(fs, i, repackage);
    forall op | op in plan.ops ensures op.path != p {
      ShipOutside(fs, i, repackage, op);
    }
    ExecFrame(fs, plan.ops, p);
    if fate.Stops? {
      CrashFrame(fs, plan.ops, fate.cut, p);
    }
  }

  /** So far no stage has failed, and no tree is torn. */
  ghost predicate Calm(st: State<Stage, Files>, i: Inputs) {
    && TreesWhole(st.world, i)
    && (st.final == Unfinished && !st.skip ==> forall s :: !HasFailed(st.status, s))
  }

  lemma HandledCalm(setup: Setup, st: State<Stage, Files>, s: Stage, plan: Plan, body: Body<Stage, Files>,
                    failed: set<Stage>)
    requires Calm(st, setup.inputs) && st.final == Unfinished && !st.skip && (st.repackage ==> !Compiles(s))
    requires plan == PlanOf(s, st.world, setup.inputs, st.repackage, setup.scene, failed)
    requires body(s, st.world, st.status[s := Running]) == Perform(st.world, plan, setup.fates(s))
    requires s == CompileKernel ==> TreesThere(st.world, setup.inputs)
    requires s == ExtractTarballs || s == CompileKernelModule ==>
               setup.fates(s).Stops? ==> !setup.fates(s).cut.torn
    requires s != ShipImage ==> !FailedHere(Handle(Config(setup), body, st, s), s)
    ensures Calm(Handle(Config(setup), body, st, s), setup.inputs) || s == ShipImage
    ensures TreesWhole(Handle(Config(setup), body, st, s).world, setup.inputs)
  {
    var next := Handle(Config(setup), body, st, s);
    assert !Bypassed(Config(setup), st, s);
    HandlePerforms(Config(setup), body, st, s, plan, setup.fates(s));
    StopsWhole(setup, st.repackage, st.world, s, plan, failed);
    EnteredStatus(st, s, plan, setup.fates(s), next);
  }

  lemma MarkedCalm(st: State<Stage, Files>, i: Inputs, s: Stage)
    requires Calm(st, i)
    ensures Calm(Mark(st, s, Skipped), i)
  {
    assert forall t :: HasFailed(Mark(st, s, Skipped).status, t) ==> HasFailed(st.status, t);
  }

  lemma CalmTrees(fs: Files, setup: Setup, st: State<Stage, Files>)
    requires OnTrack(fs, setup, st.repackage, st, 3) && Calm(st, setup.inputs) && !st.skip
    ensures TreesThere(st.world, setup.inputs)
  {
    assert Through(st.status, ExtractTarballs, 3);
  }

  lemma StageCalm(fs: Files, setup: Setup, st: State<Stage, Files>, s: Stage)
    requires st.final == Unfinished && Calm(st, setup.inputs)
    requires s == CompileKernel && !st.skip ==> TreesThere(st.world, setup.inputs)
    requires s == ExtractTarballs || s == CompileKernelModule ==>
               setup.fates(s).Stops? ==> !setup.fates(s).cut.torn
    requires var next := Handle(Config(setup), StageBody(setup, st.repackage), st, s);
             s != ShipImage ==> !FailedHere(next, s)
    ensures var next := Handle(Config(setup), StageBody(setup, st.repackage), st, s);
            TreesWhole(next.world, setup.inputs) && (Calm(next, setup.inputs) || s == ShipImage)
  {
    if st.skip || (st.repackage && Compiles(s)) {
      MarkedCalm(st, setup.inputs, s);
    } else {
      BodyPerforms(setup, st, s);
      HandledCalm(setup, st, s, PlanIn(setup, st, s), StageBody(setup, st.repackage),
                  FailedWithLeave(st.status[s := Running], setup.allowed));
    }
  }

  lemma {:induction false} PartialCalm(fs: Files, setup: Setup, repackage: bool, k: nat)
    requires setup.inputs.WellFormed() && Untroubled(fs, setup, repackage) && k <= 16
    ensures var st := Partial(fs, setup, repackage, k);
            TreesWhole(st.world, setup.inputs) && (k <= 15 ==> Calm(st, setup.inputs))
    decreases k
  {
    if k > 0 {
      PartialCalm(fs, setup, repackage, k - 1);
      RunOnTrack(fs, setup, repackage, k - 1);
      OrderIndex(k - 1);
      UntornAt(setup, ORDER[k - 1]);
      CalmNext(fs, setup, repackage, ORDER, Start(fs, repackage), k - 1, ORDER[k - 1]);
    }
  }

  lemma CalmNext(fs: Files, setup: Setup, repackage: bool, order: seq<Stage>, start: State<Stage, Files>, k: nat,
                 s: Stage)
    requires k < |order| && order[k] == s && Index(s) == k
    requires var st := After(Config(setup), StageBody(setup, repackage), order, start, k);
             Calm(st, setup.inputs) && (st.final == Fatal || OnTrack(fs, setup, repackage, st, k))
    requires s == ExtractTarballs || s == CompileKernelModule ==>
               setup.fates(s).Stops? ==> !setup.fates(s).cut.torn
    requires s != ShipImage ==> !FailedHere(After(Config(setup), StageBody(setup, repackage), order, start, k + 1), s)
    ensures var next := After(Config(setup), StageBody(setup, repackage), order, start, k + 1);
            TreesWhole(next.world, setup.inputs) && (s != ShipImage ==> Calm(next, setup.inputs))
  {
    var st := After(Config(setup), StageBody(setup, repackage), order, start, k);
    AfterNext(Config(setup), StageBody(setup, repackage), order, start, k);
    if st.final != Fatal {
      NextCalm(fs, setup, st, s, After(Config(setup), StageBody(setup, repackage), order, start, k + 1));
    }
  }

  lemma NextCalm(fs: Files, setup: Setup, st: State<Stage, Files>, s: Stage, next: State<Stage, Files>)
    requires OnTrack(fs, setup, st.repackage, st, Index(s)) && Calm(st, setup.inputs)
    requires next == Handle(Config(setup), StageBody(setup, st.repackage), st, s)
    requires s == ExtractTarballs || s == CompileKernelModule ==>
               setup.fates(s).Stops? ==> !setup.fates(s).cut.torn
    requires s != ShipImage ==> !FailedHere(next, s)
    ensures TreesWhole(next.world, setup.inputs) && (Calm(next, setup.inputs) || s == ShipImage)
  {
    if s == CompileKernel && !st.skip {
      CalmTrees(fs, setup, st);
    }
    StageCalm(fs, setup, st, s);
  }

  lemma UntornAt(setup: Setup, s: Stage)
    requires forall s <- [ExtractTarballs, CompileKernelModule] :: setup.fates(s).Stops? ==> !setup.fates(s).cut.torn
    ensures s == ExtractTarballs || s == CompileKernelModule ==> setup.fates(s).Stops? ==> !setup.fates(s).cut.torn
  {
    assert ExtractTarballs in [ExtractTarballs, CompileKernelModule];
    assert CompileKernelModule in [ExtractTarballs, CompileKernelModule];
  }

  /** A run in which no tree is torn and no stage fails with leave, whatever stages may, is one that the
      safety results cover: any other failure and any crash ends it. */
  lemma UntroubledIsSafe(fs: Files, setup: Setup, repackage: bool)
    requires setup.inputs.WellFormed() && Untroubled(fs, setup, repackage)
    ensures Orderly(fs, setup, repackage) && Forgiven(fs, setup, repackage)
  {
    forall k: nat | k <= 16 ensures TreesWhole(Partial(fs, setup, repackage, k).world, setup.inputs) {
      PartialCalm(fs, setup, repackage, k);
    }
  }

  lemma NoneStarvedIsSafe(fs: Files, setup: Setup, repackage: bool)
    requires setup.inputs.WellFormed() && (forall s :: setup.fates(s).Finishes?) && TreesWhole(fs, setup.inputs)
    requires forall s :: !Starved(fs, setup, repackage, s)
    ensures Orderly(fs, setup, repackage) && Forgiven(fs, setup, repackage)
  {
    forall k: nat | k < 15 ensures !FailedHere(Partial(fs, setup, repackage, k + 1), ORDER[k]) {
      NoneFails(fs, setup, repackage, k + 1);
    }
    UntroubledIsSafe(fs, setup, repackage);
  }

  lemma UndisturbedIsSafe(fs: Files, setup: Setup, repackage: bool)
    requires setup.inputs.WellFormed() && Undisturbed(fs, setup, repackage) && TreesWhole(fs, setup.inputs)
    ensures Orderly(fs, setup, repackage) && Forgiven(fs, setup, repackage)
  {
    NothingStarved(fs, setup, repackage);
    NoneStarvedIsSafe(fs, setup, repackage);
  }
}
