/** The cache stages as the program runs them: one object whose files change operation by
    operation, any of which may fail.  Each method is shown to perform its stage's plan. */
module Workbench {
  import opened Store
  import opened Cache
  import opened RunLoop
  import opened CompileStages
  import opened ShipStages
  import opened Deliveries
  import opened Fingerprints

  /** An operation or a stage went through, or an exception was raised in it. */
  datatype Result = Pass | Fail {
    predicate IsFailure() {
      Fail?
    }

    function PropagateFailure(): Result
      requires IsFailure()
    {
      this
    }
  }

  lemma PresentStep(fs: Files, place: Place, arts: seq<Art>, k: nat, found: seq<Art>)
    requires k < |arts|
    ensures found + Present(fs, place, arts[k..])
            == (if At(place, arts[k]) in fs then found + [arts[k]] else found) + Present(fs, place, arts[k + 1..])
  {
  }

  /** One target of the root file system. */
  lemma GatherStep(fs: Files, i: Inputs, ts: seq<Target>, k: nat, got: seq<Blob>, failed: set<Stage>,
                   absent: set<string>)
    requires k < |ts|
    ensures var parts := got + [Part(LiveIn(fs, i), ts[k])];
            GatherOps(fs, i, ts[k..], got, failed, absent)
            == if Missing(fs, i, ts[k], failed, absent) then []
               else if ts[k].Bin? && !LiveThere(fs, i, ts[k].art)
               then GatherOps(fs, i, ts[k + 1..], got, failed, absent)
               else [Write(RootfsTree, RootTree(parts))] + GatherOps(fs, i, ts[k + 1..], parts, failed, absent)
  {
    assert ts[k..][0] == ts[k] && ts[k..][1..] == ts[k + 1..];
  }

  lemma TreesDistinct(i: Inputs)
    ensures forall k, m :: 0 <= k < m < |Trees(i)| ==> Trees(i)[k] != Trees(i)[m]
  {
  }

  lemma UnpackSplits(fs: Files, i: Inputs, ps: seq<Path>, k: nat, rest: seq<Op>)
    requires k < |ps|
    ensures Unpacks(fs, i, ps[k..]) + rest
            == (if ps[k] in fs then [] else [Write(ps[k], Get(Pristine(i), ps[k]))])
               + (Unpacks(fs, i, ps[k + 1..]) + rest)
  {
    assert ps[k..][1..] == ps[k + 1..];
  }

  /** `fs` and `gs` have the same source trees and configurations. */
  ghost predicate SameTrees(fs: Files, gs: Files) {
    forall p :: InTree(p) ==> Same(fs, gs, p)
  }

  predicate InTree(p: Path) {
    p.SourceTree? || p.KernelConfig?
  }

  lemma LiveOutside(fs: Files, gs: Files, i: Inputs, a: Art, b: Blob)
    requires SameTrees(fs, gs)
    ensures SameTrees(fs, gs[LivePath(a, i) := b])
  {
  }

  lemma CompileSplits(made: Files, arts: seq<Art>, k: nat, i: Inputs, rest: seq<Op>)
    requires k < |arts|
    ensures CompileAll(made, arts[k..], i) + rest
            == [Write(LivePath(arts[k], i), Compile(made, arts[k], i))] + (CompileAll(made, arts[k + 1..], i) + rest)
  {
    assert arts[k..][1..] == arts[k + 1..];
  }

  lemma SameCompile(fs: Files, gs: Files, a: Art, i: Inputs)
    requires SameTrees(fs, gs)
    ensures Compile(fs, a, i) == Compile(gs, a, i)
  {
    assert forall p <- Reads(a, i) :: InTree(p);
    SeenIff(fs, gs, Reads(a, i));
  }

  lemma ExitEffect(fs: Files, i: Inputs, repackage: bool, cut: Cut)
    ensures var ops := EarlyExitPlan(fs, i, repackage).ops;
            ExitRestoring(fs, i, repackage) && |ops| <= cut.steps ==> ExitRestored(fs, Crash(fs, ops, cut), i)
  {
    if ExitRestoring(fs, i, repackage) {
      if |EarlyExitPlan(fs, i, repackage).ops| <= cut.steps {
        CrashLate(fs, EarlyExitPlan(fs, i, repackage).ops, cut);
        var gs := ExitRestoresAll(fs, i);
      }
    }
  }

  lemma CompileEffect(fs: Files, i: Inputs, s: Stage, cut: Cut)
    requires i.WellFormed() && Compiles(s)
    ensures var plan := CompilePlan(fs, i, s);
            !plan.raises && |plan.ops| <= cut.steps ==> CompileDone(fs, Crash(fs, plan.ops, cut), i, s)
  {
    var plan := CompilePlan(fs, i, s);
    if !plan.raises && |plan.ops| <= cut.steps {
      CrashLate(fs, plan.ops, cut);
      CompileIsDone(fs, i, s);
    }
  }

  lemma RootfsEffect(fs: Files, i: Inputs, failed: set<Stage>, absent: set<string>, cut: Cut)
    ensures var plan := RootfsPlan(fs, i, failed, absent);
            !plan.raises && |plan.ops| <= cut.steps ==>
              && Holds(Crash(fs, plan.ops, cut), RootfsTree, RootTree(RootfsOf(fs, i)))
              && RootfsOverlay !in Crash(fs, plan.ops, cut)
  {
    var plan := RootfsPlan(fs, i, failed, absent);
    if !plan.raises && |plan.ops| <= cut.steps {
      CrashLate(fs, plan.ops, cut);
      RootfsHolds(fs, i, failed, absent);
    }
  }

  /** What a stage call set out to do, from which files, with how many operations before one fails. */
  datatype Script = Script(before: Files, allowance: nat, ops: seq<Op>)

  class Bench {
    var files: Files
    var budget: nat
    var report: Report
    var skipRemaining: bool
    const inputs: Inputs
    const tears: bool
    const repackageOnly: bool

    constructor (files: Files, inputs: Inputs, repackageOnly: bool, budget: nat, tears: bool)
      ensures this.files == files && this.inputs == inputs && this.repackageOnly == repackageOnly
      ensures this.budget == budget && this.tears == tears && report == Silent && !skipRemaining
    {
      this.files, this.inputs, this.repackageOnly := files, inputs, repackageOnly;
      this.budget, this.tears, report, skipRemaining := budget, tears, Silent, false;
    }

    /** Doing `rest` from here is doing what is left of the script. */
    ghost predicate Remaining(sc: Script, rest: seq<Op>)
      reads this
    {
      && Crash(sc.before, sc.ops, Cut(sc.allowance, tears)) == Crash(files, rest, Cut(budget, tears))
      && Exec(sc.before, sc.ops) == Exec(files, rest)
      && |sc.ops| - sc.allowance == |rest| - budget
    }

    /** An operation of the script, ahead of `rest`, has failed. */
    ghost predicate Stopped(sc: Script, rest: seq<Op>)
      reads this
    {
      files == Crash(sc.before, sc.ops, Cut(sc.allowance, tears)) && sc.allowance < |sc.ops| - |rest|
    }

    /** One file operation. */
    method Do(op: Op, ghost sc: Script, ghost rest: seq<Op>) returns (r: Result)
      requires Remaining(sc, [op] + rest)
      modifies `files, `budget
      ensures if r.Pass? then Remaining(sc, rest) && files == Apply(old(files), op) else Stopped(sc, rest)
    {
      assert ([op] + rest)[1..] == rest;
      if budget == 0 {
        if tears {
          files := Tear(files, op);
        }
        return Fail;
      }
      files, budget := Apply(files, op), budget - 1;
      return Pass;
    }

    method CopyEach(from: Side, to: Side, arts: seq<Art>, ghost sc: Script, ghost rest: seq<Op>) returns (r: Result)
      requires Remaining(sc, CopyAll(from, to, arts) + rest)
      modifies `files, `budget
      ensures if r.Pass? then Remaining(sc, rest) else Stopped(sc, rest)
    {
      for k := 0 to |arts|
        invariant Remaining(sc, CopyAll(from, to, arts[k..]) + rest)
      {
        var op := Copy(Spot(from, arts[k]), Spot(to, arts[k]));
        ghost var tail := CopyAll(from, to, arts[k + 1..]);
        assert arts[k..][1..] == arts[k + 1..];
        assert CopyAll(from, to, arts[k..]) + rest == [op] + (tail + rest);
        :- Do(op, sc, tail + rest);
      }
      assert CopyAll(from, to, arts[|arts|..]) + rest == rest;
      r := Pass;
    }

    /** The commands read the trees as they are; `made` has the same trees. */
    method CompileEach(arts: seq<Art>, ghost made: Files, ghost sc: Script, ghost rest: seq<Op>) returns (r: Result)
      requires Remaining(sc, CompileAll(made, arts, inputs) + rest) && SameTrees(made, files)
      modifies `files, `budget
      ensures if r.Pass? then Remaining(sc, rest) else Stopped(sc, rest)
    {
      for k := 0 to |arts|
        invariant Remaining(sc, CompileAll(made, arts[k..], inputs) + rest) && SameTrees(made, files)
      {
        CompileSplits(made, arts, k, inputs, rest);
        :- CompileOne(arts[k], made, sc, CompileAll(made, arts[k + 1..], inputs) + rest);
      }
      assert CompileAll(made, arts[|arts|..], inputs) + rest == rest;
      r := Pass;
    }

    method CompileOne(a: Art, ghost made: Files, ghost sc: Script, ghost rest: seq<Op>) returns (r: Result)
      requires Remaining(sc, [Write(LivePath(a, inputs), Compile(made, a, inputs))] + rest) && SameTrees(made, files)
      modifies `files, `budget
      ensures if r.Pass? then Remaining(sc, rest) && SameTrees(made, files) else Stopped(sc, rest)
    {
      SameCompile(made, files, a, inputs);
      LiveOutside(made, files, inputs, a, Compile(files, a, inputs));
      r := Do(Write(LivePath(a, inputs), Compile(files, a, inputs)), sc, rest);
    }

    method Export(s: Stage, from: Place, ghost sc: Script, ghost rest: seq<Op>) returns (r: Result)
      requires Remaining(sc, Exported(s, from) + rest)
      modifies `files, `budget
      ensures if r.Pass? then Remaining(sc, rest) else Stopped(sc, rest)
    {
      if Exports(s) {
        r := CopyEach(In(from), In(OutputDir), Artifacts(s), sc, rest);
      } else {
        assert Exported(s, from) + rest == rest;
        r := Pass;
      }
    }

    /** Whether every named file is in the given place: a loop that stops at the first missing one. */
    method AllExist(place: Place, arts: seq<Art>) returns (all: bool)
      ensures all <==> forall a <- arts :: At(place, a) in files
    {
      all := true;
      for k := 0 to |arts|
        invariant all <==> forall a <- arts[..k] :: At(place, a) in files
      {
        if At(place, arts[k]) !in files {
          all := false;
          assert arts[k] in arts;
          break;
        }
      }
      assert all ==> arts[..|arts|] == arts;
    }

    method Restore(s: Stage, ghost sc: Script) returns (r: Result)
      requires Remaining(sc, RestoreOps(s, inputs))
      modifies `files, `budget, `report
      ensures if r.Pass? then Remaining(sc, []) else Stopped(sc, [])
      ensures r.Pass? ==> report == SaysSkipped
    {
      ghost var done := [Write(DoneFile(s), Flag)];
      assert RestoreOps(s, inputs) == CopyAll(In(Cache), LiveFor(inputs), Artifacts(s)) + (Exported(s, Cache) + done);
      :- CopyEach(In(Cache), LiveFor(inputs), Artifacts(s), sc, Exported(s, Cache) + done);
      :- Export(s, Cache, sc, done);
      report := SaysSkipped;
      assert done + [] == done;
      r := Do(Write(DoneFile(s), Flag), sc, []);
    }

    /** Writing a hash file and then its done flag. */
    method WriteFlags(hashFile: Path, doneFile: Path, hash: Hash, ghost sc: Script, ghost rest: seq<Op>)
      returns (r: Result)
      requires Remaining(sc, FlagOps(hashFile, doneFile, hash) + rest)
      modifies `files, `budget
      ensures if r.Pass? then Remaining(sc, rest) else Stopped(sc, rest)
    {
      ghost var done := [Write(doneFile, Flag)];
      assert FlagOps(hashFile, doneFile, hash) + rest == [Write(hashFile, Digest(hash))] + (done + rest);
      :- Do(Write(hashFile, Digest(hash)), sc, done + rest);
      r := Do(Write(doneFile, Flag), sc, rest);
    }

    method BuildAndCache(s: Stage, ghost made: Files, ghost sc: Script, ghost rest: seq<Op>) returns (r: Result)
      requires Remaining(sc, BuildOps(made, s, inputs) + rest) && SameTrees(made, files)
      modifies `files, `budget
      ensures if r.Pass? then Remaining(sc, rest) else Stopped(sc, rest)
    {
      var arts, from := Artifacts(s), if s == CompileKernelModule then Workspace else Cache;
      ghost var compiled, sent := CompileAll(made, arts, inputs), Exported(s, from);
      ghost var cached := CopyAll(LiveFor(inputs), In(Cache), arts);
      Assoc4(compiled, cached, sent, rest);
      :- CompileEach(arts, made, sc, cached + (sent + rest));
      :- CopyEach(LiveFor(inputs), In(Cache), arts, sc, sent + rest);
      r := Export(s, from, sc, rest);
    }

    method ClearStageFlags(s: Stage, ghost sc: Script, ghost rest: seq<Op>) returns (r: Result)
      requires Remaining(sc, ClearOps(s) + rest)
      modifies `files, `budget
      ensures if r.Pass? then Remaining(sc, rest) && files == old(files) - {DoneFile(s)} - {HashFile(s)}
              else Stopped(sc, rest)
    {
      ghost var second := [Remove(HashFile(s))] + rest;
      assert ClearOps(s) + rest == [Remove(DoneFile(s))] + second;
      :- Do(Remove(DoneFile(s)), sc, second);
      r := Do(Remove(HashFile(s)), sc, rest);
    }

    /** Configuring the kernel, or fetching and configuring the headers; `fs` has the trees as they were. */
    method PrepareTrees(s: Stage, ghost fs: Files, ghost sc: Script, ghost rest: seq<Op>) returns (r: Result)
      requires Remaining(sc, Prepare(fs, inputs, s) + rest) && SameTrees(fs, files)
      modifies `files, `budget
      ensures if r.Pass? then Remaining(sc, rest) && SameTrees(Exec(fs, Prepare(fs, inputs, s)), files)
              else Stopped(sc, rest)
    {
      if s == CompileKernel {
        r := Do(Write(KernelConfig(inputs.linuxVer), Configured(true)), sc, rest);
        OneOp(fs, Prepare(fs, inputs, s));
      } else if s == CompileKernelModule {
        r := PrepareHeaders(fs, sc, rest);
      } else {
        assert Prepare(fs, inputs, s) + rest == rest;
        r := Pass;
      }
    }

    method PrepareHeaders(ghost fs: Files, ghost sc: Script, ghost rest: seq<Op>) returns (r: Result)
      requires Remaining(sc, Prepare(fs, inputs, CompileKernelModule) + rest) && SameTrees(fs, files)
      modifies `files, `budget
      ensures if r.Pass? then
                Remaining(sc, rest) && SameTrees(Exec(fs, Prepare(fs, inputs, CompileKernelModule)), files)
              else Stopped(sc, rest)
    {
      var tree, config := SourceTree(Linux, inputs.headers), KernelConfig(inputs.headers);
      var fetch := Write(tree, Unpacked(Linux, inputs.headers, inputs.headersTar));
      var configure := Write(config, Configured(false));
      ghost var first := if tree in fs then [] else [fetch];
      ghost var second := if config in fs then [] else [configure];
      assert InTree(tree) && InTree(config) && Same(fs, files, tree) && Same(fs, files, config);
      ExecAppend(fs, first, second);
      assert Prepare(fs, inputs, CompileKernelModule) == first + second;
      assert first + second + rest == first + (second + rest);
      :- DoIfAbsent(fetch, fs, first, sc, second + rest);
      r := DoIfAbsent(configure, Exec(fs, first), second, sc, rest);
    }

    /** A write to a tree where there is nothing yet. */
    method DoIfAbsent(op: Op, ghost fs: Files, ghost ops: seq<Op>, ghost sc: Script, ghost rest: seq<Op>)
      returns (r: Result)
      requires op.Write? && InTree(op.path) && SameTrees(fs, files)
      requires ops == (if op.path in fs then [] else [op]) && Remaining(sc, ops + rest)
      modifies `files, `budget
      ensures if r.Pass? then Remaining(sc, rest) && SameTrees(Exec(fs, ops), files) else Stopped(sc, rest)
    {
      OneOp(fs, ops);
      if op.path !in files {
        r := Do(op, sc, rest);
      } else {
        assert ops + rest == rest;
        r := Pass;
      }
    }

    /** Whether the trees a compilation needs are there: a loop over the directories its commands start in. */
    method TreesMissing(s: Stage) returns (missing: bool)
      ensures missing == NoTree(files, inputs, s)
    {
      missing := false;
      var needs := Needs(s, inputs);
      for k := 0 to |needs|
        invariant missing <==> exists p <- needs[..k] :: p !in files
      {
        if needs[k] !in files {
          missing := true;
          assert needs[k] in needs;
          break;
        }
      }
      assert !missing ==> needs[..|needs|] == needs;
    }

    method Rebuild(s: Stage, ghost sc: Script) returns (r: Result)
      requires !NoTree(files, inputs, s) && Remaining(sc, RebuildOps(files, s, inputs))
      modifies `files, `budget, `report
      ensures if r.Pass? then Remaining(sc, []) else Stopped(sc, [])
      ensures r.Pass? ==> report == if s == CompileSDK then SaysSuccess else old(report)
    {
      ghost var fs, prepare := files, Prepare(files, inputs, s);
      ghost var made := Exec(fs, prepare);
      ghost var build, flags := BuildOps(made, s, inputs), FlagOps(HashFile(s), DoneFile(s), Key(s, inputs));
      Assoc4(ClearOps(s), prepare, build, flags);
      :- ClearStageFlags(s, sc, prepare + (build + flags));
      :- PrepareTrees(s, fs, sc, build + flags);
      r := Produce(s, made, sc);
      if r.Pass? && s == CompileSDK {
        report := SaysSuccess;
      }
    }

    /** Building over prepared trees, and setting the flags. */
    method Produce(s: Stage, ghost made: Files, ghost sc: Script) returns (r: Result)
      requires SameTrees(made, files)
      requires Remaining(sc, BuildOps(made, s, inputs) + FlagOps(HashFile(s), DoneFile(s), Key(s, inputs)))
      modifies `files, `budget
      ensures if r.Pass? then Remaining(sc, []) else Stopped(sc, [])
    {
      ghost var flags := FlagOps(HashFile(s), DoneFile(s), Key(s, inputs));
      :- BuildAndCache(s, made, sc, flags);
      assert flags + [] == flags;
      r := WriteFlags(HashFile(s), DoneFile(s), Key(s, inputs), sc, []);
    }

    /** Making the directories on the way to a restored kernel. */
    method Plant(s: Stage, ghost sc: Script, ghost rest: seq<Op>) returns (r: Result)
      requires Remaining(sc, Planted(files, inputs, s) + rest)
      modifies `files, `budget
      ensures if r.Pass? then Remaining(sc, rest) else Stopped(sc, rest)
    {
      var tree := SourceTree(Linux, inputs.linuxVer);
      if s == CompileKernel && tree !in files {
        r := Do(Write(tree, Torn), sc, rest);
      } else {
        assert Planted(files, inputs, s) + rest == rest;
        r := Pass;
      }
    }

    /** `run` of the six compile stages. */
    method RunCompile(s: Stage) returns (r: Result)
      modifies `files, `budget, `report
      ensures var plan := CompilePlan(old(files), inputs, s);
              && files == Crash(old(files), plan.ops, Cut(old(budget), tears))
              && (r.Pass? <==> |plan.ops| <= old(budget) && !plan.raises)
              && (r.Pass? && old(report) == Silent ==> report == plan.report)
      ensures r.Pass? && Compiles(s) && inputs.WellFormed() ==> CompileDone(old(files), files, inputs, s)
    {
      ghost var fs, cut := files, Cut(budget, tears);
      r := CompileOrRestore(s);
      if Compiles(s) && inputs.WellFormed() {
        CompileEffect(fs, inputs, s, cut);
      }
    }

    /** The two branches of such a `run`. */
    method CompileOrRestore(s: Stage) returns (r: Result)
      modifies `files, `budget, `report
      ensures var plan := CompilePlan(old(files), inputs, s);
              && files == Crash(old(files), plan.ops, Cut(old(budget), tears))
              && (r.Pass? <==> |plan.ops| <= old(budget) && !plan.raises)
              && (r.Pass? && old(report) == Silent ==> report == plan.report)
    {
      ghost var sc := Script(files, budget, CompilePlan(files, inputs, s).ops);
      var savedHash := ReadHash(files, HashFile(s));
      var cachedExist := AllExist(Cache, Artifacts(s));
      if savedHash == Key(s, inputs) && DoneFile(s) in files && cachedExist {
        if s == CompileBusybox && SourceTree(Busybox, inputs.busyboxVer) !in files {
          return Fail;
        }
        :- Plant(s, sc, RestoreOps(s, inputs));
        r := Restore(s, sc);
      } else {
        var missing := TreesMissing(s);
        if missing {
          assert ClearOps(s) + [] == ClearOps(s);
          :- ClearStageFlags(s, sc, []);
          return Fail;
        }
        r := Rebuild(s, sc);
      }
    }

    /** `ExtractTarballsStage.run`: a tree that is there is kept. */
    method RunExtractTarballs() returns (r: Result)
      modifies `files, `budget
      ensures var plan := ExtractPlan(old(files), inputs);
              && files == Crash(old(files), plan.ops, Cut(old(budget), tears))
              && (r.Pass? <==> |plan.ops| <= old(budget))
    {
      ghost var sc := Script(files, budget, ExtractPlan(files, inputs).ops);
      var done := Write(DoneFile(ExtractTarballs), Flag);
      TreesDistinct(inputs);
      :- ExtractEach(Trees(inputs), sc, [done]);
      assert [done] == [done] + [];
      r := Do(done, sc, []);
    }

    method ExtractEach(trees: seq<Path>, ghost sc: Script, ghost rest: seq<Op>) returns (r: Result)
      requires forall k, m :: 0 <= k < m < |trees| ==> trees[k] != trees[m]
      requires Remaining(sc, Unpacks(files, inputs, trees) + rest)
      modifies `files, `budget
      ensures if r.Pass? then Remaining(sc, rest) else Stopped(sc, rest)
    {
      ghost var fs := files;
      for k := 0 to |trees|
        invariant Remaining(sc, Unpacks(fs, inputs, trees[k..]) + rest)
        invariant forall m :: k <= m < |trees| ==> Same(fs, files, trees[m])
      {
        UnpackSplits(fs, inputs, trees, k, rest);
        ghost var before := files;
        :- Extract(trees[k], fs, sc, Unpacks(fs, inputs, trees[k + 1..]) + rest);
        assert forall m :: k + 1 <= m < |trees| ==> trees[m] != trees[k] && Same(before, files, trees[m]);
      }
      assert Unpacks(fs, inputs, trees[|trees|..]) + rest == rest;
      r := Pass;
    }

    /** Unpacking one tarball, unless its directory exists. */
    method Extract(tree: Path, ghost fs: Files, ghost sc: Script, ghost rest: seq<Op>) returns (r: Result)
      requires Same(fs, files, tree)
      requires Remaining(sc, (if tree in fs then [] else [Write(tree, Get(Pristine(inputs), tree))]) + rest)
      modifies `files, `budget
      ensures if r.Pass? then Remaining(sc, rest) && forall p :: p != tree ==> Same(old(files), files, p)
              else Stopped(sc, rest)
    {
      if tree !in files {
        r := Do(Write(tree, Get(Pristine(inputs), tree)), sc, rest);
      } else {
        assert [] + rest == rest;
        r := Pass;
      }
    }

    // The whole-image stages

    /** The present ones among the named files, in order. */
    method Existing(place: Place, arts: seq<Art>) returns (found: seq<Art>)
      ensures found == Present(files, place, arts)
    {
      found := [];
      for k := 0 to |arts|
        invariant Present(files, place, arts) == found + Present(files, place, arts[k..])
      {
        PresentStep(files, place, arts, k, found);
        if At(place, arts[k]) in files {
          found := found + [arts[k]];
        }
      }
    }

    /** `CheckEarlyExitStage.run`. */
    method RunCheckEarlyExit() returns (r: Result)
      modifies `files, `budget, `report, `skipRemaining
      ensures var plan := EarlyExitPlan(old(files), inputs, repackageOnly);
              && files == Crash(old(files), plan.ops, Cut(old(budget), tears))
              && (r.Pass? <==> |plan.ops| <= old(budget))
              && (r.Pass? ==> report == plan.report)
              && skipRemaining == (old(skipRemaining) || (plan.skip && |plan.ops| <= old(budget) + 1))
      ensures r.Pass? && ExitRestoring(old(files), inputs, repackageOnly) ==>
                ExitRestored(old(files), files, inputs)
    {
      ExitEffect(files, inputs, repackageOnly, Cut(budget, tears));
      ghost var sc := Script(files, budget, EarlyExitPlan(files, inputs, repackageOnly).ops);
      var done := Write(DoneFile(CheckEarlyExit), Flag);
      assert [done] + [] == [done];
      var savedHash := ReadHash(files, MasterHash);
      if !repackageOnly && savedHash == inputs.Master() && MasterDone in files {
        if At(OutputDir, OsImage) in files {
          skipRemaining, report := true, SaysSuccess;
          r := Do(done, sc, []);
          return;
        } else if At(Cache, OsImage) in files {
          :- RestoreWorkspace(sc, [done]);
          skipRemaining, report := true, SaysSuccess;
          r := Do(done, sc, []);
          return;
        }
      }
      report := SaysSuccess;
      r := Do(done, sc, []);
    }

    method RestoreWorkspace(ghost sc: Script, ghost rest: seq<Op>) returns (r: Result)
      requires Remaining(sc, ExitRestoreOps(files, inputs) + rest)
      modifies `files, `budget
      ensures if r.Pass? then Remaining(sc, rest) else Stopped(sc, rest)
    {
      var image := Install(At(Cache, OsImage), At(OutputDir, OsImage));
      var binaries := Existing(Cache, EXIT_OUTPUT);
      var sources := Existing(Cache, EXIT_WORKSPACE);
      ghost var sent, back := CopyAll(In(Cache), In(OutputDir), binaries), CopyAll(In(Cache), LiveFor(inputs), sources);
      Assoc4([image], sent, back, rest);
      :- Do(image, sc, sent + (back + rest));
      :- CopyEach(In(Cache), In(OutputDir), binaries, sc, back + rest);
      r := CopyEach(In(Cache), LiveFor(inputs), sources, sc, rest);
    }

    /** The restore test that `CleanOutputStage.run` and `ShipImageStage.run` both make. */
    method ShipIsCached() returns (cached: bool, shipped: seq<Art>)
      ensures cached == ShipCached(files, inputs, repackageOnly)
      ensures shipped == Present(files, Workspace, SHIPPED)
    {
      var savedHash := ReadHash(files, HashFile(ShipImage));
      shipped := Existing(Workspace, SHIPPED);
      var all := AllExist(Cache, [OsImage] + shipped);
      cached := !repackageOnly && savedHash == inputs.Master() && DoneFile(ShipImage) in files && all;
    }

    /** `CleanOutputStage.run`; entries whose deletion fails are warned about and left. */
    method RunCleanOutput(l: Scene) returns (r: Result)
      modifies `files, `budget, `report
      ensures var plan := CleanPlan(old(files), inputs, repackageOnly, l);
              && files == Crash(old(files), plan.ops, Cut(old(budget), tears))
              && (r.Pass? <==> |plan.ops| <= old(budget))
              && (r.Pass? ==> report == plan.report)
    {
      ghost var sc := Script(files, budget, CleanPlan(files, inputs, repackageOnly, l).ops);
      var cached, _ := ShipIsCached();
      if cached {
        report := SaysSkipped;
        return Pass;
      }
      for k := 0 to |l.order|
        invariant Remaining(sc, WipeOps(l.order[k..], l.stuck))
      {
        assert l.order[k..][1..] == l.order[k + 1..];
        if l.order[k] !in l.stuck {
          var op := Remove(At(OutputDir, l.order[k]));
          assert WipeOps(l.order[k..], l.stuck) == [op] + WipeOps(l.order[k + 1..], l.stuck);
          :- Do(op, sc, WipeOps(l.order[k + 1..], l.stuck));
        } else {
          assert WipeOps(l.order[k..], l.stuck) == WipeOps(l.order[k + 1..], l.stuck);
        }
      }
      report := SaysSuccess;
      r := Pass;
    }

    method ShipBinaries(arts: seq<Art>, ghost sc: Script, ghost rest: seq<Op>) returns (r: Result)
      requires Remaining(sc, ShipEach(arts) + rest)
      modifies `files, `budget
      ensures if r.Pass? then Remaining(sc, rest) else Stopped(sc, rest)
    {
      for k := 0 to |arts|
        invariant Remaining(sc, ShipEach(arts[k..]) + rest)
      {
        var first := Copy(At(Workspace, arts[k]), At(OutputDir, arts[k]));
        var second := Install(At(Workspace, arts[k]), At(Cache, arts[k]));
        ghost var tail := ShipEach(arts[k + 1..]) + rest;
        assert arts[k..][1..] == arts[k + 1..];
        assert ShipEach(arts[k..]) + rest == [first] + ([second] + tail);
        :- Do(first, sc, [second] + tail);
        :- Do(second, sc, tail);
      }
      assert ShipEach(arts[|arts|..]) + rest == rest;
      r := Pass;
    }

    method ClearShipFlags(ghost sc: Script, ghost rest: seq<Op>) returns (r: Result)
      requires Remaining(sc, CLEAR_SHIP + rest)
      modifies `files, `budget
      ensures if r.Pass? then Remaining(sc, rest) else Stopped(sc, rest)
    {
      ghost var last := [Remove(MasterDone)] + rest;
      assert CLEAR_SHIP + rest
             == [Remove(HashFile(ShipImage))] + ([Remove(DoneFile(ShipImage))] + ([Remove(MasterHash)] + last));
      :- Do(Remove(HashFile(ShipImage)), sc, [Remove(DoneFile(ShipImage))] + ([Remove(MasterHash)] + last));
      :- Do(Remove(DoneFile(ShipImage)), sc, [Remove(MasterHash)] + last);
      :- Do(Remove(MasterHash), sc, last);
      r := Do(Remove(MasterDone), sc, rest);
    }

    method Seal(ghost sc: Script) returns (r: Result)
      requires Remaining(sc, SealOps(inputs))
      modifies `files, `budget
      ensures if r.Pass? then Remaining(sc, []) else Stopped(sc, [])
    {
      ghost var master := FlagOps(MasterHash, MasterDone, inputs.Master());
      ghost var ship := FlagOps(HashFile(ShipImage), DoneFile(ShipImage), inputs.Master());
      var json := Write(HashesJson, Snapshot(inputs));
      assert SealOps(inputs) == master + ([json] + (master + ship));
      :- WriteFlags(MasterHash, MasterDone, inputs.Master(), sc, [json] + (master + ship));
      :- Do(json, sc, master + ship);
      :- WriteFlags(MasterHash, MasterDone, inputs.Master(), sc, ship);
      assert ship + [] == ship;
      r := WriteFlags(HashFile(ShipImage), DoneFile(ShipImage), inputs.Master(), sc, []);
    }

    /** `ShipImageStage.run`. */
    method RunShipImage() returns (r: Result)
      modifies `files, `budget, `report
      ensures var plan := ShipPlan(old(files), inputs, repackageOnly);
              && files == Crash(old(files), plan.ops, Cut(old(budget), tears))
              && (r.Pass? <==> |plan.ops| <= old(budget) && !plan.raises)
              && (r.Pass? && old(report) == Silent ==> report == plan.report)
    {
      ghost var sc := Script(files, budget, ShipPlan(files, inputs, repackageOnly).ops);
      var cached, shipped := ShipIsCached();
      if cached {
        :- RestoreShipped(shipped, sc);
        report := SaysSkipped;
        return Pass;
      }
      var staged := At(WorkDir, OsImage) in files;
      ghost var rest := SHIP_IMAGE + (ShipEach(shipped) + SealOps(inputs));
      Assoc4(CLEAR_SHIP, SHIP_IMAGE, ShipEach(shipped), SealOps(inputs));
      assert CLEAR_SHIP + [] == CLEAR_SHIP;
      :- ClearShipFlags(sc, if staged then rest else []);
      if !staged {
        return Fail;
      }
      r := Ship(shipped, sc);
    }

    method Ship(shipped: seq<Art>, ghost sc: Script) returns (r: Result)
      requires Remaining(sc, SHIP_IMAGE + (ShipEach(shipped) + SealOps(inputs)))
      modifies `files, `budget
      ensures if r.Pass? then Remaining(sc, []) else Stopped(sc, [])
    {
      ghost var rest := ShipEach(shipped) + SealOps(inputs);
      assert SHIP_IMAGE + rest == [SHIP_IMAGE[0]] + ([SHIP_IMAGE[1]] + rest);
      :- Do(Copy(At(WorkDir, OsImage), At(OutputDir, OsImage)), sc, [SHIP_IMAGE[1]] + rest);
      :- Do(Copy(At(OutputDir, OsImage), At(Cache, OsImage)), sc, rest);
      :- ShipBinaries(shipped, sc, SealOps(inputs));
      r := Seal(sc);
    }

    method RestoreShipped(shipped: seq<Art>, ghost sc: Script) returns (r: Result)
      requires shipped == Present(files, Workspace, SHIPPED) && Remaining(sc, ShipRestoreOps(files))
      modifies `files, `budget
      ensures if r.Pass? then Remaining(sc, []) else Stopped(sc, [])
    {
      var image := Copy(At(Cache, OsImage), At(OutputDir, OsImage));
      ghost var sent := CopyAll(In(Cache), In(OutputDir), shipped);
      assert ShipRestoreOps(files) == [image] + sent && sent == sent + [];
      :- Do(image, sc, sent);
      r := CopyEach(In(Cache), In(OutputDir), shipped, sc, []);
    }

    /** The target loop of `AssembleRootfsStage.run`, over the live files of `fs`. */
    method CopyTargets(targets: seq<Target>, failed: set<Stage>, absent: set<string>, ghost fs: Files, ghost sc: Script)
      returns (r: Result)
      requires Remaining(sc, GatherOps(fs, inputs, targets, [], failed, absent))
      requires forall a :: Same(fs, files, LivePath(a, inputs))
      modifies `files, `budget
      ensures r.Pass? ==> Remaining(sc, []) && forall t <- targets :: !Missing(fs, inputs, t, failed, absent)
      ensures r.Fail? ==>
        Stopped(sc, []) || (Remaining(sc, []) && exists t <- targets :: Missing(fs, inputs, t, failed, absent))
    {
      var got: seq<Blob> := [];
      for k := 0 to |targets|
        invariant Remaining(sc, GatherOps(fs, inputs, targets[k..], got, failed, absent))
        invariant forall t <- targets[..k] :: !Missing(fs, inputs, t, failed, absent)
        invariant forall a :: Same(fs, files, LivePath(a, inputs))
      {
        var t := targets[k];
        GatherStep(fs, inputs, targets, k, got, failed, absent);
        assert t in targets;
        assert t.Bin? ==> Same(fs, files, LivePath(t.art, inputs));
        if t.Bin? && LivePath(t.art, inputs) !in files {
          var stageFailed := Excusable(t.art) && Owner(t.art) in failed;
          if stageFailed {
            continue;
          }
          return Fail;
        }
        if t.Src? && t.text in absent {
          return Fail;
        }
        var part := match t
          case Bin(a) => Get(files, LivePath(a, inputs))
          case Src(x) => Source(x)
          case Own(x) => Source(x);
        ghost var rest := GatherOps(fs, inputs, targets[k + 1..], got + [part], failed, absent);
        got := got + [part];
        :- Do(Write(RootfsTree, RootTree(got)), sc, rest);
      }
      assert targets[..|targets|] == targets;
      r := Pass;
    }

    /** `AssembleRootfsStage.run`; `failed` are the stages that failed with leave to fail, `absent`
        the digests of source directories without the file that is copied from them. */
    method RunAssembleRootfs(failed: set<Stage>, absent: set<string>) returns (r: Result)
      modifies `files, `budget
      ensures var plan := RootfsPlan(old(files), inputs, failed, absent);
              && files == Crash(old(files), plan.ops, Cut(old(budget), tears))
              && (r.Pass? <==> |plan.ops| <= old(budget) && !plan.raises)
      ensures r.Pass? ==> Holds(files, RootfsTree, RootTree(RootfsOf(old(files), inputs))) && RootfsOverlay !in files
    {
      ghost var fs, cut := files, Cut(budget, tears);
      r := Assemble(failed, absent);
      RootfsEffect(fs, inputs, failed, absent, cut);
    }

    /** Wiping what there is, and gathering the targets. */
    method Assemble(failed: set<Stage>, absent: set<string>) returns (r: Result)
      modifies `files, `budget
      ensures var plan := RootfsPlan(old(files), inputs, failed, absent);
              && files == Crash(old(files), plan.ops, Cut(old(budget), tears))
              && (r.Pass? <==> |plan.ops| <= old(budget) && !plan.raises)
    {
      ghost var fs, sc := files, Script(files, budget, RootfsPlan(files, inputs, failed, absent).ops);
      ghost var gather := GatherOps(fs, inputs, RootfsTargets(inputs), [], failed, absent);
      ghost var wiped := [Write(RootfsTree, RootTree([]))] + gather;
      assert sc.ops == [Remove(RootfsOverlay)] + wiped;
      :- Do(Remove(RootfsOverlay), sc, wiped);
      :- Do(Write(RootfsTree, RootTree([])), sc, gather);
      r := CopyTargets(RootfsTargets(inputs), failed, absent, fs, sc);
    }
  }
}
