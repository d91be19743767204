/** The whole-image level: `CheckEarlyExit`, the packaging stages, `CleanOutput` and `ShipImage`. */
module ShipStages {
  import opened Store
  import opened Cache
  import opened RunLoop
  import opened CompileStages

  function Present(fs: Files, place: Place, arts: seq<Art>): (r: seq<Art>)
    ensures forall a :: a in r <==> a in arts && At(place, a) in fs
  {
    if arts == [] then []
    else (if At(place, arts[0]) in fs then [arts[0]] else []) + Present(fs, place, arts[1..])
  }

  // CheckEarlyExit

  const EXIT_OUTPUT := [LibPronze, Pronzed, TestAlloc, TestBounds, TestZig, TestRust, PronzeKo]
  const EXIT_WORKSPACE := [LibPronze, PronzeKo, TestAlloc, TestBounds, TestZig, TestRust, Pronzed]

  predicate MasterHit(fs: Files, i: Inputs, repackage: bool) {
    !repackage && ReadHash(fs, MasterHash) == i.Master() && MasterDone in fs
  }

  function ExitRestoreOps(fs: Files, i: Inputs): seq<Op> {
    [Install(At(Cache, OsImage), At(OutputDir, OsImage))]
    + CopyAll(In(Cache), In(OutputDir), Present(fs, Cache, EXIT_OUTPUT))
    + CopyAll(In(Cache), LiveFor(i), Present(fs, Cache, EXIT_WORKSPACE))
  }

  function EarlyExitPlan(fs: Files, i: Inputs, repackage: bool): Plan {
    var done := [Write(DoneFile(CheckEarlyExit), Flag)];
    if MasterHit(fs, i, repackage) && At(OutputDir, OsImage) in fs then Plan(done, false, SaysSuccess, true)
    else if MasterHit(fs, i, repackage) && At(Cache, OsImage) in fs then
      Plan(ExitRestoreOps(fs, i) + done, false, SaysSuccess, true)
    else Plan(done, false, SaysSuccess, false)
  }

  // Packaging

  /** Targets that may be missing: those of a stage that failed with leave, save the two that
      `AssembleRootfs` reads as directories. */
  predicate Excusable(a: Art) {
    || a == Pronzed || a == LibPronze || a == TestAlloc || a == TestBounds || a == TestZig
    || a == TestRust || a == PronzeKo
  }

  predicate Excused(a: Art, failed: set<Stage>) {
    Excusable(a) && Owner(a) in failed
  }

  /** Whether the live file of a compiled target is there. */
  predicate LiveThere(fs: Files, i: Inputs, a: Art) {
    LivePath(a, i) in fs
  }

  /** A target whose absence raises: a compiled file that no allowed failure excuses, or a source
      directory without the file that is taken from it; `absent` has the digests of such directories. */
  predicate Missing(fs: Files, i: Inputs, t: Target, failed: set<Stage>, absent: set<string>) {
    match t
    case Bin(a) => !LiveThere(fs, i, a) && !Excused(a, failed)
    case Src(text) => text in absent
    case Own(_) => false
  }

  function LiveIn(fs: Files, i: Inputs): Live {
    a => Get(fs, LivePath(a, i))
  }

  /** The targets that are there; one that is not but is excused is passed over. */
  function There(fs: Files, i: Inputs, ts: seq<Target>): seq<Target> {
    if ts == [] then []
    else (if ts[0].Bin? && !LiveThere(fs, i, ts[0].art) then [] else [ts[0]]) + There(fs, i, ts[1..])
  }

  /** Growing the root file system target by target, up to the first one that is missing. */
  function GatherOps(fs: Files, i: Inputs, ts: seq<Target>, got: seq<Blob>, failed: set<Stage>,
                     absent: set<string>): seq<Op>
    decreases |ts|
  {
    if ts == [] || Missing(fs, i, ts[0], failed, absent) then []
    else if ts[0].Bin? && !LiveThere(fs, i, ts[0].art) then GatherOps(fs, i, ts[1..], got, failed, absent)
    else
      var parts := got + [Part(LiveIn(fs, i), ts[0])];
      [Write(RootfsTree, RootTree(parts))] + GatherOps(fs, i, ts[1..], parts, failed, absent)
  }

  function RootfsPlan(fs: Files, i: Inputs, failed: set<Stage>, absent: set<string>): Plan {
    Plan([Remove(RootfsOverlay), Write(RootfsTree, RootTree([]))]
         + GatherOps(fs, i, RootfsTargets(i), [], failed, absent),
         exists t <- RootfsTargets(i) :: Missing(fs, i, t, failed, absent), Silent, false)
  }

  function OverlayPlan(i: Inputs): Plan {
    Plan(if i.configDir == "" then [] else [Write(RootfsOverlay, Source(i.configDir))], false, Silent, false)
  }

  function BtrfsPlan(fs: Files): Plan {
    Plan([Write(RootfsImg, Btrfs(Get(fs, RootfsTree), Get(fs, RootfsOverlay)))], false, Silent, false)
  }

  function EspPlan(fs: Files, i: Inputs): Plan {
    var kernel := LivePath(BzImage, i);
    Plan([Write(EspImg, Esp(Gap))] + if kernel in fs then [Write(EspImg, Esp(fs[kernel]))] else [],
         kernel !in fs, Silent, false)
  }

  function GptPlan(fs: Files): Plan {
    if EspImg in fs && RootfsImg in fs then
      Plan([Write(At(WorkDir, OsImage), Disk(fs[EspImg], fs[RootfsImg]))], false, Silent, false)
    else Plan([Write(At(WorkDir, OsImage), Torn)], true, Silent, false)
  }

  // CleanOutput and ShipImage

  const SHIPPED := [LibPronze, Pronzed, TestAlloc, TestBounds, TestZig, TestRust, PronzeKo]

  /** `shipped_files`: the image and every binary the workspace has. */
  function ShippedFiles(fs: Files): seq<Art> {
    [OsImage] + Present(fs, Workspace, SHIPPED)
  }

  /** The restore test of `ShipImage`, which `CleanOutput` repeats. */
  predicate ShipCached(fs: Files, i: Inputs, repackage: bool) {
    && !repackage
    && ReadHash(fs, HashFile(ShipImage)) == i.Master()
    && DoneFile(ShipImage) in fs
    && forall a <- ShippedFiles(fs) :: At(Cache, a) in fs
  }

  /** What a run finds besides the files of the model: the order `os.listdir` gives, the entries
      whose deletion fails, and the digests of the source directories that lack the file the
      root file system takes from them. */
  datatype Scene = Scene(order: seq<Art>, stuck: set<Art>, absent: set<string>)

  function WipeOps(order: seq<Art>, stuck: set<Art>): seq<Op> {
    if order == [] then []
    else (if order[0] in stuck then [] else [Remove(At(OutputDir, order[0]))]) + WipeOps(order[1..], stuck)
  }

  function CleanPlan(fs: Files, i: Inputs, repackage: bool, l: Scene): Plan {
    if ShipCached(fs, i, repackage) then Plan([], false, SaysSkipped, false)
    else Plan(WipeOps(l.order, l.stuck), false, SaysSuccess, false)
  }

  const CLEAR_SHIP := [Remove(HashFile(ShipImage)), Remove(DoneFile(ShipImage)), Remove(MasterHash), Remove(MasterDone)]

  const SHIP_IMAGE := [Copy(At(WorkDir, OsImage), At(OutputDir, OsImage)),
                        Copy(At(OutputDir, OsImage), At(Cache, OsImage))]

  function ShipEach(arts: seq<Art>): seq<Op> {
    if arts == [] then []
    else [Copy(At(Workspace, arts[0]), At(OutputDir, arts[0])), Install(At(Workspace, arts[0]), At(Cache, arts[0]))]
         + ShipEach(arts[1..])
  }

  /** `write_stage_flags`. */
  function FlagOps(hashFile: Path, doneFile: Path, hash: Hash): seq<Op> {
    [Write(hashFile, Digest(hash)), Write(doneFile, Flag)]
  }

  function SealOps(i: Inputs): seq<Op> {
    FlagOps(MasterHash, MasterDone, i.Master()) + [Write(HashesJson, Snapshot(i))]
    + FlagOps(MasterHash, MasterDone, i.Master()) + FlagOps(HashFile(ShipImage), DoneFile(ShipImage), i.Master())
  }

  function ShipRestoreOps(fs: Files): seq<Op> {
    [Copy(At(Cache, OsImage), At(OutputDir, OsImage))]
    + CopyAll(In(Cache), In(OutputDir), Present(fs, Workspace, SHIPPED))
  }

  function ShipOps(fs: Files, i: Inputs): seq<Op> {
    CLEAR_SHIP + SHIP_IMAGE + ShipEach(Present(fs, Workspace, SHIPPED)) + SealOps(i)
  }

  function ShipPlan(fs: Files, i: Inputs, repackage: bool): Plan {
    if ShipCached(fs, i, repackage) then Plan(ShipRestoreOps(fs), false, SaysSkipped, false)
    else if At(WorkDir, OsImage) !in fs then Plan(CLEAR_SHIP, true, Silent, false)
    else Plan(ShipOps(fs, i), false, Silent, false)
  }

  // Safety at every step

  lemma BinsCompiled(a: Art)
    requires a in SHIPPED || a in EXIT_OUTPUT || a in EXIT_WORKSPACE
    ensures Compiles(Owner(a)) && a != OsImage && !a.Foreign? && !Versioned(a)
  {
  }

  /** Putting the cached image into the output directory keeps the promises of valid master flags. */
  lemma ImageRestoreSafe(pins: Pins, fs: Files)
    requires Inv(pins, fs) && At(Cache, OsImage) in fs
    ensures SafeAlong(pins, fs, [Install(At(Cache, OsImage), At(OutputDir, OsImage))])
  {
    var op := Install(At(Cache, OsImage), At(OutputDir, OsImage));
    var gs := Apply(fs, op);
    OneStep(fs, op);
    StagesKeep(pins, fs, gs, op.path);
    TreesKeep(pins, fs, gs, op.path);
    assert [op][1..] == [];
  }

  lemma CopiesOutSafe(pins: Pins, fs: Files, from: Place, arts: seq<Art>)
    requires Inv(pins, fs) && OsImage !in arts
    ensures SafeAlong(pins, fs, CopyAll(In(from), In(OutputDir), arts))
  {
    forall op | op in CopyAll(In(from), In(OutputDir), arts) ensures Neutral(op.path) {
      CopyAllTouches(In(from), In(OutputDir), arts, op);
    }
    NeutralSafe(pins, fs, CopyAll(In(from), In(OutputDir), arts));
  }

  lemma CachedStay(fs: Files, ops: seq<Op>, arts: seq<Art>)
    requires forall op <- ops :: !(op.path.At? && op.path.place == Cache)
    requires forall a <- arts :: At(Cache, a) in fs
    ensures forall a <- arts :: At(Cache, a) in Exec(fs, ops)
  {
    forall a | a in arts ensures At(Cache, a) in Exec(fs, ops) {
      ExecFrame(fs, ops, At(Cache, a));
    }
  }

  lemma ExitRestoreSafe(pins: Pins, fs: Files, i: Inputs)
    requires Inv(pins, fs) && At(Cache, OsImage) in fs
    ensures SafeAlong(pins, fs, ExitRestoreOps(fs, i))
  {
    var image := [Install(At(Cache, OsImage), At(OutputDir, OsImage))];
    var sent, bins := Present(fs, Cache, EXIT_OUTPUT), Present(fs, Cache, EXIT_WORKSPACE);
    var out := CopyAll(In(Cache), In(OutputDir), sent);
    ImageRestoreSafe(pins, fs);
    SafeAtCrash(pins, fs, image, Cut(0, false));
    CopiesOutSafe(pins, Exec(fs, image), Cache, sent);
    SafeAppend(pins, fs, image, out);
    SafeAtCrash(pins, fs, image + out, Cut(0, false));
    forall op: Op | op in image + out ensures !(op.path.At? && op.path.place == Cache) {
      if op in out {
        CopyAllTouches(In(Cache), In(OutputDir), sent, op);
      }
    }
    CachedStay(fs, image + out, bins);
    forall a | a in bins ensures Compiles(Owner(a)) {
      BinsCompiled(a);
    }
    CopyBackSafe(pins, Exec(fs, image + out), i, bins);
    SafeAppend(pins, fs, image + out, CopyAll(In(Cache), LiveFor(i), bins));
  }

  lemma EarlyExitSafe(pins: Pins, fs: Files, i: Inputs, repackage: bool)
    requires Inv(pins, fs)
    ensures SafeAlong(pins, fs, EarlyExitPlan(fs, i, repackage).ops)
  {
    var done := [Write(DoneFile(CheckEarlyExit), Flag)];
    NeutralSafe(pins, fs, done);
    if MasterHit(fs, i, repackage) && At(OutputDir, OsImage) !in fs && At(Cache, OsImage) in fs {
      ExitRestoreSafe(pins, fs, i);
      SafeAtCrash(pins, fs, ExitRestoreOps(fs, i), Cut(0, false));
      NeutralSafe(pins, Exec(fs, ExitRestoreOps(fs, i)), done);
      SafeAppend(pins, fs, ExitRestoreOps(fs, i), done);
    }
  }

  lemma {:induction false} GatherTouches(fs: Files, i: Inputs, ts: seq<Target>, got: seq<Blob>, failed: set<Stage>,
                                         absent: set<string>, op: Op)
    requires op in GatherOps(fs, i, ts, got, failed, absent)
    ensures op.path == RootfsTree
    decreases |ts|
  {
    var parts := got + [Part(LiveIn(fs, i), ts[0])];
    if ts[0].Bin? && !LiveThere(fs, i, ts[0].art) {
      GatherTouches(fs, i, ts[1..], got, failed, absent, op);
    } else if op in GatherOps(fs, i, ts[1..], parts, failed, absent) {
      GatherTouches(fs, i, ts[1..], parts, failed, absent, op);
    }
  }

  lemma RootfsSafe(pins: Pins, fs: Files, i: Inputs, failed: set<Stage>, absent: set<string>)
    requires Inv(pins, fs)
    ensures SafeAlong(pins, fs, RootfsPlan(fs, i, failed, absent).ops)
  {
    var gather := GatherOps(fs, i, RootfsTargets(i), [], failed, absent);
    forall op | op in gather ensures op.path == RootfsTree {
      GatherTouches(fs, i, RootfsTargets(i), [], failed, absent, op);
    }
    var start := [Remove(RootfsOverlay), Write(RootfsTree, RootTree([]))];
    assert forall op <- start :: Neutral(op.path);
    NeutralSafe(pins, fs, start + gather);
  }

  lemma PackagingSafe(pins: Pins, fs: Files, i: Inputs)
    requires Inv(pins, fs)
    ensures SafeAlong(pins, fs, OverlayPlan(i).ops) && SafeAlong(pins, fs, BtrfsPlan(fs).ops)
    ensures SafeAlong(pins, fs, EspPlan(fs, i).ops) && SafeAlong(pins, fs, GptPlan(fs).ops)
  {
    NeutralSafe(pins, fs, OverlayPlan(i).ops);
    NeutralSafe(pins, fs, BtrfsPlan(fs).ops);
    NeutralSafe(pins, fs, EspPlan(fs, i).ops);
    NeutralSafe(pins, fs, GptPlan(fs).ops);
  }

  lemma {:induction false} WipeSafe(pins: Pins, fs: Files, order: seq<Art>, stuck: set<Art>)
    requires Inv(pins, fs)
    ensures SafeAlong(pins, fs, WipeOps(order, stuck))
    decreases |order|
  {
    if order != [] {
      if order[0] in stuck {
        assert WipeOps(order, stuck) == WipeOps(order[1..], stuck);
        WipeSafe(pins, fs, order[1..], stuck);
      } else {
        RemovalKeeps(pins, fs, At(OutputDir, order[0]));
        WipeSafe(pins, fs - {At(OutputDir, order[0])}, order[1..], stuck);
        assert WipeOps(order, stuck)[1..] == WipeOps(order[1..], stuck);
      }
    }
  }

  /** Neither level of whole-image flags is in force. */
  predicate Unsealed(fs: Files) {
    MasterHash !in fs && HashFile(ShipImage) !in fs
  }

  lemma UnsealedKeeps(pins: Pins, fs: Files, gs: Files, p: Path)
    requires Inv(pins, fs) && Unsealed(fs) && OnlyAt(fs, gs, p) && p.At? && p.art == OsImage
    ensures Inv(pins, gs) && Unsealed(gs)
  {
    assert Same(fs, gs, MasterHash) && Same(fs, gs, HashFile(ShipImage));
    StagesKeep(pins, fs, gs, p);
    TreesKeep(pins, fs, gs, p);
  }

  /** Live files that may be cached: a torn one must not be. */
  predicate Whole(fs: Files, arts: seq<Art>) {
    forall a <- arts :: At(Workspace, a) in fs && fs[At(Workspace, a)] != Torn
  }

  lemma SoundCached(pins: Pins, fs: Files, a: Art, c: Art, k: Hash)
    requires Sound(pins, fs, c, k) && !Versioned(a) && At(Workspace, a) in fs && fs[At(Workspace, a)] != Torn
    ensures Sound(pins, fs[At(Cache, a) := fs[At(Workspace, a)]], c, k)
  {
    forall j | Admissible(pins, j) && Key(Owner(c), j) == k
      ensures SoundFor(fs[At(Cache, a) := fs[At(Workspace, a)]], c, j)
    {
      CachedFor(fs, a, c, j);
    }
  }

  lemma CachedFor(fs: Files, a: Art, c: Art, j: Inputs)
    requires SoundFor(fs, c, j) && !Versioned(a) && At(Workspace, a) in fs && fs[At(Workspace, a)] != Torn
    ensures SoundFor(fs[At(Cache, a) := fs[At(Workspace, a)]], c, j)
  {
    assert LivePath(c, j) != At(Cache, a);
  }

  lemma CachingLiveKeeps(pins: Pins, fs: Files, a: Art)
    requires Inv(pins, fs) && Compiles(Owner(a)) && !Versioned(a)
    requires At(Workspace, a) in fs && fs[At(Workspace, a)] != Torn
    ensures Inv(pins, fs[At(Cache, a) := fs[At(Workspace, a)]])
  {
    var gs, s := fs[At(Cache, a) := fs[At(Workspace, a)]], Owner(a);
    assert OnlyAt(fs, gs, At(Cache, a));
    forall t ensures StageInv(pins, gs, t) {
      if t == s {
        if Flagged(gs, s) {
          assert StageInv(pins, fs, s) && Flagged(fs, s);
          forall c | Owner(c) == s ensures Sound(pins, gs, c, gs[HashFile(s)].hash) {
            SoundCached(pins, fs, a, c, fs[HashFile(s)].hash);
          }
        }
      } else {
        StageKeeps(pins, fs, gs, t, At(Cache, a));
      }
    }
    MasterKeeps(pins, fs, gs, At(Cache, a));
    TreesKeep(pins, fs, gs, At(Cache, a));
  }

  lemma ShipPairSafe(pins: Pins, fs: Files, a: Art, first: Op, second: Op)
    requires Inv(pins, fs) && a in SHIPPED && At(Workspace, a) in fs && fs[At(Workspace, a)] != Torn
    requires first == Copy(At(Workspace, a), At(OutputDir, a)) && second == Install(At(Workspace, a), At(Cache, a))
    ensures var fs1 := Apply(fs, first);
            && Inv(pins, Tear(fs, first)) && Inv(pins, fs1) && Tear(fs1, second) == fs1
            && Inv(pins, Apply(fs1, second))
  {
    BinsCompiled(a);
    OneStep(fs, first);
    NeutralKeeps(pins, fs, Apply(fs, first), first.path);
    NeutralKeeps(pins, fs, Tear(fs, first), first.path);
    CachingLiveKeeps(pins, Apply(fs, first), a);
  }

  lemma {:induction false} ShipEachSafe(pins: Pins, fs: Files, arts: seq<Art>)
    requires Inv(pins, fs) && Whole(fs, arts) && forall a <- arts :: a in SHIPPED
    ensures SafeAlong(pins, fs, ShipEach(arts))
    decreases |arts|
  {
    if arts != [] {
      var a, rest := arts[0], ShipEach(arts[1..]);
      var first, second := Copy(At(Workspace, a), At(OutputDir, a)), Install(At(Workspace, a), At(Cache, a));
      ShipPairSafe(pins, fs, a, first, second);
      var fs1 := Apply(fs, first);
      ShipEachSafe(pins, Apply(fs1, second), arts[1..]);
      SafeStep(pins, fs1, second, rest);
      SafeStep(pins, fs, first, [second] + rest);
      assert ShipEach(arts) == [first] + ([second] + rest);
    }
  }

  lemma {:induction false} ShipEachTouches(arts: seq<Art>, op: Op)
    requires op in ShipEach(arts)
    ensures op.path.At? && op.path.place in {OutputDir, Cache} && op.path.art in arts
    decreases |arts|
  {
    if arts != [] && op in ShipEach(arts[1..]) {
      ShipEachTouches(arts[1..], op);
    }
  }

  ghost predicate Sealing(pins: Pins, fs: Files, i: Inputs) {
    Inv(pins, fs) && SealingFiles(fs, i)
  }

  predicate Seals(op: Op, i: Inputs) {
    || (op.Write? && op.path in {MasterHash, HashFile(ShipImage)} && op.blob == Digest(i.Master()))
    || (op.Write? && op.path in {MasterDone, DoneFile(ShipImage), HashesJson})
  }

  lemma ImagesCurrent(pins: Pins, fs: Files, i: Inputs)
    requires Admissible(pins, i)
    requires Holds(fs, At(Cache, OsImage), Image(i)) && Holds(fs, At(OutputDir, OsImage), Image(i))
    ensures CachedImage(pins, fs, i.Master()) && OutputImage(pins, fs, i.Master())
  {
    forall j: Inputs | Admissible(pins, j) && j.Master() == i.Master() ensures j == i {
      MasterInjective(pins, i, j);
    }
  }

  lemma SealKeeps(pins: Pins, fs: Files, gs: Files, i: Inputs, op: Op)
    requires Sealing(pins, fs, i) && Admissible(pins, i) && Seals(op, i)
    requires gs == Apply(fs, op) || gs == Tear(fs, op)
    ensures Sealing(pins, gs, i)
  {
    SealFlags(fs, gs, i, op);
    SealTrees(pins, fs, gs, op.path);
    SealingKept(fs, gs, i, op.path);
    SealedMaster(pins, gs, i);
  }

  /** Both images are right, and whole-image hash files hold the key or are torn. */
  ghost predicate SealingFiles(fs: Files, i: Inputs) {
    && Holds(fs, At(Cache, OsImage), Image(i)) && Holds(fs, At(OutputDir, OsImage), Image(i))
    && (MasterHash in fs ==> fs[MasterHash] in {Torn, Digest(i.Master())})
    && (HashFile(ShipImage) in fs ==> fs[HashFile(ShipImage)] in {Torn, Digest(i.Master())})
  }

  lemma SealingKept(fs: Files, gs: Files, i: Inputs, p: Path)
    requires SealingFiles(fs, i) && OnlyAt(fs, gs, p) && !p.At?
    requires p in {MasterHash, HashFile(ShipImage)} && p in gs ==> gs[p] in {Torn, Digest(i.Master())}
    ensures SealingFiles(gs, i)
  {
    assert Same(fs, gs, At(Cache, OsImage)) && Same(fs, gs, At(OutputDir, OsImage));
    assert p != MasterHash ==> Same(fs, gs, MasterHash);
    assert p != HashFile(ShipImage) ==> Same(fs, gs, HashFile(ShipImage));
  }

  lemma SealTrees(pins: Pins, fs: Files, gs: Files, p: Path)
    requires Inv(pins, fs) && OnlyAt(fs, gs, p)
    requires p in {MasterHash, HashFile(ShipImage), MasterDone, DoneFile(ShipImage), HashesJson}
    ensures (forall s :: StageInv(pins, gs, s)) && TreesInv(pins, gs)
  {
    StagesKeep(pins, fs, gs, p);
    TreesKeep(pins, fs, gs, p);
  }

  lemma SealedMaster(pins: Pins, fs: Files, i: Inputs)
    requires Admissible(pins, i) && SealingFiles(fs, i)
    ensures MasterInv(pins, fs)
  {
    ImagesCurrent(pins, fs, i);
  }

  lemma SealFlags(fs: Files, gs: Files, i: Inputs, op: Op)
    requires Seals(op, i) && (gs == Apply(fs, op) || gs == Tear(fs, op))
    ensures op.path in gs
    ensures op.path in {MasterHash, HashFile(ShipImage)} ==> gs[op.path] in {Torn, Digest(i.Master())}
    ensures forall p :: p != op.path ==> Same(fs, gs, p)
  {
  }

  lemma {:induction false} SealSafe(pins: Pins, fs: Files, i: Inputs, ops: seq<Op>)
    requires Sealing(pins, fs, i) && Admissible(pins, i) && forall op <- ops :: Seals(op, i)
    ensures SafeAlong(pins, fs, ops)
    decreases |ops|
  {
    if ops != [] {
      assert ops[0] in ops;
      SealKeeps(pins, fs, Apply(fs, ops[0]), i, ops[0]);
      SealKeeps(pins, fs, Tear(fs, ops[0]), i, ops[0]);
      SealSafe(pins, Apply(fs, ops[0]), i, ops[1..]);
    }
  }

  lemma ClearShipSafe(pins: Pins, fs: Files)
    requires Inv(pins, fs)
    ensures SafeAlong(pins, fs, CLEAR_SHIP)
    ensures var gs := Exec(fs, CLEAR_SHIP);
            && Unsealed(gs) && Inv(pins, gs)
            && forall p :: !IsFlag(p) ==> Same(fs, gs, p)
  {
    var a, b, c, d := HashFile(ShipImage), DoneFile(ShipImage), MasterHash, MasterDone;
    var fs1, fs2, fs3, fs4 := fs - {a}, fs - {a} - {b}, fs - {a} - {b} - {c}, fs - {a} - {b} - {c} - {d};
    RemovalKeeps(pins, fs, a);
    RemovalKeeps(pins, fs1, b);
    RemovalKeeps(pins, fs2, c);
    RemovalKeeps(pins, fs3, d);
    assert CLEAR_SHIP[1..] == [Remove(b), Remove(c), Remove(d)];
    assert CLEAR_SHIP[1..][1..] == [Remove(c), Remove(d)];
    assert CLEAR_SHIP[1..][1..][1..] == [Remove(d)];
    assert SafeAlong(pins, fs3, [Remove(d)]);
    assert SafeAlong(pins, fs2, [Remove(c), Remove(d)]);
    assert SafeAlong(pins, fs1, CLEAR_SHIP[1..]);
    ExecTwo(fs2, Remove(c), Remove(d));
    ExecTwo(fs, Remove(a), Remove(b));
    ExecAppend(fs, [Remove(a), Remove(b)], [Remove(c), Remove(d)]);
    assert CLEAR_SHIP == [Remove(a), Remove(b)] + [Remove(c), Remove(d)];
    assert Exec(fs, CLEAR_SHIP) == fs4;
  }

  /** Copying the staged image out and into the cache, while no whole-image flag is in force. */
  lemma ShipImageSafe(pins: Pins, fs: Files)
    requires Inv(pins, fs) && Unsealed(fs) && At(WorkDir, OsImage) in fs
    ensures SafeAlong(pins, fs, SHIP_IMAGE)
  {
    var first, second := SHIP_IMAGE[0], SHIP_IMAGE[1];
    var fs1 := Apply(fs, first);
    UnsealedCopy(pins, fs, first);
    UnsealedCopy(pins, fs1, second);
    assert SafeAlong(pins, Apply(fs1, second), []);
    SafeStep(pins, fs1, second, []);
    SafeStep(pins, fs, first, [second] + []);
    assert SHIP_IMAGE == [first] + ([second] + []);
  }

  lemma UnsealedCopy(pins: Pins, fs: Files, op: Op)
    requires Inv(pins, fs) && Unsealed(fs) && op.path.At? && op.path.art == OsImage
    ensures Inv(pins, Apply(fs, op)) && Unsealed(Apply(fs, op)) && Inv(pins, Tear(fs, op))
  {
    OneStep(fs, op);
    UnsealedKeeps(pins, fs, Apply(fs, op), op.path);
    UnsealedKeeps(pins, fs, Tear(fs, op), op.path);
  }

  lemma ShippedImages(fs: Files)
    requires At(WorkDir, OsImage) in fs
    ensures var gs := Exec(fs, SHIP_IMAGE);
            && Holds(gs, At(OutputDir, OsImage), fs[At(WorkDir, OsImage)])
            && Holds(gs, At(Cache, OsImage), fs[At(WorkDir, OsImage)])
            && forall p :: p != At(OutputDir, OsImage) && p != At(Cache, OsImage) ==> Same(fs, gs, p)
  {
    ExecTwo(fs, SHIP_IMAGE[0], SHIP_IMAGE[1]);
  }

  lemma ShipEachFrame(fs: Files, arts: seq<Art>, p: Path)
    requires !(p.At? && p.place in {OutputDir, Cache} && p.art in arts)
    ensures Same(fs, Exec(fs, ShipEach(arts)), p)
  {
    forall op | op in ShipEach(arts) ensures op.path != p {
      ShipEachTouches(arts, op);
    }
    ExecFrame(fs, ShipEach(arts), p);
  }

  /** The first half of shipping: flags cleared, both copies of the image replaced. */
  lemma ShipFrontSafe(pins: Pins, fs: Files)
    requires Inv(pins, fs) && At(WorkDir, OsImage) in fs
    ensures SafeAlong(pins, fs, CLEAR_SHIP + SHIP_IMAGE)
    ensures var gs := Exec(fs, CLEAR_SHIP + SHIP_IMAGE);
            && Inv(pins, gs) && Unsealed(gs)
            && At(OutputDir, OsImage) in gs && gs[At(OutputDir, OsImage)] == fs[At(WorkDir, OsImage)]
            && At(Cache, OsImage) in gs && gs[At(Cache, OsImage)] == fs[At(WorkDir, OsImage)]
            && forall p :: p != At(OutputDir, OsImage) && p != At(Cache, OsImage) && !IsFlag(p) ==> Same(fs, gs, p)
  {
    ClearShipSafe(pins, fs);
    var fs1 := Exec(fs, CLEAR_SHIP);
    assert Same(fs, fs1, At(WorkDir, OsImage));
    ShipImageSafe(pins, fs1);
    ShippedImages(fs1);
    SafeAppend(pins, fs, CLEAR_SHIP, SHIP_IMAGE);
    ExecAppend(fs, CLEAR_SHIP, SHIP_IMAGE);
    SafeAtCrash(pins, fs1, SHIP_IMAGE, Cut(0, false));
    var gs := Exec(fs1, SHIP_IMAGE);
    forall p | p != At(OutputDir, OsImage) && p != At(Cache, OsImage) && !IsFlag(p) ensures Same(fs, gs, p) {
      assert Same(fs, fs1, p) && Same(fs1, gs, p);
    }
  }

  /** Shipping is safe at every step when the staged image is the current one and no live binary is torn. */
  lemma ShipSafe(pins: Pins, fs: Files, i: Inputs)
    requires Inv(pins, fs) && Admissible(pins, i)
    requires At(WorkDir, OsImage) in fs && fs[At(WorkDir, OsImage)] == Image(i)
    requires Whole(fs, Present(fs, Workspace, SHIPPED))
    ensures SafeAlong(pins, fs, ShipOps(fs, i))
  {
    var bins, front := Present(fs, Workspace, SHIPPED), CLEAR_SHIP + SHIP_IMAGE;
    ShipFrontSafe(pins, fs);
    StillWhole(fs, Exec(fs, front), bins);
    ShippingTheRestSafe(pins, Exec(fs, front), i, bins);
    SafeInTwo(pins, fs, front, ShipEach(bins), SealOps(i));
  }

  lemma StillWhole(fs: Files, gs: Files, bins: seq<Art>)
    requires Whole(fs, bins) && forall a :: Same(fs, gs, At(Workspace, a))
    ensures Whole(gs, bins)
  {
    forall a | a in bins ensures At(Workspace, a) in gs && gs[At(Workspace, a)] != Torn {
      assert Same(fs, gs, At(Workspace, a));
    }
  }

  lemma SafeInTwo(pins: Pins, fs: Files, front: seq<Op>, each: seq<Op>, seal: seq<Op>)
    requires SafeAlong(pins, fs, front) && SafeAlong(pins, Exec(fs, front), each + seal)
    ensures SafeAlong(pins, fs, front + each + seal)
  {
    SafeAppend(pins, fs, front, each + seal);
    Assoc3(front, each, seal);
  }

  /** Shipping the binaries leaves both images and the whole-image hashes alone. */
  lemma ShipEachKeeps(fs: Files, gs: Files, i: Inputs, bins: seq<Art>)
    requires Unsealed(fs) && gs == Exec(fs, ShipEach(bins)) && forall a <- bins :: a in SHIPPED
    requires Holds(fs, At(OutputDir, OsImage), Image(i)) && Holds(fs, At(Cache, OsImage), Image(i))
    ensures SealingFiles(gs, i)
  {
    ShipEachFrame(fs, bins, At(OutputDir, OsImage));
    ShipEachFrame(fs, bins, At(Cache, OsImage));
    ShipEachFrame(fs, bins, MasterHash);
    ShipEachFrame(fs, bins, HashFile(ShipImage));
  }

  lemma ShippingTheRestSafe(pins: Pins, fs: Files, i: Inputs, bins: seq<Art>)
    requires Inv(pins, fs) && Admissible(pins, i) && Unsealed(fs)
    requires At(OutputDir, OsImage) in fs && fs[At(OutputDir, OsImage)] == Image(i)
    requires At(Cache, OsImage) in fs && fs[At(Cache, OsImage)] == Image(i)
    requires Whole(fs, bins) && forall a <- bins :: a in SHIPPED
    ensures SafeAlong(pins, fs, ShipEach(bins) + SealOps(i))
  {
    ShipEachSafe(pins, fs, bins);
    SafeAtCrash(pins, fs, ShipEach(bins), Cut(0, false));
    ShipEachKeeps(fs, Exec(fs, ShipEach(bins)), i, bins);
    SealSafe(pins, Exec(fs, ShipEach(bins)), i, SealOps(i));
    SafeAppend(pins, fs, ShipEach(bins), SealOps(i));
  }

  /** Copying the cached image out, whole or torn, while `master.*` vouches for no image. */
  lemma ImageCopySafe(pins: Pins, fs: Files)
    requires Inv(pins, fs) && At(Cache, OsImage) in fs && !MasterFlagged(fs)
    ensures SafeAlong(pins, fs, [Copy(At(Cache, OsImage), At(OutputDir, OsImage))])
  {
    var op := Copy(At(Cache, OsImage), At(OutputDir, OsImage));
    OneStep(fs, op);
    StagesKeep(pins, fs, Apply(fs, op), op.path);
    StagesKeep(pins, fs, Tear(fs, op), op.path);
    TreesKeep(pins, fs, Apply(fs, op), op.path);
    TreesKeep(pins, fs, Tear(fs, op), op.path);
    assert [op][1..] == [];
  }

  /** `ShipImage` restores only when `master.*` is not in force, so that a torn image does no harm. */
  lemma ShipRestoreSafe(pins: Pins, fs: Files)
    requires Inv(pins, fs) && At(Cache, OsImage) in fs && !MasterFlagged(fs)
    ensures SafeAlong(pins, fs, ShipRestoreOps(fs))
  {
    var image := [Copy(At(Cache, OsImage), At(OutputDir, OsImage))];
    ImageCopySafe(pins, fs);
    SafeAtCrash(pins, fs, image, Cut(0, false));
    CopiesOutSafe(pins, Exec(fs, image), Cache, Present(fs, Workspace, SHIPPED));
    SafeAppend(pins, fs, image, CopyAll(In(Cache), In(OutputDir), Present(fs, Workspace, SHIPPED)));
  }
}
