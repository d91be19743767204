# PronzeOS build engine: a verified model

PronzeOS is built by a pipeline of sixteen stages with a cache at two levels. Each of the six
compile stages keeps a `.hash` file, a `.done` flag and one or more artifacts, and restores them
when its key matches. `CheckEarlyExit`, `CleanOutput` and `ShipImage` keep a second cache for the
whole image. Unpacked source trees are kept between builds, and `ALLOWED_FAILURES` names stages
that may fail without ending a run. The question this project answers is the one such a program
raises: after any mixture of edits, builds, failures and crashes, is an incremental build the same
as a clean one?

The answer, `Histories.IncrementalEqualsClean`, is yes under the hypotheses listed below, in every
configuration of allowed failures. For each hypothesis that the program can break, a member shows
what then goes wrong, most of them exactly when. Around it stand the scheduler and the run loop
that drive the stages, the directory digest and the analyzer that the cache rests on, and four
smaller components with invariants of their own: the QEMU log stream, the kernel page tracker, the
sandbox allocator of the C SDK, and the dashboard's console colouring.

## How the modules fit together

| files | what they hold |
|---|---|
| `Scheduler`, `RunLoop` | `Pipeline.build_graph` and `Pipeline.execute` as classes, over any stages and any `run` code |
| `Joined`, `Store` | joined keys; the file store as a map, file operations, and what a crash inside one leaves |
| `Cache` | what valid flags and source trees promise, at both levels, and which operations keep it |
| `CompileStages`, `ShipStages` | each stage as the sequence of file operations it performs, proved safe at every step |
| `BuildRun`, `BuildSafety` | one run of the sixteen stages, whatever stages may fail: what it delivers, and what it leaves wherever it stops |
| `Completion` | when a run in which no command fails completes, and that it meets the conditions of the safety results |
| `Fingerprints`, `Deliveries` | what keys, root file systems and images depend on, field by field; what each stage leaves, file by file |
| `Histories`, `Exactness` | many runs: incremental equals clean, and exactly for which sets of versions |
| `QuietBuilds`, `Leave` | builds with nothing to do; runs that are not careful, and what they lead to |
| `Workbench`, `MainPipeline` | the stages' `run` methods and `main` in imperative form, proved to perform those sequences |
| `DirHash`, `Analyzer` | `get_dir_hash` and `analyze_compilation_files` |
| `QemuLog`, `Pager` | interleavings of lock-protected steps, and the classes whose methods are those steps |
| `Sandbox` | `pronze.c` |
| `Ansi`, `Styling`, `LogMarks`, `Text` | `ansiToHtml` and `parseLogLine`; which character is shown in which style, which line is marked how |

A file's contents are a term over what its producer was given and read, so that equal terms
stand for equal files whatever the deterministic tools do. Where a result says that an image is
wrong, distinct terms must stand for distinct files as well: that another tarball, another
configuration or a missing binary makes another image. The term of a binary holds the very
fields of the sources that its commands read, independent of any cache key; `KeysShow`,
`FreshShows` and `ImageShowsSources` say which fields keys, binaries and images show. A crash
is a prefix of a stage's operations, with the next one either not begun or torn. Every stage
method of `Workbench.Bench` is proved to leave the files that this prefix gives, for every
number of operations that succeed.

## Hypotheses of the main theorem

- A digest is injective, and no key field contains "-". `JoinUnambiguousIff` shows that the
  second is exactly what tells joined keys apart.
- The versions that occur are `Determined`: a version of a package stands for one tarball, also for
  the kernel headers; the digest of `kernel/` determines the headers version; and a kernel that is
  built is not the headers of a version with another kernel. No cache key and no test for a source
  tree shows these. `SafeVersionsIff` shows that this is exactly what is needed.
- Every run is careful (`CarefulRun`), which is about four things.
  - In repackage mode it starts from live files that are current. `RepackageExact` and
    `FailedRepackageSticks` show that this is exactly what such a run needs, `StaleRepackage` what
    happens otherwise.
  - No unpacking and no default configuration of the headers is torn. `TornTreeShips` shows what a
    torn tree leads to.
  - A stage that fails with leave has nevertheless left what it is for. `LeaveKeepsPromisesIff`
    shows that for compile stages this is exactly what keeps the flag promises and delivers the
    image, `MissingDaemonShips` what the configuration in `pipeline.conf` leads to otherwise,
    `ModuleSafeIff` and `RestoredKernelIff` what a failure of the kernel stage or of the extraction
    takes from later stages, and `StagedIsShipped` what is delivered after a failure in packaging.
  - `ShipImage` has not failed with leave in a run that completes; `NoImageShips` shows a complete
    run without an image.
  Outside repackage mode, a run in which no tree is torn and no stage fails with leave is careful,
  whatever stages may fail (`UntroubledIsSafe`): any other failure and any crash is covered.
- No source tree is there before the first build, and nothing but the stages writes to one.
- Image inputs are the files `get_dir_hash` sees, and sources do not change during a run. A source
  directory may lack the file that the image needs from it; then the run fails
  (`UninterruptedCompletesIff`).
- `kernel/` and `daemon/` exist, so that their digests are not the empty string that also stands
  for a missing hash file.
- A restore or a compilation replaces a live output as a whole, and an archive unpacks to what was
  packed. Two copies happen in one step: the image copy of an early exit (`early_exit.py:60`) and
  ShipImage's copies of binaries into the cache (`ship.py:89`). `TornImageIff` and
  `TornArtifactIff` show exactly when a torn one breaks what the flags promise, `TornImageServed`
  and `TornArtifactShips` the wrong images that follow. All other copies and writes may be torn.

## Where the code differs from what one would expect

- An unpacked source tree is kept when its tarball is replaced under the same version. The key
  changes, the old tree is compiled, and the old binary is cached under the new key
  (`StaleTreeShips`, `IncompatibleIsWrong`). Not even a rebuild request helps (`RebuildKeepsTree`).
- An extraction that was interrupted leaves a directory that every later build takes for the tree
  (`TornTreeShips`).
- With `ALLOWED_FAILURES="CompileDaemon"`, as shipped, a build in which the daemon does not compile
  ends "Complete", its flags vouch for an image without the daemon, and the next build serves it
  without trying again (`MissingDaemonShips`).
- The kernel module's key leaves out the headers version (`HeadersMatter`), and its compilation
  uses whatever configuration is in the headers tree (`ModuleSafeIff`, `SafeVersionsIff`).
- A failed run does not leave repackage mode (`ModeAfterRun`), so the next plain build compiles
  nothing (`FailedRepackageSticks`).
- Repackaging edited sources writes the new master key over old binaries (`StaleRepackage`), and
  fails after an edit of the Linux or BusyBox version (`RepackageAfterEdit`).
- `early_exit.py:60` copies the image while valid flags vouch for it (`TornImageServed`).
- `size + 7` and `sim_offset + aligned_size` can wrap (`HugeRequestGranted`).
- `page_pr_allocate_at` reports the head of the list, which can be another caller's block
  (`LastAddressMayBeAnothers`; exactly when it is not: `ReportsOwnIff`).
- The flusher can end before the reader's last character reaches the batch (`TailCanBeStranded`;
  exactly when nothing is left, and that at most one character is: `TailDelivered`).
- A newline in a path can make one file pass for two in a directory digest (`NewlinesCollide`;
  exactly which digests agree: `DigestsAgreeIff`; exactly which directories read as themselves:
  `ReadsAsOwnIff`).

## Model

| member | source | states |
|---|---|---|
| `Histories.IncrementalEqualsClean` | build-pipeline/common.py:3599-3662 | With any stages allowed to fail: after every history of edits among determined versions, builds, rebuild requests, repackage requests, stage failures with and without leave, crashes between or inside file operations and restarts, in which each run was careful, a run that ended "Complete" left in the output directory the very image a clean build of the current sources gives |
| `Histories.InvAlways` | build-pipeline/stages/ship.py:64-98 | With any stages allowed to fail: the promises of both flag levels (stage flags, and `master.*` / `ShipImage.*`) and of the source trees hold after every history of careful runs, wherever a crash ended its last run; a complete run left the current image |
| `Histories.StepKeeps` | build-pipeline/common.py:2845-2925 | One edit, careful build, rebuild request, careful repackage request or restart keeps the promises of both flag levels and of the trees, whatever stages may fail and whatever subset of the deletions succeeded; a complete run left the current image |
| `Histories.RunKeeps` | build-pipeline/common.py:3599-3662 | One careful run from good files leaves good files, and the current image if it completes, whatever stages may fail |
| `Histories.RemovalsKeep` | build-pipeline/common.py:2854-2861 | Deleting any part of the `.hash` and `.done` files and `hashes.json` keeps both flag levels |
| `Histories.CleanBuildDelivers` | build-pipeline/stages/ship.py:64-98 | A build in an empty workspace in which no command fails completes if and only if `s6/` and `profiles/` have the files that the root file system takes from them, and then delivers `Image(i)` |
| `Exactness.SafeVersionsIff` | build-pipeline/stages/extract.py:15-25 | Over a set of versions, every complete run of every history of careful runs delivers the current image if and only if each version of a package stands for one tarball, also as kernel headers, the digest of `kernel/` determines the headers version, and no kernel that is built is the headers of a version with another kernel |
| `Exactness.HeadersMatter` | build-pipeline/stages/kernel_module.py:10-21 | Same `kernel/` digest and other headers: a build of one version over a build of the other completes with a wrong image, because the cache key ignores the headers |
| `Exactness.IncompatibleIsWrong` | build-pipeline/stages/extract.py:15-36 | For every two versions that break one of these conditions: a clean build of the first and then a build of the second, in which nothing fails, completes with a wrong image |
| `Exactness.StaleTreeShips` | build-pipeline/stages/extract.py:15-19 | For every file that a compilation reads in a kept source tree and that is not what the current tarball gives: if neither the stage nor the whole image is restored, the build completes with a wrong image |
| `Exactness.TreesKept` | build-pipeline/stages/extract.py:17-24 | After any number of stages of any run: source trees that were there, the configurations of other kernels and the compiled files of other versions are as they were |
| `BuildSafety.RunSafe` | build-pipeline/common.py:3611-3648 | With any stages allowed to fail: from files that keep both flag levels, whatever point a run stops at, by failure, by a crash or at its end, the files it leaves keep them, if no tree is torn and each stage that failed with leave had left what it is for |
| `BuildSafety.DeliveredCurrent` | build-pipeline/stages/early_exit.py:46-105 | Under the flag promises an early exit (with or without its copy) and a restore by ShipImage deliver the clean image, and packaging does if and only if the live files are current |
| `BuildSafety.RunDelivers` | build-pipeline/common.py:3632-3662 | With any stages allowed to fail: a complete run from such files, under the same conditions, ends with the clean image unless ShipImage itself failed |
| `BuildSafety.PartialSafe` | build-pipeline/common.py:3611-3648 | Before ShipImage the promises hold wherever a run stops, whatever stages failed with leave and whatever they left, as long as no tree is torn and the trees, the kernel configuration and the master test are what later stages rely on |
| `BuildSafety.LeaveKeepsPromisesIff` | build-pipeline/common.py:3632-3645 | A complete shipping run keeps the flag promises if and only if its image is the current one, and if and only if the live files of each compile stage that failed with leave are what a clean build gives |
| `BuildSafety.FailedStagesDecide` | build-pipeline/common.py:3632-3645 | From good files, all live artifacts of a run are current if and only if those of the compile stages that failed with leave are |
| `Completion.UninterruptedCompletesIff` | build-pipeline/stages/rootfs.py:51-72 | With any stages allowed to fail: a run in which no command fails, but in optional stages with leave, completes, from any files, if and only if it exits early or the source files, and in repackage mode the live files, are there as far as the stages that need them have no leave; otherwise it fails in AssembleRootfs or, for want of a kernel only, in PackageESPImage |
| `Completion.OptionalFailuresComplete` | build-pipeline/stages/rootfs.py:51-63 | With nothing missing, a run in which only the module, SDK and daemon stages are stopped, with leave, completes, and no other stage fails |
| `Completion.UntroubledIsSafe` | build-pipeline/common.py:3632-3648 | Whatever stages are allowed to fail, a run in which none does so with leave, and which tears no source tree, meets the conditions of the safety results, wherever it stops |
| `BuildSafety.MasterNotInForce` | build-pipeline/stages/ship.py:45-54 | When ShipImage is about to restore, `master.*` is not in force, since the run would have exited early |
| `BuildSafety.ShippedIsCurrentIff` | build-pipeline/stages/ship.py:74-75 | With no hypothesis on the files or on what may fail: a complete shipping run ends with the current image if and only if no target was passed over and each artifact it packaged is what a clean build gives |
| `BuildSafety.ImageFromIff` | build-pipeline/stages/rootfs.py:41-74 | The image made of the targets that are there is the clean one if and only if all ten live artifacts are there and current |
| `BuildSafety.RepackageExact` | build-pipeline/common.py:3612-3614 | A complete repackage run ends with the current image if and only if all live artifacts were current |
| `BuildSafety.ImageShowsLive` | build-pipeline/stages/rootfs.py:27-74 | Two images for the same sources are equal if and only if all ten live artifacts that went in are equal |
| `Fingerprints.ImageShowsSources` | build-pipeline/stages/rootfs.py:27-74 | Two clean builds give the same image if and only if their sources agree in every field: no edit of anything the build reads is lost |
| `Fingerprints.ImageShows` | build-pipeline/stages/rootfs.py:27-74 | Two clean images are equal if and only if all ten compiled files are, and `s6/`, `profiles/`, the pipeline directory and `configuration_setup/` agree |
| `Fingerprints.ImageOfShows` | build-pipeline/stages/rootfs.py:27-74 | The same for images made of any live files: equal if and only if the ten files and these four directories are |
| `Fingerprints.MasterShowsImage` | build-pipeline/stages/early_exit.py:12-34 | Among versions that agree on what no key shows, two master keys are equal if and only if the two clean images are |
| `Fingerprints.RootfsHolds` | build-pipeline/stages/rootfs.py:20-74 | `AssembleRootfs` leaves a root file system with exactly the named files, each as it is in the workspace or the source directory at that time, and no overlay |
| `Fingerprints.RootfsFailsIff` | build-pipeline/stages/rootfs.py:41-72 | It fails if and only if one of the named files is missing; those of the daemon, module and SDK stages are excused when their own stage failed with leave |
| `Fingerprints.RootfsShows` | build-pipeline/stages/rootfs.py:27-74 | Two root file systems for which every file is there are equal if and only if the nine compiled files are, and `s6/`, `profiles/` and the pipeline directory agree |
| `Fingerprints.OverlayHolds` | build-pipeline/stages/config_setup.py:18-41 | `CopyConfigurationSetup` adds the files of `configuration_setup/`, or nothing when there is no such directory, and changes nothing else |
| `BuildSafety.OutcomeCurrent` | build-pipeline/stages/kernel.py:26-35 | Under the promises a restored artifact, or one compiled over the trees of an orderly run, is the one a clean build gives |
| `BuildSafety.StageSafe` | build-pipeline/common.py:3620-3631 | Over whole source trees that are there, every file operation of each stage before ShipImage, torn or whole, keeps both flag levels and the trees; only unpacking and the default headers configuration must not be torn |
| `BuildRun.CompleteDelivers` | build-pipeline/common.py:3611-3662 | From any files at all and with any stages allowed to fail: a complete run in which packaging and ShipImage passed ends with exactly the image that early exit, cache restore, ShipImage restore or packaging selects, less the targets that were passed over |
| `BuildRun.RunOnTrack` | build-pipeline/common.py:3611-3648 | With any stages allowed to fail: after any number of stages a live run has either exited early with the image in place or has unpacked, compiled, packaged and preserved exactly what the stages that passed are for |
| `BuildRun.StageProgress` | build-pipeline/stages/rootfs.py:20-74 | Each stage that passes establishes its part, and each stage, even one that fails, keeps the parts of all stages before it |
| `BuildRun.PlanFrames` | build-pipeline/common.py:3625 | Each stage before ShipImage, wherever it stops, writes only its own files and the source trees it tends |
| `BuildRun.RootfsResult` | build-pipeline/stages/rootfs.py:20-74 | When no target is missing, the rebuilt root file system holds the targets in order, less the absent ones that an allowed failure excuses (none of the twelve without such a failure), and nothing of the configuration overlay |
| `BuildRun.ShipTestStable` | build-pipeline/stages/ship.py:45-54 | If no compile stage failed, the restore test of ShipImage gives what the whole-image files at the start of the run determine |
| `BuildRun.EarlyExitDelivers` | build-pipeline/stages/early_exit.py:47-100 | On a master hit the output directory ends with the image that was there, or else with the cached one, and the rest is skipped |
| `Deliveries.ExitRestores` | build-pipeline/stages/early_exit.py:58-92 | On a master hit without an output image: the image, and every cached binary of the module, SDK and daemon stages, end in the output directory with their cached contents, the binaries also where they are built; binaries that are not cached, and files of other stages, stay as they were |
| `Deliveries.ExitRestoresNoMore` | build-pipeline/stages/early_exit.py:58-92 | It changes nothing outside the output directory and the workspace but the done flag of the stage |
| `Deliveries.ExitsIff` | build-pipeline/stages/early_exit.py:46-105 | The run exits early if and only if it is not a repackage run, the master flags are valid for the current sources and the image is in the output directory or cached; in every case without a restore only the done flag is written |
| `Deliveries.ShipRestoresIff` | build-pipeline/stages/ship.py:25-54 | `ShipImage` restores, and `CleanOutput` does nothing, if and only if it is not a repackage run, the flags of `ShipImage` are valid for the current sources, the image is cached, and each of the seven binaries that the workspace has is cached |
| `Deliveries.ShipRestores` | build-pipeline/stages/ship.py:54-62 | Restoring puts the cached image and the cached copies of the binaries that the workspace has into the output directory, and changes nothing else |
| `Deliveries.CleanLeaves` | build-pipeline/stages/clean_output.py:20-68 | After `CleanOutput` an entry is in the output directory if and only if it was there and could not be deleted or was not listed; on a ship hit nothing changes |
| `Deliveries.CompileSends` | build-pipeline/stages/daemon.py:21-51 | A compile stage that passes puts its artifacts into the output directory if it is the module, SDK or daemon stage, and nothing otherwise |
| `Deliveries.ExtractLeaves` | build-pipeline/stages/extract.py:8-41 | After unpacking, the tree of every package and of the headers is there: the one that was there, or else what its own tarball holds |
| `Deliveries.StatusAfter` | build-pipeline/common.py:3617-3631 | A stage that is entered and ends is reported "Skipped" if and only if it is a compile stage that restores, or `CleanOutput` or `ShipImage` on a ship hit; otherwise "Success" |
| `BuildRun.ShippedState` | build-pipeline/stages/ship.py:64-98 | After the ship path both images are the staged one and all four whole-image flags carry the current key |
| `Cache.SafeAtCrash` | build-pipeline/stages/sdk.py:64-101 | If every step of a sequence is safe, a crash at any of its points, torn operation included, leaves the flag promises |
| `Cache.RemovalKeeps` | build-pipeline/common.py:2854-2861 | Deleting any one flag, or a file of the output directory, never breaks a promise |
| `Cache.UnflaggedSafe` | build-pipeline/stages/sdk.py:70-98 | While a stage's done flag is absent, any writes to its own files, torn ones included, are safe |
| `CompileStages.CompileSafe` | build-pipeline/stages/kernel.py:26-70 | Crash safety of all six compile stages, over the trees they need: each operation of a call, torn or whole, keeps what valid flags and source trees promise |
| `CompileStages.RestoreSafe` | build-pipeline/stages/sdk.py:39-62 | Crash safety of the restore path, where the flags stay valid during the copies |
| `CompileStages.RebuildSafe` | build-pipeline/stages/sdk.py:64-102 | Crash safety of the rebuild path: done removed first and written last, all five SDK artifacts covered together |
| `CompileStages.BuildSafe` | build-pipeline/stages/kernel_module.py:67-80 | Compiling, caching, exporting and writing the hash are safe once the done flag is gone, and leave every artifact sound for the new key if what was read is as in a clean build |
| `CompileStages.CompileResult` | build-pipeline/stages/daemon.py:21-51 | A call that passes leaves live and cached artifacts equal, to the cached one on a hit and otherwise to what compiling over the prepared trees gives, under valid flags for the current key |
| `CompileStages.CompileFrame` | build-pipeline/stages/busybox.py:23-58 | A compile stage touches its own flags, artifacts and exported copies, and of source trees the configuration of the kernel it builds and what was not there |
| `CompileStages.RestoreResult` | build-pipeline/stages/s6.py:28-36 | A restore leaves the live artifact equal to the cached one and the cached one and the hash unchanged |
| `CompileStages.BuildResult` | build-pipeline/stages/s6.py:44-68 | The build steps leave each artifact, live and cached, as compiled from the source trees that its commands read |
| `CompileStages.UnpackResult` | build-pipeline/stages/extract.py:15-36 | Unpacking leaves every tree there: the one that was there before, or what the current tarball gives |
| `CompileStages.ExtractSafe` | build-pipeline/stages/extract.py:8-41 | Every operation of ExtractTarballs that is not torn keeps the flag promises and the promise on source trees |
| `Cache.CompileFreshIff` | build-pipeline/stages/s6.py:44-68 | Compiling gives what a clean build gives if and only if the trees and configurations it reads are as in a clean build |
| `Cache.KeyFixesFresh` | build-pipeline/stages/busybox.py:10-12 | Among versions that agree on what no key shows, sources with the same stage key have the same artifact |
| `Cache.KeysShow` | build-pipeline/stages/sdk.py:11-14 | Two keys of one stage are equal if and only if the named fields agree, for each of the six stages: Linux version and tarball; BusyBox version and tarball; the three versions and tarballs of S6; `kernel/`; `sdk/`, `test/` and the configuration; `daemon/` |
| `Fingerprints.FreshShows` | build-pipeline/stages/kernel_module.py:10-80 | Two clean builds compile a binary alike if and only if the named fields agree, for each of the ten binaries; for the module these are more than its key shows |
| `Fingerprints.RestoresIff` | build-pipeline/stages/s6.py:10-36 | Under flags that a stage has set for other sources it restores if and only if exactly these fields are as they were and exactly these files are cached, stage by stage |
| `Fingerprints.EditRebuilds` | build-pipeline/stages/sdk.py:39-102 | A stage that finds flags for other sources leaves its artifacts as cached if the keys agree and all of them are cached, otherwise as compiled now, and its hash file with the key of the current sources |
| `Cache.KeyFixesPlace` | build-pipeline/stages/kernel.py:11-24 | Sources with the same stage key have the live kernel and BusyBox in the same source tree |
| `ShipStages.EarlyExitSafe` | build-pipeline/stages/early_exit.py:46-105 | Every step of CheckEarlyExit, restored binaries torn or whole, keeps both flag levels |
| `ShipStages.RootfsSafe` | build-pipeline/stages/rootfs.py:20-74 | Every step of assembling the root file system keeps both flag levels, missing targets included |
| `ShipStages.WipeSafe` | build-pipeline/stages/clean_output.py:56-66 | Wiping the output directory, with any entries stuck, keeps both flag levels at each deletion |
| `ShipStages.ClearShipSafe` | build-pipeline/stages/ship.py:64-67 | Clearing the four flags is safe at each step and leaves neither level in force |
| `ShipStages.ShipEachSafe` | build-pipeline/stages/ship.py:77-89 | Copying whole live binaries out and into the cache is safe under flags that stay valid |
| `ShipStages.ShipImageSafe` | build-pipeline/stages/ship.py:74-75 | Copying the staged image out and into the cache is safe, whole or torn, while no whole-image flag is in force |
| `ShipStages.SealSafe` | build-pipeline/stages/ship.py:91-98 | Writing the whole-image flags in any order, torn or whole, is safe once both images are current |
| `ShipStages.ShipSafe` | build-pipeline/stages/ship.py:64-98 | Shipping is safe at every step when the staged image is current and no live binary is torn |
| `ShipStages.ShipRestoreSafe` | build-pipeline/stages/ship.py:54-62 | Restoring the shipped files from the cache is safe at every step, a torn image copy included, because `master.*` is not in force then |
| `QuietBuilds.NoOpRebuild` | build-pipeline/common.py:3611-3618 | After a complete shipping run, whatever failed with leave in it, and with unchanged sources, the next build skips every stage after CheckEarlyExit and changes no image, stage flag or artifact |
| `QuietBuilds.SkippedIffRestores` | build-pipeline/stages/sdk.py:39-66 | In any run in which nothing fails and that does not exit early: a compile stage is reported "Skipped" if and only if its restore test holds of the files the run started with, and "Success" otherwise |
| `QuietBuilds.EditCompiles` | build-pipeline/stages/sdk.py:11-66 | The first build after an edit that changes the master key skips a compile stage if and only if the version and tarball fields, or directory digests, that this stage is about are as they were, named stage by stage; otherwise it compiles |
| `QuietBuilds.RequestsClear` | build-pipeline/common.py:2845-2925 | A rebuild request deletes every `.hash` and `.done` file and `hashes.json`, a repackage request the master flags and the done flag of `CheckEarlyExit`; all other files stay, and only the second enters repackage mode |
| `QuietBuilds.RebuildRequestRebuilds` | build-pipeline/common.py:2854-2863 | After a rebuild request the next undisturbed build compiles in every compile stage |
| `QuietBuilds.ExitRun` | build-pipeline/stages/early_exit.py:46-57 | With a master hit and the image in place, a build completes, writes two done flags and nothing else, and skips fourteen stages |
| `QuietBuilds.RepackageAfterEdit` | build-pipeline/stages/esp.py:32-34 | For every two versions: repackaging the second over a clean build of the first completes if and only if the Linux and BusyBox versions agree, and then with the current image if and only if no compiled file differs; otherwise it fails in AssembleRootfs when the BusyBox version changed, else in PackageESPImage |
| `QuietBuilds.StaleRepackage` | build-pipeline/stages/ship.py:91-98 | Repackaging after an edit that changes a compiled file, but neither the Linux nor the BusyBox version, completes with a wrong image, and the next normal build serves it again |
| `QuietBuilds.ModeAfterRun` | build-pipeline/common.py:3739-3740 | The server stays in repackage mode exactly when it was in it and the run failed |
| `QuietBuilds.FailedRepackageSticks` | build-pipeline/common.py:3648 | After a failed repackage request a plain build compiles nothing: a complete one in which packaging passed ends with the current image if and only if the live files are current |
| `QuietBuilds.TornImageIff` | build-pipeline/stages/early_exit.py:60 | A torn output image breaks the flag promises if and only if valid master flags vouch for it, which is when this copy is made |
| `QuietBuilds.TornImageServed` | build-pipeline/stages/early_exit.py:47-57 | The build after such a crash completes and leaves the torn image |
| `QuietBuilds.TornArtifactIff` | build-pipeline/stages/ship.py:89 | A torn copy into the cache breaks the flag promises if and only if valid stage flags vouch for the file |
| `QuietBuilds.TornArtifactShips` | build-pipeline/stages/ship.py:89 | With valid stage flags for the current key and no whole-image hit, a torn cached artifact is restored and the build completes with a wrong image |
| `QuietBuilds.CleanSkipsIffShipRestores` | build-pipeline/stages/clean_output.py:42-53 | CleanOutput skips if and only if the ShipImage that runs on the files it leaves restores |
| `QuietBuilds.OutputIsShipped` | build-pipeline/stages/ship.py:74-89 | On the ship path the output directory ends with the image and the binaries of the module, the SDK and the daemon that the workspace has, each equal to its source and to its cached copy, and with nothing else |
| `Leave.MissingDaemonShips` | pipeline.conf:12 | In the configuration the program ships with, for every version: a first build in which the daemon stage fails at once ends "Complete" with a wrong image under valid flags, and the next build serves the same image and never tries the stage |
| `Leave.NoImageShips` | build-pipeline/common.py:3632-3645 | With leave for ShipImage itself, for every version: a first build in which it fails at once ends "Complete" with no image in the output directory |
| `Leave.ModuleSafeIff` | build-pipeline/stages/kernel_module.py:61-68 | Building the module keeps the promises if and only if its headers tree is configured or is not the tree of the kernel that is built |
| `Leave.RestoredKernelIff` | build-pipeline/stages/kernel.py:26-29 | Restoring a kernel keeps the promises if and only if its source tree is there; otherwise it plants a directory that later extractions take for the tree |
| `Leave.RebuildKeepsTree` | build-pipeline/common.py:2845-2861 | A rebuild request does not help against a kept tree that is not what the current tarball gives: the build after it completes with a wrong image |
| `Leave.TornTreeShips` | build-pipeline/stages/extract.py:17-21 | For every version and all files without its kernel tree and without a hit: a run whose extraction is cut short inside the first tarball fails, and the next build, even after a rebuild request, completes with a wrong image |
| `BuildSafety.ShippingSeals` | build-pipeline/stages/ship.py:91-98 | A complete shipping run, repackage runs and runs with allowed failures included, leaves valid whole-image flags for the current sources and the image in place |
| `BuildSafety.StagedIsShipped` | build-pipeline/stages/ship.py:64-98 | Whatever failed with leave before it, packaging included: when ShipImage ships and passes, the image is the staged one and valid flags vouch for it |
| `Exactness.ShippingCaches` | build-pipeline/stages/ship.py:77-89 | A complete shipping run leaves every artifact whose stage passed live and cached as the run made it, under valid flags for the current key |
| `Joined.JoinInjective` | build-pipeline/stages/early_exit.py:33 | A list with no "-" inside a field is told apart by its joined string from every other list of its length, whatever that one contains |
| `Joined.JoinUnambiguousIff` | build-pipeline/stages/early_exit.py:33 | For lists of two or more fields: no other list of the same length has the same joined string if and only if no field contains "-" |
| `Store.MasterInjective` | build-pipeline/stages/early_exit.py:12-34 | Inputs with equal master keys are equal, given that one of them has no "-" in a field and that both agree on the headers and their tarball as far as no key shows them |
| `Scheduler.Pipeline.AddNode` | build-pipeline/common.py:3575-3576 | A name registered again takes the new dependencies and keeps its place in the dictionary |
| `Scheduler.Pipeline.Visit` | build-pipeline/common.py:3582-3594 | Terminates on cyclic graphs too; on success the order stays topological and duplicate-free and contains the node; each error names a node on a real cycle or a really missing dependency; a node whose dependencies are all visited is appended alone |
| `Scheduler.Pipeline.BuildGraph` | build-pipeline/common.py:3578-3597 | Succeeds if and only if every dependency is registered and the graph is acyclic; the order is then a duplicate-free topological permutation of the stages, equal to the registration order when that is topological; errors name a real culprit |
| `Scheduler.DependenciesComeFirst` | build-pipeline/common.py:3590-3594 | In a topological order every transitive dependency of a stage precedes it |
| `Scheduler.OrderedIsAcyclic` | build-pipeline/common.py:3583-3589 | A graph that can be listed topologically without repeats has no cycle and no dangling dependency |
| `MainPipeline.OrderTopological` | build-pipeline/pipeline.py:53-69 | The order written in `main` is topological for the dependencies the stages declare |
| `MainPipeline.Launch` | build-pipeline/pipeline.py:51-71 | Registering, building the graph and executing gives the run over the written order that the other modules reason about |
| `MainPipeline.MakersComeFirst` | build-pipeline/pipeline.py:53-69 | Whatever a stage reads, a source tree, a compiled file or a part of the image, is made by a stage that it depends on, directly or through others |
| `MainPipeline.ExitIsCheckedFirst` | build-pipeline/pipeline.py:53-69 | Every stage but the first two depends on `CheckEarlyExit` |
| `MainPipeline.EverythingShips` | build-pipeline/pipeline.py:53-69 | `ShipImage` depends on every other registered stage, directly or through others |
| `RunLoop.Run.Enter` | build-pipeline/common.py:3620-3648 | One entered stage: status Running while it runs, then settled by its own report, its return or its exception, fatal unless the failure is allowed |
| `RunLoop.Run.Go` | build-pipeline/common.py:3599-3662 | The loop ends in the state that handling the stages in order gives, and calls `run` on exactly the stages that are not bypassed |
| `RunLoop.PrefixShape` | build-pipeline/common.py:3611-3648 | After k stages the status table is a passed prefix and an untouched suffix, with one fatal stage between them if there was one |
| `RunLoop.EnteredOnlyWhenReady` | build-pipeline/common.py:3611-3625 | When a stage is entered, each transitive dependency is Success, Skipped, or Failed with leave |
| `RunLoop.RunEnds` | build-pipeline/common.py:3639-3661 | "Complete" with every stage passed, or "Failed" at exactly one stage that had no leave, with a passed prefix and an untouched suffix |
| `RunLoop.ModeIsKept` | build-pipeline/common.py:3608-3648 | No stage and no failure leaves repackage mode |
| `RunLoop.SkipIsFinal` | build-pipeline/common.py:3616-3618 | Once `skip_remaining` is set no later `run` is entered: files stay as they are, later stages are Skipped, earlier statuses stay |
| `Workbench.Bench.RunCompile` | build-pipeline/stages/sdk.py:10-102 | The call performs the stage's operations in order up to the first that fails, from the restore or rebuild branch its test selects, and passes if and only if none failed and the source trees it works in were there; then each artifact is live, cached and, for the module, SDK and daemon, in the output directory, as it was cached when the flags named the current sources and all of them were cached, and otherwise as compiled from the current sources, under flags for these |
| `Workbench.Bench.RunExtractTarballs` | build-pipeline/stages/extract.py:8-41 | The call unpacks each tree that is not there, in order up to the first failure, and passes if and only if none failed |
| `Workbench.Bench.RunCheckEarlyExit` | build-pipeline/stages/early_exit.py:36-105 | The call performs the operations of the branch it selects up to the first that fails, and sets `skip_remaining` exactly on a hit in which everything before the done flag succeeded; when it restores, the image and every cached binary of the module, the SDK and the daemon are back in the output directory, the binaries also where they are built, and what is not cached is as it was |
| `Workbench.Bench.RestoreWorkspace` | build-pipeline/stages/early_exit.py:58-92 | Image, then output binaries, then live files, each only if cached, in this order up to the first failing operation; `Deliveries.ExitRestores` says what that puts where |
| `Workbench.Bench.RunCleanOutput` | build-pipeline/stages/clean_output.py:20-68 | Nothing on a ship hit; otherwise the wipe, passing over entries that cannot be deleted |
| `Workbench.Bench.ShipIsCached` | build-pipeline/stages/ship.py:25-54 | The restore test that CleanOutput and ShipImage share, and the list of shipped binaries |
| `Workbench.Bench.RunShipImage` | build-pipeline/stages/ship.py:20-98 | Restore, or clear, ship and seal in order up to the first failing operation; fails after clearing when there is no staged image |
| `Workbench.Bench.RunAssembleRootfs` | build-pipeline/stages/rootfs.py:20-74 | Fails if and only if an operation fails or a required compiled or source file is missing, with exactly the targets before it copied; excused targets are passed over. When it passes, the root file system holds the BusyBox and S6 installations, the script from `s6/`, the compiled binaries that are there, the default profile, the module and the files of the pipeline, each as it is now, and no overlay |
| `Workbench.Bench.CopyTargets` | build-pipeline/stages/rootfs.py:41-74 | The target loop: passes over a target that an allowed failure excuses and stops at the first other missing one |
| `Workbench.Bench.WriteFlags` | build-pipeline/common.py:3822-3828 | Hash file first, done flag second |
| `Store.CrashSplit` | build-pipeline/common.py:3625 | Performing two sequences one after the other under one failure allowance is performing their concatenation |
| `DirHash.GetDirHash` | build-pipeline/common.py:230-261 | The loop and the updates compute the digest of the sorted retained lines, with the two special results; `DirHash.RetainedIff` says which files these are, `EditShows` and `AdditionShows` that none of them is lost |
| `DirHash.DigestIsCanonical` | build-pipeline/common.py:234-261 | The digest does not depend on walk order, and where no path hides a record, that is, has the form `a:h` newline `b` with a digest-like `h`, equal digests mean equal sets of retained (path, file digest) pairs |
| `DirHash.DecodeEncodeIff` | build-pipeline/common.py:259-260 | The digested text, split at the newlines where a record may end and at the last colon, gives the lines back if and only if no path hides a record |
| `DirHash.DigestsAgreeIff` | build-pipeline/common.py:259-260 | Whatever their paths, two directories have equal digests if and only if their texts read as the same lines |
| `DirHash.ReadsAsOwnIff` | build-pipeline/common.py:257-260 | The text of a directory reads as its own sorted lines if and only if no path in it hides a record |
| `DirHash.EncodeDecode` | build-pipeline/common.py:259-260 | Writing what has been read gives the text back, for every text that ends where a record ends |
| `DirHash.SortedUnique` | build-pipeline/common.py:257 | A strictly sorted list of lines is determined by its set of lines |
| `DirHash.NewlinesCollide` | build-pipeline/common.py:260 | For every path that hides a record naming two retained files: the directory with this one file and the directory with those two have one digest |
| `DirHash.OutputsExcluded` | build-pipeline/common.py:236-243 | The files that the stages themselves write into hashed directories are not retained |
| `DirHash.ExcludedFilesDoNotMatter` | build-pipeline/common.py:235-248 | Directories that differ in excluded files only have equal digests |
| `DirHash.SpecialDigests` | build-pipeline/common.py:230-255 | The two special results come exactly from a path that is no directory and from a directory with no retained file |
| `DirHash.RetainedIff` | build-pipeline/common.py:235-252 | A file enters the digest if and only if no directory on its way is hidden or one of three build directories, it is not hidden, it has none of ten endings, is none of four test programs, and can be read |
| `DirHash.SourceRetained` | build-pipeline/common.py:235-252 | Every readable file with the ending of a C, C++, Rust, Zig or Python source, or one of five other endings, enters, unless it is hidden, in a skipped directory, or a `.mod.c` file |
| `DirHash.ModuleRetained` | build-pipeline/common.py:238-252 | Sources of `kernel/`, by name, enter the digest |
| `DirHash.SdkRetained` | build-pipeline/common.py:238-252 | Sources of `sdk/`, by name, enter the digest |
| `DirHash.TestsRetained` | build-pipeline/common.py:238-252 | Sources of `test/`, by name, enter the digest, although the programs made from them do not |
| `DirHash.RestRetained` | build-pipeline/common.py:238-252 | Files of `daemon/`, `s6/`, `profiles/`, the pipeline and `configuration_setup/`, by name, enter the digest |
| `DirHash.EditShows` | build-pipeline/common.py:250-261 | Whatever the paths in it: a directory in which one retained file has another digest has another digest |
| `DirHash.AdditionShows` | build-pipeline/common.py:250-261 | Whatever the paths in it: a directory with one retained file more has another digest |
| `DirHash.RelPathShows` | build-pipeline/common.py:246-252 | Two files have the same relative path if and only if they are in the same directory under the same name |
| `Analyzer.Analyze` | build-pipeline/common.py:312-342 | Reports each of the six stages by its own key and its marker file, with no files to compile when cached and the counted ones otherwise; the total is the sum of the six, and 0 if and only if every stage is reported "Cached", provided each has sources |
| `Analyzer.ReportedIffRestores` | build-pipeline/common.py:300-342 | For the five stages with one artifact: reported "Cached" if and only if the stage would restore and the tarballs or directory behind its key are there |
| `Analyzer.SdkReported` | build-pipeline/common.py:333-338 | The SDK stage restores if and only if it is reported "Cached" and the four artifacts the analyzer ignores are cached as well |
| `QemuLog.StreamConserved` | build-pipeline/common.py:3137-3179 | At every moment of every interleaving, sent chunks, the chunk in flight, the batch and the character in hand spell exactly the characters read |
| `QemuLog.RollingWindow` | build-pipeline/common.py:3172-3175 | At every moment of every interleaving the rolling buffer is the end of what has been logged: all of it up to 200000 characters, then cut to 100000 each time it would have been longer, so that its length is known exactly |
| `QemuLog.LateJoinHasNoGap` | build-pipeline/common.py:2666-2674 | For a client that registered at any moment, its initial log and its chunks together are one gap-free stretch of the stream, up to at least the last chunk handed out |
| `QemuLog.StepKeeps` | build-pipeline/common.py:3137-3179 | Every step of the reader, the flusher and the clients keeps conservation, the window, the client list and each client's contiguous view |
| `QemuLog.InvAlways` | build-pipeline/common.py:3137-3179 | All of that holds after every interleaving |
| `QemuLog.TailDelivered` | build-pipeline/common.py:3152-3179 | When both threads have ended: every character read was sent, and each remaining client got the whole stream from its start, if and only if no character was put into the batch after the flusher's last flush; otherwise what is left in the batch is one character |
| `QemuLog.BatchIffLate` | build-pipeline/common.py:3139-3143 | At every moment the batch is non-empty if and only if a character was appended after the batch was last taken |
| `QemuLog.TailCanBeStranded` | build-pipeline/common.py:3152-3159 | The last flush can come between the reader's last read and its last append, so that a character stays in the batch after both threads ended |
| `QemuLog.Session.ReadChar` | build-pipeline/common.py:3169 | A character read is in the reader's hand and part of the stream |
| `QemuLog.Session.AppendToLog` | build-pipeline/common.py:3172-3175 | The critical section under `qemu_lock` is the model's logging step |
| `QemuLog.Session.AppendToBatch` | build-pipeline/common.py:3176-3177 | The critical section under `qemu_batch_lock` is the model's batching step |
| `QemuLog.Session.TakeTheBatch` | build-pipeline/common.py:3139-3143 | The flusher takes the whole batch, or with nothing to take ends or goes on |
| `QemuLog.Session.NoticeExit` | build-pipeline/common.py:3156-3158 | Once the flusher finds the guest gone one last flush follows |
| `QemuLog.Session.Poll` | build-pipeline/common.py:3165-3167 | The reader's poll, after which it ends if the guest is gone |
| `QemuLog.Session.PutChunk` | build-pipeline/common.py:3146-3150 | One put: the chunk goes to the head of the copied client list, and to nobody else |
| `QemuLog.Session.SendToClients` | build-pipeline/common.py:3144-3150 | Undisturbed, the send loop gives the chunk once to each client that was in the list when it was copied |
| `QemuLog.Session.Register` | build-pipeline/common.py:2666-2667 | A new client joins the list with an empty queue |
| `QemuLog.Session.InitialLog` | build-pipeline/common.py:2673-2674 | The initial log is the rolling buffer at that moment |
| `QemuLog.Session.Unregister` | build-pipeline/common.py:2726-2727 | A leaving client is taken out of the list |
| `Pager.LiveBlocksHaveOneOwner` | kernel/pager/_page_pr.c:21-148 | Over all interleavings of allocate, free and cleanup: a live block is tracked or held by exactly one unfinished call, never both, and tracked blocks do not overlap |
| `Pager.OverlapIff` | kernel/pager/_page_pr.c:21-31 | Two blocks of 4 KiB pages overlap if and only if they share an address |
| `Pager.PagesMultiply` | kernel/pager/_page_pr.c:21-31 | A block of order n has two to the n pages |
| `Pager.ReleasedOnce` | kernel/pager/_page_pr.c:117-118 | Grants are releases plus live blocks, as multisets: nothing is released twice or with another order than it was granted with, and a block about to be released is live and untracked |
| `Pager.CleanupReleasesAll` | kernel/pager/_page_pr.c:134-148 | When a cleanup ends and no call is under way, everything granted has been released |
| `Pager.FreeFindsIff` | kernel/pager/_page_pr.c:104-114 | `page_pr_free` finds a node if and only if the address is tracked, and the node is then unique |
| `Pager.LooksAtOwnIff` | kernel/pager/_page_pr.c:54-67 | Over all interleavings: the node at the head is the one a caller added if and only if it is still tracked and every later one has been unlinked again |
| `Pager.ReportsOwnIff` | kernel/pager/_page_pr.c:74-87 | Over all interleavings: `page_pr_allocate_at` reports its own address if and only if its node is the newest tracked one, or its node is gone and the newest tracked one was added later for the same pages |
| `Pager.AgesTracked` | kernel/pager/_page_pr.c:45-47 | The nodes in the list are exactly those whose block no step has unlinked since they were added |
| `Pager.LastAddressMayBeAnothers` | kernel/pager/_page_pr.c:74-87 | For any two disjoint blocks: an interleaving of two allocations, from the start, in which the first caller is told the other's address |
| `Pager.StepKeeps` | kernel/pager/_page_pr.c:21-148 | Every step of every thread keeps ownership, disjointness, the accounts and the mutex discipline |
| `Pager.InvAlways` | kernel/pager/_page_pr.c:21-148 | They hold after every interleaving |
| `Pager.Tracker.Add` | kernel/pager/_page_pr.c:45-48 | Adding the node is the model's step of the calling thread |
| `Pager.Tracker.LastAddress` | kernel/pager/_page_pr.c:54-67 | Looking at the head is the model's step, and the thread has been told the address returned |
| `Pager.Tracker.Find` | kernel/pager/_page_pr.c:104-115 | The search is the model's unlinking step: found if and only if the address is tracked, and then the thread holds that node |
| `Pager.Tracker.Cleanup` | kernel/pager/_page_pr.c:140-147 | Unlinks and releases every node once, in list order, as a sequence of steps of the model each of which could be taken |
| `Sandbox.GrantedIffFitsIffNoWrap` | sdk/c/src/pronze.c:154-161 | For every offset in the pool and every size: the machine test agrees with "the rounded size still fits" if and only if no addition wraps |
| `Sandbox.AllocationsSound` | sdk/c/src/pronze.c:132-172 | After any requests that cannot wrap: the offset is the sum of the rounded sizes and at most 4 MiB; blocks are 8-aligned and disjoint, and each of their bytes is a valid access |
| `Sandbox.SucceedsIffFits` | sdk/c/src/pronze.c:146-163 | At any failure rate, after any such requests, a request succeeds if and only if the rate is 0 or the roll modulo 100 is not below it, and its rounded size still fits into the 4 MiB; the new block is at the current offset, and a refused request changes nothing |
| `Sandbox.RateIsLastSet` | sdk/c/src/pronze.c:115-129 | The failure rate is the last one set within 0 and 100; no other request changes it |
| `Sandbox.FaultsPerHundred` | sdk/c/src/pronze.c:138-144 | Of the hundred remainders a roll can have, exactly as many inject a fault as the rate says |
| `Sandbox.HugeRequestGranted` | sdk/c/src/pronze.c:154-161 | A request of SIZE_MAX bytes is granted and gets no room of its own |
| `Sandbox.AccessByZone` | sdk/c/src/pronze.c:206-225 | 0 exactly in the pool, -1 exactly in the two guard zones, -2 exactly elsewhere |
| `Sandbox.RoundUpIsLeast` | sdk/c/src/pronze.c:154 | The rounding gives the least multiple of 8 that is not below the size |
| `Sandbox.MaskClearsLowBits` | sdk/c/src/pronze.c:154 | Masking with the complement of 7 subtracts the remainder by 8 |
| `Sandbox.PronzeContext.Init` | sdk/c/src/pronze.c:20-68 | Kernel mode if the device opens, otherwise the pool 2 MiB inside an 8 MiB mapping, or -1 without one |
| `Sandbox.PronzeContext.EnableAllocationFailure` | sdk/c/src/pronze.c:115-129 | Rates from 0 to 100 are set, others refused without effect; in kernel mode the answer is -1 as well when the driver does not take the rate |
| `Sandbox.PronzeContext.PronzeMalloc` | sdk/c/src/pronze.c:132-172 | In simulation mode one step of the specification, with null on an injected fault or a full pool; in kernel mode what `malloc` gives, or null on a fault, with the outcome told to an open driver |
| `Sandbox.PronzeContext.PronzeFree` | sdk/c/src/pronze.c:175-193 | In simulation mode accepted if and only if the pointer is a valid access, in kernel mode passed to `free`; nothing in the context changes |
| `Sandbox.PronzeContext.SimulateAccess` | sdk/c/src/pronze.c:196-226 | The specified zone in simulation mode; the poison address and null alone fault otherwise |
| `Ansi.HtmlCorrect` | build-pipeline/common.py:1766-1842 | For every text each tag of the output is `</span>` or a span with one quoted style or class, the spans are balanced, and erasing tags and decoding entities gives the text with exactly its SGR sequences removed |
| `Styling.StyledCorrect` | build-pipeline/common.py:1772-1842 | For every text, the page shows each character outside SGR sequences in exactly the styles that the sequences since the last reset before it give, in order, and shows nothing else |
| `Styling.ResetSplits` | build-pipeline/common.py:1776-1782 | Wherever `ESC[m` or `ESC[0m` stands, all open spans are closed there, and the text after it is marked up as if it stood alone |
| `Styling.SgrIff` | build-pipeline/common.py:1772-1775 | A sequence is ESC, "[", digits and semicolons, and "m", and its parameters are what is between |
| `Styling.SplitIff` | build-pipeline/common.py:1784 | The parameters are taken apart at every semicolon, and there only |
| `Styling.NumberIs` | build-pipeline/common.py:1787 | Each code is read as a decimal number |
| `Styling.StyleJoins` | build-pipeline/common.py:1784-1828 | The style of a list of codes is the styles of the codes one after the other |
| `Styling.PlainCodes` | build-pipeline/common.py:1788-1828 | 1 is bold, 3 italic, 4 underlined, 39 and 49 inherit; every code outside the colour ranges gives no style |
| `Styling.ColorCodes` | build-pipeline/common.py:1788-1828 | The eight text colours 30 to 37 |
| `Styling.BackgroundCodes` | build-pipeline/common.py:1788-1828 | The eight background colours 40 to 47 |
| `Styling.BrightCodes` | build-pipeline/common.py:1788-1828 | The eight bright text colours 90 to 97 |
| `Styling.BrightBackgroundCodes` | build-pipeline/common.py:1788-1828 | The eight bright background colours 100 to 107 |
| `Ansi.LogLineCorrect` | build-pipeline/common.py:1845-1869 | For every line each tag of the marked-up line is `</span>` or a span with one quoted style or class, the spans are balanced, and it shows the line without its SGR sequences |
| `LogMarks.LineMarked` | build-pipeline/common.py:1845-1869 | A line that begins, after opened spans, with a bracketed time or mark gets the span class of that mark around the prefix, and for "✔", "x" and "!" a second one around the rest |
| `LogMarks.OthersStay` | build-pipeline/common.py:1845-1869 | Every other line is left as colouring made it |
| `LogMarks.SpacesAre` | build-pipeline/common.py:1855-1867 | The white space that the rules allow, character by character |
| `Ansi.RewriteCorrect` | build-pipeline/common.py:1855-1867 | Each of the six rewrite rules keeps balance and visible text, although the captured tail may close spans opened in the captured head |
| `Ansi.EscapeEncodes` | build-pipeline/common.py:1767-1770 | The three replacement passes escape character by character, with nothing escaped twice |
| `Ansi.EncodedKeepsSgr` | build-pipeline/common.py:1767-1772 | Escaping neither makes nor breaks an SGR sequence, and keeps its parameters |
| `Ansi.RawCorrect` | build-pipeline/common.py:1775-1842 | From any number of open spans, the replaced text closes all of them and shows the stripped text |
| `Ansi.AnsiToHtml` | build-pipeline/common.py:1766-1842 | The page's function returns the specified markup, balanced and with the right visible text; `Styling.StyledCorrect` says in which styles |
| `Ansi.ParseLogLine` | build-pipeline/common.py:1845-1869 | The page's function applies the first rule that matches, and keeps balance and visible text; `LogMarks.LineMarked` says what the markup is |
| `Ansi.ReplaceSequences` | build-pipeline/common.py:1772-1842 | The replacement with its counter of open spans, and the closing loop |
| `Ansi.BuildStyle` | build-pipeline/common.py:1784-1828 | The loop over the codes of one sequence |
| `Ansi.CloseAll` | build-pipeline/common.py:1776-1782 | The loop that closes every open span |

## Left out

- Histories.IncrementalEqualsClean: is about careful runs over determined versions; for other versions `SafeVersionsIff`, for stages that fail with leave `LeaveKeepsPromisesIff`, and for stale live files `RepackageExact` say exactly when the claim fails.
- BuildRun.CompleteDelivers: claims the image only; an early exit may leave live binaries of another version in the workspace and in the output directory. After a packaging stage has failed with leave the image is the staged one (`StagedIsShipped`), of whose contents nothing is claimed.
- BuildSafety.StageSafe: for whole source trees that are there, as `PartialSafe` provides in every run that is orderly; `RestoredKernelIff` and `ModuleSafeIff` say exactly what happens otherwise.
- QuietBuilds.NoOpRebuild: takes unchanged inputs as unchanged digests; `DirHash.ExcludedFilesDoNotMatter` is the step from the stages' own output files to that.
- DirHash.DigestIsCanonical: the direction from equal digests to equal sets is for paths that hide no record; `DigestsAgreeIff` is the statement for all paths.
- DirHash.DecodeEncodeIff: a file digest is any non-empty string without a newline or a colon, where the program's are 64 hexadecimal digits; a path hides a record when what follows one of its colons, up to a newline, is such a string.
- Pager.Tracker.Find: the intrusive list is a sequence, so pointer surgery and `kfree` of nodes are not captured.
- QemuLog.LateJoinHasNoGap: one guest session; a second session starts with whatever the first left in the batch.
- QemuLog.Session.SendToClients: is about a send loop that no other thread interrupts; with interruptions the loop is a sequence of `PutChunk` steps, and `LateJoinHasNoGap` and `TailDelivered` say what clients get.
- Sandbox.PronzeContext.PronzeMalloc: what the C library's heap does in kernel mode is a parameter, and null contexts are not modelled.
- Ansi.AnsiToHtml: works on characters where the page works on UTF-16 units, and on exact numbers where `parseInt` rounds very long codes; neither changes which codes are styled.
- Ansi.ParseLogLine: the regular expressions are matched by their parts, with the white space and line ends of JavaScript.
- Analyzer.Analyze: how source files and tarball members are counted is a parameter; missing version settings, which the stages reject and the analyzer replaces by a default, are not modelled.
- MainPipeline.Launch: starts from an empty status table; the recursion limit of Python is not modelled.
- Workbench.Bench.RunCompile: the six `run` methods share one body with the stage as parameter, and the commands that compile one artifact are one operation. The work of `make modules_prepare` is part of compiling the module, fetching the headers with git counts as unpacking their tarball, and the binaries that the S6 stage has installed are one file.
- Workbench.Bench.RunExtractTarballs: a tarball that is missing or damaged is an unpacking that fails.
- What compiling leaves in a source tree besides the kernel's configuration and the live outputs: object files, and BusyBox's own configuration, are taken not to change what a later compilation gives; nor is the script that BusyBox takes from the kernel's tree taken to differ between versions.
- The master key is computed afresh where the program keeps it in `context.master_hash`; `hashes.json` and the diff report made from it are for display only.
- The hashes written to `hashes.json` at the end of a run, archives of past builds, build numbers, statistics and elapsed times.
- Shell commands, compilers, git, tar, downloads and partitioning: abstract operations that may fail.
- Deletions by `clean.sh` and similar scripts, and changes to extracted source trees between runs.
- Two build requests accepted at once, which the handlers do not exclude.
- The state messages of the event stream, whose order is not guaranteed, and HTTP, authentication and page layout.
- Starting and stopping QEMU, the daemon's protocol, driver counters, and the Rust and Zig placeholders.
