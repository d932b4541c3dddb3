# tars2squashfs batch-and-merge controller in Dafny

This project models the core of `tars2squashfs`, a converter that folds a
directory of `.tar.gz` shards into one SquashFS image. It keeps only a
bounded number of files on disk while it works. The converter object
(`SquashFSBuilder`) does the following:

- it extracts every regular file of an archive into a staging directory;
- when merging of duplicate top-level directories is on, it routes files
  with a top-level key below `merged/`;
- it counts files per batch and in total;
- it appends the current content root to the image whenever the batch
  counter reaches the batch size, and once more at the end of an archive;
- it deletes and recreates that root after each batch append;
- it keeps a run-wide set of the top-level names it has seen.

Layout:

- `text.dfy` (module `Text`): substring search and suffix test on strings.
- `paths.dfy` (module `Paths`): member paths as sequences of segments, and
  the top-level key `TopLevelDir`.
- `commit_errors.dfy` (module `CommitErrors`): classification of a failed
  append run by its exit status and diagnostic text.
- `discovery.dfy` (module `Discovery`): selection and ordering of the
  input archives.
- `batching.dfy` (module `Batching`): the controller as functions on a
  `State` value. These are the placement, counting, batch boundary, first
  pass, archive and whole-run steps.
- `batching_props.dfy` (module `BatchingProps`): lemmas about those
  functions.
- `builder.dfy` (module `Builder`): the class `SquashFSBuilder` with the
  source's fields. Its methods update the fields in place, and each one is
  proved to leave the object in the state that the matching `Batching`
  function computes.
- `scenarios.dfy` (module `Scenarios`): whole runs on small concrete
  archives.

Modelling choices:

- A member path is its sequence of path segments. A tree of files is a
  `map` from path to content.
- The staging directory is two trees: `staging` holds the files directly
  in the extraction directory, and `merged` holds the content of the merge
  root (`merged/`). A flag says whether that merge root lies inside the
  current extraction directory, and a set records the key directories the
  streaming setup created in it.
- The image is not modelled. Instead a ghost log records every call into
  the image tool: `InitImage` or `Append(root)`, where `root` is a
  snapshot of the directory handed to it. In a dry run the same calls are
  made, but the source turns them into no-ops. The log therefore counts
  calls, not changes to the image.
- An archive is the sequence of its members. Each member has a kind
  (regular file, directory, other), a path and content.
- A move that raises (`shutil.move` onto an existing file inside a
  directory) propagates out of the archive and out of the run. The state
  records it in an `aborted` flag. After it no member, archive or append
  is processed, and the staging directory of the failing archive is
  still removed.
- `Config.hasTempDir` says whether a fixed staging directory
  (`--temp-dir`) is configured. Otherwise each archive gets a fresh
  temporary directory.

Kept as the code has it:

- With merging on, a file at the archive root without a key (such as
  `readme.txt`) is written to the extraction directory beside `merged/`.
  Once `merged/` is set, though, every append takes `merged/` alone. Such a
  file is then in no append, and it stays in staging across batch resets
  (`Scenarios.KeylessFileStranded`). So after a commit only the committed
  root is empty (`BatchingProps.BoundaryEmptiesRoot`,
  `BatchingProps.StagingBounded`).
- A root file without a dot in its name (such as `LICENSE`) is its own
  key. In streaming mode `setup_merge_directory` first creates
  `merged/LICENSE/`, so the move puts the file at `merged/LICENSE/LICENSE`
  (`Scenarios.RootFileIntoOwnDirectory`). A second such file in the same
  batch makes the move raise, which ends the run
  (`Scenarios.RepeatedRootFileAborts`, `BatchingProps.StepAborts`). The
  memory-efficient mode has no such setup and writes `merged/LICENSE`.
- In streaming mode a dry run skips the append at the batch boundary but
  still resets the counter. The memory-efficient mode makes that append
  call even in a dry run. In both modes the end-of-archive append call is
  made (`BatchingProps.ArchiveAppendCount`).
- In streaming mode a dry run still sets the merge base, through
  `setup_merge_directory`. The memory-efficient mode sets it only when it
  writes a file.
- The memory-efficient mode does not clear the merge base at the start of
  an archive. An archive whose first batch holds only root files therefore
  appends the merge root of the previous archive
  (`Scenarios.MergeBaseCarriesOver`). With the default fresh temporary
  directory per archive, that merge root lies in an earlier, already
  removed directory. The first keyed file recreates it there, and nothing
  removes it again until a batch boundary moves the merge base back into
  the current directory. Its files therefore reach the appends of later
  archives (`BatchingProps.StaleMergeRootLeftBehind`,
  `Scenarios.StaleMergeRootCarriesOver`). With a fixed `--temp-dir` the
  same path is removed at the end of every archive.
- The seen set of top-level names is only logged. It never affects where
  a file goes (`BatchingProps.SeenNeverRoutes`).

## Model

| member | source | states |
|---|---|---|
| `Paths.TopLevelDir` | src/tars2squashfs/main.py:142-152 | no key for an empty path or for a single segment containing a dot; otherwise the key is the first segment |
| `Text.ContainsText` | src/tars2squashfs/main.py:129-129 | the scan answers true exactly when the text occurs somewhere in the string |
| `CommitErrors.Classify` | src/tars2squashfs/main.py:122-131 | timeout, success, out-of-space and generic failure, each exactly in its case; out-of-space exactly for a non-zero exit whose diagnostic contains "No space left on device"; a generic failure keeps the diagnostic |
| `CommitErrors.SpaceMarkerAnywhere` | src/tars2squashfs/main.py:127-130 | a failing run whose diagnostic contains the marker anywhere is classified as out of space |
| `Discovery.SelectArchives` | src/tars2squashfs/main.py:402-410 | keeps exactly the listed names that end in `.tar.gz` or `.tgz` and do not contain `temp`, each as often as listed, and nothing else |
| `Discovery.SortNames` | src/tars2squashfs/main.py:412-412 | the result is ascending in code-point order and a permutation of the input |
| `Discovery.FindArchives` | src/tars2squashfs/main.py:400-412 | ascending, and it holds exactly the archive names of the listing, each as many times as listed |
| `Discovery.SortedUnique` | src/tars2squashfs/main.py:412-412 | two ascending permutations of the same names are equal |
| `Discovery.FindArchivesIgnoresListingOrder` | src/tars2squashfs/main.py:400-412 | two listings of the same names in any order give the same archives in the same order |
| `Batching.RunMembersStopped` | src/tars2squashfs/main.py:257-286 | once a move has raised, the rest of the archive's members change nothing, so the pass can stop there |
| `Batching.RunArchivesStopped` | src/tars2squashfs/main.py:385-391 | once an archive has raised, the later archives change nothing, so the run can stop there |
| `BatchingProps.MemberCounters` | src/tars2squashfs/main.py:171-218 | a regular file adds one to the total and one to the batch counter (which restarts at zero on reaching the batch size); a move that raises changes no counter, tree or log; any other member, or any member after a raise, changes nothing |
| `BatchingProps.StepAborts` | src/tars2squashfs/main.py:154-169 | a move raises exactly for a routed root file whose name is a key directory of the merge root (always so in streaming mode) that already holds a file of that name |
| `BatchingProps.BatchBound` | src/tars2squashfs/main.py:204-218 | with batch size at least 1 the counter stays below it after each member; reaching it appends the current root exactly once, except in a dry streaming run or when the move raised |
| `BatchingProps.BoundaryEmptiesRoot` | src/tars2squashfs/main.py:207-217 | a batch commit appends the current root (`merged/` when merging and set, else the extraction directory), leaves that root empty, zeroes the counter, keeps the merge base and moves it into the current extraction directory |
| `BatchingProps.Placement` | src/tars2squashfs/main.py:175-199 | a file goes below `merged/` exactly when merging is on and it has a key, otherwise to `<staging>/<name>`, overwriting whatever was there; a root file whose name is a key directory goes into that directory, and raises if the directory already holds its name; the other tree is untouched |
| `BatchingProps.StepCounts` | src/tars2squashfs/main.py:355-370 | one member, starting from the remainder of x files: the log only grows by appends; unless the move raised, the counter becomes the remainder of the new count and the appends grow by the number of completed batches |
| `BatchingProps.RunMembersCounts` | src/tars2squashfs/main.py:257-264 | over the extraction pass the log only grows by appends; unless a move raised, the counter ends at (start + files) mod B and one append is made per full batch (none in a dry streaming run) |
| `BatchingProps.ArchiveAppendCount` | src/tars2squashfs/main.py:224-279 | one archive adds only appends to the log; unless it raised, N files with B at least 1 make ceil(N/B) appends (only N mod B > 0 ? 1 : 0 in a dry streaming run) and N files are counted |
| `BatchingProps.StepKeepsOthers` | src/tars2squashfs/main.py:186-199 | without a batch boundary, a member leaves every file at a path other than its own name as it was, unless it raises |
| `BatchingProps.LastWriterWins` | src/tars2squashfs/main.py:186-194 | after a file is placed, its destination holds its content at the path it was written to until a later file is written to that path or a batch boundary comes, whatever it held before, unless the run raises |
| `BatchingProps.TopsOfMembers` | src/tars2squashfs/main.py:235-240 | the first pass collects exactly the non-empty keys of the archive's regular files and directories |
| `BatchingProps.RunMembersIgnoresSeen` | src/tars2squashfs/main.py:257-264 | the extraction pass neither reads nor changes the seen set |
| `BatchingProps.ArchiveSeen` | src/tars2squashfs/main.py:297-311 | after an archive the seen set is the old set joined with the archive's keys when merging (and the run has not raised), unchanged otherwise, and never smaller |
| `BatchingProps.SeenNeverRoutes` | src/tars2squashfs/main.py:242-248 | two states differing only in the seen set give results differing only in the seen set |
| `BatchingProps.StepKeepsBounded` | src/tars2squashfs/main.py:321-370 | one member keeps the staging invariant, and the root to be appended holds no more files than the counter |
| `BatchingProps.RunMembersBounded` | src/tars2squashfs/main.py:313-370 | the staging invariant holds after every member of an extraction pass |
| `BatchingProps.ArchiveStartsAndEndsEmpty` | src/tars2squashfs/main.py:224-230 | an archive whose merge root lies in its own staging directory starts from an empty, bounded staging directory and leaves none behind |
| `BatchingProps.RunMembersKeepsMerged` | src/tars2squashfs/main.py:313-356 | without a batch boundary the extraction pass removes no file from the merge root and keeps a set merge base where it is |
| `BatchingProps.StaleMergeRootLeftBehind` | src/tars2squashfs/main.py:42-62 | in memory-efficient mode with a fresh temporary directory per archive, a kept merge base lies outside the archive's directory: an archive that fills no batch keeps every file already there and leaves them behind |
| `BatchingProps.RunArchivesCounts` | src/tars2squashfs/main.py:385-391 | processing archives in order adds only appends; unless one raised, it adds their file counts to the total and makes the sum of their append counts |
| `BatchingProps.BuildCounts` | src/tars2squashfs/main.py:377-393 | a run creates the image exactly once and first, then makes only appends; unless it raised, as many as its archives need, and the total grows by all their files |
| `BatchingProps.BuildNeverAborts` | src/tars2squashfs/main.py:171-199 | without merging, or in memory-efficient mode, no move raises, so a run never aborts |
| `Scenarios.TwoShardsMerged` | src/tars2squashfs/main.py:220-279 | two shards under `data/`, batch size 2, merging on: one append of `data/1.bin` and `data/2.bin`, then one of `data/3.bin`; three files; seen set `{data}` |
| `Scenarios.KeylessFileStranded` | src/tars2squashfs/main.py:197-208 | with merging on, a root file placed after a keyed file reaches no append of its archive |
| `Scenarios.MergeBaseCarriesOver` | src/tars2squashfs/main.py:288-325 | the memory-efficient mode appends the empty merge root for a second archive holding only a root file, while the streaming mode appends the file |
| `Scenarios.RootFileIntoOwnDirectory` | src/tars2squashfs/main.py:154-194 | streaming mode appends a root file `LICENSE` as `LICENSE/LICENSE`, the memory-efficient mode as `LICENSE` |
| `Scenarios.RepeatedRootFileAborts` | src/tars2squashfs/main.py:186-194 | a second root file `LICENSE` in one streaming batch raises: the run aborts after one counted file and no append |
| `Scenarios.AbortEndsRun` | src/tars2squashfs/main.py:385-391 | after an archive raises, the run's result is that archive's result: later archives are not processed |
| `Scenarios.StaleMergeRootCarriesOver` | src/tars2squashfs/main.py:288-375 | memory-efficient mode, three archives of one keyed file each: by default the third append holds the second and third files, with a fixed staging directory only the third |
| `Builder.SquashFSBuilder.constructor` | src/tars2squashfs/main.py:28-40 | zero counters, an empty seen set, no merge base, empty staging, no raise and an empty call log |
| `Builder.SquashFSBuilder.InitializeImage` | src/tars2squashfs/main.py:87-102 | records one image creation |
| `Builder.SquashFSBuilder.AppendToImage` | src/tars2squashfs/main.py:104-131 | records one append of the given root |
| `Builder.SquashFSBuilder.SetupMergeDirectory` | src/tars2squashfs/main.py:154-169 | sets the merge base only when merging is on and the key is present, creates the key directory outside a dry run, and answers whether the file goes below it |
| `Builder.SquashFSBuilder.MoveToMergeBase` | src/tars2squashfs/main.py:175-194 | moves the file below the merge base, into the key directory for a root file that names one, or raises when that directory already holds it |
| `Builder.SquashFSBuilder.PlaceFile` | src/tars2squashfs/main.py:174-199 | writes a file below the merge base or into the extraction directory, as `Place` says; nothing outside a dry run |
| `Builder.SquashFSBuilder.CommitAndReset` | src/tars2squashfs/main.py:207-217 | appends the current root, then empties `merged/` and puts it in the current extraction directory when merging with a merge base, else empties the whole staging directory |
| `Builder.SquashFSBuilder.ProcessTarMember` | src/tars2squashfs/main.py:171-218 | leaves the object in the state `TarMember` gives: placement or a raise, both counters, and the boundary append and reset outside a dry run |
| `Builder.SquashFSBuilder.CollectTopDirs` | src/tars2squashfs/main.py:234-248 | joins the archive's keys to the seen set |
| `Builder.SquashFSBuilder.StreamingPass` | src/tars2squashfs/main.py:257-265 | leaves the object in the state `RunMembers` gives in streaming mode, stopping at a raise |
| `Builder.SquashFSBuilder.FinishArchive` | src/tars2squashfs/main.py:276-279 | the final partial-batch append unless a move raised, then the removal of the staging directory, with the merge root when it lies inside |
| `Builder.SquashFSBuilder.ProcessArchiveStreaming` | src/tars2squashfs/main.py:220-286 | leaves the object in the state `ProcessArchive` gives in streaming mode |
| `Builder.SquashFSBuilder.MemoryEfficientMember` | src/tars2squashfs/main.py:315-370 | leaves the object in the state `EfficientMember` gives: placement or a raise, both counters, and the boundary append (also in a dry run) and reset |
| `Builder.SquashFSBuilder.MemoryEfficientPass` | src/tars2squashfs/main.py:313-370 | leaves the object in the state `RunMembers` gives in memory-efficient mode, stopping at a raise |
| `Builder.SquashFSBuilder.ProcessArchiveMemoryEfficient` | src/tars2squashfs/main.py:288-375 | leaves the object in the state `ProcessArchive` gives in memory-efficient mode, including a merge root kept outside the fresh staging directory |
| `Builder.SquashFSBuilder.BuildFromArchives` | src/tars2squashfs/main.py:377-393 | leaves the object in the state `Build` gives: one image creation, then the archives in order until one raises |

## Left out

- The `mksquashfs` command lines, compression flags, `-noappend` and `check_tools`: these belong to an external program. Creating the image and appending to it are entries in a ghost log.
- Builder.SquashFSBuilder.AppendToImage: never fails. A failing or timed-out run would raise and abort the whole conversion; the model does not include that path. The outcome of a run is classified separately by `CommitErrors.Classify`, which takes the timeout as a boolean input.
- Archive decoding (`tarfile`), the `data_filter` extraction filter, corrupt-archive errors and the re-open for the second pass: an archive is a given sequence of members, and reading it never fails.
- `temp_directory` (`mkdtemp`/`rmtree`): a fresh temporary directory and a fixed `--temp-dir` are both modelled by `Config.hasTempDir`; a fixed directory is assumed to start empty, and the temporary directory's name is not modelled.
- The `temp_extract` scratch directory used for moves: it is modelled as a direct write. A member whose own path lies under `temp_extract/` would collide with it; that case is not modelled.
- Whether a directory exists: a merge root that was removed and not yet recreated is modelled as an empty tree. In reality `mksquashfs` would be handed a directory that may be missing.
- Conflicts between a file and a directory of the same path other than the key directories of the streaming setup (for example `a/b` and then `a/b/c`, or in memory-efficient mode `data/x` and then a root file `data`): paths are keys of a map, so such members do not clash in the model.
- Builder.SquashFSBuilder.ProcessArchiveStreaming, Builder.SquashFSBuilder.ProcessArchiveMemoryEfficient, Builder.SquashFSBuilder.BuildFromArchives: require that no move has raised yet; the `aborted` flag stands for the exception that propagates out of the call, which the caller never continues from.
- BatchingProps.ArchiveStartsAndEndsEmpty: stated only when the archive's merge root lies in its own staging directory (streaming mode, a fixed `--temp-dir`, or no merge base yet); the other case is `StaleMergeRootLeftBehind`.
- BatchingProps.LastWriterWins, BatchingProps.StepCounts, BatchingProps.RunMembersCounts, BatchingProps.ArchiveAppendCount, BatchingProps.RunArchivesCounts, BatchingProps.BuildCounts: the counts are stated for runs that do not raise; a raising run only appends (and `BuildNeverAborts` says when none can raise).
- Path normalisation by `Path(...).parts`: member paths are given already split into segments.
- `check_disk_space`, the debug size checks, progress bars, the per-archive file count used for logging, the dry-run file count, the duplicate-directory log message and all other logging: these are I/O or output only.
- `main()`: argument parsing, output-directory checks and exit codes are command-line glue. `src/tars2squashfs/__init__.py` holds only version metadata.
- The sum of files over one archive's appends is not stated. Overwrites within a batch and root files stranded beside `merged/` make it differ from the file count.
