/** The converter object: it owns the batch counter, the running total,
    the seen set of top-level names, the merge base and the staging
    directory, and updates them member by member. Every method is proved
    to leave the object in the state the matching function of module
    Batching computes, so the lemmas of BatchingProps hold of it. */
module Builder {

  import opened Paths
  import opened Batching

  class SquashFSBuilder {
    const batchSize: int
    const mergeDuplicates: bool
    const dryRun: bool
    /** Whether a fixed staging directory was configured. */
    const hasTempDir: bool

    var filesInBatch: nat
    var totalFiles: nat
    var seenTopDirs: set<string>
    /** Whether the merge base directory is set. */
    var mergeBaseSet: bool
    /** Whether the merge base lies inside the current staging directory. */
    var mergedInStaging: bool
    /** The staging directory outside `merged/`. */
    var staging: Tree
    /** The content of the merge root. */
    var merged: Tree
    /** The key directories the merge setup created in the merge root. */
    var mergedDirs: set<string>
    /** Whether a move raised; the error ends the run. */
    var aborted: bool
    /** The calls made into the image tool, in order. */
    ghost var log: seq<Event>

    function Cfg(): Config {
      Config(batchSize, mergeDuplicates, dryRun, hasTempDir)
    }

    ghost function Abs(): State
      reads this
    {
      State(filesInBatch, totalFiles, seenTopDirs, mergeBaseSet, mergedInStaging, staging, merged, mergedDirs, aborted, log)
    }

    constructor(batchSize: int, mergeDuplicates: bool, dryRun: bool, hasTempDir: bool)
      ensures Cfg() == Config(batchSize, mergeDuplicates, dryRun, hasTempDir)
      ensures Abs() == Initial
    {
      this.batchSize := batchSize;
      this.mergeDuplicates := mergeDuplicates;
      this.dryRun := dryRun;
      this.hasTempDir := hasTempDir;
      filesInBatch, totalFiles := 0, 0;
      seenTopDirs := {};
      mergeBaseSet, mergedInStaging := false, true;
      staging, merged := map[], map[];
      mergedDirs := {};
      aborted := false;
      log := [];
    }

    /** Creates the empty image (a no-op in a dry run). */
    method InitializeImage()
      modifies this`log
      ensures Abs() == Initialize(old(Abs()))
    {
      log := log + [InitImage];
    }

    /** Appends the content of a directory to the image (a no-op in a dry
        run). Failures of the image tool are not modelled here. */
    method AppendToImage(root: Tree)
      modifies this`log
      ensures log == old(log) + [Append(root)]
    {
      log := log + [Append(root)];
    }

    /** Sets the merge base on first use for a file with a key and creates
        the key's directory in it (not in a dry run); answers whether the
        file goes below it. */
    method SetupMergeDirectory(top: Option<string>) returns (intoMerge: bool)
      modifies this`mergeBaseSet, this`mergedInStaging, this`mergedDirs
      ensures intoMerge == Routed(Cfg(), top)
      ensures Abs() == SetupMerge(Cfg(), old(Abs()), top)
    {
      if !mergeDuplicates || !IsKey(top) {
        return false;
      }
      if !mergeBaseSet {
        mergeBaseSet, mergedInStaging := true, true;
      }
      if !dryRun {
        mergedDirs := mergedDirs + {top.value};
      }
      return true;
    }

    /** Moves a file below the merge base, setting the base on first use.
        When `merged/<name>` is a directory the file goes into it, and a
        file already there makes the move raise. */
    method MoveToMergeBase(m: Member)
      modifies this`mergeBaseSet, this`mergedInStaging, this`merged, this`aborted
      ensures Abs() == MoveToMerged(old(Abs()), m)
    {
      if !mergeBaseSet {
        mergeBaseSet, mergedInStaging := true, true;
      }
      var dst := m.name;
      if |m.name| == 1 && m.name[0] in mergedDirs {
        dst := m.name + m.name;
        if dst in merged {
          aborted := true;
          return;
        }
      }
      merged := merged[dst := m.content];
    }

    /** Writes a regular file to its place, not in a dry run: below the
        merge base when merging is on and it has a key, otherwise into the
        extraction directory, replacing what was there. */
    method PlaceFile(m: Member, top: Option<string>)
      modifies this`mergeBaseSet, this`mergedInStaging, this`merged, this`aborted, this`staging
      ensures Abs() == Place(Cfg(), old(Abs()), m, top)
    {
      if !dryRun {
        if mergeDuplicates && IsKey(top) {
          MoveToMergeBase(m);
        } else {
          staging := staging[m.name := m.content];
        }
      }
    }

    /** Appends the current root, deletes it and recreates it empty. */
    method CommitAndReset()
      modifies this`log, this`staging, this`merged, this`mergedDirs, this`mergedInStaging
      ensures Abs() == ResetRoot(Cfg(), old(Abs()).(log := old(log) + [Append(CommitRoot(Cfg(), old(Abs())))]))
    {
      AppendToImage(if mergeDuplicates && mergeBaseSet then merged else staging);
      if mergeDuplicates && mergeBaseSet {
        merged, mergedDirs, mergedInStaging := map[], {}, true;
      } else {
        staging, merged, mergedDirs := map[], map[], {};
      }
    }

    /** The streaming per-member routine: places a regular file, counts it,
        and appends and resets at the batch boundary (not in a dry run). A
        move that raises ends it. */
    method ProcessTarMember(m: Member, top: Option<string>)
      modifies this
      ensures Abs() == TarMember(Cfg(), old(Abs()), m, top)
    {
      if m.kind == RegularFile {
        PlaceFile(m, top);
        if aborted {
          return;
        }
        filesInBatch := filesInBatch + 1;
        totalFiles := totalFiles + 1;
        if filesInBatch >= batchSize {
          if !dryRun {
            CommitAndReset();
          }
          filesInBatch := 0;
        }
      }
    }

    /** Folds the keys of the archive's files and directories into the
        seen set. */
    method CollectTopDirs(archive: Archive)
      modifies this`seenTopDirs
      ensures seenTopDirs == old(seenTopDirs) + TopsOf(archive)
    {
      var archiveTops: set<string> := {};
      for i := 0 to |archive|
        invariant archiveTops == TopsOf(archive[..i])
      {
        var member := archive[i];
        if member.kind == RegularFile || member.kind == Directory {
          var top := TopLevelDir(member.name);
          if IsKey(top) {
            archiveTops := archiveTops + {top.value};
          }
        }
        assert archive[..i + 1][..i] == archive[..i];
      }
      assert archive[..|archive|] == archive;
      seenTopDirs := seenTopDirs + archiveTops;
    }

    /** The streaming extraction pass over an archive's members; it stops
        at a move that raises. */
    method StreamingPass(archive: Archive)
      modifies this
      ensures Abs() == RunMembers(Cfg(), Streaming, old(Abs()), archive)
    {
      ghost var started := Abs();
      var i := 0;
      while i < |archive| && !aborted
        invariant 0 <= i <= |archive|
        invariant Abs() == RunMembers(Cfg(), Streaming, started, archive[..i])
      {
        var member := archive[i];
        if member.kind == RegularFile {
          var top := if mergeDuplicates then TopLevelDir(member.name) else None;
          if mergeDuplicates && IsKey(top) {
            var _ := SetupMergeDirectory(top);
          }
          ProcessTarMember(member, top);
        }
        assert archive[..i + 1][..i] == archive[..i];
        i := i + 1;
      }
      RunMembersStopped(Cfg(), Streaming, started, archive, i);
    }

    /** The end of an archive: the append of the last partial batch unless
        a move raised, then the removal of the staging directory, which
        takes the merge root with it when it lies inside. */
    method FinishArchive()
      modifies this`log, this`staging, this`merged, this`mergedDirs
      ensures Abs() == Discard(FinalCommit(Cfg(), old(Abs())))
    {
      if !aborted && filesInBatch > 0 {
        AppendToImage(if mergeDuplicates && mergeBaseSet then merged else staging);
      }
      if mergedInStaging {
        staging, merged, mergedDirs := map[], map[], {};
      } else {
        staging := map[];
      }
    }

    /** One archive in streaming mode: a fresh staging directory, the
        first pass when merging, the extraction pass and the end of the
        archive. Only called while the run has not aborted. */
    method ProcessArchiveStreaming(archive: Archive)
      requires !aborted
      modifies this
      ensures Abs() == ProcessArchive(Cfg(), Streaming, old(Abs()), archive)
    {
      staging, merged, mergedDirs, mergedInStaging := map[], map[], {}, true;
      filesInBatch := 0;
      if mergeDuplicates {
        mergeBaseSet := false;
      }
      if mergeDuplicates {
        CollectTopDirs(archive);
      }
      assert Abs() == Batching.FirstPass(Cfg(), Begin(Cfg(), Streaming, old(Abs())), archive);
      StreamingPass(archive);
      FinishArchive();
    }

    /** The body of the memory-efficient extraction loop for one member:
        a regular file is moved into place (not in a dry run) and counted;
        at the batch boundary the current root is appended even in a dry
        run, and deleted and recreated otherwise. */
    method MemoryEfficientMember(member: Member)
      modifies this
      ensures Abs() == EfficientMember(Cfg(), old(Abs()), member)
    {
      if member.kind == RegularFile {
        PlaceFile(member, if mergeDuplicates then TopLevelDir(member.name) else None);
        if aborted {
          return;
        }
        filesInBatch := filesInBatch + 1;
        totalFiles := totalFiles + 1;
        if filesInBatch >= batchSize {
          if !dryRun {
            CommitAndReset();
          } else {
            AppendToImage(if mergeDuplicates && mergeBaseSet then merged else staging);
          }
          filesInBatch := 0;
        }
      }
    }

    /** The memory-efficient extraction pass; it stops at a move that
        raises. */
    method MemoryEfficientPass(archive: Archive)
      modifies this
      ensures Abs() == RunMembers(Cfg(), MemoryEfficient, old(Abs()), archive)
    {
      ghost var started := Abs();
      var i := 0;
      while i < |archive| && !aborted
        invariant 0 <= i <= |archive|
        invariant Abs() == RunMembers(Cfg(), MemoryEfficient, started, archive[..i])
      {
        MemoryEfficientMember(archive[i]);
        assert archive[..i + 1][..i] == archive[..i];
        i := i + 1;
      }
      RunMembersStopped(Cfg(), MemoryEfficient, started, archive, i);
    }

    /** One archive in memory-efficient mode: as streaming, except that the
        merge base is kept from the previous archive, and at the batch
        boundary the append is made even in a dry run. When each archive is
        staged in a fresh temporary directory, a kept merge base lies in an
        earlier one, which is neither emptied nor removed. */
    method ProcessArchiveMemoryEfficient(archive: Archive)
      requires !aborted
      modifies this
      ensures Abs() == ProcessArchive(Cfg(), MemoryEfficient, old(Abs()), archive)
    {
      staging := map[];
      if mergeBaseSet && !hasTempDir {
        mergedInStaging := false;
      } else {
        merged, mergedDirs, mergedInStaging := map[], {}, true;
      }
      filesInBatch := 0;
      if mergeDuplicates {
        CollectTopDirs(archive);
      }
      assert Abs() == Batching.FirstPass(Cfg(), Begin(Cfg(), MemoryEfficient, old(Abs())), archive);
      MemoryEfficientPass(archive);
      FinishArchive();
    }

    /** A whole run: creates the image, then processes the archives in
        the given order until one raises. */
    method BuildFromArchives(archives: seq<Archive>, memoryEfficient: bool)
      requires !aborted
      modifies this
      ensures Abs() == Build(Cfg(), memoryEfficient, old(Abs()), archives)
    {
      InitializeImage();
      ghost var initialized := Abs();
      var i := 0;
      while i < |archives| && !aborted
        invariant 0 <= i <= |archives|
        invariant Abs() == RunArchives(Cfg(), ModeOf(memoryEfficient), initialized, archives[..i])
      {
        if memoryEfficient {
          ProcessArchiveMemoryEfficient(archives[i]);
        } else {
          ProcessArchiveStreaming(archives[i]);
        }
        assert archives[..i + 1][..i] == archives[..i];
        i := i + 1;
      }
      RunArchivesStopped(Cfg(), ModeOf(memoryEfficient), initialized, archives, i);
    }
  }
}
