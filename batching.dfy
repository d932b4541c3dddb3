/** The batch-and-merge controller as functions on its state: where each
    regular file of an archive lands in the staging directory, when the
    staging content is appended to the image, and how the staging content
    is reset afterwards. The class in module Builder runs these steps in
    place; the lemmas in module BatchingProps are about these functions. */
module Batching {

  import opened Paths

  type Content = seq<bv8>

  /** A directory tree of files: relative path to file content. */
  type Tree = map<Path, Content>

  datatype Kind = RegularFile | Directory | OtherKind

  /** One member of a tar archive. */
  datatype Member = Member(kind: Kind, name: Path, content: Content)

  type Archive = seq<Member>

  /** The two ways an archive is processed: extracting each member in
      place, or one file at a time through a scratch directory. */
  datatype Mode = Streaming | MemoryEfficient

  /** `hasTempDir`: a fixed staging directory was configured, so every
      archive is staged at the same path; otherwise each archive gets a
      fresh temporary directory. */
  datatype Config = Config(batchSize: int, mergeDuplicates: bool, dryRun: bool, hasTempDir: bool)

  /** A call into the image tool: creating the empty image, or appending
      the content of one directory to it. In a dry run the calls are made
      but leave the image alone. */
  datatype Event = InitImage | Append(root: Tree)

  /** The controller's state.
      - `staging` is the content of the extraction directory outside
        `merged/`; `merged` is the content of the merge root.
      - `mergeBaseSet` says whether the merge base directory is set, and
        `mergedInStaging` whether it lies inside the current extraction
        directory (it does not when it was set while staging an earlier
        archive in a temporary directory of its own).
      - `mergedDirs` are the top-level names that the merge setup has
        created as directories in the merge root.
      - `aborted` says that a move raised an error, which ends the run. */
  datatype State = State(
    filesInBatch: nat,
    totalFiles: nat,
    seenTopDirs: set<string>,
    mergeBaseSet: bool,
    mergedInStaging: bool,
    staging: Tree,
    merged: Tree,
    mergedDirs: set<string>,
    aborted: bool,
    log: seq<Event>)

  const Initial := State(0, 0, {}, false, true, map[], map[], {}, false, [])

  /** The merge key looked up for a regular file: none when merging is off. */
  function KeyFor(cfg: Config, m: Member): Option<string> {
    if cfg.mergeDuplicates then TopLevelDir(m.name) else None
  }

  /** A file with this key goes below `merged/`. */
  predicate Routed(cfg: Config, top: Option<string>) {
    cfg.mergeDuplicates && IsKey(top)
  }

  /** The directory handed to the image tool: the merge base when merging
      and it is set, otherwise the whole extraction directory. */
  function CommitRoot(cfg: Config, s: State): Tree {
    if cfg.mergeDuplicates && s.mergeBaseSet then s.merged else s.staging
  }

  /** Deletes the committed directory and recreates it empty; a merge
      root is recreated inside the current extraction directory. */
  function ResetRoot(cfg: Config, s: State): State {
    if cfg.mergeDuplicates && s.mergeBaseSet then s.(merged := map[], mergedDirs := {}, mergedInStaging := true)
    else s.(staging := map[], merged := map[], mergedDirs := {})
  }

  /** Sets the merge base, inside the current extraction directory, unless
      it is set already. */
  function EnsureMergeBase(s: State): State {
    if s.mergeBaseSet then s else s.(mergeBaseSet := true, mergedInStaging := true)
  }

  /** The streaming setup for a file with a key: the merge base, and the
      key's directory in it (not created in a dry run). */
  function SetupMerge(cfg: Config, s: State, top: Option<string>): State {
    if !Routed(cfg, top) then s
    else
      var b := EnsureMergeBase(s);
      if cfg.dryRun then b else b.(mergedDirs := b.mergedDirs + {top.value})
  }

  /** Where a move below the merge root puts a file: onto `merged/<name>`,
      or into that path when it is a directory the setup created, which
      happens for a root file named like its own key. */
  function MergedTarget(s: State, name: Path): Path {
    if |name| == 1 && name[0] in s.mergedDirs then name + name else name
  }

  /** Moves a routed file below the merge root. Moving into a directory
      that already holds a file of that name raises. */
  function MoveToMerged(s: State, m: Member): State {
    var b := EnsureMergeBase(s);
    var dst := MergedTarget(b, m.name);
    if dst != m.name && dst in b.merged then b.(aborted := true)
    else b.(merged := b.merged[dst := m.content])
  }

  /** Writes a regular file to its place; an existing file there is
      overwritten. Nothing is written in a dry run. */
  function Place(cfg: Config, s: State, m: Member, top: Option<string>): State {
    if cfg.dryRun then s
    else if Routed(cfg, top) then MoveToMerged(s, m)
    else s.(staging := s.staging[m.name := m.content])
  }

  function Count(s: State): State {
    s.(filesInBatch := s.filesInBatch + 1, totalFiles := s.totalFiles + 1)
  }

  /** The streaming mode skips the batch append in a dry run. */
  predicate SkipsBoundaryAppend(cfg: Config, mode: Mode) {
    mode == Streaming && cfg.dryRun
  }

  /** The check after a file is counted: on reaching the batch size the
      current root is appended and reset, and the counter restarts. */
  function Boundary(cfg: Config, mode: Mode, s: State): State {
    if s.filesInBatch >= cfg.batchSize then
      var logged := if SkipsBoundaryAppend(cfg, mode) then s
                    else s.(log := s.log + [Append(CommitRoot(cfg, s))]);
      var reset := if cfg.dryRun then logged else ResetRoot(cfg, logged);
      reset.(filesInBatch := 0)
    else s
  }

  /** After a file is placed: counted and checked against the batch size,
      unless its move raised. */
  function Settle(cfg: Config, mode: Mode, p: State): State {
    if p.aborted then p else Boundary(cfg, mode, Count(p))
  }

  /** One member handed to the streaming per-member routine with the key
      its caller computed; only regular files do anything. */
  function TarMember(cfg: Config, s: State, m: Member, top: Option<string>): State {
    if m.kind == RegularFile then Settle(cfg, Streaming, Place(cfg, s, m, top)) else s
  }

  /** One member of the memory-efficient extraction loop. */
  function EfficientMember(cfg: Config, s: State, m: Member): State {
    if m.kind == RegularFile then Settle(cfg, MemoryEfficient, Place(cfg, s, m, KeyFor(cfg, m))) else s
  }

  /** One member in the given mode's extraction pass; nothing more happens
      once a move has raised. */
  function MemberStep(cfg: Config, mode: Mode, s: State, m: Member): State {
    if s.aborted || m.kind != RegularFile then s
    else
      match mode
      case Streaming =>
        var top := KeyFor(cfg, m);
        TarMember(cfg, SetupMerge(cfg, s, top), m, top)
      case MemoryEfficient => EfficientMember(cfg, s, m)
  }

  /** The extraction pass over a sequence of members, in order. */
  function RunMembers(cfg: Config, mode: Mode, s: State, ms: seq<Member>): State
    decreases |ms|
  {
    if ms == [] then s
    else MemberStep(cfg, mode, RunMembers(cfg, mode, s, ms[..|ms| - 1]), ms[|ms| - 1])
  }

  /** Once a move has raised, the rest of the pass changes nothing: a
      pass stopped at the raise ends where the whole pass ends. */
  lemma {:induction false} RunMembersStopped(cfg: Config, mode: Mode, s: State, ms: seq<Member>, i: nat)
    requires i <= |ms| && (i == |ms| || RunMembers(cfg, mode, s, ms[..i]).aborted)
    ensures RunMembers(cfg, mode, s, ms) == RunMembers(cfg, mode, s, ms[..i])
    decreases |ms|
  {
    if i < |ms| {
      var p := ms[..|ms| - 1];
      assert ms[..i] == p[..i];
      if i < |p| {
        RunMembersStopped(cfg, mode, s, p, i);
      } else {
        assert p == ms[..i];
      }
    } else {
      assert ms[..i] == ms;
    }
  }

  /** The number of regular files among the members. */
  function FileCount(ms: seq<Member>): nat
    decreases |ms|
  {
    if ms == [] then 0
    else FileCount(ms[..|ms| - 1]) + (if ms[|ms| - 1].kind == RegularFile then 1 else 0)
  }

  /** The key a member contributes to the first pass, if any. */
  function MemberTops(m: Member): set<string> {
    var top := TopLevelDir(m.name);
    if (m.kind == RegularFile || m.kind == Directory) && IsKey(top) then {top.value} else {}
  }

  /** The keys the first pass collects from the members. */
  function TopsOf(ms: seq<Member>): set<string>
    decreases |ms|
  {
    if ms == [] then {} else TopsOf(ms[..|ms| - 1]) + MemberTops(ms[|ms| - 1])
  }

  /** A fresh extraction directory and a zero counter at archive start.
      The streaming mode also forgets the merge base. The memory-efficient
      mode keeps it: with a fixed staging directory it names the same,
      freshly emptied path; with a fresh temporary directory per archive it
      names the merge root of an earlier directory, files and all. */
  function Begin(cfg: Config, mode: Mode, s: State): State {
    var cleared := s.(filesInBatch := 0, staging := map[]);
    match mode
    case Streaming =>
      cleared.(merged := map[], mergedDirs := {}, mergedInStaging := true,
             mergeBaseSet := if cfg.mergeDuplicates then false else s.mergeBaseSet)
    case MemoryEfficient =>
      if s.mergeBaseSet && !cfg.hasTempDir then cleared.(mergedInStaging := false)
      else cleared.(merged := map[], mergedDirs := {}, mergedInStaging := true)
  }

  /** The first pass: fold the archive's keys into the seen set. */
  function FirstPass(cfg: Config, s: State, ms: seq<Member>): State {
    if cfg.mergeDuplicates then s.(seenTopDirs := s.seenTopDirs + TopsOf(ms)) else s
  }

  /** The append of the last, partial batch at archive end, unless a move
      raised. */
  function FinalCommit(cfg: Config, s: State): State {
    if !s.aborted && s.filesInBatch > 0 then s.(log := s.log + [Append(CommitRoot(cfg, s))]) else s
  }

  /** The extraction directory is removed when the archive is done, even
      after an error; a merge root outside it stays. */
  function Discard(s: State): State {
    if s.mergedInStaging then s.(staging := map[], merged := map[], mergedDirs := {})
    else s.(staging := map[])
  }

  /** One archive; nothing happens once the run has aborted. */
  function ProcessArchive(cfg: Config, mode: Mode, s: State, ms: seq<Member>): State {
    if s.aborted then s
    else
      var started := FirstPass(cfg, Begin(cfg, mode, s), ms);
      Discard(FinalCommit(cfg, RunMembers(cfg, mode, started, ms)))
  }

  function RunArchives(cfg: Config, mode: Mode, s: State, archives: seq<Archive>): State
    decreases |archives|
  {
    if archives == [] then s
    else ProcessArchive(cfg, mode, RunArchives(cfg, mode, s, archives[..|archives| - 1]), archives[|archives| - 1])
  }

  /** Once the run has aborted, the remaining archives change nothing. */
  lemma {:induction false} RunArchivesStopped(cfg: Config, mode: Mode, s: State, archives: seq<Archive>, i: nat)
    requires i <= |archives| && (i == |archives| || RunArchives(cfg, mode, s, archives[..i]).aborted)
    ensures RunArchives(cfg, mode, s, archives) == RunArchives(cfg, mode, s, archives[..i])
    decreases |archives|
  {
    if i < |archives| {
      var p := archives[..|archives| - 1];
      assert archives[..i] == p[..i];
      if i < |p| {
        RunArchivesStopped(cfg, mode, s, p, i);
      } else {
        assert p == archives[..i];
      }
    } else {
      assert archives[..i] == archives;
    }
  }

  function Initialize(s: State): State {
    s.(log := s.log + [InitImage])
  }

  function ModeOf(memoryEfficient: bool): Mode {
    if memoryEfficient then MemoryEfficient else Streaming
  }

  /** A whole run: the image is created once, then the archives are
      processed in the given order. */
  function Build(cfg: Config, memoryEfficient: bool, s: State, archives: seq<Archive>): State {
    RunArchives(cfg, ModeOf(memoryEfficient), Initialize(s), archives)
  }
}
