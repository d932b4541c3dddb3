/** What the batch-and-merge controller guarantees, proved about the
    functions of module Batching. */
module BatchingProps {

  import opened Paths
  import opened Batching

  // ----- arithmetic -----

  lemma MulAwayFromZero(b: int, d: int)
    requires b >= 1
    ensures d >= 1 ==> b * d >= b
    ensures d <= -1 ==> b * d <= -b
  {
  }

  lemma DivModUnique(x: int, b: int, q: int, r: int)
    requires b >= 1 && 0 <= r < b && x == b * q + r
    ensures x / b == q && x % b == r
  {
    var q0, r0 := x / b, x % b;
    assert x == b * q0 + r0;
    assert b * (q - q0) == r0 - r;
    MulAwayFromZero(b, q - q0);
  }

  /** The number of batches needed for `n` files, `b` to a batch. */
  function CeilDiv(n: nat, b: nat): nat
    requires b >= 1
  {
    (n + b - 1) / b
  }

  lemma CeilDivSplit(n: nat, b: nat)
    requires b >= 1
    ensures CeilDiv(n, b) == n / b + (if n % b > 0 then 1 else 0)
  {
    var q, r := n / b, n % b;
    if r > 0 {
      DivModUnique(n + b - 1, b, q + 1, r - 1);
    } else {
      DivModUnique(n + b - 1, b, q, b - 1);
    }
  }

  // ----- one member -----

  /** A regular file adds one to both counters (the batch counter then
      restarts at zero when it reached the batch size), unless its move
      raises, which changes no counter, tree or log; any other member, and
      any member after the run aborted, changes nothing at all. */
  lemma MemberCounters(cfg: Config, mode: Mode, s: State, m: Member)
    ensures var t := MemberStep(cfg, mode, s, m);
      if s.aborted || m.kind != RegularFile then t == s
      else if t.aborted then
        t.totalFiles == s.totalFiles && t.filesInBatch == s.filesInBatch && t.log == s.log &&
        t.staging == s.staging && t.merged == s.merged
      else
        t.totalFiles == s.totalFiles + 1 &&
        t.filesInBatch == (if s.filesInBatch + 1 >= cfg.batchSize then 0 else s.filesInBatch + 1)
  {
    if !s.aborted && m.kind == RegularFile {
      StepUnfold(cfg, mode, s, m);
    }
  }

  /** A move raises exactly for a routed file at the archive root whose
      name is a directory of the merge root (in streaming mode the setup
      has just created it) that already holds a file of that same name. */
  lemma StepAborts(cfg: Config, mode: Mode, s: State, m: Member)
    requires !s.aborted
    ensures MemberStep(cfg, mode, s, m).aborted <==>
      m.kind == RegularFile && !cfg.dryRun && cfg.mergeDuplicates && IsKey(TopLevelDir(m.name)) &&
      |m.name| == 1 && (mode == Streaming || m.name[0] in s.mergedDirs) && m.name + m.name in s.merged
  {
  }

  /** The state a regular file has been written to, before it is counted. */
  function Placed(cfg: Config, mode: Mode, s: State, m: Member): State {
    var top := KeyFor(cfg, m);
    Place(cfg, if mode == Streaming then SetupMerge(cfg, s, top) else s, m, top)
  }

  /** A regular file is placed, then settled; placing changes neither the
      counters nor the log. */
  lemma StepUnfold(cfg: Config, mode: Mode, s: State, m: Member)
    requires !s.aborted && m.kind == RegularFile
    ensures var p := Placed(cfg, mode, s, m);
      MemberStep(cfg, mode, s, m) == Settle(cfg, mode, p) &&
      p.filesInBatch == s.filesInBatch && p.totalFiles == s.totalFiles && p.log == s.log &&
      p.seenTopDirs == s.seenTopDirs &&
      (p.aborted ==> p.staging == s.staging && p.merged == s.merged)
  {
  }

  /** With a positive batch size the counter stays below it after every
      member, and reaching it appends exactly once (except for a dry
      streaming run, which skips that append, and a move that raises). */
  lemma BatchBound(cfg: Config, mode: Mode, s: State, m: Member)
    requires cfg.batchSize >= 1 && s.filesInBatch < cfg.batchSize
    ensures var t := MemberStep(cfg, mode, s, m);
      var reached := !s.aborted && !t.aborted && m.kind == RegularFile && s.filesInBatch + 1 == cfg.batchSize;
      t.filesInBatch < cfg.batchSize &&
      t.log == s.log + (if reached && !SkipsBoundaryAppend(cfg, mode) then [Append(CommitRoot(cfg, Placed(cfg, mode, s, m)))] else [])
  {
    if !s.aborted && m.kind == RegularFile {
      StepUnfold(cfg, mode, s, m);
    }
  }

  /** A batch commit hands the current root to the image tool and leaves
      that root empty; when merging, the merge base stays set and now lies
      inside the current extraction directory. */
  lemma BoundaryEmptiesRoot(cfg: Config, mode: Mode, s: State)
    requires !cfg.dryRun && s.filesInBatch >= cfg.batchSize
    ensures var t := Boundary(cfg, mode, s);
      t.log == s.log + [Append(CommitRoot(cfg, s))] &&
      CommitRoot(cfg, t) == map[] &&
      t.filesInBatch == 0 &&
      t.mergeBaseSet == s.mergeBaseSet &&
      (cfg.mergeDuplicates && s.mergeBaseSet ==> t.mergedInStaging)
  {
  }

  /** Where in its tree a regular file is written from state `s`: at its
      own path, except that a routed root file whose name is a directory of
      the merge root goes into that directory. */
  function PlacedPath(cfg: Config, mode: Mode, s: State, m: Member): Path {
    if cfg.mergeDuplicates && IsKey(TopLevelDir(m.name)) && |m.name| == 1 &&
       (mode == Streaming || m.name[0] in s.mergedDirs)
    then m.name + m.name
    else m.name
  }

  /** Where a regular file lands (no batch boundary in between): below
      `merged/` exactly when merging is on and the file has a key,
      otherwise in the extraction directory, overwriting what was at that
      path; the other tree is untouched. A move into a directory that
      already holds the file's name raises instead. */
  lemma Placement(cfg: Config, mode: Mode, s: State, m: Member)
    requires !cfg.dryRun && m.kind == RegularFile && !s.aborted
    requires s.filesInBatch + 1 < cfg.batchSize
    ensures var t := MemberStep(cfg, mode, s, m);
      var dst := PlacedPath(cfg, mode, s, m);
      if cfg.mergeDuplicates && IsKey(TopLevelDir(m.name)) then
        t.staging == s.staging && t.mergeBaseSet &&
        if dst != m.name && dst in s.merged then t.aborted && t.merged == s.merged
        else !t.aborted && t.merged == s.merged[dst := m.content]
      else
        !t.aborted && t.staging == s.staging[m.name := m.content] && t.merged == s.merged &&
        t.mergeBaseSet == s.mergeBaseSet
  {
  }

  // ----- one archive -----

  /** Every event of the sequence is an append. */
  predicate AllAppends(es: seq<Event>) {
    forall i :: 0 <= i < |es| ==> es[i].Append?
  }

  /** `t` extends the log of `s` by appends only. */
  predicate ExtendsByAppends(s: State, t: State) {
    |s.log| <= |t.log| && t.log[..|s.log|] == s.log && AllAppends(t.log[|s.log|..])
  }

  lemma ExtendsTransitive(s: State, u: State, t: State)
    requires ExtendsByAppends(s, u) && ExtendsByAppends(u, t)
    ensures ExtendsByAppends(s, t)
  {
    assert t.log[..|u.log|] == u.log;
    assert t.log[..|s.log|] == u.log[..|s.log|];
    assert t.log[|s.log|..] == u.log[|s.log|..] + t.log[|u.log|..];
  }

  /** One member, with the counter holding the remainder of `x` files. */
  lemma StepCounts(cfg: Config, mode: Mode, u: State, m: Member, x: nat)
    requires cfg.batchSize >= 1 && u.filesInBatch == x % cfg.batchSize
    ensures var t := MemberStep(cfg, mode, u, m);
      var y := x + (if m.kind == RegularFile then 1 else 0);
      ExtendsByAppends(u, t) &&
      (!t.aborted ==>
        t.filesInBatch == y % cfg.batchSize &&
        t.totalFiles == u.totalFiles + (y - x) &&
        |t.log| == |u.log| + (if SkipsBoundaryAppend(cfg, mode) then 0 else y / cfg.batchSize - x / cfg.batchSize))
  {
    var t := MemberStep(cfg, mode, u, m);
    MemberCounters(cfg, mode, u, m);
    BatchBound(cfg, mode, u, m);
    CounterArith(cfg.batchSize, x, m.kind == RegularFile);
    assert t.log[..|u.log|] == u.log;
  }

  /** One more file from `x`: the new remainder, and whether a batch was
      completed. */
  lemma CounterArith(b: int, x: nat, file: bool)
    requires b >= 1
    ensures var y := x + (if file then 1 else 0);
      var f := x % b;
      y % b == (if file && f + 1 >= b then 0 else if file then f + 1 else f) &&
      y / b - x / b == (if file && f + 1 == b then 1 else 0)
  {
    DivModUnique(x, b, x / b, x % b);
    if file {
      if x % b + 1 == b {
        DivModUnique(x + 1, b, x / b + 1, 0);
      } else {
        DivModUnique(x + 1, b, x / b, x % b + 1);
      }
    }
  }

  /** The extraction pass with a positive batch size only appends; unless
      it aborts, the counter ends at the remainder of the files counted,
      and one append is made per full batch (none in a dry streaming run). */
  lemma {:induction false} RunMembersCounts(cfg: Config, mode: Mode, s: State, ms: seq<Member>)
    requires cfg.batchSize >= 1 && s.filesInBatch < cfg.batchSize
    ensures var t := RunMembers(cfg, mode, s, ms);
      var x := s.filesInBatch + FileCount(ms);
      ExtendsByAppends(s, t) &&
      (!t.aborted ==>
        t.filesInBatch == x % cfg.batchSize &&
        t.totalFiles == s.totalFiles + FileCount(ms) &&
        |t.log| == |s.log| + (if SkipsBoundaryAppend(cfg, mode) then 0 else x / cfg.batchSize))
    decreases |ms|
  {
    var b := cfg.batchSize;
    if ms == [] {
      DivModUnique(s.filesInBatch, b, 0, s.filesInBatch);
      assert s.log[..|s.log|] == s.log;
    } else {
      var p, m := ms[..|ms| - 1], ms[|ms| - 1];
      RunMembersCounts(cfg, mode, s, p);
      var u := RunMembers(cfg, mode, s, p);
      MemberCounters(cfg, mode, u, m);
      if u.aborted {
        assert u.log[..|u.log|] == u.log;
      } else {
        StepCounts(cfg, mode, u, m, s.filesInBatch + FileCount(p));
      }
      ExtendsTransitive(s, u, MemberStep(cfg, mode, u, m));
    }
  }

  /** One archive, positive batch size: only appends; unless it aborts,
      exactly one append per started batch, that is the ceiling of files
      over batch size, made up of one per full batch plus one for a
      trailing partial batch; a dry streaming run makes only the trailing
      one. Every file is counted once. */
  lemma ArchiveAppendCount(cfg: Config, mode: Mode, s: State, ms: seq<Member>)
    requires cfg.batchSize >= 1
    ensures var t := ProcessArchive(cfg, mode, s, ms);
      var n := FileCount(ms);
      ExtendsByAppends(s, t) &&
      (!t.aborted ==>
        |t.log| == |s.log| + (if SkipsBoundaryAppend(cfg, mode) then (if n % cfg.batchSize > 0 then 1 else 0)
                              else CeilDiv(n, cfg.batchSize)) &&
        t.totalFiles == s.totalFiles + n)
  {
    if s.aborted {
      assert s.log[..|s.log|] == s.log;
      return;
    }
    var started := FirstPass(cfg, Begin(cfg, mode, s), ms);
    ArchiveEnds(cfg, mode, s, ms);
    RunMembersCounts(cfg, mode, started, ms);
    var u := RunMembers(cfg, mode, started, ms);
    var t := ProcessArchive(cfg, mode, s, ms);
    assert t.log[|s.log|..] == u.log[|s.log|..] + t.log[|u.log|..];
    if !u.aborted {
      CeilDivSplit(FileCount(ms), cfg.batchSize);
    }
  }

  /** An archive starts the pass with the counter at zero and the log and
      total as they were, and its end adds at most the final append. */
  lemma ArchiveEnds(cfg: Config, mode: Mode, s: State, ms: seq<Member>)
    requires !s.aborted
    ensures var started := FirstPass(cfg, Begin(cfg, mode, s), ms);
      var u := RunMembers(cfg, mode, started, ms);
      var t := ProcessArchive(cfg, mode, s, ms);
      started.log == s.log && started.totalFiles == s.totalFiles && started.filesInBatch == 0 &&
      t.totalFiles == u.totalFiles && t.aborted == u.aborted &&
      t.log == u.log + (if !u.aborted && u.filesInBatch > 0 then [Append(CommitRoot(cfg, u))] else [])
  {
  }

  // ----- placement and overwrites -----

  /** The tree a file of this name is written to. */
  function Destination(cfg: Config, s: State, name: Path): Tree {
    if cfg.mergeDuplicates && IsKey(TopLevelDir(name)) then s.merged else s.staging
  }

  /** Without a batch boundary, a member leaves every file at another path
      than its own name as it was, or raises. */
  lemma StepKeepsOthers(cfg: Config, mode: Mode, u: State, x: Member)
    requires x.kind == RegularFile ==> u.filesInBatch + 1 < cfg.batchSize
    ensures var t := MemberStep(cfg, mode, u, x);
      !t.aborted ==>
        (forall d :: d in u.merged && (x.kind != RegularFile || d != x.name) ==> d in t.merged && t.merged[d] == u.merged[d]) &&
        (forall d :: d in u.staging && (x.kind != RegularFile || d != x.name) ==> d in t.staging && t.staging[d] == u.staging[d])
  {
    if !u.aborted && x.kind == RegularFile {
      StepUnfold(cfg, mode, u, x);
    }
  }

  /** Last writer wins: once a file is placed, its destination holds its
      content at the path it was written to for as long as no later file
      is written to that same path and no batch boundary intervenes,
      whatever was there before; unless the run aborts. */
  lemma {:induction false} LastWriterWins(cfg: Config, mode: Mode, s: State, m: Member, rest: seq<Member>)
    requires !cfg.dryRun && m.kind == RegularFile && !s.aborted
    requires forall i :: 0 <= i < |rest| && rest[i].kind == RegularFile ==> rest[i].name != PlacedPath(cfg, mode, s, m)
    requires s.filesInBatch + 1 + FileCount(rest) < cfg.batchSize
    ensures var t := RunMembers(cfg, mode, s, [m] + rest);
      var dst := PlacedPath(cfg, mode, s, m);
      !t.aborted ==>
        t.filesInBatch == s.filesInBatch + 1 + FileCount(rest) &&
        dst in Destination(cfg, t, m.name) && Destination(cfg, t, m.name)[dst] == m.content
    decreases |rest|
  {
    var dst := PlacedPath(cfg, mode, s, m);
    if rest == [] {
      assert RunMembers(cfg, mode, s, [m]) == MemberStep(cfg, mode, RunMembers(cfg, mode, s, []), m);
      Placement(cfg, mode, s, m);
      MemberCounters(cfg, mode, s, m);
    } else {
      var p, x := rest[..|rest| - 1], rest[|rest| - 1];
      assert ([m] + rest)[..|[m] + rest| - 1] == [m] + p;
      assert RunMembers(cfg, mode, s, [m] + rest) == MemberStep(cfg, mode, RunMembers(cfg, mode, s, [m] + p), x);
      LastWriterWins(cfg, mode, s, m, p);
      var u := RunMembers(cfg, mode, s, [m] + p);
      if u.aborted {
        MemberCounters(cfg, mode, u, x);
      } else {
        WrittenFileKept(cfg, mode, u, x, m.name, dst, m.content);
      }
    }
  }

  /** One step of LastWriterWins: a member that does not write to the path
      leaves the file there, or raises. */
  lemma WrittenFileKept(cfg: Config, mode: Mode, u: State, x: Member, name: Path, dst: Path, c: Content)
    requires !u.aborted
    requires x.kind == RegularFile ==> x.name != dst && u.filesInBatch + 1 < cfg.batchSize
    requires dst in Destination(cfg, u, name) && Destination(cfg, u, name)[dst] == c
    ensures var t := MemberStep(cfg, mode, u, x);
      !t.aborted ==>
        t.filesInBatch == u.filesInBatch + (if x.kind == RegularFile then 1 else 0) &&
        dst in Destination(cfg, t, name) && Destination(cfg, t, name)[dst] == c
  {
    StepKeepsOthers(cfg, mode, u, x);
    MemberCounters(cfg, mode, u, x);
  }

  // ----- the seen set of top-level names -----

  /** The keys collected by the first pass are exactly the non-empty keys
      of the archive's regular files and directories. */
  lemma {:induction false} TopsOfMembers(ms: seq<Member>, k: string)
    ensures k in TopsOf(ms) <==>
      exists i :: 0 <= i < |ms| && (ms[i].kind == RegularFile || ms[i].kind == Directory) &&
                  k != "" && TopLevelDir(ms[i].name) == Some(k)
    decreases |ms|
  {
    if ms != [] {
      var p := ms[..|ms| - 1];
      TopsOfMembers(p, k);
      if k in TopsOf(p) {
        var i :| 0 <= i < |p| && (p[i].kind == RegularFile || p[i].kind == Directory) &&
                 k != "" && TopLevelDir(p[i].name) == Some(k);
        assert ms[i] == p[i];
      }
      if exists i :: 0 <= i < |ms| && (ms[i].kind == RegularFile || ms[i].kind == Directory) &&
                     k != "" && TopLevelDir(ms[i].name) == Some(k) {
        var i :| 0 <= i < |ms| && (ms[i].kind == RegularFile || ms[i].kind == Directory) &&
                 k != "" && TopLevelDir(ms[i].name) == Some(k);
        if i < |p| { assert p[i] == ms[i]; }
      }
    }
  }

  lemma PlacedIgnoresSeen(cfg: Config, mode: Mode, s: State, m: Member, x: set<string>)
    ensures Placed(cfg, mode, s.(seenTopDirs := x), m) == Placed(cfg, mode, s, m).(seenTopDirs := x)
  {
    var top := KeyFor(cfg, m);
    var s1 := s.(seenTopDirs := x);
    assert SetupMerge(cfg, s1, top) == SetupMerge(cfg, s, top).(seenTopDirs := x);
    var sm := if mode == Streaming then SetupMerge(cfg, s, top) else s;
    assert MoveToMerged(sm.(seenTopDirs := x), m) == MoveToMerged(sm, m).(seenTopDirs := x);
  }

  lemma SettleIgnoresSeen(cfg: Config, mode: Mode, p: State, x: set<string>)
    ensures Settle(cfg, mode, p.(seenTopDirs := x)) == Settle(cfg, mode, p).(seenTopDirs := x)
  {
    if !p.aborted {
      assert Count(p.(seenTopDirs := x)) == Count(p).(seenTopDirs := x);
      BoundaryIgnoresSeen(cfg, mode, Count(p), x);
    }
  }

  lemma BoundaryIgnoresSeen(cfg: Config, mode: Mode, c: State, x: set<string>)
    ensures Boundary(cfg, mode, c.(seenTopDirs := x)) == Boundary(cfg, mode, c).(seenTopDirs := x)
  {
    if c.filesInBatch >= cfg.batchSize {
      var c1 := c.(seenTopDirs := x);
      assert CommitRoot(cfg, c1) == CommitRoot(cfg, c);
      var logged := if SkipsBoundaryAppend(cfg, mode) then c else c.(log := c.log + [Append(CommitRoot(cfg, c))]);
      assert ResetRoot(cfg, logged.(seenTopDirs := x)) == ResetRoot(cfg, logged).(seenTopDirs := x);
    }
  }

  lemma StepIgnoresSeen(cfg: Config, mode: Mode, s: State, m: Member, x: set<string>)
    ensures MemberStep(cfg, mode, s.(seenTopDirs := x), m) == MemberStep(cfg, mode, s, m).(seenTopDirs := x)
  {
    if !s.aborted && m.kind == RegularFile {
      StepUnfold(cfg, mode, s, m);
      StepUnfold(cfg, mode, s.(seenTopDirs := x), m);
      PlacedIgnoresSeen(cfg, mode, s, m, x);
      SettleIgnoresSeen(cfg, mode, Placed(cfg, mode, s, m), x);
    }
  }

  /** The extraction pass neither reads nor writes the seen set. */
  lemma {:induction false} RunMembersIgnoresSeen(cfg: Config, mode: Mode, s: State, ms: seq<Member>, x: set<string>)
    ensures RunMembers(cfg, mode, s.(seenTopDirs := x), ms) == RunMembers(cfg, mode, s, ms).(seenTopDirs := x)
    decreases |ms|
  {
    if ms != [] {
      RunMembersIgnoresSeen(cfg, mode, s, ms[..|ms| - 1], x);
      StepIgnoresSeen(cfg, mode, RunMembers(cfg, mode, s, ms[..|ms| - 1]), ms[|ms| - 1], x);
    }
  }

  /** After an archive the seen set is its former value together with the
      archive's keys when merging, and unchanged otherwise (or when the run
      has aborted); so it never shrinks. */
  lemma ArchiveSeen(cfg: Config, mode: Mode, s: State, ms: seq<Member>)
    ensures var t := ProcessArchive(cfg, mode, s, ms);
      t.seenTopDirs == (if cfg.mergeDuplicates && !s.aborted then s.seenTopDirs + TopsOf(ms) else s.seenTopDirs) &&
      s.seenTopDirs <= t.seenTopDirs
  {
    var started := FirstPass(cfg, Begin(cfg, mode, s), ms);
    RunMembersIgnoresSeen(cfg, mode, started, ms, started.seenTopDirs);
    assert started.(seenTopDirs := started.seenTopDirs) == started;
  }

  /** The seen set never influences placement, counting or commits: two
      states that differ only in it lead to results that differ only in it. */
  lemma SeenNeverRoutes(cfg: Config, mode: Mode, s1: State, s2: State, ms: seq<Member>)
    requires s1.(seenTopDirs := {}) == s2.(seenTopDirs := {})
    ensures ProcessArchive(cfg, mode, s1, ms).(seenTopDirs := {}) == ProcessArchive(cfg, mode, s2, ms).(seenTopDirs := {})
  {
    assert s1.aborted == s2.aborted;
    if !s1.aborted {
      assert Begin(cfg, mode, s2) == Begin(cfg, mode, s1).(seenTopDirs := s2.seenTopDirs);
      var a1 := FirstPass(cfg, Begin(cfg, mode, s1), ms);
      var a2 := FirstPass(cfg, Begin(cfg, mode, s2), ms);
      assert a2 == a1.(seenTopDirs := a2.seenTopDirs);
      RunMembersIgnoresSeen(cfg, mode, a1, ms, a2.seenTopDirs);
      var r1 := RunMembers(cfg, mode, a1, ms);
      FinishIgnoresSeen(cfg, r1, a2.seenTopDirs);
      var q := Discard(FinalCommit(cfg, r1));
      assert q.(seenTopDirs := a2.seenTopDirs).(seenTopDirs := {}) == q.(seenTopDirs := {});
    }
  }

  lemma FinishIgnoresSeen(cfg: Config, r: State, x: set<string>)
    ensures Discard(FinalCommit(cfg, r.(seenTopDirs := x))) == Discard(FinalCommit(cfg, r)).(seenTopDirs := x)
  {
    assert CommitRoot(cfg, r.(seenTopDirs := x)) == CommitRoot(cfg, r);
  }

  // ----- bounded staging -----

  /** The staging invariant: the root that the next append would take
      holds no more files than the batch counter has counted, the merge
      tree lies in the extraction directory and is empty while no merge
      base is set, and a dry run writes nothing.
      When merging with the merge base set, files without a key that sit
      beside `merged/` are not bounded (see KeylessFileStranded). */
  ghost predicate StagingBounded(cfg: Config, s: State) {
    s.mergedInStaging &&
    (!s.mergeBaseSet ==> s.merged == map[]) &&
    (!cfg.mergeDuplicates ==> !s.mergeBaseSet) &&
    (cfg.dryRun ==> s.staging == map[] && s.merged == map[]) &&
    |s.merged| <= s.filesInBatch &&
    (!(cfg.mergeDuplicates && s.mergeBaseSet) ==> |s.staging| <= s.filesInBatch)
  }

  /** Placing one file keeps the invariant with the counter one higher,
      and a move that raises changes no tree. */
  lemma PlacedBounded(cfg: Config, mode: Mode, s: State, m: Member)
    requires StagingBounded(cfg, s) && !s.aborted && m.kind == RegularFile
    ensures var p := Placed(cfg, mode, s, m);
      StagingBounded(cfg, p.(filesInBatch := s.filesInBatch + 1)) &&
      (p.aborted ==> p.merged == s.merged && p.staging == s.staging)
  {
    var top := KeyFor(cfg, m);
    var sm := if mode == Streaming then SetupMerge(cfg, s, top) else s;
    assert sm.merged == s.merged && sm.staging == s.staging && sm.mergedInStaging;
    assert sm.mergeBaseSet == (s.mergeBaseSet || (mode == Streaming && Routed(cfg, top)));
    if !cfg.dryRun && Routed(cfg, top) {
      var b := EnsureMergeBase(sm);
      var dst := MergedTarget(b, m.name);
      assert |b.merged[dst := m.content]| <= |b.merged| + 1;
    } else if !cfg.dryRun {
      assert |s.staging[m.name := m.content]| <= |s.staging| + 1;
    }
  }

  lemma StepKeepsBounded(cfg: Config, mode: Mode, s: State, m: Member)
    requires StagingBounded(cfg, s)
    ensures var t := MemberStep(cfg, mode, s, m);
      StagingBounded(cfg, t) && |CommitRoot(cfg, t)| <= t.filesInBatch
  {
    if !s.aborted && m.kind == RegularFile {
      StepUnfold(cfg, mode, s, m);
      PlacedBounded(cfg, mode, s, m);
      var p := Placed(cfg, mode, s, m);
      if !p.aborted {
        assert StagingBounded(cfg, Count(p));
        SettleBounded(cfg, mode, p);
      }
    }
  }

  /** Counting a placed file and the batch check keep the invariant. */
  lemma SettleBounded(cfg: Config, mode: Mode, p: State)
    requires !p.aborted && StagingBounded(cfg, Count(p))
    ensures var t := Settle(cfg, mode, p);
      StagingBounded(cfg, t) && |CommitRoot(cfg, t)| <= t.filesInBatch
  {
  }

  /** Through a whole extraction pass the staging invariant holds after
      every member; with a batch size of at least one, the root to be
      appended therefore never holds a batch's worth of files or more. */
  lemma {:induction false} RunMembersBounded(cfg: Config, mode: Mode, s: State, ms: seq<Member>)
    requires StagingBounded(cfg, s)
    ensures var t := RunMembers(cfg, mode, s, ms);
      StagingBounded(cfg, t) && |CommitRoot(cfg, t)| <= t.filesInBatch
    decreases |ms|
  {
    if ms == [] {
    } else {
      RunMembersBounded(cfg, mode, s, ms[..|ms| - 1]);
      StepKeepsBounded(cfg, mode, RunMembers(cfg, mode, s, ms[..|ms| - 1]), ms[|ms| - 1]);
    }
  }

  /** An archive starts from an empty, bounded staging directory and
      leaves an empty one behind, when its merge root, if any, lies in its
      own staging directory: always in streaming mode, and in
      memory-efficient mode with a fixed staging directory or before the
      first merge base is set (see StaleMergeRootLeftBehind otherwise). */
  lemma ArchiveStartsAndEndsEmpty(cfg: Config, mode: Mode, s: State, ms: seq<Member>)
    requires !s.aborted && (!cfg.mergeDuplicates ==> !s.mergeBaseSet)
    requires mode == Streaming || cfg.hasTempDir || !s.mergeBaseSet
    ensures StagingBounded(cfg, FirstPass(cfg, Begin(cfg, mode, s), ms))
    ensures var t := ProcessArchive(cfg, mode, s, ms);
      t.staging == map[] && t.merged == map[] && (!cfg.mergeDuplicates ==> !t.mergeBaseSet)
  {
    RunMembersBounded(cfg, mode, FirstPass(cfg, Begin(cfg, mode, s), ms), ms);
  }

  /** Without a batch boundary the pass removes no file from the merge
      root, and keeps a set merge base where it is. */
  lemma {:induction false} RunMembersKeepsMerged(cfg: Config, mode: Mode, s: State, ms: seq<Member>)
    requires s.filesInBatch + FileCount(ms) + 1 <= cfg.batchSize
    ensures var t := RunMembers(cfg, mode, s, ms);
      s.merged.Keys <= t.merged.Keys &&
      (s.mergeBaseSet ==> t.mergeBaseSet && t.mergedInStaging == s.mergedInStaging) &&
      (!t.aborted ==> t.filesInBatch == s.filesInBatch + FileCount(ms))
    decreases |ms|
  {
    if ms != [] {
      var p, x := ms[..|ms| - 1], ms[|ms| - 1];
      RunMembersKeepsMerged(cfg, mode, s, p);
      var u := RunMembers(cfg, mode, s, p);
      MemberCounters(cfg, mode, u, x);
      StepKeepsMerged(cfg, mode, u, x);
    }
  }

  lemma StepKeepsMerged(cfg: Config, mode: Mode, u: State, x: Member)
    requires x.kind == RegularFile && !u.aborted ==> u.filesInBatch + 1 < cfg.batchSize
    ensures var t := MemberStep(cfg, mode, u, x);
      u.merged.Keys <= t.merged.Keys &&
      (u.mergeBaseSet ==> t.mergeBaseSet && t.mergedInStaging == u.mergedInStaging)
  {
    if !u.aborted && x.kind == RegularFile {
      StepUnfold(cfg, mode, u, x);
    }
  }

  /** In memory-efficient mode with a fresh temporary directory per
      archive, a merge base kept from an earlier archive lies outside the
      current staging directory: an archive that does not fill a batch
      adds to the files already there, and leaves them all behind when its
      staging directory is removed. */
  lemma StaleMergeRootLeftBehind(cfg: Config, s: State, ms: seq<Member>)
    requires !s.aborted && s.mergeBaseSet && !cfg.hasTempDir
    requires FileCount(ms) < cfg.batchSize
    ensures var t := ProcessArchive(cfg, MemoryEfficient, s, ms);
      t.staging == map[] && !t.mergedInStaging && s.merged.Keys <= t.merged.Keys
  {
    var started := FirstPass(cfg, Begin(cfg, MemoryEfficient, s), ms);
    RunMembersKeepsMerged(cfg, MemoryEfficient, started, ms);
  }

  // ----- a whole run -----

  /** The appends one archive of `n` files makes. */
  function ArchiveAppends(cfg: Config, mode: Mode, n: nat): nat
    requires cfg.batchSize >= 1
  {
    if SkipsBoundaryAppend(cfg, mode) then (if n % cfg.batchSize > 0 then 1 else 0)
    else CeilDiv(n, cfg.batchSize)
  }

  function SumFiles(archives: seq<Archive>): nat
    decreases |archives|
  {
    if archives == [] then 0 else SumFiles(archives[..|archives| - 1]) + FileCount(archives[|archives| - 1])
  }

  function SumAppends(cfg: Config, mode: Mode, archives: seq<Archive>): nat
    requires cfg.batchSize >= 1
    decreases |archives|
  {
    if archives == [] then 0
    else SumAppends(cfg, mode, archives[..|archives| - 1]) + ArchiveAppends(cfg, mode, FileCount(archives[|archives| - 1]))
  }

  lemma {:induction false} RunArchivesCounts(cfg: Config, mode: Mode, s: State, archives: seq<Archive>)
    requires cfg.batchSize >= 1
    ensures var t := RunArchives(cfg, mode, s, archives);
      ExtendsByAppends(s, t) &&
      (!t.aborted ==>
        t.totalFiles == s.totalFiles + SumFiles(archives) &&
        |t.log| == |s.log| + SumAppends(cfg, mode, archives))
    decreases |archives|
  {
    if archives == [] {
      assert s.log[..|s.log|] == s.log;
    } else {
      var p := archives[..|archives| - 1];
      RunArchivesCounts(cfg, mode, s, p);
      var u := RunArchives(cfg, mode, s, p);
      ArchiveAppendCount(cfg, mode, u, archives[|archives| - 1]);
      ExtendsTransitive(s, u, ProcessArchive(cfg, mode, u, archives[|archives| - 1]));
    }
  }

  /** A whole run creates the image exactly once, before anything else,
      then makes only appends; unless it aborts, as many as its archives
      need in turn, and the total file count grows by the regular files of
      all archives. */
  lemma BuildCounts(cfg: Config, memoryEfficient: bool, s: State, archives: seq<Archive>)
    requires cfg.batchSize >= 1
    ensures var t := Build(cfg, memoryEfficient, s, archives);
      |s.log| + 1 <= |t.log| &&
      t.log[..|s.log| + 1] == s.log + [InitImage] &&
      AllAppends(t.log[|s.log| + 1..]) &&
      (!t.aborted ==>
        |t.log| == |s.log| + 1 + SumAppends(cfg, ModeOf(memoryEfficient), archives) &&
        t.totalFiles == s.totalFiles + SumFiles(archives))
  {
    var i := Initialize(s);
    RunArchivesCounts(cfg, ModeOf(memoryEfficient), i, archives);
  }

  // ----- when a run aborts -----

  /** A state from which no move can raise: no merging, or the
      memory-efficient mode, which never creates key directories. */
  predicate CannotAbort(cfg: Config, mode: Mode, s: State) {
    !s.aborted && s.mergedDirs == {} && (!cfg.mergeDuplicates || mode == MemoryEfficient)
  }

  lemma StepCannotAbort(cfg: Config, mode: Mode, s: State, m: Member)
    requires CannotAbort(cfg, mode, s)
    ensures CannotAbort(cfg, mode, MemberStep(cfg, mode, s, m))
  {
  }

  lemma {:induction false} RunMembersCannotAbort(cfg: Config, mode: Mode, s: State, ms: seq<Member>)
    requires CannotAbort(cfg, mode, s)
    ensures CannotAbort(cfg, mode, RunMembers(cfg, mode, s, ms))
    decreases |ms|
  {
    if ms != [] {
      RunMembersCannotAbort(cfg, mode, s, ms[..|ms| - 1]);
      StepCannotAbort(cfg, mode, RunMembers(cfg, mode, s, ms[..|ms| - 1]), ms[|ms| - 1]);
    }
  }

  lemma {:induction false} RunArchivesCannotAbort(cfg: Config, mode: Mode, s: State, archives: seq<Archive>)
    requires CannotAbort(cfg, mode, s)
    ensures CannotAbort(cfg, mode, RunArchives(cfg, mode, s, archives))
    decreases |archives|
  {
    if archives != [] {
      var p := archives[..|archives| - 1];
      RunArchivesCannotAbort(cfg, mode, s, p);
      var u := RunArchives(cfg, mode, s, p);
      var ms := archives[|archives| - 1];
      RunMembersCannotAbort(cfg, mode, FirstPass(cfg, Begin(cfg, mode, u), ms), ms);
    }
  }

  /** Without merging, or in memory-efficient mode, a run never aborts, so
      the counts of BuildCounts hold outright. Only a streaming run that
      merges can abort, through StepAborts. */
  lemma BuildNeverAborts(cfg: Config, memoryEfficient: bool, archives: seq<Archive>)
    requires !cfg.mergeDuplicates || memoryEfficient
    ensures !Build(cfg, memoryEfficient, Initial, archives).aborted
  {
    RunArchivesCannotAbort(cfg, ModeOf(memoryEfficient), Initialize(Initial), archives);
  }
}
