/** Whole runs on small concrete archives. */
module Scenarios {

  import opened Paths
  import opened Batching

  function File(name: seq<string>, content: Content): Member {
    Member(RegularFile, name, content)
  }

  lemma RunOne(cfg: Config, mode: Mode, s: State, m: Member)
    ensures RunMembers(cfg, mode, s, [m]) == MemberStep(cfg, mode, s, m)
  {
    assert [m][..0] == [];
  }

  lemma RunTwo(cfg: Config, mode: Mode, s: State, m1: Member, m2: Member)
    ensures RunMembers(cfg, mode, s, [m1, m2]) == MemberStep(cfg, mode, MemberStep(cfg, mode, s, m1), m2)
  {
    assert [m1, m2][..1] == [m1];
    RunOne(cfg, mode, s, m1);
  }

  lemma TopsOfOne(m: Member)
    ensures TopsOf([m]) == MemberTops(m)
  {
    assert [m][..0] == [];
  }

  lemma TopsOfTwo(m1: Member, m2: Member)
    ensures TopsOf([m1, m2]) == MemberTops(m1) + MemberTops(m2)
  {
    assert [m1, m2][..1] == [m1];
    TopsOfOne(m1);
  }

  lemma BuildTwo(cfg: Config, memoryEfficient: bool, s: State, a1: Archive, a2: Archive)
    ensures var mode := ModeOf(memoryEfficient);
      Build(cfg, memoryEfficient, s, [a1, a2]) ==
      ProcessArchive(cfg, mode, ProcessArchive(cfg, mode, Initialize(s), a1), a2)
  {
    var mode := ModeOf(memoryEfficient);
    var i := Initialize(s);
    assert [a1, a2][..1] == [a1];
    assert [a1][..0] == [];
    assert RunArchives(cfg, mode, i, [a1]) == ProcessArchive(cfg, mode, RunArchives(cfg, mode, i, []), a1);
    assert RunArchives(cfg, mode, i, [a1, a2]) == ProcessArchive(cfg, mode, RunArchives(cfg, mode, i, [a1]), a2);
  }

  lemma BuildThree(cfg: Config, memoryEfficient: bool, s: State, a1: Archive, a2: Archive, a3: Archive)
    ensures var mode := ModeOf(memoryEfficient);
      Build(cfg, memoryEfficient, s, [a1, a2, a3]) ==
      ProcessArchive(cfg, mode, Build(cfg, memoryEfficient, s, [a1, a2]), a3)
  {
    var mode := ModeOf(memoryEfficient);
    assert [a1, a2, a3][..2] == [a1, a2];
    assert RunArchives(cfg, mode, Initialize(s), [a1, a2, a3]) ==
      ProcessArchive(cfg, mode, RunArchives(cfg, mode, Initialize(s), [a1, a2]), a3);
  }

  lemma ThreeEvents(l: seq<Event>, e0: Event, e1: Event, e2: Event)
    requires l == [e0, e1]
    ensures l + [e2] == [e0, e1, e2]
  {
  }

  lemma FourEvents(l: seq<Event>, e0: Event, e1: Event, e2: Event, e3: Event)
    requires l == [e0, e1]
    ensures l + [e2] + [e3] == [e0, e1, e2, e3]
  {
  }

  /** Two shards sharing the directory `data/`, two files to a batch,
      merging on: one append after the first two files, holding them under
      the merge root, then one append of the third file alone at the end;
      three files in all. */
  lemma TwoShardsMerged(c1: Content, c2: Content, c3: Content)
    ensures var cfg := Config(2, true, false, false);
      var shardA := [File(["data", "1.bin"], c1), File(["data", "2.bin"], c2)];
      var shardB := [File(["data", "3.bin"], c3)];
      var t := Build(cfg, false, Initial, [shardA, shardB]);
      t.log == [InitImage,
                Append(map[["data", "1.bin"] := c1, ["data", "2.bin"] := c2]),
                Append(map[["data", "3.bin"] := c3])] &&
      t.totalFiles == 3 && t.seenTopDirs == {"data"}
  {
    var cfg := Config(2, true, false, false);
    var m1, m2, m3 := File(["data", "1.bin"], c1), File(["data", "2.bin"], c2), File(["data", "3.bin"], c3);
    BuildTwo(cfg, false, Initial, [m1, m2], [m3]);
    FirstShard(c1, c2);
    SecondShard(ProcessArchive(cfg, Streaming, Initialize(Initial), [m1, m2]), c3);
  }

  /** The first shard of `TwoShardsMerged`: one full batch. */
  lemma FirstShard(c1: Content, c2: Content)
    ensures var cfg := Config(2, true, false, false);
      var d1, d2 := ["data", "1.bin"], ["data", "2.bin"];
      var t := ProcessArchive(cfg, Streaming, Initialize(Initial), [File(d1, c1), File(d2, c2)]);
      t.log == [InitImage, Append(map[d1 := c1, d2 := c2])] &&
      t.totalFiles == 2 && t.seenTopDirs == {"data"} && !t.aborted
  {
    var cfg := Config(2, true, false, false);
    var d1, d2 := ["data", "1.bin"], ["data", "2.bin"];
    var m1, m2 := File(d1, c1), File(d2, c2);
    TopsOfTwo(m1, m2);
    var s0 := Initialize(Initial);
    var a0 := FirstPass(cfg, Begin(cfg, Streaming, s0), [m1, m2]);
    assert a0.seenTopDirs == {"data"} && a0.merged == map[] && a0.filesInBatch == 0 && !a0.aborted;
    RunTwo(cfg, Streaming, a0, m1, m2);
    RoutedStep(cfg, Streaming, a0, m1);
    var a1 := MemberStep(cfg, Streaming, a0, m1);
    assert a1.filesInBatch == 1 && a1.merged == map[d1 := c1] && a1.mergeBaseSet && !a1.aborted;
    RoutedStep(cfg, Streaming, a1, m2);
  }

  /** The second shard of `TwoShardsMerged`: a partial batch, appended at
      the end of the archive. */
  lemma SecondShard(s: State, c3: Content)
    requires !s.aborted && s.seenTopDirs == {"data"}
    ensures var cfg := Config(2, true, false, false);
      var t := ProcessArchive(cfg, Streaming, s, [File(["data", "3.bin"], c3)]);
      t.log == s.log + [Append(map[["data", "3.bin"] := c3])] &&
      t.totalFiles == s.totalFiles + 1 && t.seenTopDirs == {"data"}
  {
    var cfg := Config(2, true, false, false);
    var m3 := File(["data", "3.bin"], c3);
    TopsOfOne(m3);
    var b0 := FirstPass(cfg, Begin(cfg, Streaming, s), [m3]);
    assert b0.merged == map[] && b0.filesInBatch == 0 && !b0.aborted && b0.seenTopDirs == {"data"};
    RunOne(cfg, Streaming, b0, m3);
    RoutedStep(cfg, Streaming, b0, m3);
  }

  /** With merging on, a file at the archive root without a key is written
      beside `merged/`, but the final append takes `merged/` alone, so the
      file reaches no append at all. */
  lemma KeylessFileStranded(c1: Content, c2: Content)
    ensures var cfg := Config(1000, true, false, false);
      var archive := [File(["data", "1.bin"], c1), File(["readme.txt"], c2)];
      ProcessArchive(cfg, Streaming, Initial, archive).log == [Append(map[["data", "1.bin"] := c1])]
  {
    var cfg := Config(1000, true, false, false);
    var m1, m2 := File(["data", "1.bin"], c1), File(["readme.txt"], c2);
    assert "readme.txt"[6] == '.';
    var a0 := FirstPass(cfg, Begin(cfg, Streaming, Initial), [m1, m2]);
    RunTwo(cfg, Streaming, a0, m1, m2);
    var a1 := MemberStep(cfg, Streaming, a0, m1);
    assert a1.merged == map[["data", "1.bin"] := c1] && a1.mergeBaseSet;
    var a2 := MemberStep(cfg, Streaming, a1, m2);
    assert a2.staging == map[["readme.txt"] := c2] && a2.merged == a1.merged && a2.filesInBatch == 2;
  }

  /** The memory-efficient mode keeps the merge base of the previous
      archive: an archive holding only a root file then appends the (empty)
      merge root, while the streaming mode appends the file. */
  lemma MergeBaseCarriesOver(c1: Content, c2: Content)
    ensures var cfg := Config(1000, true, false, false);
      var archives := [[File(["data", "1.bin"], c1)], [File(["readme.txt"], c2)]];
      Build(cfg, true, Initial, archives).log ==
        [InitImage, Append(map[["data", "1.bin"] := c1]), Append(map[])] &&
      Build(cfg, false, Initial, archives).log ==
        [InitImage, Append(map[["data", "1.bin"] := c1]), Append(map[["readme.txt"] := c2])]
  {
    var cfg := Config(1000, true, false, false);
    var m1, m2 := File(["data", "1.bin"], c1), File(["readme.txt"], c2);
    BuildTwo(cfg, true, Initial, [m1], [m2]);
    BuildTwo(cfg, false, Initial, [m1], [m2]);
    KeyedFirstArchive(cfg, MemoryEfficient, m1);
    KeyedFirstArchive(cfg, Streaming, m1);
    var efficient := ProcessArchive(cfg, MemoryEfficient, Initialize(Initial), [m1]);
    var streaming := ProcessArchive(cfg, Streaming, Initialize(Initial), [m1]);
    RootFileAfterMergeBase(efficient, c2);
    RootFileAfterMergeBase(streaming, c2);
    ThreeEvents(efficient.log, InitImage, Append(map[m1.name := c1]), Append(map[]));
    ThreeEvents(streaming.log, InitImage, Append(map[m1.name := c1]), Append(map[m2.name := c2]));
  }

  /** A first archive holding one keyed file, in either mode: it is
      appended alone, and the merge base is set and left empty. */
  lemma KeyedFirstArchive(cfg: Config, mode: Mode, m1: Member)
    requires cfg.batchSize == 1000 && cfg.mergeDuplicates && !cfg.dryRun
    requires m1 == File(["data", "1.bin"], m1.content)
    ensures var t := ProcessArchive(cfg, mode, Initialize(Initial), [m1]);
      t.log == [InitImage, Append(map[m1.name := m1.content])] && t.totalFiles == 1 &&
      t.mergeBaseSet && t.merged == map[] && t.mergedDirs == {} && !t.aborted
  {
    var s0 := Initialize(Initial);
    var a0 := FirstPass(cfg, Begin(cfg, mode, s0), [m1]);
    assert a0.merged == map[] && a0.mergedDirs == {} && a0.filesInBatch == 0 && !a0.aborted;
    RunOne(cfg, mode, a0, m1);
    RoutedStep(cfg, mode, a0, m1);
  }

  /** A second archive holding only the root file `readme.txt`, after a
      first that set the merge base: the memory-efficient mode appends the
      kept (empty) merge root, the streaming mode the file. */
  lemma RootFileAfterMergeBase(s: State, c2: Content)
    requires s.mergeBaseSet && s.merged == map[] && !s.aborted
    ensures var cfg := Config(1000, true, false, false);
      var m2 := File(["readme.txt"], c2);
      ProcessArchive(cfg, MemoryEfficient, s, [m2]).log == s.log + [Append(map[])] &&
      ProcessArchive(cfg, Streaming, s, [m2]).log == s.log + [Append(map[["readme.txt"] := c2])]
  {
    var cfg := Config(1000, true, false, false);
    var m2 := File(["readme.txt"], c2);
    assert "readme.txt"[6] == '.';
    var mB0 := FirstPass(cfg, Begin(cfg, MemoryEfficient, s), [m2]);
    assert mB0.merged == map[] && mB0.filesInBatch == 0 && !mB0.aborted;
    RunOne(cfg, MemoryEfficient, mB0, m2);
    var sB0 := FirstPass(cfg, Begin(cfg, Streaming, s), [m2]);
    assert !sB0.mergeBaseSet && sB0.staging == map[] && sB0.filesInBatch == 0 && !sB0.aborted;
    RunOne(cfg, Streaming, sB0, m2);
  }

  /** In streaming mode the setup creates `merged/LICENSE/` for a root file
      named `LICENSE`, which is its own key, so the file is moved into that
      directory; the memory-efficient mode, which has no such setup, puts
      it at `merged/LICENSE`. */
  lemma RootFileIntoOwnDirectory(c: Content)
    ensures var cfg := Config(1000, true, false, false);
      var archive := [File(["LICENSE"], c)];
      ProcessArchive(cfg, Streaming, Initial, archive).log == [Append(map[["LICENSE", "LICENSE"] := c])] &&
      ProcessArchive(cfg, MemoryEfficient, Initial, archive).log == [Append(map[["LICENSE"] := c])]
  {
    var cfg := Config(1000, true, false, false);
    var m := File(["LICENSE"], c);
    assert TopLevelDir(m.name) == Some("LICENSE");
    var a0 := FirstPass(cfg, Begin(cfg, Streaming, Initial), [m]);
    RunOne(cfg, Streaming, a0, m);
    var p := SetupMerge(cfg, a0, Some("LICENSE"));
    assert p.mergedDirs == {"LICENSE"} && p.merged == map[];
    assert MergedTarget(p, m.name) == ["LICENSE", "LICENSE"];
    var a1 := MemberStep(cfg, Streaming, a0, m);
    assert a1 == TarMember(cfg, p, m, Some("LICENSE"));
    assert a1.merged == map[["LICENSE", "LICENSE"] := c] && a1.filesInBatch == 1 && !a1.aborted;
    var b0 := FirstPass(cfg, Begin(cfg, MemoryEfficient, Initial), [m]);
    RunOne(cfg, MemoryEfficient, b0, m);
    assert MergedTarget(b0, m.name) == ["LICENSE"];
    var b1 := MemberStep(cfg, MemoryEfficient, b0, m);
    assert b1.merged == map[["LICENSE"] := c] && b1.filesInBatch == 1 && !b1.aborted;
  }

  /** A routed file, in the given mode: written at its placed path below
      the merge root, counted and checked against the batch size, or the
      move raises. */
  lemma RoutedStep(cfg: Config, mode: Mode, s: State, m: Member)
    requires !s.aborted && m.kind == RegularFile && !cfg.dryRun && cfg.mergeDuplicates
    requires IsKey(TopLevelDir(m.name))
    ensures var b := EnsureMergeBase(s);
      var dirs := if mode == Streaming then s.mergedDirs + {m.name[0]} else s.mergedDirs;
      var dst := if |m.name| == 1 && m.name[0] in dirs then m.name + m.name else m.name;
      MemberStep(cfg, mode, s, m) ==
        if dst != m.name && dst in s.merged then b.(mergedDirs := dirs, aborted := true)
        else Boundary(cfg, mode, b.(mergedDirs := dirs, merged := s.merged[dst := m.content],
                                    filesInBatch := s.filesInBatch + 1, totalFiles := s.totalFiles + 1))
  {
    var top := TopLevelDir(m.name);
    assert top.value == m.name[0];
    if mode == Streaming {
      var p := SetupMerge(cfg, s, top);
      assert p == EnsureMergeBase(s).(mergedDirs := s.mergedDirs + {m.name[0]});
      assert MemberStep(cfg, mode, s, m) == TarMember(cfg, p, m, top);
    }
  }

  /** A second root file `LICENSE` in the same streaming batch is moved
      into `merged/LICENSE/`, which already holds the first one: the move
      raises and nothing more is appended. */
  lemma RepeatedRootFileAborts(c1: Content, c2: Content)
    ensures var cfg := Config(1000, true, false, false);
      var archive := [File(["LICENSE"], c1), File(["LICENSE"], c2)];
      var t := ProcessArchive(cfg, Streaming, Initial, archive);
      t.aborted && t.log == [] && t.totalFiles == 1
  {
    var cfg := Config(1000, true, false, false);
    var m1, m2 := File(["LICENSE"], c1), File(["LICENSE"], c2);
    assert TopLevelDir(m1.name) == Some("LICENSE");
    var a0 := FirstPass(cfg, Begin(cfg, Streaming, Initial), [m1, m2]);
    RunTwo(cfg, Streaming, a0, m1, m2);
    assert a0.merged == map[] && a0.mergedDirs == {} && a0.filesInBatch == 0 && !a0.aborted && a0.log == [];
    assert m1.name[0] == "LICENSE" && m1.name + m1.name == ["LICENSE", "LICENSE"];
    RoutedStep(cfg, Streaming, a0, m1);
    var a1 := MemberStep(cfg, Streaming, a0, m1);
    assert a1.merged == map[["LICENSE", "LICENSE"] := c1] && a1.mergedDirs == {"LICENSE"} && !a1.aborted;
    RoutedStep(cfg, Streaming, a1, m2);
  }

  /** Once the run has aborted, later archives are not processed. */
  lemma AbortEndsRun(cfg: Config, memoryEfficient: bool, a1: Archive, a2: Archive)
    requires ProcessArchive(cfg, ModeOf(memoryEfficient), Initialize(Initial), a1).aborted
    ensures Build(cfg, memoryEfficient, Initial, [a1, a2]) == ProcessArchive(cfg, ModeOf(memoryEfficient), Initialize(Initial), a1)
  {
    BuildTwo(cfg, memoryEfficient, Initial, a1, a2);
  }

  /** The memory-efficient mode with a fresh temporary directory per
      archive keeps appending the first archive's merge root, which later
      archives fill and nothing empties: the third append holds the files
      of the second and third archives. With a fixed staging directory the
      same path is emptied between archives. */
  lemma StaleMergeRootCarriesOver(c1: Content, c2: Content, c3: Content)
    ensures var archives := [[File(["data", "1.bin"], c1)], [File(["data", "2.bin"], c2)], [File(["data", "3.bin"], c3)]];
      Build(Config(1000, true, false, false), true, Initial, archives).log ==
        [InitImage, Append(map[["data", "1.bin"] := c1]), Append(map[["data", "2.bin"] := c2]),
         Append(map[["data", "2.bin"] := c2, ["data", "3.bin"] := c3])] &&
      Build(Config(1000, true, false, true), true, Initial, archives).log ==
        [InitImage, Append(map[["data", "1.bin"] := c1]), Append(map[["data", "2.bin"] := c2]),
         Append(map[["data", "3.bin"] := c3])]
  {
    var m1, m2, m3 := File(["data", "1.bin"], c1), File(["data", "2.bin"], c2), File(["data", "3.bin"], c3);
    var byDefault, fixedDir := Config(1000, true, false, false), Config(1000, true, false, true);
    BuildThree(byDefault, true, Initial, [m1], [m2], [m3]);
    BuildTwo(byDefault, true, Initial, [m1], [m2]);
    StaleRun(byDefault, m1, m2, m3);
    BuildThree(fixedDir, true, Initial, [m1], [m2], [m3]);
    BuildTwo(fixedDir, true, Initial, [m1], [m2]);
    StaleRun(fixedDir, m1, m2, m3);
  }

  lemma StaleRun(cfg: Config, m1: Member, m2: Member, m3: Member)
    requires cfg.batchSize == 1000 && cfg.mergeDuplicates && !cfg.dryRun
    requires m1 == File(["data", "1.bin"], m1.content) && m2 == File(["data", "2.bin"], m2.content)
    requires m3 == File(["data", "3.bin"], m3.content)
    ensures var sA := ProcessArchive(cfg, MemoryEfficient, Initialize(Initial), [m1]);
      var sB := ProcessArchive(cfg, MemoryEfficient, sA, [m2]);
      ProcessArchive(cfg, MemoryEfficient, sB, [m3]).log ==
        [InitImage, Append(map[m1.name := m1.content]), Append(map[m2.name := m2.content]),
         Append(if cfg.hasTempDir then map[m3.name := m3.content]
                else map[m2.name := m2.content, m3.name := m3.content])]
  {
    KeyedFirstArchive(cfg, MemoryEfficient, m1);
    var sA := ProcessArchive(cfg, MemoryEfficient, Initialize(Initial), [m1]);
    var kept := if cfg.hasTempDir then map[] else map[m2.name := m2.content];
    StaleSecond(cfg, sA, m2, kept);
    var sB := ProcessArchive(cfg, MemoryEfficient, sA, [m2]);
    StaleThird(cfg, sB, m3, kept);
    var last := if cfg.hasTempDir then map[m3.name := m3.content]
                else map[m2.name := m2.content, m3.name := m3.content];
    assert kept[m3.name := m3.content] == last;
    FourEvents(sA.log, InitImage, Append(map[m1.name := m1.content]), Append(map[m2.name := m2.content]), Append(last));
  }

  /** The second archive of `StaleRun`: the kept merge root lies in the
      first archive's directory unless a fixed one is configured, and then
      survives the end of the archive. */
  lemma StaleSecond(cfg: Config, s: State, m2: Member, kept: Tree)
    requires cfg.batchSize == 1000 && cfg.mergeDuplicates && !cfg.dryRun
    requires m2 == File(["data", "2.bin"], m2.content)
    requires s.mergeBaseSet && s.merged == map[] && s.mergedDirs == {} && !s.aborted
    requires kept == if cfg.hasTempDir then map[] else map[m2.name := m2.content]
    ensures var t := ProcessArchive(cfg, MemoryEfficient, s, [m2]);
      t.log == s.log + [Append(map[m2.name := m2.content])] && t.mergeBaseSet && !t.aborted &&
      t.mergedDirs == {} && t.merged == kept
  {
    var b0 := FirstPass(cfg, Begin(cfg, MemoryEfficient, s), [m2]);
    assert b0.merged == map[] && b0.mergedDirs == {} && b0.filesInBatch == 0 && !b0.aborted && b0.mergeBaseSet;
    assert b0.mergedInStaging == cfg.hasTempDir;
    RunOne(cfg, MemoryEfficient, b0, m2);
    RoutedStep(cfg, MemoryEfficient, b0, m2);
  }

  /** The third archive of `StaleRun`: its file joins whatever the kept
      merge root still holds. */
  lemma StaleThird(cfg: Config, s: State, m3: Member, kept: Tree)
    requires cfg.batchSize == 1000 && cfg.mergeDuplicates && !cfg.dryRun
    requires m3 == File(["data", "3.bin"], m3.content)
    requires s.mergeBaseSet && !s.aborted && s.mergedDirs == {} && s.merged == kept
    requires cfg.hasTempDir ==> kept == map[]
    ensures ProcessArchive(cfg, MemoryEfficient, s, [m3]).log == s.log + [Append(kept[m3.name := m3.content])]
  {
    var c0 := FirstPass(cfg, Begin(cfg, MemoryEfficient, s), [m3]);
    assert c0.merged == s.merged && c0.filesInBatch == 0 && !c0.aborted && c0.mergedDirs == {};
    RunOne(cfg, MemoryEfficient, c0, m3);
    RoutedStep(cfg, MemoryEfficient, c0, m3);
  }
}
