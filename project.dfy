/** `BasemountProject`, `create_run_folder_skeleton` and
    `retrieve_project_contents_from_basemount` of
    BaseMountRetrieve/basemountretrieve_v2.py: the runs of a project, the
    directory layout each run gets locally, and the copies that fill it. */
module BasemountProject {
  import opened Results
  import opened Text
  import opened MountFs
  import opened BasemountSample
  import opened BasemountRun
  import opened LocalDisk

  // ---------------------------------------------------------------------
  // The project object

  /** The glob `FASTQ*` as a name predicate. */
  predicate IsRunDirName(n: Name)
  {
    StartsWith(n, "FASTQ")
  }

  /** `get_runs_dirs`: the entries of `AppSessions.v1` named `FASTQ*`, in
      listing order. */
  function GetRunsDirs(m: Mount, projectDir: Path): (r: seq<Path>)
    ensures forall p :: p in r <==> p in Children(m, projectDir + ["AppSessions.v1"]) && IsRunDirName(NameOf(p))
  {
    Glob(m, projectDir + ["AppSessions.v1"], IsRunDirName)
  }

  /** The first `n` run directories all build. */
  predicate RunsBuildUpTo(m: Mount, projectDir: Path, runDirs: seq<Path>, n: int)
  {
    forall j :: 0 <= j < n && j < |runDirs| ==> RunError(m, runDirs[j], projectDir).None?
  }

  /** `run` is the run object built from `runDir`. */
  predicate BuiltFrom(m: Mount, projectDir: Path, runDir: Path, run: Run)
  {
    run.runDir == runDir && run.projectDir == projectDir && run.ResolvedFrom(m)
  }

  /** `ok(xs[i], ys[i])` for each index `i` of `ys`, which is no longer
      than `xs`. */
  predicate Pairwise<A, B>(xs: seq<A>, ys: seq<B>, ok: (A, B) -> bool)
  {
    && |ys| <= |xs|
    && (ys != [] ==> Pairwise(xs, ys[..|ys| - 1], ok) && ok(xs[|ys| - 1], ys[|ys| - 1]))
  }

  lemma {:induction false} PairwiseAt<A, B>(xs: seq<A>, ys: seq<B>, ok: (A, B) -> bool, i: nat)
    requires Pairwise(xs, ys, ok) && i < |ys|
    ensures ok(xs[i], ys[i])
  {
    if i < |ys| - 1 {
      PairwiseAt(xs, ys[..|ys| - 1], ok, i);
    }
  }

  lemma PairwiseAppend<A, B>(xs: seq<A>, ys: seq<B>, ok: (A, B) -> bool, y: B)
    requires Pairwise(xs, ys, ok) && |ys| < |xs| && ok(xs[|ys|], y)
    ensures Pairwise(xs, ys + [y], ok)
  {
    assert (ys + [y])[..|ys|] == ys;
  }

  /** `runs[i]` is the run object built from `runDirs[i]`, for each of the
      first `|runs|` run directories. */
  predicate RunsResolved(m: Mount, projectDir: Path, runDirs: seq<Path>, runs: seq<Run>)
  {
    Pairwise(runDirs, runs, (runDir: Path, run: Run) => BuiltFrom(m, projectDir, runDir, run))
  }

  lemma RunsResolvedAt(m: Mount, projectDir: Path, runDirs: seq<Path>, runs: seq<Run>, i: nat)
    requires RunsResolved(m, projectDir, runDirs, runs) && i < |runs|
    ensures BuiltFrom(m, projectDir, runDirs[i], runs[i])
  {
    PairwiseAt(runDirs, runs, (runDir: Path, run: Run) => BuiltFrom(m, projectDir, runDir, run), i);
  }

  /** Building the run of `runDirs[k]` raises `e`, and every earlier run
      builds. */
  predicate FirstRunFailure(m: Mount, projectDir: Path, runDirs: seq<Path>, k: int, e: Error)
  {
    && 0 <= k < |runDirs|
    && RunError(m, runDirs[k], projectDir) == Some(e)
    && RunsBuildUpTo(m, projectDir, runDirs, k)
  }

  lemma RunsBuildStep(m: Mount, projectDir: Path, runDirs: seq<Path>, i: nat)
    requires i < |runDirs|
    requires RunsBuildUpTo(m, projectDir, runDirs, i)
    requires RunError(m, runDirs[i], projectDir) == None
    ensures RunsBuildUpTo(m, projectDir, runDirs, i + 1)
  {
  }

  lemma RunsResolvedAppend(m: Mount, projectDir: Path, runDirs: seq<Path>, runs: seq<Run>, run: Run)
    requires RunsResolved(m, projectDir, runDirs, runs) && |runs| < |runDirs|
    requires BuiltFrom(m, projectDir, runDirs[|runs|], run)
    ensures RunsResolved(m, projectDir, runDirs, runs + [run])
  {
    PairwiseAppend(runDirs, runs, (runDir: Path, run: Run) => BuiltFrom(m, projectDir, runDir, run), run);
  }

  /** `generate_run_objects`: a run per run directory, in order; the first
      run that raises ends the loop, and the exception propagates. */
  method GenerateRunObjects(m: Mount, projectDir: Path, runDirs: seq<Path>) returns (r: Result<seq<Run>>)
    ensures r.Failure? ==> exists k :: FirstRunFailure(m, projectDir, runDirs, k, r.error)
    ensures r.Success? ==> RunsBuildUpTo(m, projectDir, runDirs, |runDirs|)
    ensures r.Success? ==> |r.value| == |runDirs| && RunsResolved(m, projectDir, runDirs, r.value)
  {
    var runs: seq<Run> := [];
    for i := 0 to |runDirs|
      invariant RunsBuildUpTo(m, projectDir, runDirs, i)
      invariant |runs| == i && RunsResolved(m, projectDir, runDirs, runs)
    {
      var run := OpenRun(m, runDirs[i], projectDir);
      if run.Failure? {
        assert FirstRunFailure(m, projectDir, runDirs, i, run.error);
        return Failure(run.error);
      }
      RunsBuildStep(m, projectDir, runDirs, i);
      RunsResolvedAppend(m, projectDir, runDirs, runs, run.value);
      runs := runs + [run.value];
    }
    return Success(runs);
  }

  class Project {
    const projectDir: Path
    const sampleDir: Path
    const appsessions: Path
    const runDirs: seq<Path>
    const runObjects: seq<Run>

    constructor (projectDir: Path, runDirs: seq<Path>, runObjects: seq<Run>)
      ensures this.projectDir == projectDir
      ensures sampleDir == projectDir + ["Samples"] && appsessions == projectDir + ["AppSessions.v1"]
      ensures this.runDirs == runDirs && this.runObjects == runObjects
    {
      this.projectDir := projectDir;
      sampleDir := projectDir + ["Samples"];
      appsessions := projectDir + ["AppSessions.v1"];
      this.runDirs := runDirs;
      this.runObjects := runObjects;
    }
  }

  /** `BasemountProject(project_dir)`: the run directories, then a run
      object for each. */
  method OpenProject(m: Mount, projectDir: Path) returns (r: Result<Project>)
    ensures r.Failure? ==> exists k :: FirstRunFailure(m, projectDir, GetRunsDirs(m, projectDir), k, r.error)
    ensures r.Success? ==> RunsBuildUpTo(m, projectDir, GetRunsDirs(m, projectDir), |GetRunsDirs(m, projectDir)|)
    ensures r.Success? ==> r.value.projectDir == projectDir && r.value.runDirs == GetRunsDirs(m, projectDir)
    ensures r.Success? ==> |r.value.runObjects| == |r.value.runDirs|
    ensures r.Success? ==> RunsResolved(m, projectDir, r.value.runDirs, r.value.runObjects)
    ensures r.Success? ==> fresh(r.value)
  {
    var runDirs := GetRunsDirs(m, projectDir);
    var runs := GenerateRunObjects(m, projectDir, runDirs);
    if runs.Failure? {
      return Failure(runs.error);
    }
    var project := new Project(projectDir, runDirs, runs.value);
    return Success(project);
  }

  // ---------------------------------------------------------------------
  // The run folder skeleton

  /** `Data/Intensities/BaseCalls`, where the reads go. */
  const BaseCallsDir: Path := ["Data", "Intensities", "BaseCalls"]

  /** `base_folders` of `create_run_folder_skeleton`, as relative paths. */
  const BaseFolders: seq<Path> :=
    [["Config"], BaseCallsDir, ["Images"], ["InterOp"], ["Logs"], ["Recipes"], ["Thumbnail_Images"]]

  /** Every directory `mkdir(parents=True)` makes for `out / f`, over the
      folders `fs`. */
  function FoldersLineage(out: Path, fs: seq<Path>): set<Path>
  {
    if fs == [] then {} else FoldersLineage(out, fs[..|fs| - 1]) + Lineage(out + fs[|fs| - 1])
  }

  /** The directories a successful `create_run_folder_skeleton(out)` leaves
      in place. */
  function SkeletonDirs(out: Path): set<Path>
  {
    ({out} - {[]}) + FoldersLineage(out, BaseFolders)
  }

  /** `create_run_folder_skeleton(out_dir)`: `out_dir` itself, without
      parents, then each base folder with its parents; all tolerate prior
      existence, so a second call leaves the tree as it is. */
  method CreateRunFolderSkeleton(tree: LocalTree, out: Path) returns (err: Option<Error>)
    modifies tree
    ensures tree.log == old(tree.log)
    ensures out != [] && !old(tree.Exists(out[..|out| - 1])) ==>
      err == Some(FileNotFound(out)) && tree.dirs == old(tree.dirs)
    ensures out == [] || old(tree.Exists(out[..|out| - 1])) ==>
      err == None && tree.dirs == old(tree.dirs) + SkeletonDirs(out)
    ensures old(SkeletonDirs(out) <= tree.dirs) ==> err == None && tree.dirs == old(tree.dirs)
  {
    ghost var skeleton := SkeletonDirs(out);
    if skeleton <= tree.dirs && out != [] {
      SkeletonHoldsOut(out);
      assert out[..|out| - 1] == [] || out[..|out| - 1] in Lineage(out);
    }
    err := tree.MakeDir(out, false);
    if err.Some? {
      return;
    }
    ghost var withOut := tree.dirs;
    MakeBaseFolders(tree, out);
    assert tree.dirs == withOut + FoldersLineage(out, BaseFolders);
  }

  /** The `for f in base_folders` loop: each folder below `out`, with its
      parents. */
  method MakeBaseFolders(tree: LocalTree, out: Path)
    modifies tree
    ensures tree.log == old(tree.log)
    ensures tree.dirs == old(tree.dirs) + FoldersLineage(out, BaseFolders)
  {
    for i := 0 to |BaseFolders|
      invariant tree.log == old(tree.log)
      invariant tree.dirs == old(tree.dirs) + FoldersLineage(out, BaseFolders[..i])
    {
      var e := tree.MakeDir(out + BaseFolders[i], true);
      FoldersLineageStep(out, BaseFolders, i);
    }
    assert BaseFolders[..|BaseFolders|] == BaseFolders;
  }

  /** The skeleton holds `out` with all its ancestors, and each base folder
      with every directory between it and `out`. */
  lemma SkeletonHoldsLineage(out: Path)
    ensures Lineage(out) <= SkeletonDirs(out)
    ensures forall f, k :: f in BaseFolders && 0 <= k <= |f| && out + f[..k] != [] ==> out + f[..k] in SkeletonDirs(out)
  {
    forall f, k | f in BaseFolders && 0 <= k <= |f| && out + f[..k] != []
      ensures out + f[..k] in SkeletonDirs(out)
    {
      SkeletonHoldsFolder(out, f, k);
    }
    SkeletonHoldsOut(out);
  }

  lemma SkeletonHoldsFolder(out: Path, f: Path, k: nat)
    requires f in BaseFolders && k <= |f| && out + f[..k] != []
    ensures out + f[..k] in SkeletonDirs(out)
  {
    var p := out + f[..k];
    assert (out + f)[..|p|] == p;
    assert p in Lineage(out + f);
    FoldersLineageHolds(out, BaseFolders, f);
    assert p in FoldersLineage(out, BaseFolders);
  }

  lemma SkeletonHoldsOut(out: Path)
    ensures Lineage(out) <= SkeletonDirs(out)
  {
    FoldersLineageHolds(out, BaseFolders, ["Config"]);
    forall q | q in Lineage(out) ensures q in Lineage(out + ["Config"]) {
      assert (out + ["Config"])[..|q|] == q;
    }
  }

  lemma FoldersLineageStep(out: Path, fs: seq<Path>, i: nat)
    requires i < |fs|
    ensures FoldersLineage(out, fs[..i + 1]) == FoldersLineage(out, fs[..i]) + Lineage(out + fs[i])
  {
    assert fs[..i + 1][..i] == fs[..i];
  }

  lemma {:induction false} FoldersLineageHolds(out: Path, fs: seq<Path>, f: Path)
    requires f in fs
    ensures Lineage(out + f) <= FoldersLineage(out, fs)
  {
    if f != fs[|fs| - 1] {
      assert f in fs[..|fs| - 1];
      FoldersLineageHolds(out, fs[..|fs| - 1], f);
    }
  }
}
