/** `cli` of the top-level basemountretrieve.py, the script's first
    version: it is given a project's Samples directory and copies each
    FASTQ file once into the output directory, always under
    `<sample id>_<file name>`, then chmods every copy. */
module LegacyRetrieve {
  import opened Text
  import opened MountFs
  import opened FlatRetrieve

  /** `outdir / (sampleid + "_" + samplename)`: the sample id is prefixed
      whatever the file name holds. */
  function LegacyOutName(outDir: Path, j: Path): (r: Path)
    requires |j| >= 2
    ensures ChildOf(r, outDir)
  {
    outDir + [SampleIdOfFile(j) + "_" + NameOf(j)]
  }

  /** The sample id is always prefixed, so the first version names a copy
      as the later script does exactly when the file name lacks its sample
      id; a name that already holds it gets the id a second time. */
  lemma LegacyPrefixesAgain(outDir: Path, j: Path)
    requires |j| >= 2
    ensures NameOf(LegacyOutName(outDir, j)) == SampleIdOfFile(j) + "_" + NameOf(j)
    ensures NameOf(LegacyOutName(outDir, j)) == NameOf(FlatOutName(outDir, j)) <==> !Contains(NameOf(j), SampleIdOfFile(j))
  {
    FlatOutNameRule(outDir, j);
    if Contains(NameOf(j), SampleIdOfFile(j)) {
      assert |NameOf(LegacyOutName(outDir, j))| > |NameOf(FlatOutName(outDir, j))|;
    }
  }

  /** The copies of the copy loop over `fs`, in order. */
  function LegacyCopies(outDir: Path, fs: seq<Path>): (r: seq<Op>)
    requires AllNamed(fs)
    ensures |r| == |fs|
  {
    if fs == [] then [] else LegacyCopies(outDir, fs[..|fs| - 1]) + [Copy(fs[|fs| - 1], LegacyOutName(outDir, fs[|fs| - 1]))]
  }

  /** The `modlist` of the copy loop over `fs`. */
  function LegacyDests(outDir: Path, fs: seq<Path>): (r: seq<Path>)
    requires AllNamed(fs)
    ensures |r| == |fs|
  {
    if fs == [] then [] else LegacyDests(outDir, fs[..|fs| - 1]) + [LegacyOutName(outDir, fs[|fs| - 1])]
  }

  /** The copy loop: every file copied in turn, its destination appended
      to `modlist`. */
  method LegacyCopyLoop(outDir: Path, fastqs: seq<Path>) returns (copies: seq<Op>, modlist: seq<Path>)
    requires AllNamed(fastqs)
    ensures copies == LegacyCopies(outDir, fastqs) && modlist == LegacyDests(outDir, fastqs)
  {
    copies, modlist := [], [];
    for i := 0 to |fastqs|
      invariant copies == LegacyCopies(outDir, fastqs[..i])
      invariant modlist == LegacyDests(outDir, fastqs[..i])
    {
      var outname := LegacyOutName(outDir, fastqs[i]);
      copies := copies + [Copy(fastqs[i], outname)];
      modlist := modlist + [outname];
      assert fastqs[..i + 1][..i] == fastqs[..i];
    }
    assert fastqs[..|fastqs|] == fastqs;
  }

  lemma {:induction false} LegacyCopiesOps(outDir: Path, fs: seq<Path>, x: Path)
    requires AllNamed(fs)
    ensures CopyCount(LegacyCopies(outDir, fs)) == |fs|
    ensures CopiesFrom(LegacyCopies(outDir, fs), x) == Occurrences(fs, x)
    ensures CopyDests(LegacyCopies(outDir, fs)) == LegacyDests(outDir, fs)
    ensures ChmodTargets(LegacyCopies(outDir, fs)) == []
  {
    if fs != [] {
      var front := fs[..|fs| - 1];
      var last := [Copy(fs[|fs| - 1], LegacyOutName(outDir, fs[|fs| - 1]))];
      LegacyCopiesOps(outDir, front, x);
      CountsAppend(LegacyCopies(outDir, front), last, x);
      PathsAppend(LegacyCopies(outDir, front), last);
    }
  }

  lemma {:induction false} OccurrencesOf(fs: seq<Path>, x: Path)
    requires NoDup(fs)
    ensures Occurrences(fs, x) == if x in fs then 1 else 0
  {
    if fs != [] {
      NoDupFront(fs);
      OccurrencesOf(fs[..|fs| - 1], x);
      assert forall y :: y in fs <==> y in fs[..|fs| - 1] || y == fs[|fs| - 1];
    }
  }

  lemma MakeDirsOnly(dir: Path, x: Path)
    ensures CopiesFrom([MakeDirs(dir)], x) == 0
    ensures CopyDests([MakeDirs(dir)]) == [] && ChmodTargets([MakeDirs(dir)]) == []
  {
    assert [MakeDirs(dir)][..0] == [];
  }

  /** Each of the distinct files `fs` is copied exactly once by
      `[makedirs] + copies + chmods`, and nothing else is copied. */
  lemma LegacyCopiesOnce(outDir: Path, fs: seq<Path>)
    requires AllNamed(fs) && NoDup(fs)
    ensures var ops := [MakeDirs(outDir)] + LegacyCopies(outDir, fs) + ChmodsOf(LegacyDests(outDir, fs));
      forall x :: CopiesFrom(ops, x) == if x in fs then 1 else 0
  {
    var head, copies, chmods := [MakeDirs(outDir)], LegacyCopies(outDir, fs), ChmodsOf(LegacyDests(outDir, fs));
    forall x ensures CopiesFrom(head + copies + chmods, x) == if x in fs then 1 else 0 {
      MakeDirsOnly(outDir, x);
      LegacyCopiesOps(outDir, fs, x);
      ChmodPassOps(LegacyDests(outDir, fs), x);
      OccurrencesOf(fs, x);
      CountsAppend(head, copies, x);
      CountsAppend(head + copies, chmods, x);
    }
  }

  /** The copies' destinations are `modlist` in traversal order, and the
      chmods are exactly `modlist`, in that order. */
  lemma LegacyChmodsMatch(outDir: Path, fs: seq<Path>)
    requires AllNamed(fs)
    ensures var ops := [MakeDirs(outDir)] + LegacyCopies(outDir, fs) + ChmodsOf(LegacyDests(outDir, fs));
      CopyDests(ops) == ChmodTargets(ops) == LegacyDests(outDir, fs)
  {
    var head, copies, chmods := [MakeDirs(outDir)], LegacyCopies(outDir, fs), ChmodsOf(LegacyDests(outDir, fs));
    MakeDirsOnly(outDir, []);
    LegacyCopiesOps(outDir, fs, []);
    ChmodPassOps(LegacyDests(outDir, fs), []);
    PathsAppend(head, copies);
    PathsAppend(head + copies, chmods);
  }

  /** `cli(inputdir, outdir)`: the output directory first (with parents,
      tolerating one that exists), then the copy loop over
      `<sample>/Files/<entry>` without `.id.` files, then the chmod loop
      over `modlist`. With a listing that names each entry once, every
      kept file is copied exactly once and only those files are copied,
      and every destination is chmod-ed once, in copy order, and nothing
      else is. */
  method LegacyCli(m: Mount, inputDir: Path, outDir: Path) returns (ops: seq<Op>)
    ensures var fastqs := WithoutIdFiles(FilesGlob(m, inputDir));
      ops == [MakeDirs(outDir)] + LegacyCopies(outDir, fastqs) + ChmodsOf(LegacyDests(outDir, fastqs))
    ensures var fastqs := WithoutIdFiles(FilesGlob(m, inputDir));
      CopyDests(ops) == ChmodTargets(ops) == LegacyDests(outDir, fastqs)
    ensures WellFormed(m) ==>
      var fastqs := WithoutIdFiles(FilesGlob(m, inputDir));
      forall x :: CopiesFrom(ops, x) == if x in fastqs then 1 else 0
  {
    var fastqs := WithoutIdFiles(FilesGlob(m, inputDir));
    var copies, modlist := LegacyCopyLoop(outDir, fastqs);
    var chmods := ChmodPass(modlist);
    ops := [MakeDirs(outDir)] + copies + chmods;
    if WellFormed(m) {
      FilesGlobNoDup(m, inputDir);
      FilterNoDup(FilesGlob(m, inputDir), (p: Path) => !Contains(PathString(p), ".id."));
      LegacyCopiesOnce(outDir, fastqs);
    }
    LegacyChmodsMatch(outDir, fastqs);
  }
}
