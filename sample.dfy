/** `BasemountSample` of BaseMountRetrieve/basemountretrieve_v2.py: one
    sample directory on the mount and the R1/R2 read pair found in its
    `Files` sub-directory. */
module BasemountSample {
  import opened Results
  import opened Text
  import opened MountFs

  /** The glob `*_R1_*` as a name predicate. */
  predicate IsR1Name(n: Name)
  {
    Contains(n, "_R1_")
  }

  /** The glob `*_R2_*` as a name predicate. */
  predicate IsR2Name(n: Name)
  {
    Contains(n, "_R2_")
  }

  /** `list(fastq_dir.glob("*_R1_*"))`. */
  function R1Matches(m: Mount, fastqDir: Path): (r: seq<Path>)
    ensures forall p :: p in r <==> p in Children(m, fastqDir) && IsR1Name(NameOf(p))
  {
    Glob(m, fastqDir, IsR1Name)
  }

  /** `list(fastq_dir.glob("*_R2_*"))`. */
  function R2Matches(m: Mount, fastqDir: Path): (r: seq<Path>)
    ensures forall p :: p in r <==> p in Children(m, fastqDir) && IsR2Name(NameOf(p))
  {
    Glob(m, fastqDir, IsR2Name)
  }

  /** `validate_fastq_in_sample_dir`: true exactly when none of its four
      assertions fails. */
  predicate FastqValid(m: Mount, fastqDir: Path)
  {
    var r1 := R1Matches(m, fastqDir);
    var r2 := R2Matches(m, fastqDir);
    |r1| == 1 && |r2| == 1 && IsFile(m, r1[0]) && IsFile(m, r2[0])
  }

  /** `get_reads`: the first R1 and the first R2 match; indexing an empty
      match list raises IndexError. */
  function GetReads(m: Mount, fastqDir: Path): (r: Result<(Path, Path)>)
    ensures r.Failure? <==> R1Matches(m, fastqDir) == [] || R2Matches(m, fastqDir) == []
    ensures r.Failure? ==> r.error == IndexOutOfRange
    ensures r.Success? ==> r.value.0 in Children(m, fastqDir) && IsR1Name(NameOf(r.value.0))
    ensures r.Success? ==> r.value.1 in Children(m, fastqDir) && IsR2Name(NameOf(r.value.1))
    ensures r.Success? ==> EarliestMatch(Children(m, fastqDir), IsR1Name, r.value.0)
    ensures r.Success? ==> EarliestMatch(Children(m, fastqDir), IsR2Name, r.value.1)
  {
    var r1 := R1Matches(m, fastqDir);
    var r2 := R2Matches(m, fastqDir);
    if r1 == [] || r2 == [] then Failure(IndexOutOfRange)
    else
      assert r1[0] in r1 && r2[0] in r2;
      GlobFirst(m, fastqDir, IsR1Name);
      GlobFirst(m, fastqDir, IsR2Name);
      Success((r1[0], r2[0]))
  }

  /** The read pair `__post_init__` settles on: the reads of `get_reads`
      when validation passes, nothing (both fields left `None`) otherwise. */
  function ReadPair(m: Mount, fastqDir: Path): Option<(Path, Path)>
  {
    if FastqValid(m, fastqDir) then Some(GetReads(m, fastqDir).value) else None
  }

  /** A settled read pair names two regular files. */
  lemma ReadPairFiles(m: Mount, fastqDir: Path)
    requires ReadPair(m, fastqDir).Some?
    ensures IsFile(m, ReadPair(m, fastqDir).value.0) && IsFile(m, ReadPair(m, fastqDir).value.1)
  {
  }

  /** `p` is the one entry of `fastqDir` whose name satisfies `isMatch`, and
      it is a regular file. */
  predicate OnlyMatchingFile(m: Mount, fastqDir: Path, isMatch: Name -> bool, p: Path)
  {
    && p in Children(m, fastqDir) && isMatch(NameOf(p)) && IsFile(m, p)
    && forall q :: q in Children(m, fastqDir) && isMatch(NameOf(q)) ==> q == p
  }

  /** A sample gets a read pair exactly when one entry of `Files` has `_R1_`
      in its name, one has `_R2_`, and both are regular files; the pair is
      then those two entries. */
  lemma ReadPairIff(m: Mount, fastqDir: Path)
    requires WellFormed(m)
    ensures ReadPair(m, fastqDir).Some? <==>
      (exists a :: OnlyMatchingFile(m, fastqDir, IsR1Name, a))
      && (exists b :: OnlyMatchingFile(m, fastqDir, IsR2Name, b))
    ensures ReadPair(m, fastqDir).Some? ==>
      && OnlyMatchingFile(m, fastqDir, IsR1Name, ReadPair(m, fastqDir).value.0)
      && OnlyMatchingFile(m, fastqDir, IsR2Name, ReadPair(m, fastqDir).value.1)
  {
    OnlyMatchIff(m, fastqDir, IsR1Name);
    OnlyMatchIff(m, fastqDir, IsR2Name);
  }

  /** A glob has a single match that is a regular file exactly when some
      entry is the only matching one and a file; that entry is the match. */
  lemma OnlyMatchIff(m: Mount, fastqDir: Path, isMatch: Name -> bool)
    requires WellFormed(m)
    ensures var g := Glob(m, fastqDir, isMatch);
      && ((|g| == 1 && IsFile(m, g[0])) <==> exists a :: OnlyMatchingFile(m, fastqDir, isMatch, a))
      && (|g| == 1 && IsFile(m, g[0]) ==> OnlyMatchingFile(m, fastqDir, isMatch, g[0]))
  {
    var g := Glob(m, fastqDir, isMatch);
    GlobNoDup(m, fastqDir, isMatch);
    SingletonIff(g);
    if exists a :: OnlyMatchingFile(m, fastqDir, isMatch, a) {
      var a :| OnlyMatchingFile(m, fastqDir, isMatch, a);
      assert a in g && forall y :: y in g ==> y == a;
      assert g[0] in g;
    }
    if |g| == 1 {
      assert g[0] in g;
      forall q | q in Children(m, fastqDir) && isMatch(NameOf(q)) ensures q == g[0] {
        assert q in g;
      }
      if IsFile(m, g[0]) {
        assert OnlyMatchingFile(m, fastqDir, isMatch, g[0]);
      }
    }
  }

  /** One sample of a run; `r1` and `r2` are settled by the constructor and
      nothing changes them afterwards. */
  class Sample {
    const projectDir: Path
    const runDir: Path
    const sampleDir: Path
    const sampleId: string
    const fastqDir: Path
    const r1: Option<Path>
    const r2: Option<Path>

    /** `__post_init__`: a failed validation is logged and leaves both reads
        `None`; no exception leaves the constructor. */
    constructor (m: Mount, projectDir: Path, runDir: Path, sampleDir: Path, sampleId: string)
      ensures this.projectDir == projectDir && this.runDir == runDir
      ensures this.sampleDir == sampleDir && this.sampleId == sampleId
      ensures fastqDir == sampleDir + ["Files"]
      ensures r1.Some? <==> FastqValid(m, fastqDir)
      ensures r2.Some? <==> r1.Some?
      ensures ReadPair(m, fastqDir) == if r1.Some? then Some((r1.value, r2.value)) else None
    {
      this.projectDir := projectDir;
      this.runDir := runDir;
      this.sampleDir := sampleDir;
      this.sampleId := sampleId;
      var fastq := sampleDir + ["Files"];
      fastqDir := fastq;
      if FastqValid(m, fastq) {
        var pair := GetReads(m, fastq);
        r1 := Some(pair.value.0);
        r2 := Some(pair.value.1);
      } else {
        r1 := None;
        r2 := None;
      }
    }
  }
}
