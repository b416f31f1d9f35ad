/** `retrieve_samples`, `retrieve_samplesheets` and `cli` of
    BaseMountRetrieve/basemountretrieve.py: every FASTQ file of a project
    copied flat into one output directory, plus the project's sample
    sheets. The operations are returned in the order the script performs
    them. */
module FlatRetrieve {
  import opened Results
  import opened Text
  import opened MountFs

  // ---------------------------------------------------------------------
  // The glob: star, then `Files`, then star

  /** Every path has a grandparent, so `parents[1]` exists. */
  predicate AllNamed(fs: seq<Path>)
  {
    forall i :: 0 <= i < |fs| ==> |fs[i]| >= 2
  }

  /** The directories directly below `dir`, in listing order: what a `*`
      component that is not the last one walks through. */
  function SubDirs(m: Mount, dir: Path): (r: seq<Path>)
    ensures forall p :: p in r <==> p in Children(m, dir) && IsDir(m, p)
  {
    Filter(Children(m, dir), (p: Path) => IsDir(m, p))
  }

  /** The entries of `sampleDir/Files`, when that is a directory. */
  function FilesOf(m: Mount, sampleDir: Path): (r: seq<Path>)
    ensures forall p :: p in r <==> IsDir(m, sampleDir + ["Files"]) && p in Children(m, sampleDir + ["Files"])
  {
    if IsDir(m, sampleDir + ["Files"]) then Children(m, sampleDir + ["Files"]) else []
  }

  /** The `Files` entries of each directory of `dirs`, directory by
      directory. */
  function FilesOfEach(m: Mount, dirs: seq<Path>): (r: seq<Path>)
    ensures forall p :: p in r <==> exists d :: d in dirs && p in FilesOf(m, d)
  {
    if dirs == [] then []
    else
      var front := FilesOfEach(m, dirs[..|dirs| - 1]);
      var last := dirs[|dirs| - 1];
      assert forall d :: d in dirs <==> d in dirs[..|dirs| - 1] || d == last;
      front + FilesOf(m, last)
  }

  /** `p` is `dir/<sample>/Files/<entry>` with `<sample>` and `Files`
      directories, as the glob of the pattern star, `Files`, star under
      `dir` finds it. */
  predicate SampleFileAt(m: Mount, dir: Path, p: Path)
  {
    && IsDir(m, dir) && |p| == |dir| + 3 && p[..|dir|] == dir && p[|dir| + 1] == "Files"
    && p in m.listing && p in m.nodes && p[..|dir| + 1] in m.listing
    && IsDir(m, p[..|dir| + 1]) && IsDir(m, p[..|dir| + 2])
  }

  lemma FoundIsSampleFile(m: Mount, dir: Path, d: Path, p: Path)
    requires IsDir(m, dir) && d in SubDirs(m, dir) && p in FilesOf(m, d)
    ensures SampleFileAt(m, dir, p)
  {
    assert p[..|dir| + 1] == p[..|d|] == d;
    assert p[..|dir| + 2] == d + ["Files"];
  }

  lemma SampleFileIsFound(m: Mount, dir: Path, p: Path)
    requires SampleFileAt(m, dir, p)
    ensures p[..|dir| + 1] in SubDirs(m, dir) && p in FilesOf(m, p[..|dir| + 1])
  {
    var d := p[..|dir| + 1];
    assert d + ["Files"] == p[..|dir| + 2];
    assert d[..|dir|] == dir;
    assert p[..|d + ["Files"]|] == d + ["Files"];
  }

  /** `dir.glob` of `<sample>/Files/<entry>`, in traversal order; nothing
      when `dir` is not a directory. */
  function FilesGlob(m: Mount, dir: Path): (r: seq<Path>)
    ensures forall p :: p in r <==> SampleFileAt(m, dir, p)
    ensures AllNamed(r)
  {
    var r := if IsDir(m, dir) then FilesOfEach(m, SubDirs(m, dir)) else [];
    forall p | p in r ensures SampleFileAt(m, dir, p) {
      assert IsDir(m, dir);
      var d :| d in SubDirs(m, dir) && p in FilesOf(m, d);
      FoundIsSampleFile(m, dir, d, p);
    }
    forall p | SampleFileAt(m, dir, p) ensures p in r {
      SampleFileIsFound(m, dir, p);
    }
    assert forall i :: 0 <= i < |r| ==> SampleFileAt(m, dir, r[i]);
    r
  }

  /** Drops every path whose string contains `.id.` and keeps the others
      in order. */
  function WithoutIdFiles(paths: seq<Path>): (r: seq<Path>)
    ensures forall p :: p in r <==> p in paths && !Contains(PathString(p), ".id.")
  {
    Filter(paths, (p: Path) => !Contains(PathString(p), ".id."))
  }

  /** The filter keeps the traversal order: it acts on each part of a
      concatenation separately and keeps or drops a single path as it
      stands. */
  lemma WithoutIdFilesOrder(a: seq<Path>, b: seq<Path>, p: Path)
    ensures WithoutIdFiles(a + b) == WithoutIdFiles(a) + WithoutIdFiles(b)
    ensures WithoutIdFiles([p]) == if Contains(PathString(p), ".id.") then [] else [p]
  {
    FilterAppend(a, b, (p: Path) => !Contains(PathString(p), ".id."));
  }

  /** The FASTQ paths `retrieve_samples` works on: `Samples/<sample>/Files/<entry>`
      under the project, without the `.id.` files. */
  function FastqList(m: Mount, projectDir: Path): (r: seq<Path>)
    ensures forall p :: p in r <==> SampleFileAt(m, projectDir + ["Samples"], p) && !Contains(PathString(p), ".id.")
    ensures forall p :: p in r ==> |p| >= 2
  {
    WithoutIdFiles(FilesGlob(m, projectDir + ["Samples"]))
  }

  lemma FilesOfUnder(m: Mount, d: Path)
    ensures forall p :: p in FilesOf(m, d) ==> |p| == |d| + 2 && p[..|d|] == d
  {
    forall p | p in FilesOf(m, d) ensures |p| == |d| + 2 && p[..|d|] == d {
      assert ChildOf(p, d + ["Files"]);
      assert p[..|d|] == p[..|d + ["Files"]|][..|d|];
    }
  }

  lemma NoDupFront(s: seq<Path>)
    requires NoDup(s) && s != []
    ensures NoDup(s[..|s| - 1]) && s[|s| - 1] !in s[..|s| - 1]
  {
  }

  lemma {:induction false} FilesOfEachNoDup(m: Mount, dirs: seq<Path>, len: nat)
    requires WellFormed(m) && NoDup(dirs) && forall d :: d in dirs ==> |d| == len
    ensures NoDup(FilesOfEach(m, dirs))
    ensures forall p :: p in FilesOfEach(m, dirs) ==> |p| == len + 2 && p[..len] in dirs
  {
    if dirs != [] {
      var front, last := dirs[..|dirs| - 1], dirs[|dirs| - 1];
      assert forall d :: d in front ==> d in dirs;
      NoDupFront(dirs);
      FilesOfEachNoDup(m, front, len);
      if IsDir(m, last + ["Files"]) {
        ChildrenNoDup(m, last + ["Files"]);
      }
      FilesOfUnder(m, last);
      NoDupConcat(FilesOfEach(m, front), FilesOf(m, last));
    }
  }

  /** The glob names each file once, given a listing that does. */
  lemma FilesGlobNoDup(m: Mount, dir: Path)
    requires WellFormed(m)
    ensures NoDup(FilesGlob(m, dir))
  {
    if IsDir(m, dir) {
      ChildrenNoDup(m, dir);
      FilterNoDup(Children(m, dir), (p: Path) => IsDir(m, p));
      FilesOfEachNoDup(m, SubDirs(m, dir), |dir| + 1);
    }
  }

  lemma FastqListNoDup(m: Mount, projectDir: Path)
    requires WellFormed(m)
    ensures NoDup(FastqList(m, projectDir))
  {
    FilesGlobNoDup(m, projectDir + ["Samples"]);
    FilterNoDup(FilesGlob(m, projectDir + ["Samples"]), (p: Path) => !Contains(PathString(p), ".id."));
  }

  // ---------------------------------------------------------------------
  // Output names

  /** `j.parents[1].name`: the sample folder a FASTQ file sits in. */
  function SampleIdOfFile(j: Path): Name
    requires |j| >= 2
  {
    NameOf(j[..|j| - 2])
  }

  /** The output path of a FASTQ file: the sample id is prefixed, joined by
      `_`, unless the file name already contains it. */
  function FlatOutName(outDir: Path, j: Path): (r: Path)
    requires |j| >= 2
    ensures ChildOf(r, outDir)
  {
    var sampleId := SampleIdOfFile(j);
    var sampleName := NameOf(j);
    if !Contains(sampleName, sampleId) then outDir + [sampleId + "_" + sampleName]
    else outDir + [sampleName]
  }

  /** The two naming cases, stated on the name of the output path. */
  lemma FlatOutNameRule(outDir: Path, j: Path)
    requires |j| >= 2
    ensures !Contains(NameOf(j), SampleIdOfFile(j)) ==> NameOf(FlatOutName(outDir, j)) == SampleIdOfFile(j) + "_" + NameOf(j)
    ensures Contains(NameOf(j), SampleIdOfFile(j)) ==> NameOf(FlatOutName(outDir, j)) == NameOf(j)
  {
  }

  /** Either way, the output name contains the sample id, and it keeps the
      file name as its suffix. */
  lemma FlatOutNameCarriesId(outDir: Path, j: Path)
    requires |j| >= 2
    ensures Contains(NameOf(FlatOutName(outDir, j)), SampleIdOfFile(j))
    ensures var out := NameOf(FlatOutName(outDir, j)); |NameOf(j)| <= |out| && out[|out| - |NameOf(j)|..] == NameOf(j)
  {
    var sampleId, name := SampleIdOfFile(j), NameOf(j);
    if !Contains(name, sampleId) {
      var out := sampleId + "_" + name;
      assert out[..|sampleId|] == sampleId;
      assert OccursAt(out, sampleId, 0);
      assert out[|out| - |name|..] == name;
    }
  }

  // ---------------------------------------------------------------------
  // The nested transfer loops of `retrieve_samples`

  /** The `modlist` a copy pass over `fs` builds. */
  function Dests(outDir: Path, fs: seq<Path>): (r: seq<Path>)
    requires AllNamed(fs)
    ensures |r| == |fs|
  {
    if fs == [] then [] else Dests(outDir, fs[..|fs| - 1]) + [FlatOutName(outDir, fs[|fs| - 1])]
  }

  /** The copies of a pass over `fs`, in order. */
  function CopiesOf(outDir: Path, fs: seq<Path>): (r: seq<Op>)
    requires AllNamed(fs)
    ensures |r| == |fs|
  {
    if fs == [] then [] else CopiesOf(outDir, fs[..|fs| - 1]) + [Copy(fs[|fs| - 1], FlatOutName(outDir, fs[|fs| - 1]))]
  }

  /** `os.chmod(f, 0o775)` for each `f` of `targets`, in order. */
  function ChmodsOf(targets: seq<Path>): (r: seq<Op>)
    ensures |r| == |targets|
  {
    if targets == [] then [] else ChmodsOf(targets[..|targets| - 1]) + [Chmod(targets[|targets| - 1], GroupWritable)]
  }

  /** Scan step `k`: the transfer list then holds the first `k + 1` files;
      all of them are copied, then all their destinations chmod-ed. */
  function ScanStep(outDir: Path, fs: seq<Path>, k: nat): seq<Op>
    requires AllNamed(fs) && k < |fs|
  {
    CopiesOf(outDir, fs[..k + 1]) + ChmodsOf(Dests(outDir, fs[..k + 1]))
  }

  /** The operations of the first `j` scan steps. */
  function ScanOps(outDir: Path, fs: seq<Path>, j: nat): seq<Op>
    requires AllNamed(fs) && j <= |fs|
  {
    if j == 0 then [] else ScanOps(outDir, fs, j - 1) + ScanStep(outDir, fs, j - 1)
  }

  /** One pass of the copy loop over the transfer list: the copies in
      order and the `modlist` of their destinations. */
  method CopyPass(outDir: Path, transfer: seq<Path>) returns (copies: seq<Op>, modlist: seq<Path>)
    requires AllNamed(transfer)
    ensures copies == CopiesOf(outDir, transfer) && modlist == Dests(outDir, transfer)
  {
    copies, modlist := [], [];
    for i := 0 to |transfer|
      invariant modlist == Dests(outDir, transfer[..i])
      invariant copies == CopiesOf(outDir, transfer[..i])
    {
      ghost var seen := transfer[..i + 1];
      assert seen[..i] == transfer[..i] && seen[i] == transfer[i];
      var outname := FlatOutName(outDir, transfer[i]);
      copies := copies + [Copy(transfer[i], outname)];
      modlist := modlist + [outname];
    }
    assert transfer[..|transfer|] == transfer;
  }

  /** The chmod loop over `modlist`. */
  method ChmodPass(modlist: seq<Path>) returns (chmods: seq<Op>)
    ensures chmods == ChmodsOf(modlist)
  {
    chmods := [];
    for k := 0 to |modlist|
      invariant chmods == ChmodsOf(modlist[..k])
    {
      chmods := chmods + [Chmod(modlist[k], GroupWritable)];
      assert modlist[..k + 1][..k] == modlist[..k];
    }
    assert modlist[..|modlist|] == modlist;
  }

  /** The scan loop of `retrieve_samples` over the filtered list. The
      "already present" test asks whether a name string is in a list of
      paths, which it never is, so every file joins the transfer list; the
      copy and chmod loops sit inside the scan loop, so each step copies the
      whole transfer list again. */
  method TransferScan(outDir: Path, fastqs: seq<Path>) returns (ops: seq<Op>)
    requires AllNamed(fastqs)
    ensures ops == ScanOps(outDir, fastqs, |fastqs|)
  {
    var transfer: seq<Path> := [];
    ops := [];
    for j := 0 to |fastqs|
      invariant transfer == fastqs[..j]
      invariant ops == ScanOps(outDir, fastqs, j)
    {
      var alreadyPresent := false;  // a str is never equal to a Path
      if !alreadyPresent {
        transfer := transfer + [fastqs[j]];
      }
      assert fastqs[..j + 1] == fastqs[..j] + [fastqs[j]];
      var copies, modlist := CopyPass(outDir, transfer);
      var chmods := ChmodPass(modlist);
      ops := ops + copies + chmods;
    }
  }

  /** `retrieve_samples(projectdir, outdir)`: the scan over the project's
      FASTQ files without the `.id.` files. With `n` files it makes
      `n(n+1)/2` copies, the `i`-th file being copied `n - i` times. */
  method RetrieveSamples(m: Mount, projectDir: Path, outDir: Path) returns (ops: seq<Op>)
    ensures ops == ScanOps(outDir, FastqList(m, projectDir), |FastqList(m, projectDir)|)
    ensures var n := |FastqList(m, projectDir)|; CopyCount(ops) == n * (n + 1) / 2
    ensures WellFormed(m) ==>
      var fastqs := FastqList(m, projectDir);
      forall i :: 0 <= i < |fastqs| ==> CopiesFrom(ops, fastqs[i]) == |fastqs| - i
    ensures forall op :: op in ops ==> op.Copy? || op.Chmod?
  {
    var fastqs := FastqList(m, projectDir);
    ops := TransferScan(outDir, fastqs);
    ScanCopyCount(outDir, fastqs, |fastqs|);
    ScanOpsKinds(outDir, fastqs, |fastqs|);
    if WellFormed(m) {
      FastqListNoDup(m, projectDir);
      forall i | 0 <= i < |fastqs| ensures CopiesFrom(ops, fastqs[i]) == |fastqs| - i {
        ScanCopiesOfFile(outDir, fastqs, i, |fastqs|);
      }
    }
  }

  // ---------------------------------------------------------------------
  // `retrieve_samplesheets`

  /** Where an app session keeps its sample sheet. */
  function SheetOf(session: Path): Path
  {
    session + ["Properties", "Input.sample-sheet"]
  }

  /** The session has a `Properties` directory holding an
      `Input.sample-sheet` entry. */
  predicate HasSheet(m: Mount, session: Path)
  {
    IsDir(m, session + ["Properties"]) && SheetOf(session) in m.nodes
  }

  function SheetsOfEach(m: Mount, sessions: seq<Path>): (r: seq<Path>)
    ensures forall p :: p in r <==> exists x :: x in sessions && HasSheet(m, x) && p == SheetOf(x)
    ensures AllNamed(r)
  {
    if sessions == [] then []
    else
      var last := sessions[|sessions| - 1];
      assert forall x :: x in sessions <==> x in sessions[..|sessions| - 1] || x == last;
      SheetsOfEach(m, sessions[..|sessions| - 1]) + (if HasSheet(m, last) then [SheetOf(last)] else [])
  }

  /** `projectdir.glob` of `AppSessions.v1/<session>/Properties/Input.sample-sheet`. */
  function SampleSheets(m: Mount, projectDir: Path): (r: seq<Path>)
    ensures forall p :: p in r <==>
      IsDir(m, projectDir + ["AppSessions.v1"])
      && exists x :: x in SubDirs(m, projectDir + ["AppSessions.v1"]) && HasSheet(m, x) && p == SheetOf(x)
    ensures AllNamed(r)
  {
    var appSessions := projectDir + ["AppSessions.v1"];
    if IsDir(m, appSessions) then SheetsOfEach(m, SubDirs(m, appSessions)) else []
  }

  /** `outdir / (samplesheet.parents[1].name + ".SampleSheet.csv")`. */
  function SheetOutName(outDir: Path, sheet: Path): Path
    requires |sheet| >= 2
  {
    outDir + [NameOf(sheet[..|sheet| - 2]) + ".SampleSheet.csv"]
  }

  /** The copies `retrieve_samplesheets` makes of `sheets`, in order. */
  function SheetCopies(outDir: Path, sheets: seq<Path>): (r: seq<Op>)
    requires AllNamed(sheets)
    ensures |r| == |sheets|
  {
    if sheets == [] then []
    else SheetCopies(outDir, sheets[..|sheets| - 1]) + [Copy(sheets[|sheets| - 1], SheetOutName(outDir, sheets[|sheets| - 1]))]
  }

  /** `retrieve_samplesheets(projectdir, outdir)`. The glob raises no
      `IndexError`, so its handler is never reached. */
  method RetrieveSampleSheets(m: Mount, projectDir: Path, outDir: Path) returns (ops: seq<Op>)
    ensures ops == SheetCopies(outDir, SampleSheets(m, projectDir))
    ensures forall op :: op in ops ==> op.Copy?
  {
    var sheets := SampleSheets(m, projectDir);
    ops := [];
    for i := 0 to |sheets|
      invariant ops == SheetCopies(outDir, sheets[..i])
    {
      var outname := SheetOutName(outDir, sheets[i]);
      ops := ops + [Copy(sheets[i], outname)];
      assert sheets[..i + 1][..i] == sheets[..i];
    }
    assert sheets[..|sheets|] == sheets;
    SheetCopiesKinds(outDir, sheets);
  }

  lemma {:induction false} SheetCopiesMembers(outDir: Path, sheets: seq<Path>)
    requires AllNamed(sheets)
    ensures forall op :: op in SheetCopies(outDir, sheets) <==>
      exists s :: s in sheets && |s| >= 2 && op == Copy(s, SheetOutName(outDir, s))
  {
    if sheets != [] {
      var front := sheets[..|sheets| - 1];
      assert forall s :: s in sheets <==> s in front || s == sheets[|sheets| - 1];
      SheetCopiesMembers(outDir, front);
    }
  }

  /** The copies are exactly: for every app session `X` holding
      `Properties/Input.sample-sheet`, that file to `X.SampleSheet.csv` in
      the output directory. */
  lemma SheetCopiesNamed(m: Mount, projectDir: Path, outDir: Path)
    ensures forall op :: op in SheetCopies(outDir, SampleSheets(m, projectDir)) <==>
      IsDir(m, projectDir + ["AppSessions.v1"])
      && exists x :: x in SubDirs(m, projectDir + ["AppSessions.v1"]) && HasSheet(m, x)
                     && op == Copy(SheetOf(x), outDir + [NameOf(x) + ".SampleSheet.csv"])
  {
    var sheets := SampleSheets(m, projectDir);
    SheetCopiesMembers(outDir, sheets);
    forall x ensures SheetOutName(outDir, SheetOf(x)) == outDir + [NameOf(x) + ".SampleSheet.csv"] {
      assert SheetOf(x)[..|SheetOf(x)| - 2] == x;
    }
  }

  // ---------------------------------------------------------------------
  // `cli`

  lemma {:induction false} ScanOpsKinds(outDir: Path, fs: seq<Path>, j: nat)
    requires AllNamed(fs) && j <= |fs|
    ensures forall op :: op in ScanOps(outDir, fs, j) ==> op.Copy? || op.Chmod?
  {
    if j > 0 {
      ScanOpsKinds(outDir, fs, j - 1);
      var t := fs[..j];
      CopyPassOps(outDir, t, []);
      ChmodPassOps(Dests(outDir, t), []);
    }
  }

  lemma {:induction false} SheetCopiesKinds(outDir: Path, sheets: seq<Path>)
    requires AllNamed(sheets)
    ensures forall op :: op in SheetCopies(outDir, sheets) ==> op.Copy?
  {
    if sheets != [] {
      SheetCopiesKinds(outDir, sheets[..|sheets| - 1]);
    }
  }

  /** `cli(projectdir, outdir)`: the output directory (with its parents,
      tolerating one that exists) first, then the sample sheets, then the
      FASTQ files. No later operation creates a directory. */
  method Cli(m: Mount, projectDir: Path, outDir: Path) returns (ops: seq<Op>)
    ensures ops == [MakeDirs(outDir)] + SheetCopies(outDir, SampleSheets(m, projectDir))
                   + ScanOps(outDir, FastqList(m, projectDir), |FastqList(m, projectDir)|)
    ensures ops[0] == MakeDirs(outDir) && forall op :: op in ops[1..] ==> op.Copy? || op.Chmod?
  {
    var sheetOps := RetrieveSampleSheets(m, projectDir, outDir);
    var sampleOps := RetrieveSamples(m, projectDir, outDir);
    ops := [MakeDirs(outDir)] + sheetOps + sampleOps;
    FileOpsAfter(MakeDirs(outDir), sheetOps, sampleOps);
  }

  lemma FileOpsAfter(x: Op, a: seq<Op>, b: seq<Op>)
    requires forall op :: op in a ==> op.Copy?
    requires forall op :: op in b ==> op.Copy? || op.Chmod?
    ensures forall op :: op in ([x] + a + b)[1..] ==> op.Copy? || op.Chmod?
  {
    assert ([x] + a + b)[1..] == a + b;
  }

  // ---------------------------------------------------------------------
  // What a list of operations does

  /** The number of copies in `ops`. */
  function CopyCount(ops: seq<Op>): nat
  {
    if ops == [] then 0 else CopyCount(ops[..|ops| - 1]) + (if ops[|ops| - 1].Copy? then 1 else 0)
  }

  /** The number of copies of `src` in `ops`. */
  function CopiesFrom(ops: seq<Op>, src: Path): nat
  {
    if ops == [] then 0
    else CopiesFrom(ops[..|ops| - 1], src) + (if ops[|ops| - 1].Copy? && ops[|ops| - 1].src == src then 1 else 0)
  }

  /** The destinations of the copies in `ops`, in order. */
  function CopyDests(ops: seq<Op>): seq<Path>
  {
    if ops == [] then []
    else CopyDests(ops[..|ops| - 1]) + (if ops[|ops| - 1].Copy? then [ops[|ops| - 1].dst] else [])
  }

  /** The targets of the chmods in `ops`, in order. */
  function ChmodTargets(ops: seq<Op>): seq<Path>
  {
    if ops == [] then []
    else ChmodTargets(ops[..|ops| - 1]) + (if ops[|ops| - 1].Chmod? then [ops[|ops| - 1].target] else [])
  }

  /** The number of times `x` occurs in `s`. */
  function Occurrences(s: seq<Path>, x: Path): nat
  {
    if s == [] then 0 else Occurrences(s[..|s| - 1], x) + (if s[|s| - 1] == x then 1 else 0)
  }

  lemma {:induction false} CountsAppend(a: seq<Op>, b: seq<Op>, src: Path)
    ensures CopyCount(a + b) == CopyCount(a) + CopyCount(b)
    ensures CopiesFrom(a + b, src) == CopiesFrom(a, src) + CopiesFrom(b, src)
    decreases |b|
  {
    if b == [] {
      assert a + b == a;
    } else {
      var b' := b[..|b| - 1];
      assert (a + b)[..|a + b| - 1] == a + b';
      CountsAppend(a, b', src);
    }
  }

  lemma {:induction false} PathsAppend(a: seq<Op>, b: seq<Op>)
    ensures CopyDests(a + b) == CopyDests(a) + CopyDests(b)
    ensures ChmodTargets(a + b) == ChmodTargets(a) + ChmodTargets(b)
    decreases |b|
  {
    if b == [] {
      assert a + b == a;
    } else {
      var b' := b[..|b| - 1];
      assert (a + b)[..|a + b| - 1] == a + b';
      PathsAppend(a, b');
    }
  }

  lemma {:induction false} CopyPassOps(outDir: Path, fs: seq<Path>, x: Path)
    requires AllNamed(fs)
    ensures CopyCount(CopiesOf(outDir, fs)) == |fs|
    ensures CopiesFrom(CopiesOf(outDir, fs), x) == Occurrences(fs, x)
    ensures CopyDests(CopiesOf(outDir, fs)) == Dests(outDir, fs)
    ensures ChmodTargets(CopiesOf(outDir, fs)) == []
    ensures forall op :: op in CopiesOf(outDir, fs) ==> op.Copy?
  {
    if fs != [] {
      var front := fs[..|fs| - 1];
      CopyPassOps(outDir, front, x);
      CountsAppend(CopiesOf(outDir, front), [Copy(fs[|fs| - 1], FlatOutName(outDir, fs[|fs| - 1]))], x);
      PathsAppend(CopiesOf(outDir, front), [Copy(fs[|fs| - 1], FlatOutName(outDir, fs[|fs| - 1]))]);
    }
  }

  lemma {:induction false} ChmodPassOps(targets: seq<Path>, x: Path)
    ensures CopyCount(ChmodsOf(targets)) == 0
    ensures CopiesFrom(ChmodsOf(targets), x) == 0
    ensures CopyDests(ChmodsOf(targets)) == []
    ensures ChmodTargets(ChmodsOf(targets)) == targets
    ensures forall op :: op in ChmodsOf(targets) ==> op.Chmod? && op.mode == GroupWritable
  {
    if targets != [] {
      var front := targets[..|targets| - 1];
      ChmodPassOps(front, x);
      CountsAppend(ChmodsOf(front), [Chmod(targets[|targets| - 1], GroupWritable)], x);
      PathsAppend(ChmodsOf(front), [Chmod(targets[|targets| - 1], GroupWritable)]);
    }
  }

  lemma {:induction false} OccurrencesInPrefix(fs: seq<Path>, i: nat, k: nat)
    requires NoDup(fs) && i < |fs| && k <= |fs|
    ensures Occurrences(fs[..k], fs[i]) == if i < k then 1 else 0
  {
    if k > 0 {
      assert fs[..k][..k - 1] == fs[..k - 1];
      OccurrencesInPrefix(fs, i, k - 1);
    }
  }

  /** Scan step `k` copies the first `k + 1` files, each once, and then
      chmods exactly their destinations, in the same order, with mode
      0o775: `modlist` starts empty at every step. */
  lemma ScanStepShape(outDir: Path, fs: seq<Path>, k: nat)
    requires AllNamed(fs) && k < |fs|
    ensures CopyCount(ScanStep(outDir, fs, k)) == k + 1
    ensures CopyDests(ScanStep(outDir, fs, k)) == ChmodTargets(ScanStep(outDir, fs, k)) == Dests(outDir, fs[..k + 1])
    ensures forall op :: op in ScanStep(outDir, fs, k) && op.Chmod? ==> op.mode == GroupWritable
  {
    var t := fs[..k + 1];
    CopyPassOps(outDir, t, []);
    ChmodPassOps(Dests(outDir, t), []);
    CountsAppend(CopiesOf(outDir, t), ChmodsOf(Dests(outDir, t)), []);
    PathsAppend(CopiesOf(outDir, t), ChmodsOf(Dests(outDir, t)));
    assert forall op :: op in ScanStep(outDir, fs, k) ==> op in CopiesOf(outDir, t) || op in ChmodsOf(Dests(outDir, t));
  }

  /** With `n` files, `retrieve_samples` makes `n(n+1)/2` copies. */
  lemma {:induction false} ScanCopyCount(outDir: Path, fs: seq<Path>, j: nat)
    requires AllNamed(fs) && j <= |fs|
    ensures CopyCount(ScanOps(outDir, fs, j)) == j * (j + 1) / 2
  {
    if j > 0 {
      ScanCopyCount(outDir, fs, j - 1);
      ScanStepShape(outDir, fs, j - 1);
      CountsAppend(ScanOps(outDir, fs, j - 1), ScanStep(outDir, fs, j - 1), []);
      Triangle(j);
    }
  }

  lemma Triangle(j: nat)
    requires j > 0
    ensures (j - 1) * j / 2 + j == j * (j + 1) / 2
  {
    assert j * (j + 1) == (j - 1) * j + 2 * j;
  }

  /** Scan step `k` copies the `i`-th of distinct files once when
      `i <= k` and not at all otherwise. */
  lemma StepCopiesOfFile(outDir: Path, fs: seq<Path>, i: nat, k: nat)
    requires AllNamed(fs) && NoDup(fs) && i < |fs| && k < |fs|
    ensures CopiesFrom(ScanStep(outDir, fs, k), fs[i]) == if i <= k then 1 else 0
  {
    var t := fs[..k + 1];
    CountsAppend(CopiesOf(outDir, t), ChmodsOf(Dests(outDir, t)), fs[i]);
    CopyPassOps(outDir, t, fs[i]);
    ChmodPassOps(Dests(outDir, t), fs[i]);
    OccurrencesInPrefix(fs, i, k + 1);
  }

  /** The `i`-th of `n` distinct files is copied `n - i` times: once in
      every scan step from step `i` on. */
  lemma {:induction false} ScanCopiesOfFile(outDir: Path, fs: seq<Path>, i: nat, j: nat)
    requires AllNamed(fs) && NoDup(fs) && i < |fs| && j <= |fs|
    ensures CopiesFrom(ScanOps(outDir, fs, j), fs[i]) == if j <= i then 0 else j - i
  {
    if j > 0 {
      var prev, step := ScanOps(outDir, fs, j - 1), ScanStep(outDir, fs, j - 1);
      assert ScanOps(outDir, fs, j) == prev + step;
      ScanCopiesOfFile(outDir, fs, i, j - 1);
      CountsAppend(prev, step, fs[i]);
      StepCopiesOfFile(outDir, fs, i, j - 1);
    }
  }
}
