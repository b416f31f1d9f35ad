/** `BasemountRun` of BaseMountRetrieve/basemountretrieve_v2.py: where a
    run's metadata lives on the mount, which directories are its samples,
    how their ids are read off the directory names, and the two rules the
    run applies to the lines of its sample sheet. */
module BasemountRun {
  import opened Results
  import opened Text
  import opened MountFs
  import opened BasemountSample

  // ---------------------------------------------------------------------
  // Metadata probes

  /** `properties_dir / "Input.sample-sheet"`. */
  function SampleSheetCandidate(runDir: Path): Path
  {
    runDir + ["Properties", "Input.sample-sheet"]
  }

  /** The two places RunInfo.xml is looked for, in priority order. */
  function RunInfoCandidates(runDir: Path): seq<Path>
  {
    [runDir + ["Properties", "Input.Runs", "0", "Files", "RunInfo.xml"],
     runDir + ["Logs", "RunInfo.xml"]]
  }

  /** The one place RunParameters.xml is looked for. */
  function RunParametersCandidate(runDir: Path): Path
  {
    runDir + ["Properties", "Input.Runs", "0", "Files", "RunParameters.xml"]
  }

  /** `get_samplesheet`: the sample sheet is mandatory; when the single
      candidate is not a regular file, FileNotFoundError names it. */
  function GetSampleSheet(m: Mount, runDir: Path): (r: Result<Path>)
    ensures r.Success? <==> Probe(m, [SampleSheetCandidate(runDir)]).Some?
    ensures r.Success? ==> r.value == SampleSheetCandidate(runDir) && IsFile(m, r.value)
    ensures r.Failure? ==> r.error == FileNotFound(SampleSheetCandidate(runDir))
  {
    var sheet := SampleSheetCandidate(runDir);
    if IsFile(m, sheet) then Success(sheet) else Failure(FileNotFound(sheet))
  }

  /** `get_runinfoxml`: the first of its two candidates that is a regular
      file, else `None`; it never raises. */
  function GetRunInfoXml(m: Mount, runDir: Path): (r: Option<Path>)
    ensures r == Probe(m, RunInfoCandidates(runDir))
    ensures r.Some? ==> IsFile(m, r.value)
  {
    var first := runDir + ["Properties", "Input.Runs", "0", "Files", "RunInfo.xml"];
    var second := runDir + ["Logs", "RunInfo.xml"];
    if IsFile(m, first) then Some(first)
    else if IsFile(m, second) then Some(second)
    else None
  }

  /** `get_runparametersxml`: its candidate when that is a regular file,
      else `None`. */
  function GetRunParametersXml(m: Mount, runDir: Path): (r: Option<Path>)
    ensures r == Probe(m, [RunParametersCandidate(runDir)])
    ensures r.Some? ==> IsFile(m, r.value)
  {
    var candidate := RunParametersCandidate(runDir);
    if IsFile(m, candidate) then Some(candidate) else None
  }

  /** `get_interop_dir`: `project_dir.parents[1]/Runs/<run name>/Files/InterOp`
      when that is a directory, else `None`; `parents[1]` raises IndexError
      for a project path with fewer than two components. An empty or `.` run
      name adds no component. */
  function GetInterOpDir(m: Mount, projectDir: Path, runName: string): (r: Result<Option<Path>>)
    ensures r.Failure? <==> |projectDir| < 2
    ensures r.Failure? ==> r.error == IndexOutOfRange
    ensures r.Success? && r.value.Some? ==>
      && IsDir(m, r.value.value)
      && r.value.value == JoinName(projectDir[..|projectDir| - 2] + ["Runs"], runName) + ["Files", "InterOp"]
    ensures r.Success? && r.value.None? ==>
      !IsDir(m, JoinName(projectDir[..|projectDir| - 2] + ["Runs"], runName) + ["Files", "InterOp"])
  {
    match Parent(projectDir, 1)
    case None => Failure(IndexOutOfRange)
    case Some(base) =>
      var interop := JoinName(base + ["Runs"], runName) + ["Files", "InterOp"];
      if IsDir(m, interop) then Success(Some(interop)) else Success(None)
  }

  /** Where the InterOp folder is looked for: `Runs/<run name>/Files/InterOp`
      two levels above the project, or `Runs/Files/InterOp` when the run name
      is empty or `.`. */
  lemma InterOpPlace(projectDir: Path, runName: string)
    requires |projectDir| >= 2
    ensures var base := projectDir[..|projectDir| - 2];
      && (runName == "" || runName == "." ==>
            JoinName(base + ["Runs"], runName) + ["Files", "InterOp"] == base + ["Runs", "Files", "InterOp"])
      && (runName != "" && runName != "." ==>
            JoinName(base + ["Runs"], runName) + ["Files", "InterOp"] == base + ["Runs", runName, "Files", "InterOp"])
  {
  }

  // ---------------------------------------------------------------------
  // Sample directories and their ids

  /** What `get_sample_dirs` keeps of an entry of the run directory: the
      glob `Sample.*`, no `Undetermined` in the name, and a directory. */
  predicate IsSampleDir(m: Mount, p: Path)
  {
    StartsWith(NameOf(p), "Sample.") && !Contains(NameOf(p), "Undetermined") && IsDir(m, p)
  }

  /** `get_sample_dirs`: the entries of the run directory that pass the
      three filters, in listing order. */
  function GetSampleDirs(m: Mount, runDir: Path): (r: seq<Path>)
    ensures forall p :: p in r <==> p in Children(m, runDir) && IsSampleDir(m, p)
  {
    Filter(Children(m, runDir), (p: Path) => IsSampleDir(m, p))
  }

  /** `name.split(".", 2)[2]`: everything after the second dot, later dots
      kept; IndexError (here `None`) when the name has fewer than two dots. */
  function SampleIdOf(name: Name): (r: Option<string>)
    ensures r.None? <==> CountOf(name, '.') < 2
    ensures r.Some? ==>
      && |r.value| < |name| && name[|name| - |r.value|..] == r.value
      && name[|name| - |r.value| - 1] == '.'
      && CountOf(name[..|name| - |r.value|], '.') == 2
  {
    var i := IndexOf(name, '.');
    if i == |name| then
      CountOfNone(name, '.');
      None
    else
      var rest := name[i + 1..];
      var j := IndexOf(rest, '.');
      SplitCount(name, i, rest, j);
      if j == |rest| then None else Some(rest[j + 1..])
  }

  /** The dot counts behind `SampleIdOf`: `name[i]` is its first dot and
      `rest[j]`, when there, the first dot after it. */
  lemma SplitCount(name: string, i: nat, rest: string, j: nat)
    requires i < |name| && name[i] == '.' && forall k :: 0 <= k < i ==> name[k] != '.'
    requires rest == name[i + 1..] && j <= |rest|
    requires j < |rest| ==> rest[j] == '.'
    requires forall k :: 0 <= k < j ==> rest[k] != '.'
    ensures j == |rest| ==> CountOf(name, '.') == 1
    ensures j < |rest| ==> CountOf(name[..i + 2 + j], '.') == 2 && CountOf(name, '.') >= 2
  {
    CountOfNone(name[..i], '.');
    if j == |rest| {
      CountOfNone(rest, '.');
      CountOfAt(name, i, '.');
    } else {
      TwoDots(name, i, rest, j);
    }
  }

  lemma TwoDots(name: string, i: nat, rest: string, j: nat)
    requires i < |name| && name[i] == '.' && CountOf(name[..i], '.') == 0
    requires rest == name[i + 1..] && j < |rest| && rest[j] == '.'
    requires forall k :: 0 <= k < j ==> rest[k] != '.'
    ensures CountOf(name[..i + 2 + j], '.') == 2 && CountOf(name, '.') >= 2
  {
    var pre := name[..i + 2 + j];
    OneDotAtEnd(rest, j);
    CountOfAt(pre, i, '.');
    assert pre[..i] == name[..i];
    var tail, upTo := pre[i + 1..], rest[..j + 1];
    forall k | 0 <= k < |tail| ensures tail[k] == upTo[k] {
      assert pre[i + 1 + k] == name[i + 1 + k] == rest[k];
    }
    assert tail == upTo;
    assert name == pre + name[i + 2 + j..];
    CountOfAppend(pre, name[i + 2 + j..], '.');
  }

  /** A prefix ending at the first dot holds exactly one dot. */
  lemma OneDotAtEnd(rest: string, j: nat)
    requires j < |rest| && rest[j] == '.'
    requires forall k :: 0 <= k < j ==> rest[k] != '.'
    ensures CountOf(rest[..j + 1], '.') == 1
  {
    var mid := rest[..j + 1];
    CountOfNone(rest[..j], '.');
    CountOfAt(mid, j, '.');
    assert mid[..j] == rest[..j] && mid[j + 1..] == [];
  }

  lemma CountOfNone(s: string, c: char)
    requires forall k :: 0 <= k < |s| ==> s[k] != c
    ensures CountOf(s, c) == 0
  {
  }

  /** Counting across position `i`. */
  lemma CountOfAt(s: string, i: nat, c: char)
    requires i < |s|
    ensures CountOf(s, c) == CountOf(s[..i], c) + (if s[i] == c then 1 else 0) + CountOf(s[i + 1..], c)
  {
    assert s == s[..i] + s[i..];
    CountOfAppend(s[..i], s[i..], c);
    assert s[i..][1..] == s[i + 1..];
  }

  /** The id each sample directory's name yields, in order. */
  function IdsOf(dirs: seq<Path>): (ids: seq<Option<string>>)
    ensures |ids| == |dirs|
    ensures forall i :: 0 <= i < |dirs| ==> ids[i] == SampleIdOf(NameOf(dirs[i]))
  {
    seq(|dirs|, i requires 0 <= i < |dirs| => SampleIdOf(NameOf(dirs[i])))
  }

  /** A Python dict from sample id to directory: its keys in insertion
      order and its entries. */
  datatype SampleIndex = SampleIndex(keys: seq<string>, dirs: map<string, Path>)

  /** The dict built by assigning `dict[ids[i]] = dirs[i]` for each `i` in
      turn: a new id is appended to the keys, a repeated id keeps its place
      and takes the later directory. A `None` id is the IndexError that
      stops the loop, and the whole dict is lost. */
  function Dict(ids: seq<Option<string>>, dirs: seq<Path>): Option<SampleIndex>
    requires |ids| == |dirs|
  {
    if ids == [] then Some(SampleIndex([], map[]))
    else
      var n := |ids| - 1;
      match Dict(ids[..n], dirs[..n])
      case None => None
      case Some(prev) =>
        match ids[n]
        case None => None
        case Some(id) =>
          Some(SampleIndex(if id in prev.dirs then prev.keys else prev.keys + [id],
                           prev.dirs[id := dirs[n]]))
  }

  /** What `get_sample_id_dict` builds from the sample directories. */
  function IdDict(dirs: seq<Path>): Option<SampleIndex>
  {
    Dict(IdsOf(dirs), dirs)
  }

  /** `get_sample_id_dict`. */
  method GetSampleIdDict(sampleDirs: seq<Path>) returns (r: Result<SampleIndex>)
    ensures r.Success? <==> IdDict(sampleDirs).Some?
    ensures r.Success? ==> r.value == IdDict(sampleDirs).value
    ensures r.Failure? ==> r.error == IndexOutOfRange
  {
    ghost var ids := IdsOf(sampleDirs);
    var keys: seq<string> := [];
    var dict: map<string, Path> := map[];
    var i := 0;
    while i < |sampleDirs|
      invariant 0 <= i <= |sampleDirs|
      invariant Dict(ids[..i], sampleDirs[..i]) == Some(SampleIndex(keys, dict))
    {
      var id := SampleIdOf(NameOf(sampleDirs[i]));
      assert ids[i] == id;
      DictStep(ids, sampleDirs, i);
      if id.None? {
        DictFailurePersists(ids, sampleDirs, i + 1);
        return Failure(IndexOutOfRange);
      }
      if id.value !in dict {
        keys := keys + [id.value];
      }
      dict := dict[id.value := sampleDirs[i]];
      i := i + 1;
    }
    assert ids[..i] == ids && sampleDirs[..i] == sampleDirs;
    return Success(SampleIndex(keys, dict));
  }

  /** One more entry of the loop. */
  lemma DictStep(ids: seq<Option<string>>, dirs: seq<Path>, i: nat)
    requires |ids| == |dirs| && i < |ids|
    ensures Dict(ids[..i + 1], dirs[..i + 1]) ==
      match Dict(ids[..i], dirs[..i])
      case None => None
      case Some(prev) =>
        match ids[i]
        case None => None
        case Some(id) =>
          Some(SampleIndex(if id in prev.dirs then prev.keys else prev.keys + [id],
                           prev.dirs[id := dirs[i]]))
  {
    assert ids[..i + 1][..i] == ids[..i];
    assert dirs[..i + 1][..i] == dirs[..i];
  }

  /** Once a prefix fails, so does every longer one. */
  lemma {:induction false} DictFailurePersists(ids: seq<Option<string>>, dirs: seq<Path>, n: nat)
    requires |ids| == |dirs| && n <= |ids| && Dict(ids[..n], dirs[..n]).None?
    ensures Dict(ids, dirs).None?
    decreases |ids| - n
  {
    if n < |ids| {
      assert ids[..n + 1][..n] == ids[..n];
      assert dirs[..n + 1][..n] == dirs[..n];
      DictFailurePersists(ids, dirs, n + 1);
    } else {
      assert ids[..n] == ids && dirs[..n] == dirs;
    }
  }

  /** The dict fails exactly when some id is missing. */
  lemma {:induction false} DictFailsIff(ids: seq<Option<string>>, dirs: seq<Path>)
    requires |ids| == |dirs|
    ensures Dict(ids, dirs).None? <==> None in ids
  {
    if ids != [] {
      var n := |ids| - 1;
      DictFailsIff(ids[..n], dirs[..n]);
      assert ids == ids[..n] + [ids[n]];
    }
  }

  /** `i` is the last position whose id is `id`. */
  predicate LastWithId(ids: seq<Option<string>>, id: string, i: int)
  {
    0 <= i < |ids| && ids[i] == Some(id)
    && forall j :: i < j < |ids| ==> ids[j] != Some(id)
  }

  /** The dict's keys are exactly the ids, each once. */
  lemma {:induction false} DictKeys(ids: seq<Option<string>>, dirs: seq<Path>)
    requires |ids| == |dirs| && Dict(ids, dirs).Some?
    ensures var d := Dict(ids, dirs).value;
      && NoDup(d.keys)
      && (forall k :: k in d.keys <==> k in d.dirs)
      && (forall k :: k in d.dirs <==> Some(k) in ids)
  {
    if ids != [] {
      var n := |ids| - 1;
      DictKeys(ids[..n], dirs[..n]);
      assert ids == ids[..n] + [ids[n]];
    }
  }

  /** Each id maps to the directory of its last occurrence. */
  lemma {:induction false} DictValues(ids: seq<Option<string>>, dirs: seq<Path>)
    requires |ids| == |dirs| && Dict(ids, dirs).Some?
    ensures var d := Dict(ids, dirs).value;
      forall k :: k in d.dirs ==> exists i :: LastWithId(ids, k, i) && d.dirs[k] == dirs[i]
  {
    if ids != [] {
      var n := |ids| - 1;
      var init := ids[..n];
      DictValues(init, dirs[..n]);
      var prev := Dict(init, dirs[..n]).value;
      var id := ids[n].value;
      var d := Dict(ids, dirs).value;
      assert ids == init + [ids[n]];
      forall k | k in d.dirs
        ensures exists i :: LastWithId(ids, k, i) && d.dirs[k] == dirs[i]
      {
        if k == id {
          assert LastWithId(ids, k, n);
        } else {
          var i :| LastWithId(init, k, i) && prev.dirs[k] == dirs[..n][i];
          assert LastWithId(ids, k, i);
        }
      }
    }
  }

  /** The dict's keys are exactly the ids, each once; each id maps to the
      directory of its last occurrence. */
  lemma DictEntries(ids: seq<Option<string>>, dirs: seq<Path>)
    requires |ids| == |dirs| && Dict(ids, dirs).Some?
    ensures var d := Dict(ids, dirs).value;
      && NoDup(d.keys)
      && (forall k :: k in d.keys <==> k in d.dirs)
      && (forall k :: k in d.dirs <==> Some(k) in ids)
      && (forall k :: k in d.dirs ==> exists i :: LastWithId(ids, k, i) && d.dirs[k] == dirs[i])
  {
    DictKeys(ids, dirs);
    DictValues(ids, dirs);
  }

  /** The dict's keys come in the order of their first appearance: an
      earlier key occurs among the ids before any occurrence of a later
      key. */
  lemma {:induction false} DictKeyOrder(ids: seq<Option<string>>, dirs: seq<Path>, a: int, b: int)
    requires |ids| == |dirs| && Dict(ids, dirs).Some?
    requires 0 <= a < b < |Dict(ids, dirs).value.keys|
    ensures var keys := Dict(ids, dirs).value.keys;
      exists i :: 0 <= i < |ids| && ids[i] == Some(keys[a])
        && forall j :: 0 <= j <= i ==> ids[j] != Some(keys[b])
  {
    var n := |ids| - 1;
    var init := ids[..n];
    var prev := Dict(init, dirs[..n]).value;
    var keys := Dict(ids, dirs).value.keys;
    var id := ids[n].value;
    DictKeys(init, dirs[..n]);
    if b < |prev.keys| {
      assert keys[a] == prev.keys[a] && keys[b] == prev.keys[b];
      DictKeyOrder(init, dirs[..n], a, b);
      var i :| 0 <= i < |init| && init[i] == Some(prev.keys[a])
        && forall j :: 0 <= j <= i ==> init[j] != Some(prev.keys[b]);
      assert ids[i] == Some(keys[a]);
    } else {
      // keys[b] is the id of the last entry, new to the dict
      assert id !in prev.dirs && keys[b] == id;
      assert prev.keys[a] in prev.dirs;
      var i :| 0 <= i < |init| && init[i] == Some(prev.keys[a]);
      forall j | 0 <= j <= i ensures ids[j] != Some(keys[b]) {
        assert init[j] in init;
      }
      assert ids[i] == Some(keys[a]);
    }
  }

  /** Every key of the sample-id dict maps to a directory. */
  lemma IdDictKeysHaveDirs(dirs: seq<Path>)
    requires IdDict(dirs).Some?
    ensures forall k :: k in IdDict(dirs).value.keys ==> k in IdDict(dirs).value.dirs
  {
    DictEntries(IdsOf(dirs), dirs);
  }

  /** `samples` are the `BasemountSample` objects for `index`, one per key
      in key order, each with the read pair its `Files` directory yields. */
  predicate SamplesFor(m: Mount, projectDir: Path, runDir: Path, index: SampleIndex, samples: seq<Sample>)
  {
    && |samples| == |index.keys|
    && forall i :: 0 <= i < |samples| ==>
      && index.keys[i] in index.dirs
      && samples[i].sampleId == index.keys[i]
      && samples[i].sampleDir == index.dirs[index.keys[i]]
      && samples[i].runDir == runDir && samples[i].projectDir == projectDir
      && samples[i].fastqDir == samples[i].sampleDir + ["Files"]
      && samples[i].r2.Some? == samples[i].r1.Some?
      && ReadPair(m, samples[i].fastqDir)
         == if samples[i].r1.Some? then Some((samples[i].r1.value, samples[i].r2.value)) else None
  }

  /** `generate_sample_objects`: one `BasemountSample` per dict entry, in
      key order. */
  method GenerateSampleObjects(m: Mount, projectDir: Path, runDir: Path, index: SampleIndex)
    returns (samples: seq<Sample>)
    requires forall k :: k in index.keys ==> k in index.dirs
    ensures SamplesFor(m, projectDir, runDir, index, samples)
    ensures forall i :: 0 <= i < |samples| ==> fresh(samples[i])
  {
    samples := [];
    for i := 0 to |index.keys|
      invariant SamplesFor(m, projectDir, runDir, SampleIndex(index.keys[..i], index.dirs), samples)
      invariant forall j :: 0 <= j < i ==> fresh(samples[j])
    {
      var key := index.keys[i];
      ghost var seen := index.keys[..i + 1];
      assert seen[..i] == index.keys[..i] && seen[i] == key;
      var sample := new Sample(m, projectDir, runDir, index.dirs[key], key);
      samples := samples + [sample];
    }
    assert index.keys[..|index.keys|] == index.keys;
  }

  /** `get_log_files`: the entries of the run's `Logs` directory whose name
      does not start with a dot, in listing order. */
  function GetLogFiles(m: Mount, runDir: Path): (r: seq<Path>)
    ensures forall p :: p in r <==> p in Children(m, runDir + ["Logs"]) && !StartsWith(NameOf(p), ".")
  {
    Filter(Children(m, runDir + ["Logs"]), (p: Path) => !StartsWith(NameOf(p), "."))
  }

  // ---------------------------------------------------------------------
  // The sample sheet's lines

  /** Index of the first line containing `marker`, `|lines|` when none does. */
  function FirstLineWith(lines: seq<string>, marker: string): (k: nat)
    ensures k <= |lines|
    ensures k < |lines| ==> Contains(lines[k], marker)
    ensures forall j :: 0 <= j < k ==> !Contains(lines[j], marker)
  {
    if lines == [] then 0
    else if Contains(lines[0], marker) then 0
    else 1 + FirstLineWith(lines[1..], marker)
  }

  /** `extract_run_name`: the stripped second comma-separated field of the
      first line containing `Experiment Name`; no such line raises, and so
      does a matching line without a comma (IndexError). A name found holds
      no comma and has no whitespace at either end. */
  function ExtractRunName(lines: seq<string>): (r: Result<string>)
    ensures r.Failure? ==> r.error == MissingExperimentName || r.error == IndexOutOfRange
    ensures r.Success? ==> ',' !in r.value
    ensures r.Success? && r.value != [] ==> !IsSpace(r.value[0]) && !IsSpace(r.value[|r.value| - 1])
  {
    var k := FirstLineWith(lines, "Experiment Name");
    if k == |lines| then Failure(MissingExperimentName)
    else
      match SecondField(lines[k])
      case None => Failure(IndexOutOfRange)
      case Some(f) =>
        var i :| FieldAfterFirstComma(lines[k], i, f);
        StripKeeps(f, ',');
        Success(Strip(f))
  }

  /** The run name is missing exactly when no line mentions `Experiment Name`. */
  lemma ExtractRunNameMissing(lines: seq<string>)
    ensures ExtractRunName(lines) == Failure(MissingExperimentName) <==>
      forall line :: line in lines ==> !Contains(line, "Experiment Name")
  {
    var k := FirstLineWith(lines, "Experiment Name");
    if k == |lines| {
      forall line | line in lines ensures !Contains(line, "Experiment Name") {
        var j :| 0 <= j < |lines| && lines[j] == line;
      }
    } else {
      assert lines[k] in lines;
    }
  }

  /** Which of the three outcomes the first line mentioning `Experiment Name`
      decides: IndexError exactly when it has no comma, otherwise its stripped
      second field. */
  lemma ExtractRunNameOutcome(lines: seq<string>)
    ensures var k := FirstLineWith(lines, "Experiment Name");
      && (k < |lines| && ',' !in lines[k] ==> ExtractRunName(lines) == Failure(IndexOutOfRange))
      && (k < |lines| && ',' in lines[k] ==> ExtractRunName(lines) == Success(Strip(SecondField(lines[k]).value)))
    ensures ExtractRunName(lines) == Failure(IndexOutOfRange) <==>
      exists k :: FirstMatchAt(lines, k) && ',' !in lines[k]
  {
    var k := FirstLineWith(lines, "Experiment Name");
    if ExtractRunName(lines) == Failure(IndexOutOfRange) {
      assert FirstMatchAt(lines, k) && ',' !in lines[k];
    }
    if exists k' :: FirstMatchAt(lines, k') && ',' !in lines[k'] {
      var k' :| FirstMatchAt(lines, k') && ',' !in lines[k'];
      FirstLineAt(lines, "Experiment Name", k');
    }
  }

  /** Line `k` is the first to mention `Experiment Name`. */
  predicate FirstMatchAt(lines: seq<string>, k: int)
  {
    && 0 <= k < |lines| && Contains(lines[k], "Experiment Name")
    && forall j :: 0 <= j < k ==> !Contains(lines[j], "Experiment Name")
  }

  /** A name is found exactly when the first line mentioning `Experiment Name`
      has a second field, and the name is that field stripped. */
  lemma ExtractRunNameFirstMatch(lines: seq<string>, name: string)
    ensures ExtractRunName(lines) == Success(name) <==> exists k, f ::
      && FirstMatchAt(lines, k)
      && SecondField(lines[k]) == Some(f) && name == Strip(f)
  {
    var k := FirstLineWith(lines, "Experiment Name");
    if ExtractRunName(lines) == Success(name) {
      var f := SecondField(lines[k]).value;
      assert FirstMatchAt(lines, k) && SecondField(lines[k]) == Some(f) && name == Strip(f);
    }
    if exists k', f :: FirstMatchAt(lines, k') && SecondField(lines[k']) == Some(f) && name == Strip(f) {
      var k', f :| FirstMatchAt(lines, k') && SecondField(lines[k']) == Some(f) && name == Strip(f);
      FirstLineAt(lines, "Experiment Name", k');
    }
  }

  /** The loop of `parse_samplesheet`: the number of leading lines
      `pandas.read_csv` is told to skip. */
  method DataSkipCount(lines: seq<string>) returns (counter: int)
    ensures counter == FirstLineWith(lines, "[Data]") + 1
  {
    counter := 1;
    var i := 0;
    while i < |lines|
      invariant 0 <= i <= |lines|
      invariant counter == i + 1
      invariant forall j :: 0 <= j < i ==> !Contains(lines[j], "[Data]")
    {
      if Contains(lines[i], "[Data]") {
        FirstLineAt(lines, "[Data]", i);
        return;
      }
      counter := counter + 1;
      i := i + 1;
    }
    FirstLineAt(lines, "[Data]", |lines|);
  }

  /** `FirstLineWith` is pinned down by its contract. */
  lemma FirstLineAt(lines: seq<string>, marker: string, k: nat)
    requires k <= |lines|
    requires k < |lines| ==> Contains(lines[k], marker)
    requires forall j :: 0 <= j < k ==> !Contains(lines[j], marker)
    ensures FirstLineWith(lines, marker) == k
  {
  }

  // ---------------------------------------------------------------------
  // The run object

  /** The lines of a file on the mount. */
  function LinesOf(m: Mount, p: Path): seq<string>
    requires IsFile(m, p)
  {
    m.nodes[p].lines
  }

  /** The exception `BasemountRun(run_dir, project_dir)` raises, if any:
      the sample sheet, then the run name, then InterOp's `parents[1]`,
      then the sample ids, in the order `__post_init__` meets them. */
  function RunError(m: Mount, runDir: Path, projectDir: Path): Option<Error>
  {
    match GetSampleSheet(m, runDir)
    case Failure(e) => Some(e)
    case Success(sheet) =>
      match ExtractRunName(LinesOf(m, sheet))
      case Failure(e) => Some(e)
      case Success(name) =>
        if GetInterOpDir(m, projectDir, name).Failure? then Some(IndexOutOfRange)
        else if IdDict(GetSampleDirs(m, runDir)).None? then Some(IndexOutOfRange)
        else None
  }

  /** A run resolved from the mount; every field is settled when the
      object is built and nothing changes it afterwards. */
  class Run {
    const runDir: Path
    const projectDir: Path
    const logDir: Path
    const propertiesDir: Path
    const samplesheet: Path
    const runName: string
    const dataSkip: int
    const interopDir: Option<Path>
    const sampleDirs: seq<Path>
    const sampleIndex: SampleIndex
    const sampleObjects: seq<Sample>
    const runInfoXml: Option<Path>
    const runParametersXml: Option<Path>
    const logFiles: seq<Path>

    /** Every field holds what `__post_init__` computes from the mount. */
    predicate ResolvedFrom(m: Mount)
    {
      && logDir == runDir + ["Logs"]
      && propertiesDir == runDir + ["Properties"]
      && samplesheet == SampleSheetCandidate(runDir) && IsFile(m, samplesheet)
      && ExtractRunName(LinesOf(m, samplesheet)) == Success(runName)
      && dataSkip == FirstLineWith(LinesOf(m, samplesheet), "[Data]") + 1
      && GetInterOpDir(m, projectDir, runName) == Success(interopDir)
      && sampleDirs == GetSampleDirs(m, runDir)
      && IdDict(sampleDirs) == Some(sampleIndex)
      && SamplesFor(m, projectDir, runDir, sampleIndex, sampleObjects)
      && runInfoXml == GetRunInfoXml(m, runDir)
      && runParametersXml == GetRunParametersXml(m, runDir)
      && logFiles == GetLogFiles(m, runDir)
    }

    constructor (runDir: Path, projectDir: Path, samplesheet: Path, runName: string, dataSkip: int,
                 interopDir: Option<Path>, sampleDirs: seq<Path>, sampleIndex: SampleIndex,
                 sampleObjects: seq<Sample>, runInfoXml: Option<Path>, runParametersXml: Option<Path>,
                 logFiles: seq<Path>)
      ensures this.runDir == runDir && this.projectDir == projectDir
      ensures logDir == runDir + ["Logs"] && propertiesDir == runDir + ["Properties"]
      ensures this.samplesheet == samplesheet && this.runName == runName && this.dataSkip == dataSkip
      ensures this.interopDir == interopDir && this.sampleDirs == sampleDirs
      ensures this.sampleIndex == sampleIndex && this.sampleObjects == sampleObjects
      ensures this.runInfoXml == runInfoXml && this.runParametersXml == runParametersXml
      ensures this.logFiles == logFiles
    {
      this.runDir := runDir;
      this.projectDir := projectDir;
      logDir := runDir + ["Logs"];
      propertiesDir := runDir + ["Properties"];
      this.samplesheet := samplesheet;
      this.runName := runName;
      this.dataSkip := dataSkip;
      this.interopDir := interopDir;
      this.sampleDirs := sampleDirs;
      this.sampleIndex := sampleIndex;
      this.sampleObjects := sampleObjects;
      this.runInfoXml := runInfoXml;
      this.runParametersXml := runParametersXml;
      this.logFiles := logFiles;
    }
  }

  /** `BasemountRun(run_dir, project_dir)`: `__post_init__` step by step;
      the first exception ends the construction. */
  method OpenRun(m: Mount, runDir: Path, projectDir: Path) returns (r: Result<Run>)
    ensures r.Failure? ==> RunError(m, runDir, projectDir) == Some(r.error)
    ensures r.Success? ==> RunError(m, runDir, projectDir) == None
    ensures r.Success? ==> r.value.runDir == runDir && r.value.projectDir == projectDir
    ensures r.Success? ==> r.value.ResolvedFrom(m)
    ensures r.Success? ==> fresh(r.value) && forall i :: 0 <= i < |r.value.sampleObjects| ==> fresh(r.value.sampleObjects[i])
  {
    var sheet := GetSampleSheet(m, runDir);
    if sheet.Failure? {
      return Failure(sheet.error);
    }
    var lines := LinesOf(m, sheet.value);
    var runName := ExtractRunName(lines);
    if runName.Failure? {
      return Failure(runName.error);
    }
    var dataSkip := DataSkipCount(lines);
    var interop := GetInterOpDir(m, projectDir, runName.value);
    if interop.Failure? {
      return Failure(interop.error);
    }
    var sampleDirs := GetSampleDirs(m, runDir);
    var index := GetSampleIdDict(sampleDirs);
    if index.Failure? {
      return Failure(index.error);
    }
    IdDictKeysHaveDirs(sampleDirs);
    var samples := GenerateSampleObjects(m, projectDir, runDir, index.value);
    var runInfo := GetRunInfoXml(m, runDir);
    var runParameters := GetRunParametersXml(m, runDir);
    var logFiles := GetLogFiles(m, runDir);
    var run := new Run(runDir, projectDir, sheet.value, runName.value, dataSkip, interop.value,
                       sampleDirs, index.value, samples, runInfo, runParameters, logFiles);
    return Success(run);
  }
}
