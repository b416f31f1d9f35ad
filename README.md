# BaseMountRetrieve, modelled in Dafny

BaseMountRetrieve copies sequencing data out of a BaseMount mount (BaseSpace
projects projected as a directory tree) onto a local disk. This project models its
resolution and copying logic over an abstract mounted filesystem and proves what
that logic guarantees.

The mount is a finite map from paths (sequences of name components) to
`File(lines) | Dir`, together with the order in which directory listings return
entries (`MountFs.Mount`). Each glob the program uses becomes a predicate on
entry names:

- `Sample.*` means the name starts with `Sample.`;
- `*_R1_*` and `*_R2_*` mean the name contains `_R1_` or `_R2_`;
- `FASTQ*` means the name starts with `FASTQ`;
- the multi-component patterns `Samples/*/Files/*`, `*/Files/*` and
  `AppSessions.v1/*/Properties/Input.sample-sheet` are walked component by component.

`shutil.copy`, `os.chmod` and `os.makedirs` become abstract operations (`MountFs.Op`).
Python exceptions become `Results.Result`/`Option` values carrying the error kind.

Three programs share this core.

- **`BaseMountRetrieve/basemountretrieve_v2.py`**. Modules `BasemountSample`,
  `BasemountRun`, `BasemountProject`, `LocalDisk` and `BasemountRetrieve`.
  - Dataclasses whose fields `__post_init__` settles once are classes with `const`
    fields. `OpenRun` and `OpenProject` replay `__post_init__` step by step and
    return the first exception raised.
  - Every field of a built object is proved equal to a specification function of the
    mount: prioritised probes, the sample-directory filter, the sample-id dict, the
    read-pair validation, and the two rules over the sample sheet's lines.
  - The local side is a `LocalTree` class: a set of directories plus a log of copies
    and chmods. The methods that create the skeleton and copy each run are proved
    against plan functions (`RunPlan`, `ProjectSteps`). Properties of those plans are
    proved as lemmas: where each copy lands, what is chmod-ed, and when an exception
    ends the retrieval.
- **`BaseMountRetrieve/basemountretrieve.py`** (module `FlatRetrieve`). Each loop is
  a method returning the operations it performs, proved equal to a recursive
  specification. The scan loop is modelled as written:
  - the "already present" test compares a name string with a list of paths, so it
    never matches;
  - the copy and chmod loops sit inside the scan loop, so step `k` copies the first
    `k + 1` files again.

  The model proves that `n` files cause `n(n+1)/2` copies, the `i`-th file being
  copied `n - i` times.
- **`basemountretrieve.py`** (module `LegacyRetrieve`). The first version: one copy per
  kept file, always named `<sample id>_<file name>`, then one chmod per copy.

What the program does on the paths that matter most:

- The run name is taken from the first sample-sheet line that contains
  `Experiment Name`: the text between its first and second comma, stripped. No such
  line raises an exception, and so does such a line without a comma (IndexError).
- A sample that fails read validation keeps `None` for both reads, and the later
  `shutil.copy(str(None), …)` raises FileNotFoundError.
- A run without a RunInfo.xml raises FileNotFoundError at the copy of that file.
- No exception is caught per run: the first one ends the whole retrieval.
- The InterOp directory is located but never copied.
- `pathlib` drops an empty or `.` component, so an empty run name (a line
  `Experiment Name,`) puts the run's files directly into `out_dir`, and the InterOp
  directory is looked for at `Runs/Files/InterOp`.

## Model

| member | source | states |
|---|---|---|
| Text.Contains | BaseMountRetrieve/basemountretrieve_v2.py:200 | Python's `sub in s`: true exactly when `sub` occurs at some offset of `s` |
| Text.Strip | BaseMountRetrieve/basemountretrieve_v2.py:201 | `str.strip()`: the result is a slice of the input; everything cut off on either side is whitespace; the result neither starts nor ends with whitespace |
| Text.StripKeeps | BaseMountRetrieve/basemountretrieve_v2.py:201 | stripping introduces no character that the input lacks |
| Text.SecondField | BaseMountRetrieve/basemountretrieve_v2.py:201 | `line.split(',')[1]`: absent (IndexError) exactly when the line has no comma; otherwise the comma-free text between the first comma and the next comma or the line end |
| MountFs.Parent | BaseMountRetrieve/basemountretrieve_v2.py:112 | `parents[k]` exists exactly when `k` is below the path length, and is the path with `k + 1` components removed |
| MountFs.Filter | BaseMountRetrieve/basemountretrieve_v2.py:148-149 | a list comprehension keeps exactly the elements the condition accepts and never grows the list |
| MountFs.FilterNoDup | BaseMountRetrieve/basemountretrieve_v2.py:148-149 | filtering a list without duplicates leaves none |
| MountFs.FilterAppend | basemountretrieve.py:59 | filtering works element by element: the filter of a concatenation is the concatenation of the filters, so order is kept |
| MountFs.Children | BaseMountRetrieve/basemountretrieve_v2.py:107 | a directory's entries are exactly the listed existing paths one level below it |
| MountFs.ChildrenNoDup | BaseMountRetrieve/basemountretrieve_v2.py:107 | a listing that names each entry once gives each directory entry once |
| MountFs.JoinName | BaseMountRetrieve/basemountretrieve_v2.py:112 | `dir / name`: `dir` itself for an empty or `.` name, otherwise the entry of `dir` with that name |
| MountFs.Glob | BaseMountRetrieve/basemountretrieve_v2.py:145 | a one-component glob yields exactly the directory's entries whose name matches the pattern |
| MountFs.GlobFirst | BaseMountRetrieve/basemountretrieve_v2.py:55-56 | the first element of a glob's list is the earliest matching entry of the directory in listing order |
| MountFs.FilterFirst | BaseMountRetrieve/basemountretrieve_v2.py:55-56 | the first element kept by a filter is the earliest element the condition accepts |
| MountFs.GlobNoDup | BaseMountRetrieve/basemountretrieve_v2.py:61-62 | such a glob lists no path twice |
| MountFs.Probe | BaseMountRetrieve/basemountretrieve_v2.py:162-172 | trying candidates in priority order: absent exactly when no candidate is a regular file, otherwise the first candidate that is one |
| BasemountSample.R1Matches | BaseMountRetrieve/basemountretrieve_v2.py:61 | the `*_R1_*` glob of the Files directory: exactly its entries whose name contains `_R1_` |
| BasemountSample.R2Matches | BaseMountRetrieve/basemountretrieve_v2.py:62 | the same for `_R2_` |
| BasemountSample.GetReads | BaseMountRetrieve/basemountretrieve_v2.py:54-57 | IndexError exactly when either glob is empty; otherwise the earliest entry of the Files directory, in listing order, whose name contains `_R1_`, and the earliest whose name contains `_R2_` |
| BasemountSample.ReadPairFiles | BaseMountRetrieve/basemountretrieve_v2.py:63-66 | a settled read pair consists of two regular files |
| BasemountSample.OnlyMatchIff | BaseMountRetrieve/basemountretrieve_v2.py:60-66 | a glob has one match that is a regular file exactly when some regular file is the only matching entry; that entry is then the match |
| BasemountSample.ReadPairIff | BaseMountRetrieve/basemountretrieve_v2.py:42-66 | a sample gets reads exactly when one entry of Files contains `_R1_`, one contains `_R2_`, and both are regular files; the reads are those two entries |
| BasemountSample.Sample.constructor | BaseMountRetrieve/basemountretrieve_v2.py:42-52 | `fastq_dir` is `sample_dir/Files`; `r1` and `r2` are set together, exactly when validation passes, and hold the read pair; no exception escapes |
| BasemountRun.GetSampleSheet | BaseMountRetrieve/basemountretrieve_v2.py:126-131 | `Properties/Input.sample-sheet` when that is a regular file; otherwise FileNotFoundError naming it |
| BasemountRun.GetRunInfoXml | BaseMountRetrieve/basemountretrieve_v2.py:162-172 | the first of `Properties/Input.Runs/0/Files/RunInfo.xml` and `Logs/RunInfo.xml` that is a regular file, else `None`; it never raises |
| BasemountRun.GetRunParametersXml | BaseMountRetrieve/basemountretrieve_v2.py:153-160 | its single candidate when that is a regular file, else `None` |
| BasemountRun.GetInterOpDir | BaseMountRetrieve/basemountretrieve_v2.py:111-117 | IndexError exactly when the project path has fewer than two components; otherwise `parents[1] / 'Runs' / run_name / 'Files' / 'InterOp'`, joined as pathlib joins, if that is a directory, else `None` |
| BasemountRun.InterOpPlace | BaseMountRetrieve/basemountretrieve_v2.py:112 | the InterOp folder is looked for at `Runs/<run name>/Files/InterOp`, or at `Runs/Files/InterOp` when the run name is empty or `.` |
| BasemountRun.GetSampleDirs | BaseMountRetrieve/basemountretrieve_v2.py:144-151 | exactly the run directory's entries named `Sample.*`, without `Undetermined` in the name, that are directories |
| BasemountRun.SampleIdOf | BaseMountRetrieve/basemountretrieve_v2.py:122 | `split(".", 2)[2]`: absent exactly when the name has fewer than two dots; otherwise the suffix after the second dot, later dots kept |
| BasemountRun.IdsOf | BaseMountRetrieve/basemountretrieve_v2.py:121-122 | one id per sample directory, in order |
| BasemountRun.GetSampleIdDict | BaseMountRetrieve/basemountretrieve_v2.py:119-124 | the dict loop: fails with IndexError exactly when the dict specification does, otherwise yields it |
| BasemountRun.DictFailurePersists | BaseMountRetrieve/basemountretrieve_v2.py:119-124 | once one directory name has no id, the whole dict fails |
| BasemountRun.DictFailsIff | BaseMountRetrieve/basemountretrieve_v2.py:119-124 | the dict fails exactly when some directory name yields no id |
| BasemountRun.DictKeys | BaseMountRetrieve/basemountretrieve_v2.py:119-124 | the keys are duplicate-free and are exactly the ids that occur |
| BasemountRun.DictValues | BaseMountRetrieve/basemountretrieve_v2.py:119-124 | each id maps to the directory of its last occurrence: a later duplicate overwrites an earlier one |
| BasemountRun.DictEntries | BaseMountRetrieve/basemountretrieve_v2.py:119-124 | the keys and values together, as the two lemmas above state |
| BasemountRun.DictKeyOrder | BaseMountRetrieve/basemountretrieve_v2.py:119-124 | keys are in order of first insertion: an earlier key occurs among the ids before any occurrence of a later key |
| BasemountRun.IdDictKeysHaveDirs | BaseMountRetrieve/basemountretrieve_v2.py:136 | every key the object loop visits has a directory |
| BasemountRun.GenerateSampleObjects | BaseMountRetrieve/basemountretrieve_v2.py:133-142 | one fresh sample object per key, in key order, each holding its key, its directory and the read pair that directory yields |
| BasemountRun.GetLogFiles | BaseMountRetrieve/basemountretrieve_v2.py:106-109 | exactly the entries of `Logs` whose name does not start with a dot |
| BasemountRun.FirstLineWith | BaseMountRetrieve/basemountretrieve_v2.py:183-185 | the index of the first line containing the marker: no earlier line contains it; the line count when no line does |
| BasemountRun.ExtractRunName | BaseMountRetrieve/basemountretrieve_v2.py:191-204 | it raises only the missing-name exception or IndexError; a run name found contains no comma and has no whitespace at either end |
| BasemountRun.ExtractRunNameMissing | BaseMountRetrieve/basemountretrieve_v2.py:198-204 | the "could not find Experiment Name" exception happens exactly when no line contains `Experiment Name` |
| BasemountRun.ExtractRunNameFirstMatch | BaseMountRetrieve/basemountretrieve_v2.py:198-202 | the result is `name` exactly when the first line containing `Experiment Name` has a second comma-separated field and `name` is that field stripped |
| BasemountRun.ExtractRunNameOutcome | BaseMountRetrieve/basemountretrieve_v2.py:198-202 | the first line containing `Experiment Name` decides: IndexError exactly when it has no comma, otherwise its stripped second field |
| BasemountRun.DataSkipCount | BaseMountRetrieve/basemountretrieve_v2.py:181-187 | the counter is 1 plus the number of lines before the first `[Data]` line, or the line count plus 1 when there is none |
| BasemountRun.Run.constructor | BaseMountRetrieve/basemountretrieve_v2.py:82-84 | `log_dir` is `run_dir/Logs` and `properties_dir` is `run_dir/Properties`; every other field holds the value given |
| BasemountRun.OpenRun | BaseMountRetrieve/basemountretrieve_v2.py:82-104 | the run fails with the first exception `__post_init__` meets (sheet, run name, InterOp parent, sample ids), exactly as the run-error function predicts; otherwise every field is what its getter computes from the mount |
| BasemountProject.GetRunsDirs | BaseMountRetrieve/basemountretrieve_v2.py:227-229 | exactly the entries of `AppSessions.v1` whose name starts with `FASTQ` |
| BasemountProject.GenerateRunObjects | BaseMountRetrieve/basemountretrieve_v2.py:220-225 | on failure, some run directory raises that error and every earlier one builds; on success, every run builds and the i-th object is built from the i-th directory |
| BasemountProject.Project.constructor | BaseMountRetrieve/basemountretrieve_v2.py:214-218 | `sample_dir` is `project/Samples` and `appsessions` is `project/AppSessions.v1`; the run lists are those given |
| BasemountProject.OpenProject | BaseMountRetrieve/basemountretrieve_v2.py:214-218 | the project holds the `FASTQ*` run directories and one resolved run per directory, or fails with the first run's error |
| BasemountProject.CreateRunFolderSkeleton | BaseMountRetrieve/basemountretrieve_v2.py:260-274 | FileNotFoundError, with nothing created, when the parent of `out` is missing; otherwise `out`, the seven base folders and their intermediate directories exist afterwards; a call on a tree that already holds the skeleton changes nothing |
| BasemountProject.MakeBaseFolders | BaseMountRetrieve/basemountretrieve_v2.py:273-274 | each base folder is made with all its parents |
| BasemountProject.SkeletonHoldsLineage | BaseMountRetrieve/basemountretrieve_v2.py:265-274 | the skeleton holds `out` with its ancestors, and every directory between `out` and each base folder |
| LocalDisk.Lineage | BaseMountRetrieve/basemountretrieve_v2.py:274 | `mkdir(parents=True)` creates exactly the path's non-root prefixes |
| LocalDisk.Then | BaseMountRetrieve/basemountretrieve_v2.py:243-248 | a statement that raises ends the sequence; otherwise the operations of both statements run in order |
| LocalDisk.ThenAssoc | BaseMountRetrieve/basemountretrieve_v2.py:243-248 | sequencing statements is associative |
| LocalDisk.ThenOps | BaseMountRetrieve/basemountretrieve_v2.py:243-248 | a sequence performs only operations of its parts |
| LocalDisk.SeqStep | BaseMountRetrieve/basemountretrieve_v2.py:249-251 | one more loop iteration extends the sequence by that iteration |
| LocalDisk.SeqPrefixFails | BaseMountRetrieve/basemountretrieve_v2.py:249-251 | after an iteration raises, no later iteration runs |
| LocalDisk.SeqFailure | BaseMountRetrieve/basemountretrieve_v2.py:249-251 | a loop raises exactly when one of its iterations does, and then with the error of the first such iteration |
| LocalDisk.SeqOpsFromSteps | BaseMountRetrieve/basemountretrieve_v2.py:249-251 | every operation of a loop comes from one of its iterations |
| LocalDisk.SeqOpsOfSteps | BaseMountRetrieve/basemountretrieve_v2.py:249-251 | a loop that does not raise performs every operation of every iteration |
| LocalDisk.CopyStep | BaseMountRetrieve/basemountretrieve_v2.py:243 | `shutil.copy` succeeds exactly when the source is given and is a regular file; `None` gives FileNotFoundError for `None`, a missing source gives FileNotFoundError, a directory gives IsADirectoryError |
| LocalDisk.CopyChmodStep | BaseMountRetrieve/basemountretrieve_v2.py:244-245 | the copy, then a 0o775 chmod of the destination, only when the copy succeeded |
| LocalDisk.LocalTree.constructor | BaseMountRetrieve/basemountretrieve_v2.py:232-234 | the local tree starts with the given directories and an empty log |
| LocalDisk.LocalTree.MakeDir | BaseMountRetrieve/basemountretrieve_v2.py:272-274 | `mkdir(exist_ok=True)`: without parents, FileNotFoundError and no change when the parent is missing; otherwise the directory (with parents: its whole lineage) exists; never touches the log |
| LocalDisk.LocalTree.Copy | BaseMountRetrieve/basemountretrieve_v2.py:243 | a source error as `shutil.copy` raises it; a missing destination directory raises FileNotFoundError; otherwise the copy is logged |
| LocalDisk.LocalTree.Chmod | BaseMountRetrieve/basemountretrieve_v2.py:245 | the chmod is appended to the log |
| BasemountRetrieve.LogSteps | BaseMountRetrieve/basemountretrieve_v2.py:249-251 | one copy-then-chmod per log file, to `Logs/<name>` |
| BasemountRetrieve.ReadSteps | BaseMountRetrieve/basemountretrieve_v2.py:254-257 | one two-read copy step per sample object |
| BasemountRetrieve.MetadataDestinations | BaseMountRetrieve/basemountretrieve_v2.py:243-248 | the metadata copies land only on SampleSheet.csv, RunInfo.xml or RunParameters.xml; the chmods use 0o775 on the latter two only |
| BasemountRetrieve.LogDestinations | BaseMountRetrieve/basemountretrieve_v2.py:249-251 | every log copy and chmod targets an entry of `Logs`, with mode 0o775 |
| BasemountRetrieve.ReadDestinations | BaseMountRetrieve/basemountretrieve_v2.py:254-257 | the read loop only copies, and only into BaseCalls |
| BasemountRetrieve.SampleReadsDestinations | BaseMountRetrieve/basemountretrieve_v2.py:256-257 | a sample's two copies land directly in BaseCalls |
| BasemountRetrieve.RunPlanDestinations | BaseMountRetrieve/basemountretrieve_v2.py:242-257 | every copy of a run lands on one of the three metadata files, in `Logs`, or in `Data/Intensities/BaseCalls` |
| BasemountRetrieve.NothingCopiedIntoInterOp | BaseMountRetrieve/basemountretrieve_v2.py:242-257 | no copy of a run targets its `InterOp` folder |
| BasemountRetrieve.RunPlanChmods | BaseMountRetrieve/basemountretrieve_v2.py:243-251 | only RunInfo.xml, RunParameters.xml and log files are chmod-ed, always to 0o775, and the sample sheet and the reads never are; when the run's copies complete, RunInfo.xml, RunParameters.xml when found, and every log copy have been chmod-ed |
| BasemountRetrieve.ChmodTargets | BaseMountRetrieve/basemountretrieve_v2.py:243-251 | every chmod of a run sets 0o775 on RunInfo.xml, RunParameters.xml or an entry of `Logs`, never on the sample sheet or a read |
| BasemountRetrieve.SamplesSettled | BaseMountRetrieve/basemountretrieve_v2.py:133-142 | every sample object has both reads (two regular files) or neither |
| BasemountRetrieve.MetadataFailure | BaseMountRetrieve/basemountretrieve_v2.py:243-248 | the metadata copies of a resolved run raise exactly when it has no RunInfo.xml, after copying the sample sheet only; otherwise they are exactly: copy the sample sheet, copy and chmod RunInfo.xml, then copy and chmod RunParameters.xml when one was found |
| BasemountRetrieve.MetadataOutcome | BaseMountRetrieve/basemountretrieve_v2.py:243-248 | the same outcome for any run whose metadata paths are regular files |
| BasemountRetrieve.LogsFailure | BaseMountRetrieve/basemountretrieve_v2.py:249-251 | the log loop raises exactly when a log entry is a directory; otherwise every log file is copied to `Logs/<name>` |
| BasemountRetrieve.SampleReadsOutcome | BaseMountRetrieve/basemountretrieve_v2.py:256-257 | a sample's copies succeed exactly when it has reads, and are then R1 and R2 into BaseCalls, in that order |
| BasemountRetrieve.ReadsFailure | BaseMountRetrieve/basemountretrieve_v2.py:254-257 | the read loop raises exactly when some sample failed validation |
| BasemountRetrieve.ReadsCopied | BaseMountRetrieve/basemountretrieve_v2.py:254-257 | when the read loop completes, every sample's R1 and R2 were copied into BaseCalls under their own names |
| BasemountRetrieve.RunPlanFailure | BaseMountRetrieve/basemountretrieve_v2.py:242-257 | a resolved run's copies raise exactly when RunInfo.xml is missing, a log entry is a directory, or a sample failed validation |
| BasemountRetrieve.RunPlanCopiesMetadata | BaseMountRetrieve/basemountretrieve_v2.py:243-251 | a completed run copied its sample sheet, its RunInfo.xml, its RunParameters.xml when found, and every log file to their places, and chmod-ed each of them but the sample sheet to 0o775 |
| BasemountRetrieve.RunPlanCopiesReads | BaseMountRetrieve/basemountretrieve_v2.py:254-257 | a completed run copied both reads of every sample into BaseCalls |
| BasemountRetrieve.SkeletonTargets | BaseMountRetrieve/basemountretrieve_v2.py:265-274 | the skeleton holds the run folder, its `Logs` and its `Data/Intensities/BaseCalls` |
| BasemountRetrieve.CopyChmod | BaseMountRetrieve/basemountretrieve_v2.py:250-251 | one copy-then-chmod: logs exactly the step's operations and returns its error |
| BasemountRetrieve.CopyMetadata | BaseMountRetrieve/basemountretrieve_v2.py:243-248 | the metadata statements: log and error as the metadata plan states |
| BasemountRetrieve.CopyLogs | BaseMountRetrieve/basemountretrieve_v2.py:249-251 | the log loop: log and error as the sequence of log steps states |
| BasemountRetrieve.CopyReads | BaseMountRetrieve/basemountretrieve_v2.py:254-257 | the read loop: log and error as the sequence of read steps states |
| BasemountRetrieve.CopySampleReads | BaseMountRetrieve/basemountretrieve_v2.py:256-257 | one sample's two copies: log and error as its step states |
| BasemountRetrieve.CopyRun | BaseMountRetrieve/basemountretrieve_v2.py:242-257 | given the skeleton, one run's copies log exactly the run plan and return its error; no directory changes |
| BasemountRetrieve.RunOut | BaseMountRetrieve/basemountretrieve_v2.py:239 | `out_dir / run_name`: `out_dir` itself for an empty or `.` run name, otherwise the entry of `out_dir` named after the run |
| BasemountRetrieve.ProjectSteps | BaseMountRetrieve/basemountretrieve_v2.py:237-257 | one run plan per run object, into `out_dir/<run name>` |
| BasemountRetrieve.RetrieveRun | BaseMountRetrieve/basemountretrieve_v2.py:238-257 | one run: the skeleton is added to the tree, then the run plan is logged and its error returned |
| BasemountRetrieve.RetrieveRuns | BaseMountRetrieve/basemountretrieve_v2.py:237-257 | the run loop: log and error as the sequence of run plans states; directories only grow |
| BasemountRetrieve.RetrieveProjectContents | BaseMountRetrieve/basemountretrieve_v2.py:232-257 | a missing parent of `out_dir` raises before anything happens; a run that fails to build raises before any copy; otherwise every run is resolved and the log is exactly the project's run plans |
| FlatRetrieve.SubDirs | BaseMountRetrieve/basemountretrieve.py:73 | the entries a non-final `*` walks through: exactly the subdirectories |
| FlatRetrieve.FilesOf | BaseMountRetrieve/basemountretrieve.py:73 | the entries of `<sample>/Files` when that is a directory, else none |
| FlatRetrieve.FilesOfEach | BaseMountRetrieve/basemountretrieve.py:73 | the `Files` entries of any of the given directories |
| FlatRetrieve.FilesGlob | BaseMountRetrieve/basemountretrieve.py:73 | `dir.glob("*/Files/*")` yields exactly `dir/<sample>/Files/<entry>` with `<sample>` and `Files` directories |
| FlatRetrieve.FilesGlobNoDup | BaseMountRetrieve/basemountretrieve.py:73 | the glob yields each file once |
| FlatRetrieve.WithoutIdFiles | BaseMountRetrieve/basemountretrieve.py:76 | keeps exactly the paths whose string does not contain `.id.` |
| FlatRetrieve.WithoutIdFilesOrder | BaseMountRetrieve/basemountretrieve.py:76 | the filter keeps traversal order: it distributes over concatenation and keeps or drops each path on its own |
| FlatRetrieve.FastqList | BaseMountRetrieve/basemountretrieve.py:73-76 | exactly the `Samples/<sample>/Files/<entry>` paths without `.id.` in their string |
| FlatRetrieve.FastqListNoDup | BaseMountRetrieve/basemountretrieve.py:73-76 | the FASTQ list names each file once |
| FlatRetrieve.FlatOutName | BaseMountRetrieve/basemountretrieve.py:83-90 | the output path is an entry of the output directory |
| FlatRetrieve.FlatOutNameRule | BaseMountRetrieve/basemountretrieve.py:87-90 | the output name is `<sample id>_<file name>` when the file name does not contain the sample id, and the file name unchanged when it does |
| FlatRetrieve.FlatOutNameCarriesId | BaseMountRetrieve/basemountretrieve.py:87-90 | either way the output name contains the sample id and ends with the file name |
| FlatRetrieve.CopyPass | BaseMountRetrieve/basemountretrieve.py:97-112 | the copy loop: one copy per transfer entry to its output name, in order, and `modlist` is their destinations |
| FlatRetrieve.ChmodPass | BaseMountRetrieve/basemountretrieve.py:115-116 | the chmod loop: one 0o775 chmod per `modlist` entry, in order |
| FlatRetrieve.TransferScan | BaseMountRetrieve/basemountretrieve.py:79-116 | the scan loop adds every file to the transfer list and performs, at each step, the copies and chmods of the whole list so far |
| FlatRetrieve.RetrieveSamples | BaseMountRetrieve/basemountretrieve.py:71-116 | `retrieve_samples` performs only copies and chmods; with `n` filtered files, `n(n+1)/2` copies; on a well-formed mount the `i`-th file is copied `n - i` times |
| FlatRetrieve.CopyPassOps | BaseMountRetrieve/basemountretrieve.py:98-112 | a copy pass copies each entry as often as it occurs, chmods nothing, and its destinations are `modlist` |
| FlatRetrieve.ChmodPassOps | BaseMountRetrieve/basemountretrieve.py:115-116 | a chmod pass copies nothing and chmods exactly `modlist`, with mode 0o775 |
| FlatRetrieve.ScanStepShape | BaseMountRetrieve/basemountretrieve.py:97-116 | scan step `k` makes `k + 1` copies and chmods exactly their destinations, in the same order, with 0o775: `modlist` is reset each step |
| FlatRetrieve.ScanCopyCount | BaseMountRetrieve/basemountretrieve.py:81-112 | the first `j` scan steps make `j(j+1)/2` copies |
| FlatRetrieve.StepCopiesOfFile | BaseMountRetrieve/basemountretrieve.py:97-112 | with distinct files, step `k` copies file `i` once when `i <= k`, else not at all |
| FlatRetrieve.ScanCopiesOfFile | BaseMountRetrieve/basemountretrieve.py:81-112 | after `j` steps, file `i` has been copied `j - i` times (none when `j <= i`) |
| FlatRetrieve.SheetsOfEach | BaseMountRetrieve/basemountretrieve.py:122 | the sample sheets of the given sessions that have one |
| FlatRetrieve.SampleSheets | BaseMountRetrieve/basemountretrieve.py:122 | exactly `AppSessions.v1/<X>/Properties/Input.sample-sheet` for each session directory `X` that holds one |
| FlatRetrieve.RetrieveSampleSheets | BaseMountRetrieve/basemountretrieve.py:119-131 | the copy loop over the sample sheets performs only copies, one per sheet, in glob order |
| FlatRetrieve.SheetCopiesMembers | BaseMountRetrieve/basemountretrieve.py:128-131 | an operation is among the sheet copies exactly when it copies a found sheet to its output name |
| FlatRetrieve.SheetCopiesNamed | BaseMountRetrieve/basemountretrieve.py:122-131 | the copies are exactly: the sheet of every session `X` holding one, to `X.SampleSheet.csv` in the output directory |
| FlatRetrieve.Cli | BaseMountRetrieve/basemountretrieve.py:56-66 | the output directory is created first, then the sheet copies, then the sample transfers; nothing after the first operation creates a directory |
| LegacyRetrieve.LegacyOutName | basemountretrieve.py:66-70 | the output path is an entry of the output directory |
| LegacyRetrieve.LegacyPrefixesAgain | basemountretrieve.py:66-70 | every copy is named `<sample id>_<file name>`, so its name equals the later script's name exactly when the file name does not already contain the sample id |
| LegacyRetrieve.LegacyCopyLoop | basemountretrieve.py:61-72 | the copy loop: one copy per kept file to `<sample id>_<file name>`, in order, with `modlist` their destinations |
| LegacyRetrieve.LegacyCopiesOps | basemountretrieve.py:61-72 | the copy loop copies each file as often as it occurs, chmods nothing, and its destinations are `modlist` |
| LegacyRetrieve.LegacyCopiesOnce | basemountretrieve.py:53-76 | with distinct files, each kept file is copied exactly once and nothing else is copied |
| LegacyRetrieve.LegacyChmodsMatch | basemountretrieve.py:61-76 | the copy destinations and the chmod targets are both exactly `modlist`, in traversal order |
| LegacyRetrieve.LegacyCli | basemountretrieve.py:48-76 | the output directory is created first, then the copies of the kept files, then the chmods of `modlist`; every destination is chmod-ed once in copy order and nothing else is; on a well-formed mount each kept file is copied exactly once and only kept files are copied |

## Left out

- Command-line handling (click options, `print_version`, `quit`, `convert_to_path`), logging and `print`: user interface and process plumbing.
- `pandas.read_csv` in `parse_samplesheet`: a foreign library. Only the `[Data]` counter that feeds it is modelled; an exception from pandas is not.
- `get_fastq_pair` and `validate_samplesheet`: their bodies are `pass`.
- Real glob and fnmatch semantics: each pattern is the name predicate or component walk described above; symbolic links are not modelled.
- File contents and permission bits: a copy and a chmod are recorded operations, and a file's text is its list of lines.
- `MountFs.PathString`: the path string is the components joined by `/`, not the platform's path rendering. The `.id.` filter is proved for this rendering only.
- Run names containing `/`: `out_dir / run_name` and the InterOp path take any run name other than an empty one or `.` as a single path component. pathlib would split it at each `/`, and a leading `/` would restart the path from the root.
- `mkdir` onto an existing regular file, and a copy onto a destination that is an existing directory: the local tree records directories only.
- A mount entry literally named `None` (the path `shutil.copy(str(None))` looks up): it is taken to be absent.
- Failure of `os.chmod`: a chmod right after a successful copy is taken to succeed.
- In the two flat scripts, `shutil.copy` of a `Files` entry that is a directory, and copies or chmods that fail: their operation lists take every operation to succeed.
- `LegacyRetrieve.LegacyCli`, `FlatRetrieve.Cli` and `BasemountRetrieve.RetrieveProjectContents`: the options that may be omitted are taken as given. An omitted option crashes the script before any of the modelled work:
  - first version, `inputdir`: TypeError at `Path(None)` (basemountretrieve.py:49);
  - first version, `outdir`: TypeError at `os.makedirs(None)` (basemountretrieve.py:53);
  - second version, `projectdir`: AttributeError at `projectdir.glob` (BaseMountRetrieve/basemountretrieve.py:122), after `outdir` was created;
  - third version, `project_dir`: TypeError at `project_dir / 'Samples'` (BaseMountRetrieve/basemountretrieve_v2.py:215), after `out_dir` was created.
- `FlatRetrieve.RetrieveSamples` and `LegacyRetrieve.LegacyCli`: the per-file copy counts are stated only for a mount whose listing names each entry once.
- `BaseMountRetrieve/__init__.py`, `BaseMountRetrieve/test_basemountretrieve.py` and `setup.py`: version constants, tests that are all commented out, and packaging are not part of this model.
