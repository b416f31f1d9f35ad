/** `retrieve_project_contents_from_basemount` of
    BaseMountRetrieve/basemountretrieve_v2.py: for every run of the
    project, the run folder skeleton and then the copies that fill it. */
module BasemountRetrieve {
  import opened Results
  import opened MountFs
  import opened BasemountSample
  import opened BasemountRun
  import opened LocalDisk
  import opened BasemountProject

  // ---------------------------------------------------------------------
  // What one run copies

  /** The sample sheet (no chmod), RunInfo.xml, and RunParameters.xml when
      the run has one; the latter two are made group-writable. */
  function MetadataPlan(m: Mount, run: Run, out: Path): Plan
  {
    Then(Then(CopyStep(m, Some(run.samplesheet), out + ["SampleSheet.csv"]),
              CopyChmodStep(m, run.runInfoXml, out + ["RunInfo.xml"])),
         if run.runParametersXml.Some? then CopyChmodStep(m, run.runParametersXml, out + ["RunParameters.xml"])
         else Done)
  }

  /** A log file goes to `Logs/<name>` and is made group-writable. */
  function LogSteps(m: Mount, logs: seq<Path>, logsOut: Path): (r: seq<Plan>)
    ensures |r| == |logs|
    ensures forall i :: 0 <= i < |logs| ==> r[i] == CopyChmodStep(m, Some(logs[i]), logsOut + [NameOf(logs[i])])
  {
    seq(|logs|, i requires 0 <= i < |logs| => CopyChmodStep(m, Some(logs[i]), logsOut + [NameOf(logs[i])]))
  }

  /** Both reads of a sample are copied into `BaseCalls`, R1 first; a sample
      that failed validation has `None` for both. */
  function SampleReadsStep(m: Mount, sample: Sample, callsOut: Path): Plan
  {
    Then(CopyStep(m, sample.r1, IntoDir(sample.r1, callsOut)),
         CopyStep(m, sample.r2, IntoDir(sample.r2, callsOut)))
  }

  function ReadSteps(m: Mount, samples: seq<Sample>, callsOut: Path): (r: seq<Plan>)
    ensures |r| == |samples|
    ensures forall i :: 0 <= i < |samples| ==> r[i] == SampleReadsStep(m, samples[i], callsOut)
  {
    seq(|samples|, i requires 0 <= i < |samples| => SampleReadsStep(m, samples[i], callsOut))
  }

  /** Everything the loop body does for one run after its skeleton exists. */
  function RunPlan(m: Mount, run: Run, out: Path): Plan
  {
    Then(Then(MetadataPlan(m, run, out), Seq(LogSteps(m, run.logFiles, out + ["Logs"]))),
         Seq(ReadSteps(m, run.sampleObjects, out + BaseCallsDir)))
  }

  // ---------------------------------------------------------------------
  // What one run's copies guarantee

  /** Where a run's copies land: the three metadata files directly in the
      run folder, log files in `Logs`, reads in `BaseCalls`. */
  predicate RunOutputPlace(out: Path, dst: Path)
  {
    || dst == out + ["SampleSheet.csv"]
    || dst == out + ["RunInfo.xml"]
    || dst == out + ["RunParameters.xml"]
    || ChildOf(dst, out + ["Logs"])
    || ChildOf(dst, out + BaseCallsDir)
  }

  lemma MetadataDestinations(m: Mount, run: Run, out: Path)
    ensures forall op :: op in MetadataPlan(m, run, out).ops && op.Copy? ==>
      op.dst in {out + ["SampleSheet.csv"], out + ["RunInfo.xml"], out + ["RunParameters.xml"]}
    ensures forall op :: op in MetadataPlan(m, run, out).ops && op.Chmod? ==>
      op.mode == GroupWritable && op.target in {out + ["RunInfo.xml"], out + ["RunParameters.xml"]}
  {
    var sheet := CopyStep(m, Some(run.samplesheet), out + ["SampleSheet.csv"]);
    var info := CopyChmodStep(m, run.runInfoXml, out + ["RunInfo.xml"]);
    var params := if run.runParametersXml.Some? then CopyChmodStep(m, run.runParametersXml, out + ["RunParameters.xml"]) else Done;
    ThenOps(sheet, info);
    ThenOps(Then(sheet, info), params);
  }

  lemma {:induction false} LogDestinations(m: Mount, logs: seq<Path>, logsOut: Path)
    ensures forall op :: op in Seq(LogSteps(m, logs, logsOut)).ops ==>
      (op.Copy? ==> ChildOf(op.dst, logsOut)) && (op.Chmod? ==> op.mode == GroupWritable && ChildOf(op.target, logsOut))
  {
    var steps := LogSteps(m, logs, logsOut);
    SeqOpsFromSteps(steps);
    forall op | op in Seq(steps).ops
      ensures (op.Copy? ==> ChildOf(op.dst, logsOut)) && (op.Chmod? ==> op.mode == GroupWritable && ChildOf(op.target, logsOut))
    {
      var i :| 0 <= i < |steps| && op in steps[i].ops;
      assert (logsOut + [NameOf(logs[i])])[..|logsOut|] == logsOut;
    }
  }

  lemma {:induction false} ReadDestinations(m: Mount, samples: seq<Sample>, callsOut: Path)
    ensures forall op :: op in Seq(ReadSteps(m, samples, callsOut)).ops ==> op.Copy? && ChildOf(op.dst, callsOut)
  {
    var steps := ReadSteps(m, samples, callsOut);
    SeqOpsFromSteps(steps);
    forall op | op in Seq(steps).ops ensures op.Copy? && ChildOf(op.dst, callsOut) {
      var i :| 0 <= i < |steps| && op in steps[i].ops;
      SampleReadsDestinations(m, samples[i], callsOut);
    }
  }

  lemma SampleReadsDestinations(m: Mount, s: Sample, callsOut: Path)
    ensures forall op :: op in SampleReadsStep(m, s, callsOut).ops ==> op.Copy? && ChildOf(op.dst, callsOut)
  {
    ThenOps(CopyStep(m, s.r1, IntoDir(s.r1, callsOut)), CopyStep(m, s.r2, IntoDir(s.r2, callsOut)));
    if s.r1.Some? {
      assert (callsOut + [NameOf(s.r1.value)])[..|callsOut|] == callsOut;
    }
    if s.r2.Some? {
      assert (callsOut + [NameOf(s.r2.value)])[..|callsOut|] == callsOut;
    }
  }

  /** Every copy of a run lands in one of the places the run folder layout
      provides for it. */
  lemma RunPlanDestinations(m: Mount, run: Run, out: Path)
    ensures forall op :: op in RunPlan(m, run, out).ops && op.Copy? ==> RunOutputPlace(out, op.dst)
  {
    var meta := MetadataPlan(m, run, out);
    var logs := Seq(LogSteps(m, run.logFiles, out + ["Logs"]));
    var copies := Seq(ReadSteps(m, run.sampleObjects, out + BaseCallsDir));
    MetadataDestinations(m, run, out);
    LogDestinations(m, run.logFiles, out + ["Logs"]);
    ReadDestinations(m, run.sampleObjects, out + BaseCallsDir);
    ThenOps(meta, logs);
    ThenOps(Then(meta, logs), copies);
  }

  /** Nothing is ever copied into the run's `InterOp` folder: the skeleton
      creates it, but no copy targets it. */
  lemma NothingCopiedIntoInterOp(m: Mount, run: Run, out: Path)
    ensures forall op :: op in RunPlan(m, run, out).ops && op.Copy? ==>
      |op.dst| > |out| && op.dst[..|out|] == out && op.dst[|out|] != "InterOp"
  {
    RunPlanDestinations(m, run, out);
    forall op | op in RunPlan(m, run, out).ops && op.Copy?
      ensures |op.dst| > |out| && op.dst[..|out|] == out && op.dst[|out|] != "InterOp"
    {
      FolderBelowOut(out, op.dst);
    }
  }

  /** The component right below `out` of every place a copy may land. */
  lemma FolderBelowOut(out: Path, d: Path)
    requires RunOutputPlace(out, d)
    ensures |d| > |out| && d[..|out|] == out
    ensures d[|out|] in {"SampleSheet.csv", "RunInfo.xml", "RunParameters.xml", "Logs", "Data"}
  {
    assert ChildOf(d, out + ["Logs"]) ==> d[|out|] == (out + ["Logs"])[|out|] && d[..|out|] == (out + ["Logs"])[..|out|];
    assert ChildOf(d, out + BaseCallsDir) ==>
      d[|out|] == (out + BaseCallsDir)[|out|] && d[..|out|] == (out + BaseCallsDir)[..|out|];
  }

  /** Only RunInfo.xml, RunParameters.xml and the log files are made
      group-writable, always with mode 0o775; the sample sheet and the reads
      keep the mode the copy gave them. When the copies complete, each of
      those files has been made group-writable. */
  lemma RunPlanChmods(m: Mount, run: Run, out: Path)
    ensures forall op :: op in RunPlan(m, run, out).ops && op.Chmod? ==>
      && op.mode == GroupWritable
      && (op.target == out + ["RunInfo.xml"] || op.target == out + ["RunParameters.xml"] || ChildOf(op.target, out + ["Logs"]))
      && op.target != out + ["SampleSheet.csv"] && !ChildOf(op.target, out + BaseCallsDir)
    ensures run.ResolvedFrom(m) && RunPlan(m, run, out).failure.None? ==>
      && Chmod(out + ["RunInfo.xml"], GroupWritable) in RunPlan(m, run, out).ops
      && (run.runParametersXml.Some? ==> Chmod(out + ["RunParameters.xml"], GroupWritable) in RunPlan(m, run, out).ops)
      && forall l :: l in run.logFiles ==> Chmod(out + ["Logs"] + [NameOf(l)], GroupWritable) in RunPlan(m, run, out).ops
  {
    ChmodTargets(m, run, out);
    if run.ResolvedFrom(m) && RunPlan(m, run, out).failure.None? {
      RunPlanCopiesMetadata(m, run, out);
    }
  }

  /** The files a run's chmods may touch. */
  lemma ChmodTargets(m: Mount, run: Run, out: Path)
    ensures forall op :: op in RunPlan(m, run, out).ops && op.Chmod? ==>
      && op.mode == GroupWritable
      && (op.target == out + ["RunInfo.xml"] || op.target == out + ["RunParameters.xml"] || ChildOf(op.target, out + ["Logs"]))
      && op.target != out + ["SampleSheet.csv"] && !ChildOf(op.target, out + BaseCallsDir)
  {
    var meta := MetadataPlan(m, run, out);
    var logs := Seq(LogSteps(m, run.logFiles, out + ["Logs"]));
    var copies := Seq(ReadSteps(m, run.sampleObjects, out + BaseCallsDir));
    MetadataDestinations(m, run, out);
    LogDestinations(m, run.logFiles, out + ["Logs"]);
    ReadDestinations(m, run.sampleObjects, out + BaseCallsDir);
    ThenOps(meta, logs);
    ThenOps(Then(meta, logs), copies);
    forall op | op in RunPlan(m, run, out).ops && op.Chmod?
      ensures op.target != out + ["SampleSheet.csv"] && !ChildOf(op.target, out + BaseCallsDir)
    {
      var t := op.target;
      assert ChildOf(t, out + ["Logs"]) ==> |t| == |out| + 2;
      assert |t| == |out| + 1 ==> t[|out|] == "RunInfo.xml" || t[|out|] == "RunParameters.xml";
    }
  }

  /** The reads of a sample are both missing or both regular files. */
  predicate ReadsSettled(m: Mount, s: Sample)
  {
    s.r2.Some? == s.r1.Some? && (s.r1.Some? ==> IsFile(m, s.r1.value) && IsFile(m, s.r2.value))
  }

  lemma {:induction false} SamplesSettled(m: Mount, projectDir: Path, runDir: Path, index: SampleIndex, samples: seq<Sample>)
    requires SamplesFor(m, projectDir, runDir, index, samples)
    ensures forall s :: s in samples ==> ReadsSettled(m, s)
  {
    forall s | s in samples ensures ReadsSettled(m, s) {
      var i :| 0 <= i < |samples| && samples[i] == s;
      if s.r1.Some? {
        ReadPairFiles(m, s.fastqDir);
      }
    }
  }

  /** The metadata copies of a resolved run raise exactly when it has no
      RunInfo.xml, after the sample sheet alone was copied. Otherwise the
      sample sheet is copied, RunInfo.xml is copied and made group-writable,
      and so is RunParameters.xml when the run has one, in that order. */
  lemma MetadataFailure(m: Mount, run: Run, out: Path)
    requires run.ResolvedFrom(m)
    ensures MetadataPlan(m, run, out).failure.Some? <==> run.runInfoXml.None?
    ensures run.runInfoXml.None? ==>
      MetadataPlan(m, run, out) == Plan([Copy(run.samplesheet, out + ["SampleSheet.csv"])], Some(FileNotFound(["None"])))
    ensures run.runInfoXml.Some? ==>
      MetadataPlan(m, run, out).ops ==
        [Copy(run.samplesheet, out + ["SampleSheet.csv"]),
         Copy(run.runInfoXml.value, out + ["RunInfo.xml"]), Chmod(out + ["RunInfo.xml"], GroupWritable)] +
        (if run.runParametersXml.Some? then
           [Copy(run.runParametersXml.value, out + ["RunParameters.xml"]), Chmod(out + ["RunParameters.xml"], GroupWritable)]
         else [])
  {
    MetadataOutcome(m, run, out);
  }

  /** `MetadataFailure` for any run whose metadata probes found regular
      files. */
  lemma MetadataOutcome(m: Mount, run: Run, out: Path)
    requires IsFile(m, run.samplesheet)
    requires run.runInfoXml.Some? ==> IsFile(m, run.runInfoXml.value)
    requires run.runParametersXml.Some? ==> IsFile(m, run.runParametersXml.value)
    ensures MetadataPlan(m, run, out).failure.Some? <==> run.runInfoXml.None?
    ensures run.runInfoXml.None? ==>
      MetadataPlan(m, run, out) == Plan([Copy(run.samplesheet, out + ["SampleSheet.csv"])], Some(FileNotFound(["None"])))
    ensures run.runInfoXml.Some? ==>
      MetadataPlan(m, run, out).ops ==
        [Copy(run.samplesheet, out + ["SampleSheet.csv"]),
         Copy(run.runInfoXml.value, out + ["RunInfo.xml"]), Chmod(out + ["RunInfo.xml"], GroupWritable)] +
        (if run.runParametersXml.Some? then
           [Copy(run.runParametersXml.value, out + ["RunParameters.xml"]), Chmod(out + ["RunParameters.xml"], GroupWritable)]
         else [])
  {
    var sheet := CopyStep(m, Some(run.samplesheet), out + ["SampleSheet.csv"]);
    var info := CopyChmodStep(m, run.runInfoXml, out + ["RunInfo.xml"]);
    var params := if run.runParametersXml.Some? then CopyChmodStep(m, run.runParametersXml, out + ["RunParameters.xml"]) else Done;
    assert sheet.failure.None? && sheet.ops == [Copy(run.samplesheet, out + ["SampleSheet.csv"])];
    if run.runInfoXml.Some? {
      assert info.failure.None?;
      assert params.failure.None?;
    }
  }

  lemma {:induction false} LogsFailure(m: Mount, logs: seq<Path>, logsOut: Path)
    requires forall l :: l in logs ==> l in m.nodes
    ensures Seq(LogSteps(m, logs, logsOut)).failure.Some? <==> exists l :: l in logs && IsDir(m, l)
    ensures Seq(LogSteps(m, logs, logsOut)).failure.None? ==>
      forall l :: l in logs ==>
        && Copy(l, logsOut + [NameOf(l)]) in Seq(LogSteps(m, logs, logsOut)).ops
        && Chmod(logsOut + [NameOf(l)], GroupWritable) in Seq(LogSteps(m, logs, logsOut)).ops
  {
    var steps := LogSteps(m, logs, logsOut);
    SeqFailure(steps);
    if Seq(steps).failure.Some? {
      var i :| 0 <= i < |steps| && steps[i].failure.Some?;
      assert logs[i] in logs && IsDir(m, logs[i]);
    }
    if Seq(steps).failure.None? {
      SeqOpsOfSteps(steps);
      forall l | l in logs
        ensures Copy(l, logsOut + [NameOf(l)]) in Seq(steps).ops
        ensures Chmod(logsOut + [NameOf(l)], GroupWritable) in Seq(steps).ops
      {
        var i :| 0 <= i < |logs| && logs[i] == l;
        assert Copy(l, logsOut + [NameOf(l)]) in steps[i].ops;
        assert Chmod(logsOut + [NameOf(l)], GroupWritable) in steps[i].ops;
      }
    }
    if exists l :: l in logs && IsDir(m, l) {
      var l :| l in logs && IsDir(m, l);
      var i :| 0 <= i < |logs| && logs[i] == l;
      assert steps[i].failure.Some?;
    }
  }

  /** A sample's reads copy without an exception exactly when it has them. */
  lemma SampleReadsOutcome(m: Mount, s: Sample, callsOut: Path)
    requires ReadsSettled(m, s)
    ensures SampleReadsStep(m, s, callsOut).failure.None? <==> s.r1.Some?
    ensures s.r1.Some? ==>
      SampleReadsStep(m, s, callsOut).ops ==
        [Copy(s.r1.value, callsOut + [NameOf(s.r1.value)]), Copy(s.r2.value, callsOut + [NameOf(s.r2.value)])]
  {
  }

  lemma {:induction false} ReadsFailure(m: Mount, samples: seq<Sample>, callsOut: Path)
    requires forall s :: s in samples ==> ReadsSettled(m, s)
    ensures Seq(ReadSteps(m, samples, callsOut)).failure.Some? <==> exists s :: s in samples && s.r1.None?
  {
    var steps := ReadSteps(m, samples, callsOut);
    SeqFailure(steps);
    if Seq(steps).failure.Some? {
      var i :| 0 <= i < |steps| && steps[i].failure.Some?;
      SampleReadsOutcome(m, samples[i], callsOut);
      assert samples[i] in samples;
    }
    if exists s :: s in samples && s.r1.None? {
      var s :| s in samples && s.r1.None?;
      var i :| 0 <= i < |samples| && samples[i] == s;
      SampleReadsOutcome(m, s, callsOut);
    }
  }

  lemma {:induction false} ReadsCopied(m: Mount, samples: seq<Sample>, callsOut: Path)
    requires forall s :: s in samples ==> ReadsSettled(m, s)
    requires Seq(ReadSteps(m, samples, callsOut)).failure.None?
    ensures forall s :: s in samples ==>
      && s.r1.Some? && Copy(s.r1.value, callsOut + [NameOf(s.r1.value)]) in Seq(ReadSteps(m, samples, callsOut)).ops
      && s.r2.Some? && Copy(s.r2.value, callsOut + [NameOf(s.r2.value)]) in Seq(ReadSteps(m, samples, callsOut)).ops
  {
    var steps := ReadSteps(m, samples, callsOut);
    SeqFailure(steps);
    SeqOpsOfSteps(steps);
    forall s | s in samples
      ensures && s.r1.Some? && Copy(s.r1.value, callsOut + [NameOf(s.r1.value)]) in Seq(steps).ops
              && s.r2.Some? && Copy(s.r2.value, callsOut + [NameOf(s.r2.value)]) in Seq(steps).ops
    {
      var i :| 0 <= i < |samples| && samples[i] == s;
      SampleReadsOutcome(m, s, callsOut);
      assert steps[i].failure.None?;
      assert Copy(s.r1.value, callsOut + [NameOf(s.r1.value)]) in steps[i].ops;
      assert Copy(s.r2.value, callsOut + [NameOf(s.r2.value)]) in steps[i].ops;
    }
  }

  /** A resolved run's copies stop with an exception exactly when the run
      has no RunInfo.xml (the copy of `None`), a log entry is a directory,
      or a sample failed validation (its `r1` is `None`). A missing
      RunInfo.xml leaves only the sample sheet copied. */
  lemma RunPlanFailure(m: Mount, run: Run, out: Path)
    requires run.ResolvedFrom(m)
    ensures RunPlan(m, run, out).failure.Some? <==>
      || run.runInfoXml.None?
      || (exists l :: l in run.logFiles && IsDir(m, l))
      || (exists s :: s in run.sampleObjects && s.r1.None?)
    ensures run.runInfoXml.None? ==>
      RunPlan(m, run, out) == Plan([Copy(run.samplesheet, out + ["SampleSheet.csv"])], Some(FileNotFound(["None"])))
  {
    MetadataFailure(m, run, out);
    LogsFailure(m, run.logFiles, out + ["Logs"]);
    SamplesSettled(m, run.projectDir, run.runDir, run.sampleIndex, run.sampleObjects);
    ReadsFailure(m, run.sampleObjects, out + BaseCallsDir);
  }

  /** When a resolved run's copies complete, the sample sheet, RunInfo.xml,
      RunParameters.xml when the run has one, and every log file have been
      copied to their places in the run folder, and all but the sample sheet
      have been made group-writable. */
  lemma RunPlanCopiesMetadata(m: Mount, run: Run, out: Path)
    requires run.ResolvedFrom(m) && RunPlan(m, run, out).failure.None?
    ensures Copy(run.samplesheet, out + ["SampleSheet.csv"]) in RunPlan(m, run, out).ops
    ensures run.runInfoXml.Some? && Copy(run.runInfoXml.value, out + ["RunInfo.xml"]) in RunPlan(m, run, out).ops
    ensures Chmod(out + ["RunInfo.xml"], GroupWritable) in RunPlan(m, run, out).ops
    ensures run.runParametersXml.Some? ==>
      && Copy(run.runParametersXml.value, out + ["RunParameters.xml"]) in RunPlan(m, run, out).ops
      && Chmod(out + ["RunParameters.xml"], GroupWritable) in RunPlan(m, run, out).ops
    ensures forall l :: l in run.logFiles ==>
      && Copy(l, out + ["Logs"] + [NameOf(l)]) in RunPlan(m, run, out).ops
      && Chmod(out + ["Logs"] + [NameOf(l)], GroupWritable) in RunPlan(m, run, out).ops
  {
    var meta := MetadataPlan(m, run, out);
    var logs := Seq(LogSteps(m, run.logFiles, out + ["Logs"]));
    var copies := Seq(ReadSteps(m, run.sampleObjects, out + BaseCallsDir));
    ThenThen([], meta, logs, copies);
    MetadataFailure(m, run, out);
    LogsFailure(m, run.logFiles, out + ["Logs"]);
  }

  /** When a resolved run's copies complete, every sample had both reads,
      and both went to `Data/Intensities/BaseCalls` under their own names. */
  lemma RunPlanCopiesReads(m: Mount, run: Run, out: Path)
    requires run.ResolvedFrom(m) && RunPlan(m, run, out).failure.None?
    ensures forall s :: s in run.sampleObjects ==>
      && s.r1.Some? && Copy(s.r1.value, out + BaseCallsDir + [NameOf(s.r1.value)]) in RunPlan(m, run, out).ops
      && s.r2.Some? && Copy(s.r2.value, out + BaseCallsDir + [NameOf(s.r2.value)]) in RunPlan(m, run, out).ops
  {
    SamplesSettled(m, run.projectDir, run.runDir, run.sampleIndex, run.sampleObjects);
    ReadsCopied(m, run.sampleObjects, out + BaseCallsDir);
  }

  // ---------------------------------------------------------------------
  // Carrying it out

  /** The skeleton's directories include `out`, `out/Logs` and
      `out/Data/Intensities/BaseCalls`. */
  lemma SkeletonTargets(out: Path)
    ensures out == [] || out in SkeletonDirs(out)
    ensures out + ["Logs"] in SkeletonDirs(out)
    ensures out + BaseCallsDir in SkeletonDirs(out)
  {
    assert ["Logs"] in BaseFolders && BaseCallsDir in BaseFolders;
    SkeletonHoldsFolder(out, ["Logs"], 1);
    SkeletonHoldsFolder(out, BaseCallsDir, 3);
    assert ["Logs"][..1] == ["Logs"] && BaseCallsDir[..3] == BaseCallsDir;
    if out != [] {
      SkeletonHoldsFolder(out, ["Logs"], 0);
      assert out + ["Logs"][..0] == out;
    }
  }

  /** The directory part of `dir / name` is `dir`. */
  lemma ParentOfChild(dir: Path, name: Name)
    ensures (dir + [name])[..|dir + [name]| - 1] == dir
  {
  }

  /** `shutil.copy` then, when it succeeded, `os.chmod(dst, 0o775)`. */
  method CopyChmod(tree: LocalTree, m: Mount, src: Option<Path>, dir: Path, name: Name) returns (err: Option<Error>)
    modifies tree
    requires tree.Exists(dir)
    ensures tree.dirs == old(tree.dirs)
    ensures err == CopyChmodStep(m, src, dir + [name]).failure
    ensures tree.log == old(tree.log) + CopyChmodStep(m, src, dir + [name]).ops
  {
    ParentOfChild(dir, name);
    err := tree.Copy(m, src, dir + [name]);
    if err.None? {
      tree.Chmod(dir + [name], GroupWritable);
    }
  }

  /** The metadata copies of one run. */
  method CopyMetadata(tree: LocalTree, m: Mount, run: Run, out: Path) returns (err: Option<Error>)
    modifies tree
    requires tree.Exists(out)
    ensures tree.dirs == old(tree.dirs)
    ensures err == MetadataPlan(m, run, out).failure
    ensures tree.log == old(tree.log) + MetadataPlan(m, run, out).ops
  {
    ParentOfChild(out, "SampleSheet.csv");
    err := tree.Copy(m, Some(run.samplesheet), out + ["SampleSheet.csv"]);
    if err.Some? {
      return;
    }
    err := CopyChmod(tree, m, run.runInfoXml, out, "RunInfo.xml");
    if err.Some? {
      return;
    }
    if run.runParametersXml.Some? {
      err := CopyChmod(tree, m, run.runParametersXml, out, "RunParameters.xml");
    }
  }

  /** `for logfile in run_obj.logfiles`: copy into `Logs` and chmod. */
  method CopyLogs(tree: LocalTree, m: Mount, logs: seq<Path>, logsOut: Path) returns (err: Option<Error>)
    modifies tree
    requires tree.Exists(logsOut)
    ensures tree.dirs == old(tree.dirs)
    ensures err == Seq(LogSteps(m, logs, logsOut)).failure
    ensures tree.log == old(tree.log) + Seq(LogSteps(m, logs, logsOut)).ops
  {
    var steps := LogSteps(m, logs, logsOut);
    for i := 0 to |logs|
      invariant tree.dirs == old(tree.dirs)
      invariant Seq(steps[..i]).failure.None?
      invariant tree.log == old(tree.log) + Seq(steps[..i]).ops
    {
      ghost var done := Seq(steps[..i]);
      err := CopyChmod(tree, m, Some(logs[i]), logsOut, NameOf(logs[i]));
      SeqStep(steps, i);
      LogAppend(old(tree.log), done, steps[i]);
      if err.Some? {
        SeqPrefixFails(steps, i + 1);
        return;
      }
    }
    assert steps[..|logs|] == steps;
    err := None;
  }

  /** `for sample_obj in run_obj.sample_objects`: both reads into
      `BaseCalls`. */
  method CopyReads(tree: LocalTree, m: Mount, samples: seq<Sample>, callsOut: Path) returns (err: Option<Error>)
    modifies tree
    requires tree.Exists(callsOut)
    ensures tree.dirs == old(tree.dirs)
    ensures err == Seq(ReadSteps(m, samples, callsOut)).failure
    ensures tree.log == old(tree.log) + Seq(ReadSteps(m, samples, callsOut)).ops
  {
    var steps := ReadSteps(m, samples, callsOut);
    for i := 0 to |samples|
      invariant tree.dirs == old(tree.dirs)
      invariant Seq(steps[..i]).failure.None?
      invariant tree.log == old(tree.log) + Seq(steps[..i]).ops
    {
      ghost var done := Seq(steps[..i]);
      err := CopySampleReads(tree, m, samples[i], callsOut);
      SeqStep(steps, i);
      LogAppend(old(tree.log), done, steps[i]);
      if err.Some? {
        SeqPrefixFails(steps, i + 1);
        return;
      }
    }
    assert steps[..|samples|] == steps;
    err := None;
  }

  /** The two `shutil.copy` calls for one sample. */
  method CopySampleReads(tree: LocalTree, m: Mount, sample: Sample, callsOut: Path) returns (err: Option<Error>)
    modifies tree
    requires tree.Exists(callsOut)
    ensures tree.dirs == old(tree.dirs)
    ensures err == SampleReadsStep(m, sample, callsOut).failure
    ensures tree.log == old(tree.log) + SampleReadsStep(m, sample, callsOut).ops
  {
    if sample.r1.Some? {
      ParentOfChild(callsOut, NameOf(sample.r1.value));
    }
    if sample.r2.Some? {
      ParentOfChild(callsOut, NameOf(sample.r2.value));
    }
    err := tree.Copy(m, sample.r1, IntoDir(sample.r1, callsOut));
    if err.None? {
      err := tree.Copy(m, sample.r2, IntoDir(sample.r2, callsOut));
    }
  }

  /** The loop body for one run once its skeleton is in place. */
  method CopyRun(tree: LocalTree, m: Mount, run: Run, out: Path) returns (err: Option<Error>)
    modifies tree
    requires SkeletonDirs(out) <= tree.dirs
    ensures tree.dirs == old(tree.dirs)
    ensures err == RunPlan(m, run, out).failure
    ensures tree.log == old(tree.log) + RunPlan(m, run, out).ops
  {
    SkeletonTargets(out);
    ghost var meta := MetadataPlan(m, run, out);
    ghost var logs := Seq(LogSteps(m, run.logFiles, out + ["Logs"]));
    ghost var copies := Seq(ReadSteps(m, run.sampleObjects, out + BaseCallsDir));
    ThenThen(old(tree.log), meta, logs, copies);
    err := CopyMetadata(tree, m, run, out);
    if err.Some? {
      return;
    }
    err := CopyLogs(tree, m, run.logFiles, out + ["Logs"]);
    if err.Some? {
      return;
    }
    err := CopyReads(tree, m, run.sampleObjects, out + BaseCallsDir);
  }

  /** Three steps in a row, as each one's outcome decides. */
  lemma ThenThen(start: seq<Op>, a: Plan, b: Plan, c: Plan)
    ensures a.failure.Some? ==> Then(Then(a, b), c) == a
    ensures a.failure.None? && b.failure.Some? ==>
      Then(Then(a, b), c).failure == b.failure && start + Then(Then(a, b), c).ops == start + a.ops + b.ops
    ensures a.failure.None? && b.failure.None? ==>
      Then(Then(a, b), c).failure == c.failure && start + Then(Then(a, b), c).ops == start + a.ops + b.ops + c.ops
  {
  }

  // ---------------------------------------------------------------------
  // The whole project

  /** `out_dir / run_obj.run_name`: the run folder is `out_dir` itself for
      an empty or `.` run name, otherwise the entry of `out_dir` named after
      the run. */
  function RunOut(outDir: Path, runName: string): (r: Path)
    ensures runName == "" || runName == "." ==> r == outDir
    ensures runName != "" && runName != "." ==> ChildOf(r, outDir) && NameOf(r) == runName
  {
    JoinName(outDir, runName)
  }

  /** The copies of each run, in run order. */
  function ProjectSteps(m: Mount, runs: seq<Run>, outDir: Path): (r: seq<Plan>)
    ensures |r| == |runs|
    ensures forall i :: 0 <= i < |runs| ==> r[i] == RunPlan(m, runs[i], RunOut(outDir, runs[i].runName))
  {
    seq(|runs|, i requires 0 <= i < |runs| => RunPlan(m, runs[i], RunOut(outDir, runs[i].runName)))
  }

  /** Every run directory of the project builds a run object. */
  predicate AllRunsBuild(m: Mount, projectDir: Path)
  {
    RunsBuildUpTo(m, projectDir, GetRunsDirs(m, projectDir), |GetRunsDirs(m, projectDir)|)
  }

  /** `retrieve_project_contents_from_basemount(project_dir, out_dir)`:
      `out_dir` first (its parent must exist), then the project, whose
      construction fails as soon as a run does, then for each run its
      skeleton and its copies; nothing catches an exception, so the first
      one ends the retrieval. `runs` are the project's run objects. */
  method RetrieveProjectContents(tree: LocalTree, m: Mount, projectDir: Path, outDir: Path)
    returns (err: Option<Error>, runs: seq<Run>)
    modifies tree
    ensures outDir != [] && !old(tree.Exists(outDir[..|outDir| - 1])) ==>
      err == Some(FileNotFound(outDir)) && runs == [] && tree.dirs == old(tree.dirs) && tree.log == old(tree.log)
    ensures (outDir == [] || old(tree.Exists(outDir[..|outDir| - 1]))) && !AllRunsBuild(m, projectDir) ==>
      && err.Some? && runs == [] && tree.log == old(tree.log)
      && exists k :: FirstRunFailure(m, projectDir, GetRunsDirs(m, projectDir), k, err.value)
    ensures (outDir == [] || old(tree.Exists(outDir[..|outDir| - 1]))) && AllRunsBuild(m, projectDir) ==>
      && |runs| == |GetRunsDirs(m, projectDir)| && RunsResolved(m, projectDir, GetRunsDirs(m, projectDir), runs)
      && err == Seq(ProjectSteps(m, runs, outDir)).failure
      && tree.log == old(tree.log) + Seq(ProjectSteps(m, runs, outDir)).ops
    ensures err.None? ==> tree.Exists(outDir)
  {
    runs := [];
    err := tree.MakeDir(outDir, false);
    if err.Some? {
      return;
    }
    var project := OpenProject(m, projectDir);
    if project.Failure? {
      return Some(project.error), [];
    }
    runs := project.value.runObjects;
    err := RetrieveRuns(tree, m, runs, outDir);
  }

  /** One pass of `for run_obj in project.run_objects`: the skeleton, then
      the copies. */
  method RetrieveRun(tree: LocalTree, m: Mount, run: Run, outDir: Path) returns (err: Option<Error>)
    modifies tree
    requires tree.Exists(outDir) && (outDir == [] || tree.Exists(outDir[..|outDir| - 1]))
    ensures err == RunPlan(m, run, RunOut(outDir, run.runName)).failure
    ensures tree.log == old(tree.log) + RunPlan(m, run, RunOut(outDir, run.runName)).ops
    ensures tree.dirs == old(tree.dirs) + SkeletonDirs(RunOut(outDir, run.runName))
    ensures old(tree.dirs) <= tree.dirs
  {
    var out := RunOut(outDir, run.runName);
    assert out == [] || tree.Exists(out[..|out| - 1]) by {
      if run.runName != "" && run.runName != "." {
        assert out[..|out| - 1] == outDir;
      }
    }
    ghost var skeleton := SkeletonDirs(out);
    err := CreateRunFolderSkeleton(tree, out);
    assert skeleton <= tree.dirs;
    err := CopyRun(tree, m, run, out);
  }

  /** `a` then `b`, when `a` did not raise, extends the log by both. */
  lemma LogAppend(start: seq<Op>, a: Plan, b: Plan)
    requires a.failure.None?
    ensures start + a.ops + b.ops == start + Then(a, b).ops
  {
  }

  /** `for run_obj in project.run_objects`. */
  method RetrieveRuns(tree: LocalTree, m: Mount, runs: seq<Run>, outDir: Path) returns (err: Option<Error>)
    modifies tree
    requires tree.Exists(outDir) && (outDir == [] || tree.Exists(outDir[..|outDir| - 1]))
    ensures err == Seq(ProjectSteps(m, runs, outDir)).failure
    ensures tree.log == old(tree.log) + Seq(ProjectSteps(m, runs, outDir)).ops
    ensures old(tree.dirs) <= tree.dirs
  {
    var steps := ProjectSteps(m, runs, outDir);
    for i := 0 to |runs|
      invariant tree.Exists(outDir) && (outDir == [] || tree.Exists(outDir[..|outDir| - 1]))
      invariant old(tree.dirs) <= tree.dirs
      invariant Seq(steps[..i]).failure.None?
      invariant tree.log == old(tree.log) + Seq(steps[..i]).ops
    {
      ghost var done := Seq(steps[..i]);
      err := RetrieveRun(tree, m, runs[i], outDir);
      SeqStep(steps, i);
      LogAppend(old(tree.log), done, steps[i]);
      if err.Some? {
        SeqPrefixFails(steps, i + 1);
        return;
      }
    }
    assert steps[..|runs|] == steps;
    err := None;
  }
}
