/** The local side of a retrieval: the directories the retriever creates
    and the log of the `shutil.copy` and `os.chmod` calls it makes, with
    the exceptions those calls raise. */
module LocalDisk {
  import opened Results
  import opened MountFs

  /** `p` and every ancestor of `p` below the root. */
  function Lineage(p: Path): (r: set<Path>)
    ensures forall q :: q in r <==> 1 <= |q| <= |p| && q == p[..|q|]
  {
    set k | 1 <= k <= |p| :: p[..k]
  }

  /** The operations a step performs, in order, and the exception that
      ends it, if one does. */
  datatype Plan = Plan(ops: seq<Op>, failure: Option<Error>)

  const Done := Plan([], None)

  /** Run `a`, then `b` unless `a` raised. */
  function Then(a: Plan, b: Plan): (r: Plan)
    ensures a.failure.Some? ==> r == a
    ensures a.failure.None? ==> r.ops == a.ops + b.ops && r.failure == b.failure
  {
    if a.failure.Some? then a else Plan(a.ops + b.ops, b.failure)
  }

  lemma ThenAssoc(a: Plan, b: Plan, c: Plan)
    ensures Then(Then(a, b), c) == Then(a, Then(b, c))
  {
    if a.failure.None? && b.failure.None? {
      assert (a.ops + b.ops) + c.ops == a.ops + (b.ops + c.ops);
    }
  }

  /** An operation performed by `Then(a, b)` is performed by `a` or by `b`. */
  lemma ThenOps(a: Plan, b: Plan)
    ensures forall op :: op in Then(a, b).ops ==> op in a.ops || op in b.ops
  {
  }

  /** The steps one after the other; the first that raises ends the
      sequence, as an uncaught exception in a loop does. */
  function Seq(steps: seq<Plan>): Plan
  {
    if steps == [] then Done else Then(Seq(steps[..|steps| - 1]), steps[|steps| - 1])
  }

  lemma SeqStep(steps: seq<Plan>, i: nat)
    requires i < |steps|
    ensures Seq(steps[..i + 1]) == Then(Seq(steps[..i]), steps[i])
  {
    assert steps[..i + 1][..i] == steps[..i];
  }

  /** Once a prefix of the steps has raised, the later steps never run. */
  lemma {:induction false} SeqPrefixFails(steps: seq<Plan>, n: nat)
    requires n <= |steps| && Seq(steps[..n]).failure.Some?
    ensures Seq(steps) == Seq(steps[..n])
    decreases |steps| - n
  {
    if n < |steps| {
      SeqStep(steps, n);
      SeqPrefixFails(steps, n + 1);
    } else {
      assert steps[..n] == steps;
    }
  }

  /** The sequence raises exactly when one of its steps does, and then with
      the exception of the first step that raises. */
  lemma {:induction false} SeqFailure(steps: seq<Plan>)
    ensures Seq(steps).failure.Some? <==> exists i :: 0 <= i < |steps| && steps[i].failure.Some?
    ensures Seq(steps).failure.Some? ==> exists i ::
      && 0 <= i < |steps| && steps[i].failure == Seq(steps).failure
      && forall j :: 0 <= j < i ==> steps[j].failure.None?
  {
    if steps != [] {
      var front := steps[..|steps| - 1];
      SeqFailure(front);
      forall i | 0 <= i < |front| ensures front[i] == steps[i] { }
    }
  }

  /** Every operation the sequence performs is performed by one of its
      steps. */
  lemma {:induction false} SeqOpsFromSteps(steps: seq<Plan>)
    ensures forall op :: op in Seq(steps).ops ==> exists i :: 0 <= i < |steps| && op in steps[i].ops
  {
    if steps != [] {
      var front := steps[..|steps| - 1];
      SeqOpsFromSteps(front);
      forall i | 0 <= i < |front| ensures front[i] == steps[i] { }
    }
  }

  /** When no step raises, every operation of every step is performed. */
  lemma {:induction false} SeqOpsOfSteps(steps: seq<Plan>)
    requires Seq(steps).failure.None?
    ensures forall i, op :: 0 <= i < |steps| && op in steps[i].ops ==> op in Seq(steps).ops
  {
    if steps != [] {
      var front := steps[..|steps| - 1];
      assert Seq(front).failure.None?;
      SeqOpsOfSteps(front);
      forall i | 0 <= i < |front| ensures front[i] == steps[i] { }
    }
  }

  /** `shutil.copy(str(src), str(dst))` as far as the source decides it:
      a missing value is the path `None`, which does not exist; a missing
      source raises FileNotFoundError; a directory source raises
      IsADirectoryError. */
  function CopyStep(m: Mount, src: Option<Path>, dst: Path): (r: Plan)
    ensures r.failure.None? <==> src.Some? && IsFile(m, src.value)
    ensures r.failure.None? ==> r.ops == [Copy(src.value, dst)]
    ensures r.failure.Some? ==> r.ops == []
    ensures src.None? ==> r.failure == Some(FileNotFound(["None"]))
    ensures src.Some? && IsDir(m, src.value) ==> r.failure == Some(IsADirectory(src.value))
    ensures src.Some? && src.value !in m.nodes ==> r.failure == Some(FileNotFound(src.value))
  {
    match src
    case None => Plan([], Some(FileNotFound(["None"])))
    case Some(s) =>
      if s !in m.nodes then Plan([], Some(FileNotFound(s)))
      else if m.nodes[s].Dir? then Plan([], Some(IsADirectory(s)))
      else Plan([Copy(s, dst)], None)
  }

  /** A copy followed by `os.chmod(dst, 0o775)`. */
  function CopyChmodStep(m: Mount, src: Option<Path>, dst: Path): (r: Plan)
    ensures r.failure == CopyStep(m, src, dst).failure
    ensures r.failure.None? ==> r.ops == [Copy(src.value, dst), Chmod(dst, GroupWritable)]
    ensures r.failure.Some? ==> r.ops == []
  {
    Then(CopyStep(m, src, dst), Plan([Chmod(dst, GroupWritable)], None))
  }

  /** `shutil.copy` into the directory `dir`: the copy keeps the source's
      name. */
  function IntoDir(src: Option<Path>, dir: Path): Path
  {
    if src.Some? then dir + [NameOf(src.value)] else dir
  }

  /** The local output tree. Directories are recorded as created; copies
      and mode changes go to `log` in the order they happen. */
  class LocalTree {
    var dirs: set<Path>
    var log: seq<Op>

    constructor (existing: set<Path>)
      ensures dirs == existing && log == []
    {
      dirs := existing;
      log := [];
    }

    /** The root always exists. */
    predicate Exists(p: Path)
      reads this
    {
      p == [] || p in dirs
    }

    /** `p.mkdir(exist_ok=True, parents=parents)`: without `parents` the
        directory above `p` must exist, else FileNotFoundError. */
    method MakeDir(p: Path, parents: bool) returns (err: Option<Error>)
      modifies this
      ensures log == old(log)
      ensures !parents && p != [] && !old(Exists(p[..|p| - 1])) ==>
        err == Some(FileNotFound(p)) && dirs == old(dirs)
      ensures parents || p == [] || old(Exists(p[..|p| - 1])) ==>
        err == None && dirs == old(dirs) + (if parents then Lineage(p) else {p} - {[]})
    {
      if p == [] {
        return None;
      }
      if parents {
        dirs := dirs + Lineage(p);
        return None;
      }
      if !Exists(p[..|p| - 1]) {
        return Some(FileNotFound(p));
      }
      dirs := dirs + {p};
      return None;
    }

    /** `shutil.copy(src, dst)`: the source is checked first, then the
        directory `dst` is written into. */
    method Copy(m: Mount, src: Option<Path>, dst: Path) returns (err: Option<Error>)
      modifies this
      ensures dirs == old(dirs)
      ensures CopyStep(m, src, dst).failure.Some? ==>
        err == CopyStep(m, src, dst).failure && log == old(log)
      ensures CopyStep(m, src, dst).failure.None? && (dst == [] || !Exists(dst[..|dst| - 1])) ==>
        err == Some(FileNotFound(dst)) && log == old(log)
      ensures CopyStep(m, src, dst).failure.None? && dst != [] && Exists(dst[..|dst| - 1]) ==>
        err == None && log == old(log) + CopyStep(m, src, dst).ops
    {
      var step := CopyStep(m, src, dst);
      if step.failure.Some? {
        return step.failure;
      }
      if dst == [] || !Exists(dst[..|dst| - 1]) {
        return Some(FileNotFound(dst));
      }
      log := log + step.ops;
      return None;
    }

    /** `os.chmod(target, mode)` on a file the retriever has just written. */
    method Chmod(target: Path, mode: int)
      modifies this
      ensures dirs == old(dirs) && log == old(log) + [Op.Chmod(target, mode)]
    {
      log := log + [Op.Chmod(target, mode)];
    }
  }
}
