/** The mounted BaseSpace tree as the retriever sees it: paths, files and
    directories, the order a directory listing yields, and the glob and
    probe primitives built on it. */
module MountFs {
  import opened Results
  import opened Text

  type Name = string

  /** A path is its list of components, from the root down. */
  type Path = seq<Name>

  /** A file carries its text as Python iterates it, one line per entry. */
  datatype Node = File(lines: seq<string>) | Dir

  /** The mounted filesystem: what exists at each path, and the order in
      which directory listings (and so `glob`) return paths. */
  datatype Mount = Mount(nodes: map<Path, Node>, listing: seq<Path>)

  predicate NoDup<T(==)>(s: seq<T>)
  {
    forall i, j :: 0 <= i < j < |s| ==> s[i] != s[j]
  }

  /** A listing names each entry once and only entries that exist. */
  predicate WellFormed(m: Mount)
  {
    && NoDup(m.listing)
    && (forall p :: p in m.listing ==> p in m.nodes)
  }

  predicate IsFile(m: Mount, p: Path)
  {
    p in m.nodes && m.nodes[p].File?
  }

  predicate IsDir(m: Mount, p: Path)
  {
    p in m.nodes && m.nodes[p].Dir?
  }

  /** `Path.name`: the last component, empty for the root. */
  function NameOf(p: Path): Name
  {
    if p == [] then "" else p[|p| - 1]
  }

  /** `Path.parents[k]`: the ancestor `k + 1` levels up; pathlib raises
      IndexError when the path has no such ancestor. */
  function Parent(p: Path, k: nat): (r: Option<Path>)
    ensures r.Some? <==> k < |p|
    ensures r.Some? ==> |r.value| == |p| - k - 1 && r.value == p[..|p| - k - 1]
  {
    if k < |p| then Some(p[..|p| - k - 1]) else None
  }

  /** `str(path)`: the components joined by `/` below the root. */
  function PathString(p: Path): (s: string)
    ensures p == [] ==> s == ""
  {
    if p == [] then "" else PathString(p[..|p| - 1]) + "/" + p[|p| - 1]
  }

  predicate ChildOf(p: Path, dir: Path)
  {
    |p| == |dir| + 1 && p[..|dir|] == dir
  }

  /** `dir / name` for a name read from data: pathlib drops an empty
      component and a `.` component, and keeps any other name as one more
      component. */
  function JoinName(dir: Path, name: string): (r: Path)
    ensures name == "" || name == "." ==> r == dir
    ensures name != "" && name != "." ==> ChildOf(r, dir) && NameOf(r) == name
  {
    if name == "" || name == "." then dir else dir + [name]
  }

  /** The elements of `s` that `keep` accepts, in their order in `s`. */
  function Filter(s: seq<Path>, keep: Path -> bool): (r: seq<Path>)
    ensures |r| <= |s|
    ensures forall x :: x in r <==> x in s && keep(x)
  {
    if s == [] then []
    else if keep(s[0]) then [s[0]] + Filter(s[1..], keep)
    else Filter(s[1..], keep)
  }

  lemma {:induction false} FilterNoDup(s: seq<Path>, keep: Path -> bool)
    requires NoDup(s)
    ensures NoDup(Filter(s, keep))
  {
    if s != [] {
      assert NoDup(s[1..]) by {
        forall i, j | 0 <= i < j < |s[1..]| ensures s[1..][i] != s[1..][j] {
          assert s[1..][i] == s[i + 1] && s[1..][j] == s[j + 1];
        }
      }
      FilterNoDup(s[1..], keep);
    }
  }

  /** Filtering works element by element, in order: filtering a
      concatenation concatenates the filtered parts. */
  lemma {:induction false} FilterAppend(a: seq<Path>, b: seq<Path>, keep: Path -> bool)
    ensures Filter(a + b, keep) == Filter(a, keep) + Filter(b, keep)
  {
    if a != [] {
      assert (a + b)[1..] == a[1..] + b;
      FilterAppend(a[1..], b, keep);
    } else {
      assert a + b == b;
    }
  }

  /** Concatenating two duplicate-free lists with no common element. */
  lemma NoDupConcat<T>(a: seq<T>, b: seq<T>)
    requires NoDup(a) && NoDup(b) && forall x :: x in a ==> x !in b
    ensures NoDup(a + b)
  {
    forall i, j | 0 <= i < j < |a + b| ensures (a + b)[i] != (a + b)[j] {
      if i < |a| && j >= |a| {
        assert (a + b)[i] in a && (a + b)[j] == b[j - |a|];
      }
    }
  }

  /** A duplicate-free list has exactly one element just when some `x` is
      in it and everything in it is `x`. */
  lemma SingletonIff(s: seq<Path>)
    requires NoDup(s)
    ensures |s| == 1 <==> exists x :: x in s && forall y :: y in s ==> y == x
  {
    if |s| >= 2 && exists x :: x in s && forall y :: y in s ==> y == x {
      var x :| x in s && forall y :: y in s ==> y == x;
      assert s[0] in s && s[1] in s;
    }
    if |s| == 1 {
      assert s[0] in s && forall y :: y in s ==> y == s[0];
    }
  }

  /** `dir.iterdir()`: the entries directly below `dir`, in listing order
      (none for a missing directory or a file). */
  function Children(m: Mount, dir: Path): (r: seq<Path>)
    ensures forall p :: p in r <==> p in m.listing && p in m.nodes && ChildOf(p, dir)
  {
    Filter(m.listing, (p: Path) => p in m.nodes && ChildOf(p, dir))
  }

  lemma ChildrenNoDup(m: Mount, dir: Path)
    requires WellFormed(m)
    ensures NoDup(Children(m, dir))
  {
    FilterNoDup(m.listing, (p: Path) => p in m.nodes && ChildOf(p, dir));
  }

  /** `dir.glob(pattern)` for a one-component pattern, the pattern given as
      the predicate it imposes on an entry's name. */
  function Glob(m: Mount, dir: Path, matches: Name -> bool): (r: seq<Path>)
    ensures forall p :: p in r <==> p in Children(m, dir) && matches(NameOf(p))
  {
    Filter(Children(m, dir), (p: Path) => matches(NameOf(p)))
  }

  /** `x` is the earliest entry of `s` whose name `matches` accepts. */
  predicate EarliestMatch(s: seq<Path>, matches: Name -> bool, x: Path)
  {
    exists i :: 0 <= i < |s| && s[i] == x && matches(NameOf(x)) && forall j :: 0 <= j < i ==> !matches(NameOf(s[j]))
  }

  /** `list(dir.glob(pattern))[0]` is the earliest matching entry in
      listing order. */
  lemma {:induction false} GlobFirst(m: Mount, dir: Path, matches: Name -> bool)
    requires Glob(m, dir, matches) != []
    ensures EarliestMatch(Children(m, dir), matches, Glob(m, dir, matches)[0])
  {
    FilterFirst(Children(m, dir), matches);
  }

  lemma {:induction false} FilterFirst(s: seq<Path>, matches: Name -> bool)
    requires Filter(s, (p: Path) => matches(NameOf(p))) != []
    ensures EarliestMatch(s, matches, Filter(s, (p: Path) => matches(NameOf(p)))[0])
  {
    var keep := (p: Path) => matches(NameOf(p));
    if keep(s[0]) {
      assert Filter(s, keep)[0] == s[0];
    } else {
      assert Filter(s, keep) == Filter(s[1..], keep);
      FilterFirst(s[1..], matches);
      var i :| 0 <= i < |s[1..]| && s[1..][i] == Filter(s, keep)[0] && matches(NameOf(s[1..][i]))
        && forall j :: 0 <= j < i ==> !matches(NameOf(s[1..][j]));
      assert s[i + 1] == Filter(s, keep)[0];
      forall j | 0 <= j < i + 1 ensures !matches(NameOf(s[j])) {
        if j > 0 {
          assert s[j] == s[1..][j - 1];
        }
      }
    }
  }

  lemma GlobNoDup(m: Mount, dir: Path, matches: Name -> bool)
    requires WellFormed(m)
    ensures NoDup(Glob(m, dir, matches))
  {
    ChildrenNoDup(m, dir);
    FilterNoDup(Children(m, dir), (p: Path) => matches(NameOf(p)));
  }

  /** `candidates[k]` is a regular file and no earlier candidate is. */
  predicate FirstFileAt(m: Mount, candidates: seq<Path>, k: int)
  {
    0 <= k < |candidates| && IsFile(m, candidates[k])
    && forall j :: 0 <= j < k ==> !IsFile(m, candidates[j])
  }

  /** Tries `candidates` in order and yields the first that is a regular
      file; absence of all of them is a value, not an error. */
  function Probe(m: Mount, candidates: seq<Path>): (r: Option<Path>)
    ensures r.None? <==> forall c :: c in candidates ==> !IsFile(m, c)
    ensures r.Some? ==> exists k :: FirstFileAt(m, candidates, k) && candidates[k] == r.value
  {
    if candidates == [] then None
    else if IsFile(m, candidates[0]) then
      assert FirstFileAt(m, candidates, 0);
      Some(candidates[0])
    else
      var r := Probe(m, candidates[1..]);
      assert forall c :: c in candidates ==> c == candidates[0] || c in candidates[1..];
      if r.Some? then
        var k :| FirstFileAt(m, candidates[1..], k) && candidates[1..][k] == r.value;
        forall j | 0 <= j < k + 1 ensures !IsFile(m, candidates[j]) {
          if j > 0 { assert candidates[j] == candidates[1..][j - 1]; }
        }
        assert FirstFileAt(m, candidates, k + 1);
        r
      else r
  }

  /** What the retriever does to the local disk: `os.makedirs(exist_ok=True)`,
      `shutil.copy` and `os.chmod`. Contents and permission bits are not
      modelled beyond the mode requested. */
  datatype Op = MakeDirs(dir: Path) | Copy(src: Path, dst: Path) | Chmod(target: Path, mode: int)

  /** The mode every chmod in the retriever sets: octal 775. */
  const GroupWritable: int := 0x1FD
}
