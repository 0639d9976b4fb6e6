// Putting the decoded segments of a file back together: the order of their
// paths, and Assemble over a file system.
module Assembly {
  import opened Basics
  import opened YencCodec

  datatype FileType = Unknown | Par2 | Rar | Nfo | Sfv

  // A grabbed segment, as far as assembly looks at it.
  datatype Segment = Segment(number: int, workingFilename: string)

  type Disk = map<string, seq<byte>>

  // ---- Segments by number ----

  predicate Sorted(s: seq<Segment>) {
    forall i, j :: 0 <= i < j < |s| ==> s[i].number <= s[j].number
  }

  function Insert(x: Segment, s: seq<Segment>): seq<Segment> {
    if s == [] || x.number <= s[0].number then [x] + s
    else [s[0]] + Insert(x, s[1..])
  }

  function Sort(s: seq<Segment>): seq<Segment> {
    if s == [] then [] else Insert(s[0], Sort(s[1..]))
  }

  lemma SortedCons(x: Segment, s: seq<Segment>)
    requires Sorted(s) && (s != [] ==> x.number <= s[0].number)
    ensures Sorted([x] + s)
  {
  }

  lemma {:induction false} InsertKeeps(x: Segment, s: seq<Segment>)
    ensures multiset(Insert(x, s)) == multiset([x]) + multiset(s)
    ensures Sorted(s) ==> Sorted(Insert(x, s))
    ensures Insert(x, s)[0] == x || (s != [] && Insert(x, s)[0] == s[0])
  {
    if s == [] || x.number <= s[0].number {
      assert multiset([x] + s) == multiset([x]) + multiset(s);
      if Sorted(s) { SortedCons(x, s); }
    } else {
      var rest := Insert(x, s[1..]);
      InsertKeeps(x, s[1..]);
      assert s == [s[0]] + s[1..];
      assert multiset([s[0]] + rest) == multiset([s[0]]) + multiset(rest);
      if Sorted(s) { SortedCons(s[0], rest); }
    }
  }

  lemma {:induction false} SortSorts(s: seq<Segment>)
    ensures Sorted(Sort(s)) && multiset(Sort(s)) == multiset(s)
  {
    if s != [] {
      SortSorts(s[1..]);
      InsertKeeps(s[0], Sort(s[1..]));
      assert s == [s[0]] + s[1..];
    }
  }

  predicate DistinctNumbers(s: seq<Segment>) {
    forall i, j :: 0 <= i < j < |s| ==> s[i].number != s[j].number
  }

  lemma SmallestFirst(s: seq<Segment>, t: seq<Segment>)
    requires Sorted(s) && Sorted(t) && multiset(s) == multiset(t) && DistinctNumbers(t) && s != [] && t != []
    ensures s[0] == t[0]
  {
    assert s[0] in multiset(t) && t[0] in multiset(s);
    var i :| 0 <= i < |t| && t[i] == s[0];
    var j :| 0 <= j < |s| && s[j] == t[0];
    assert s[0].number <= t[0].number <= t[i].number;
  }

  lemma RestOf<T>(s: seq<T>)
    requires s != []
    ensures s == [s[0]] + s[1..] && multiset(s[1..]) == multiset(s) - multiset([s[0]])
  {
    assert s == [s[0]] + s[1..];
  }

  // With distinct numbers there is only one order to put them in, whatever the
  // sorting algorithm.
  lemma {:induction false} SortedOrderUnique(s: seq<Segment>, t: seq<Segment>)
    requires Sorted(s) && Sorted(t) && multiset(s) == multiset(t) && DistinctNumbers(t)
    ensures s == t
    decreases |s|
  {
    assert |s| == |multiset(s)| == |multiset(t)| == |t|;
    if s != [] {
      SmallestFirst(s, t);
      RestOf(s);
      RestOf(t);
      SortedOrderUnique(s[1..], t[1..]);
    }
  }

  function Paths(s: seq<Segment>, wd: string): (r: seq<string>)
    ensures |r| == |s| && forall i :: 0 <= i < |s| ==> r[i] == wd + "/" + s[i].workingFilename
  {
    seq(|s|, i requires 0 <= i < |s| => JoinPath(wd, s[i].workingFilename))
  }

  function JoinPath(wd: string, name: string): string {
    wd + "/" + name
  }

  // In one directory, files of different names have different paths, so segments
  // and destination can be told apart by their names.
  lemma SamePath(wd: string, a: string, b: string)
    ensures JoinPath(wd, a) == JoinPath(wd, b) <==> a == b
  {
    assert JoinPath(wd, a)[|wd| + 1..] == a && JoinPath(wd, b)[|wd| + 1..] == b;
  }

  lemma DistinctPaths(s: seq<Segment>, wd: string, name: string)
    ensures Distinct(Paths(s, wd)) <==>
              forall i, j :: 0 <= i < j < |s| ==> s[i].workingFilename != s[j].workingFilename
    ensures JoinPath(wd, name) in Paths(s, wd) <==> exists i :: 0 <= i < |s| && s[i].workingFilename == name
  {
    forall i, j | 0 <= i < j < |s|
      ensures Paths(s, wd)[i] == Paths(s, wd)[j] <==> s[i].workingFilename == s[j].workingFilename
    {
      SamePath(wd, s[i].workingFilename, s[j].workingFilename);
    }
    forall i | 0 <= i < |s| ensures Paths(s, wd)[i] == JoinPath(wd, name) <==> s[i].workingFilename == name {
      SamePath(wd, s[i].workingFilename, name);
    }
    if i :| 0 <= i < |s| && s[i].workingFilename == name {
      assert Paths(s, wd)[i] == JoinPath(wd, name);
    }
  }

  // ---- Assemble ----

  // Appends the segments in order, removing each, until one is missing.
  function AppendAll(disk: Disk, dest: string, paths: seq<string>): (Disk, bool)
    requires dest in disk && dest !in paths
    decreases |paths|
  {
    if paths == [] then (disk, true)
    else if paths[0] !in disk then (disk, false)
    else AppendAll(disk[dest := disk[dest] + disk[paths[0]]] - {paths[0]}, dest, paths[1..])
  }

  function AssembleTo(disk: Disk, dest: string, paths: seq<string>): (Disk, bool)
    requires dest !in paths
  {
    AppendAll(disk[dest := []], dest, paths)
  }

  predicate Distinct(paths: seq<string>) {
    forall i, j :: 0 <= i < j < |paths| ==> paths[i] != paths[j]
  }

  ghost predicate AllThere(disk: Disk, paths: seq<string>) {
    forall p :: p in paths ==> p in disk
  }

  function Contents(disk: Disk, paths: seq<string>): seq<byte> {
    if paths == [] then []
    else (if paths[0] in disk then disk[paths[0]] else []) + Contents(disk, paths[1..])
  }

  lemma {:induction false} ContentsElsewhere(disk: Disk, disk': Disk, paths: seq<string>)
    requires forall p :: p in paths ==> (p in disk <==> p in disk') && (p in disk ==> disk[p] == disk'[p])
    ensures Contents(disk, paths) == Contents(disk', paths)
  {
    if paths != [] {
      assert paths[0] in paths;
      assert forall p :: p in paths[1..] ==> p in paths;
      ContentsElsewhere(disk, disk', paths[1..]);
    }
  }

  function Without(disk: Disk, paths: seq<string>): Disk {
    disk - (set p | p in paths)
  }

  // How many of the paths are appended: those before the first that is missing or
  // has been appended already.
  function Appended(disk: Disk, paths: seq<string>): (k: nat)
    ensures k <= |paths|
    decreases |paths|
  {
    if paths == [] || paths[0] !in disk then 0 else 1 + Appended(disk - {paths[0]}, paths[1..])
  }

  lemma {:induction false} AppendedAll(disk: Disk, paths: seq<string>)
    ensures Appended(disk, paths) == |paths| <==> AllThere(disk, paths) && Distinct(paths)
    decreases |paths|
  {
    if paths != [] {
      var p, rest := paths[0], paths[1..];
      assert p in paths && forall q :: q in rest ==> q in paths;
      if p in disk {
        AppendedAll(disk - {p}, rest);
        assert forall q :: q in paths ==> q == p || q in rest;
        assert Distinct(paths) <==> p !in rest && Distinct(rest);
      }
    }
  }

  lemma {:induction false} AppendedIgnores(disk: Disk, disk': Disk, paths: seq<string>)
    requires forall p :: p in paths ==> (p in disk <==> p in disk')
    ensures Appended(disk, paths) == Appended(disk', paths)
    decreases |paths|
  {
    if paths != [] && paths[0] in disk {
      assert paths[0] in paths && forall p :: p in paths[1..] ==> p in paths;
      AppendedIgnores(disk - {paths[0]}, disk' - {paths[0]}, paths[1..]);
    }
  }

  // What is appended is on disk, and no two of it are the same.
  lemma {:induction false} AppendedPrefix(disk: Disk, paths: seq<string>)
    ensures AllThere(disk, paths[..Appended(disk, paths)]) && Distinct(paths[..Appended(disk, paths)])
    decreases |paths|
  {
    if paths != [] && paths[0] in disk {
      var k := Appended(disk, paths);
      AppendedPrefix(disk - {paths[0]}, paths[1..]);
      assert paths[..k] == [paths[0]] + paths[1..][..k - 1];
      assert forall q :: q in paths[1..][..k - 1] ==> q in disk - {paths[0]};
    }
  }

  // The disk once these segments have been moved to the end of the destination.
  function Moved(disk: Disk, dest: string, paths: seq<string>): Disk
    requires dest in disk
  {
    Without(disk, paths)[dest := disk[dest] + Contents(disk, paths)]
  }

  lemma MovedFirst(disk: Disk, dest: string, p: string, rest: seq<string>)
    requires dest in disk && p in disk && p != dest && dest !in rest && p !in rest
    ensures Moved(disk[dest := disk[dest] + disk[p]] - {p}, dest, rest) == Moved(disk, dest, [p] + rest)
  {
    var disk1 := disk[dest := disk[dest] + disk[p]] - {p};
    ContentsElsewhere(disk, disk1, rest);
    assert ([p] + rest)[1..] == rest;
    Associates(disk[dest], disk[p], Contents(disk, rest));
    assert Without(disk1, rest)[dest := disk1[dest] + Contents(disk1, rest)]
        == Without(disk, [p] + rest)[dest := disk[dest] + Contents(disk, [p] + rest)];
  }

  lemma {:induction false} AppendAllEffect(disk: Disk, dest: string, paths: seq<string>)
    requires dest in disk && dest !in paths
    ensures var k := Appended(disk, paths);
            AppendAll(disk, dest, paths) == (Moved(disk, dest, paths[..k]), k == |paths|)
    decreases |paths|
  {
    var k := Appended(disk, paths);
    if paths == [] || paths[0] !in disk {
      assert paths[..0] == [] && disk[dest] + [] == disk[dest];
      assert Without(disk, []) == disk && disk == disk[dest := disk[dest]];
    } else {
      var p, rest := paths[0], paths[1..];
      var disk1 := disk[dest := disk[dest] + disk[p]] - {p};
      assert p in paths && forall q :: q in rest ==> q in paths;
      AppendedIgnores(disk - {p}, disk1, rest);
      AppendAllEffect(disk1, dest, rest);
      AppendedPrefix(disk1, rest);
      assert p !in rest[..k - 1];
      MovedFirst(disk, dest, p, rest[..k - 1]);
      assert paths[..k] == [p] + rest[..k - 1];
    }
  }

  lemma MovedFromEmpty(disk: Disk, dest: string, paths: seq<string>)
    requires dest !in paths
    ensures Moved(disk[dest := []], dest, paths) == Without(disk, paths)[dest := Contents(disk, paths)]
  {
    ContentsElsewhere(disk, disk[dest := []], paths);
    assert [] + Contents(disk, paths) == Contents(disk, paths);
  }

  // Assemble succeeds exactly when every segment is there and no two share a path.
  // Whether it does or not, the destination then holds the segments before the
  // first that stops it, in order, those are gone, and nothing else has changed.
  lemma AssembleEffect(disk: Disk, dest: string, paths: seq<string>)
    requires dest !in paths
    ensures var (disk', ok) := AssembleTo(disk, dest, paths);
            var done := paths[..Appended(disk, paths)];
            && (ok <==> AllThere(disk, paths) && Distinct(paths))
            && (ok <==> done == paths)
            && disk' == Without(disk, done)[dest := Contents(disk, done)]
  {
    var disk0, k := disk[dest := []], Appended(disk, paths);
    AppendedIgnores(disk, disk0, paths);
    AppendAllEffect(disk0, dest, paths);
    AppendedAll(disk, paths);
    assert forall p :: p in paths[..k] ==> p in paths;
    MovedFromEmpty(disk, dest, paths[..k]);
    if k == |paths| { assert paths[..k] == paths; }
  }

  // Every segment that was on disk is still there as it was.
  ghost predicate Kept(disk: Disk, disk': Disk, paths: seq<string>) {
    forall p :: p in paths && p in disk ==> p in disk' && disk'[p] == disk[p]
  }

  // A failing Assemble loses nothing if and only if it fails on the first segment.
  lemma FailureKeeps(disk: Disk, dest: string, paths: seq<string>)
    requires dest !in paths && !AssembleTo(disk, dest, paths).1
    ensures paths != []
    ensures Kept(disk, AssembleTo(disk, dest, paths).0, paths) <==> paths[0] !in disk
  {
    var k := Appended(disk, paths);
    AssembleEffect(disk, dest, paths);
    if paths[0] in disk {
      assert paths[0] in paths && paths[..k][0] == paths[0];
    } else {
      assert paths[..k] == [];
    }
  }

  // Once the missing segments have been put back, trying again succeeds if and
  // only if the failure had lost nothing; then it is as if they had been there.
  lemma RetryAfterRepair(disk: Disk, dest: string, paths: seq<string>, missing: Disk)
    requires dest !in paths && Distinct(paths) && !AllThere(disk, paths)
    requires missing.Keys == set p | p in paths && p !in disk
    ensures var (disk1, ok1) := AssembleTo(disk, dest, paths);
            var (disk2, ok2) := AssembleTo(disk1 + missing, dest, paths);
            && !ok1 && (ok2 <==> Kept(disk, disk1, paths)) && (ok2 <==> paths[0] !in disk)
            && (ok2 ==> (disk2, ok2) == AssembleTo(disk + missing, dest, paths))
  {
    var disk1 := AssembleTo(disk, dest, paths).0;
    AssembleEffect(disk, dest, paths);
    FailureKeeps(disk, dest, paths);
    AssembleEffect(disk1 + missing, dest, paths);
    if paths[0] in disk {
      assert paths[0] in paths && paths[..Appended(disk, paths)][0] == paths[0];
      assert paths[0] !in disk1 + missing;
    } else {
      assert paths[..Appended(disk, paths)] == [];
      assert disk1 == disk[dest := []];
      assert (disk1 + missing)[dest := []] == (disk + missing)[dest := []];
    }
  }

  // A failure behind the first segment cannot be repaired by trying again: the
  // segments already appended are gone, and the second try truncates what they
  // had been appended to.
  lemma RetryLosesData(disk: Disk, dest: string, paths: seq<string>)
    requires dest !in paths && !AssembleTo(disk, dest, paths).1
    ensures paths != []
    ensures paths[0] in disk ==>
              var (disk2, ok2) := AssembleTo(AssembleTo(disk, dest, paths).0, dest, paths);
              !ok2 && dest in disk2 && disk2[dest] == [] && paths[0] !in disk2
  {
    AssembleEffect(disk, dest, paths);
    if paths[0] in disk {
      var disk1 := AssembleTo(disk, dest, paths).0;
      assert paths[0] in paths && paths[..Appended(disk, paths)][0] == paths[0];
      assert paths[0] !in disk1;
    }
  }
}
