/** Naming a build: the text that is hashed says everything about the baseline's rows and
    how they are linked, and nothing about the order they were listed in. */
module Identity {
  import opened Texts

  /** A baseline row: a path, and the fields of its stamp - size, mode and time. */
  datatype Row = Row(path: string, stamp: seq<string>)

  /** What lstat says that matters here. */
  datatype Stat = Stat(dir: bool, links: nat, dev: int, ino: int)

  /** Paths it fails on are not in the map. */
  type Disk = map<string, Stat>

  const TAB := '\t'
  const NEWLINE := '\n'

  function PathOf(r: Row): string { r.path }

  function PathsOf(rows: seq<Row>): seq<string> {
    seq(|rows|, i requires 0 <= i < |rows| => rows[i].path)
  }

  ghost predicate Distinct(rows: seq<Row>) {
    forall i, j :: 0 <= i < j < |rows| ==> rows[i].path != rows[j].path
  }

  /** What `walk` lets through: nothing with a tab or a newline in it. */
  predicate Clean(f: string) { TAB !in f && NEWLINE !in f }

  ghost predicate CleanRow(r: Row) { Clean(r.path) && |r.stamp| == 3 && forall f :: f in r.stamp ==> Clean(f) }

  // ---- hard links ---------------------------------------------------------

  predicate Linked(disk: Disk, p: string) { p in disk && !disk[p].dir && disk[p].links > 1 }

  predicate SameFile(disk: Disk, p: string, q: string) {
    Linked(disk, p) && Linked(disk, q) && disk[p].dev == disk[q].dev && disk[p].ino == disk[q].ino
  }

  /** Two paths that are one file to tar. */
  predicate Together(disk: Disk, p: string, q: string) { p == q || SameFile(disk, p, q) }

  /** `n` names the file at `p`: the first of its paths. */
  ghost predicate Names(paths: seq<string>, disk: Disk, p: string, n: string) {
    && n in paths && Together(disk, p, n)
    && (forall q :: q in paths && Together(disk, p, q) ==> n == q || Before(n, q))
  }

  lemma NamesUnique(paths: seq<string>, disk: Disk, p: string, n: string, m: string)
    requires Names(paths, disk, p, n) && Names(paths, disk, p, m)
    ensures n == m
  {
    Total(n, m);
  }

  function FileOf(disk: Disk, p: string): (int, int)
    requires p in disk
  {
    (disk[p].dev, disk[p].ino)
  }

  /** Of the paths seen, the first linked to the inode is `n`. */
  ghost predicate FirstOf(seen: seq<string>, disk: Disk, k: (int, int), n: string) {
    && n in seen && Linked(disk, n) && FileOf(disk, n) == k
    && (forall q :: q in seen && Linked(disk, q) && FileOf(disk, q) == k ==> n == q || Before(n, q))
  }

  /** The two dictionaries over the paths seen. */
  ghost predicate Grouped(seen: seq<string>, disk: Disk, first: map<(int, int), string>, group: map<string, string>) {
    && (forall k :: k in first ==> FirstOf(seen, disk, k, first[k]))
    && (forall q :: q in seen && Linked(disk, q) ==>
          FileOf(disk, q) in first && q in group && group[q] == first[FileOf(disk, q)])
    && (forall p :: p in group ==> p in seen && Linked(disk, p))
  }

  /** The two dictionaries of `identity`, filled as it fills them. Each path is named, in
      the end, by the first of the paths it is linked with - itself if none. */
  method Groups(paths: seq<string>, disk: Disk) returns (group: map<string, string>)
    requires Ascending(paths)
    ensures forall p :: p in paths ==> Names(paths, disk, p, if p in group then group[p] else p)
  {
    var first: map<(int, int), string> := map[];
    group := map[];
    for i := 0 to |paths|
      invariant Grouped(paths[..i], disk, first, group)
    {
      var p := paths[i];
      assert paths[..i + 1] == paths[..i] + [p];
      if p in disk && !disk[p].dir && disk[p].links > 1 {
        var k := (disk[p].dev, disk[p].ino);
        GroupedStep(paths[..i], disk, first, group, p);
        if k !in first {
          first := first[k := p];
        }
        group := group[p := first[k]];
      } else {
        NotGrouped(paths[..i], disk, first, group, p);
      }
    }
    assert paths[..|paths|] == paths;
    GroupsName(paths, disk, first, group);
  }

  lemma NotGrouped(seen: seq<string>, disk: Disk, first: map<(int, int), string>, group: map<string, string>, p: string)
    requires Grouped(seen, disk, first, group) && !Linked(disk, p)
    ensures Grouped(seen + [p], disk, first, group)
  {}

  lemma GroupedStep(seen: seq<string>, disk: Disk, first: map<(int, int), string>, group: map<string, string>,
                    p: string)
    requires Grouped(seen, disk, first, group) && Linked(disk, p)
    requires forall q :: q in seen ==> Before(q, p)
    ensures var k := FileOf(disk, p);
            var first' := if k in first then first else first[k := p];
            Grouped(seen + [p], disk, first', group[p := first'[k]])
  {
    var k := FileOf(disk, p);
    var first' := if k in first then first else first[k := p];
    var all := seen + [p];
    assert forall q :: q in seen && Linked(disk, q) ==> FileOf(disk, q) in first;
    forall x | x in first' ensures FirstOf(all, disk, x, first'[x]) {
      if x in first {
        assert FirstOf(seen, disk, x, first[x]);
      } else {
        assert forall q :: q in all && Linked(disk, q) && FileOf(disk, q) == k ==> q == p;
      }
    }
    Total(p, p);
    assert p !in seen;
  }

  lemma GroupsName(paths: seq<string>, disk: Disk, first: map<(int, int), string>, group: map<string, string>)
    requires Grouped(paths, disk, first, group)
    ensures forall p :: p in paths ==> Names(paths, disk, p, if p in group then group[p] else p)
  {
    forall p | p in paths ensures Names(paths, disk, p, if p in group then group[p] else p) {
      if p in group {
        assert FirstOf(paths, disk, FileOf(disk, p), group[p]);
      } else {
        assert !Linked(disk, p);
      }
    }
  }

  /** The name as a value, for what follows. */
  ghost function NameOf(paths: seq<string>, disk: Disk, p: string): (n: string)
    requires p in paths
    ensures Names(paths, disk, p, n)
  {
    NameExists(paths, disk, p);
    var n :| Names(paths, disk, p, n);
    n
  }

  lemma NameExists(paths: seq<string>, disk: Disk, p: string)
    requires p in paths
    ensures exists n :: Names(paths, disk, p, n)
  {
    var n := Least(paths, disk, p, |paths|);
    assert Names(paths, disk, p, n);
  }

  lemma {:induction false} Least(paths: seq<string>, disk: Disk, p: string, i: nat) returns (n: string)
    requires p in paths && i <= |paths|
    ensures n in paths && Together(disk, p, n)
    ensures forall q :: q in paths[..i] && Together(disk, p, q) ==> n == q || Before(n, q)
    decreases i
  {
    if i == 0 {
      n := p;
    } else {
      n := Least(paths, disk, p, i - 1);
      var q := paths[i - 1];
      assert paths[..i] == paths[..i - 1] + [q];
      if Together(disk, p, q) && Before(q, n) {
        forall r | r in paths[..i] && Together(disk, p, r) ensures q == r || Before(q, r) {
          if r != q && r != n {
            Transitive(q, n, r);
          }
        }
        n := q;
      } else {
        Total(q, n);
      }
    }
  }

  /** The names say which paths are one file, and say no more: two disks give every path
      the same name exactly when they link the same paths together, whatever their inode
      numbers. */
  lemma NamesAreThePartition(paths: seq<string>, a: Disk, b: Disk)
    ensures (forall p :: p in paths ==> NameOf(paths, a, p) == NameOf(paths, b, p))
       <==> (forall p, q :: p in paths && q in paths ==> (Together(a, p, q) <==> Together(b, p, q)))
  {
    if forall p :: p in paths ==> NameOf(paths, a, p) == NameOf(paths, b, p) {
      forall p, q | p in paths && q in paths ensures Together(a, p, q) <==> Together(b, p, q) {
        SameNameTogether(paths, a, p, q);
        SameNameTogether(paths, b, p, q);
      }
    }
    if forall p, q :: p in paths && q in paths ==> (Together(a, p, q) <==> Together(b, p, q)) {
      forall p | p in paths ensures NameOf(paths, a, p) == NameOf(paths, b, p) {
        NamesUnique(paths, b, p, NameOf(paths, a, p), NameOf(paths, b, p));
      }
    }
  }

  lemma SameNameTogether(paths: seq<string>, disk: Disk, p: string, q: string)
    requires p in paths && q in paths
    ensures NameOf(paths, disk, p) == NameOf(paths, disk, q) <==> Together(disk, p, q)
  {
    var n := NameOf(paths, disk, p);
    var m := NameOf(paths, disk, q);
    if Together(disk, p, q) {
      assert Together(disk, q, n) && Together(disk, p, m);
      Total(n, m);
    }
    if n == m {
      assert Together(disk, p, n) && Together(disk, q, n);
    }
  }

  // ---- the text -----------------------------------------------------------

  function Fields(r: Row, seal: string, name: string): seq<string> { [r.path] + r.stamp + [seal, name] }

  function Line(r: Row, seal: string, name: string): string { Joined(Fields(r, seal, name), TAB) }

  /** What is hashed, over rows in path order. */
  ghost function Lines(rows: seq<Row>, seal: string -> string, disk: Disk): (l: seq<string>)
    ensures |l| == |rows|
  {
    seq(|rows|, i requires 0 <= i < |rows| =>
      assert PathsOf(rows)[i] == rows[i].path;
      Line(rows[i], seal(rows[i].path), NameOf(PathsOf(rows), disk, rows[i].path)))
  }

  function InOrder(rows: seq<Row>): (r: seq<Row>)
    ensures multiset(r) == multiset(rows)
  {
    Sorted(rows, PathOf)
  }

  ghost function Text(rows: seq<Row>, seal: string -> string, disk: Disk): string {
    Ended(Lines(InOrder(rows), seal, disk), NEWLINE)
  }

  lemma SortedPaths(rows: seq<Row>)
    requires Distinct(rows)
    ensures var r := InOrder(rows); Distinct(r) && Ascending(PathsOf(r))
  {
    var r := InOrder(rows);
    SortedOrdered(rows, PathOf);
    DistinctSame(rows, r);
    var paths := PathsOf(r);
    forall i, j | 0 <= i < j < |paths| ensures Before(paths[i], paths[j]) {
      assert !Before(PathOf(r[j]), PathOf(r[i]));
      Total(r[i].path, r[j].path);
    }
  }

  /** Rearranging rows does not make two of them share a path. */
  lemma {:induction false} DistinctSame(a: seq<Row>, b: seq<Row>)
    requires multiset(a) == multiset(b) && Distinct(a)
    ensures Distinct(b)
  {
    if !Distinct(b) {
      var i, j :| 0 <= i < j < |b| && b[i].path == b[j].path;
      assert b[i] in multiset(a) && b[j] in multiset(a);
      assert b[i] in a && b[j] in a;
      assert b[i] == b[j];
      TwiceIn(b, i, j);
      OnceIn(a, b[i]);
    }
  }

  lemma TwiceIn(s: seq<Row>, i: nat, j: nat)
    requires i < j < |s| && s[i] == s[j]
    ensures multiset(s)[s[i]] >= 2
  {
    assert s == s[..i] + [s[i]] + s[i + 1..j] + [s[j]] + s[j + 1..];
  }

  lemma {:induction false} OnceIn(s: seq<Row>, x: Row)
    requires Distinct(s)
    ensures multiset(s)[x] <= 1
  {
    if s != [] {
      var m := |s| - 1;
      assert s == s[..m] + [s[m]];
      OnceIn(s[..m], x);
      if x == s[m] {
        assert x !in s[..m];
      }
    }
  }

  function NameIn(group: map<string, string>, p: string): string { if p in group then group[p] else p }

  function LinesWith(rows: seq<Row>, seal: string -> string, group: map<string, string>): seq<string> {
    seq(|rows|, i requires 0 <= i < |rows| => Line(rows[i], seal(rows[i].path), NameIn(group, rows[i].path)))
  }

  method Written(rows: seq<Row>, seal: string -> string, group: map<string, string>) returns (text: string)
    ensures text == Ended(LinesWith(rows, seal, group), NEWLINE)
  {
    text := "";
    ghost var lines := LinesWith(rows, seal, group);
    for i := 0 to |rows|
      invariant text + Ended(lines[i..], NEWLINE) == Ended(lines, NEWLINE)
    {
      var line := Line(rows[i], seal(rows[i].path), NameIn(group, rows[i].path));
      assert lines[i] == line;
      EndedFrom(lines, NEWLINE, i, text);
      text := text + line + [NEWLINE];
    }
    assert lines[|rows|..] == [];
  }

  /** `identity`'s text, loops and all. */
  method Preimage(rows: seq<Row>, seal: string -> string, disk: Disk) returns (text: string)
    requires Distinct(rows)
    ensures text == Text(rows, seal, disk)
  {
    SortedPaths(rows);
    var ordered := InOrder(rows);
    var group := Groups(PathsOf(ordered), disk);
    text := Written(ordered, seal, group);
    SameNames(ordered, seal, disk, group);
  }

  lemma SameNames(rows: seq<Row>, seal: string -> string, disk: Disk, group: map<string, string>)
    requires forall p :: p in PathsOf(rows) ==> Names(PathsOf(rows), disk, p, if p in group then group[p] else p)
    ensures LinesWith(rows, seal, group) == Lines(rows, seal, disk)
  {
    forall i | 0 <= i < |rows| ensures LinesWith(rows, seal, group)[i] == Lines(rows, seal, disk)[i] {
      var paths, p := PathsOf(rows), rows[i].path;
      assert paths[i] == p;
      NamesUnique(paths, disk, p, NameIn(group, p), NameOf(paths, disk, p));
    }
  }

  /** However a filesystem happens to list its directories, the text is the same. */
  lemma OrderDoesNotMatter(a: seq<Row>, b: seq<Row>, seal: string -> string, disk: Disk)
    requires Distinct(a) && multiset(a) == multiset(b)
    ensures Text(a, seal, disk) == Text(b, seal, disk)
  {
    DistinctSame(a, b);
    SortedPaths(a);
    SortedPaths(b);
    SameRowsSameOrder(InOrder(a), InOrder(b));
  }

  lemma SameRowsSameOrder(a: seq<Row>, b: seq<Row>)
    requires multiset(a) == multiset(b) && Ascending(PathsOf(a)) && Ascending(PathsOf(b))
    ensures a == b
  {
    var p, q := PathsOf(a), PathsOf(b);
    forall x ensures x in p <==> x in q {
      if x in p { PathsWithin(a, b, x); }
      if x in q { PathsWithin(b, a, x); }
    }
    AscendingUnique(p, q);
    forall i | 0 <= i < |a| ensures a[i] == b[i] {
      assert p[i] == q[i];
      assert b[i] in multiset(a);
      var j :| 0 <= j < |a| && a[j] == b[i];
      assert p[j] == p[i];
      Total(p[i], p[i]);
      assert j == i;
    }
  }

  lemma PathsWithin(a: seq<Row>, b: seq<Row>, x: string)
    requires multiset(a) == multiset(b) && x in PathsOf(a)
    ensures x in PathsOf(b)
  {
    var i :| 0 <= i < |a| && PathsOf(a)[i] == x;
    assert a[i] in multiset(b);
    var j :| 0 <= j < |b| && b[j] == a[i];
    assert PathsOf(b)[j] == x;
  }

  ghost predicate Tellable(rows: seq<Row>, seal: string -> string) {
    && Distinct(rows)
    && (forall r :: r in rows ==> CleanRow(r))
    && (forall r :: r in rows ==> Clean(seal(r.path)))
  }

  /** Two builds hashed from the same text are the same build: the same rows, every path
      with the same fingerprint, and the same paths linked together. */
  lemma SameTextSameBuild(a: seq<Row>, sealA: string -> string, diskA: Disk,
                          b: seq<Row>, sealB: string -> string, diskB: Disk)
    requires Tellable(a, sealA) && Tellable(b, sealB)
    requires Text(a, sealA, diskA) == Text(b, sealB, diskB)
    ensures multiset(a) == multiset(b)
    ensures forall r :: r in a ==> sealA(r.path) == sealB(r.path)
    ensures forall r, s :: r in a && s in a ==> (Together(diskA, r.path, s.path) <==> Together(diskB, r.path, s.path))
  {
    var x, y := InOrder(a), InOrder(b);
    SortedTellable(a, sealA);
    SortedTellable(b, sealB);
    LinesClean(x, sealA, diskA);
    LinesClean(y, sealB, diskB);
    EndedInjective(Lines(x, sealA, diskA), Lines(y, sealB, diskB), NEWLINE);
    SameLines(x, sealA, diskA, y, sealB, diskB);
    SortedHas(a);
    SamePartition(a, x, diskA, diskB);
  }

  lemma SortedHas(rows: seq<Row>)
    ensures forall r :: r in rows <==> r in InOrder(rows)
  {
    forall r ensures r in rows <==> r in InOrder(rows) {
      assert r in multiset(rows) <==> r in multiset(InOrder(rows));
    }
  }

  lemma SamePartition(rows: seq<Row>, x: seq<Row>, diskA: Disk, diskB: Disk)
    requires forall r :: r in rows ==> r in x
    requires forall p :: p in PathsOf(x) ==> NameOf(PathsOf(x), diskA, p) == NameOf(PathsOf(x), diskB, p)
    ensures forall r, s :: r in rows && s in rows ==>
              (Together(diskA, r.path, s.path) <==> Together(diskB, r.path, s.path))
  {
    NamesAreThePartition(PathsOf(x), diskA, diskB);
    forall r, s | r in rows && s in rows
      ensures Together(diskA, r.path, s.path) <==> Together(diskB, r.path, s.path)
    {
      var i :| 0 <= i < |x| && x[i] == r;
      var j :| 0 <= j < |x| && x[j] == s;
      assert PathsOf(x)[i] == r.path && PathsOf(x)[j] == s.path;
    }
  }

  lemma SortedTellable(rows: seq<Row>, seal: string -> string)
    requires Tellable(rows, seal)
    ensures Tellable(InOrder(rows), seal)
  {
    var x := InOrder(rows);
    SortedPaths(rows);
    forall r | r in x ensures r in rows {
      assert r in multiset(x);
    }
  }

  lemma FieldsClean(r: Row, seal: string, name: string)
    requires CleanRow(r) && Clean(seal) && Clean(name)
    ensures Free(Fields(r, seal, name), TAB) && Free(Fields(r, seal, name), NEWLINE)
  {}

  lemma LinesClean(rows: seq<Row>, seal: string -> string, disk: Disk)
    requires Tellable(rows, seal)
    ensures Free(Lines(rows, seal, disk), NEWLINE)
  {
    var lines := Lines(rows, seal, disk);
    forall i | 0 <= i < |lines| ensures NEWLINE !in lines[i] {
      LineClean(rows, seal, disk, i);
      JoinedFree(FieldsAt(rows, seal, disk, i), TAB, NEWLINE);
    }
  }

  ghost function FieldsAt(rows: seq<Row>, seal: string -> string, disk: Disk, i: nat): seq<string>
    requires i < |rows|
  {
    assert PathsOf(rows)[i] == rows[i].path;
    Fields(rows[i], seal(rows[i].path), NameOf(PathsOf(rows), disk, rows[i].path))
  }

  lemma LineClean(rows: seq<Row>, seal: string -> string, disk: Disk, i: nat)
    requires Tellable(rows, seal) && i < |rows|
    ensures Free(FieldsAt(rows, seal, disk, i), TAB) && Free(FieldsAt(rows, seal, disk, i), NEWLINE)
  {
    var paths := PathsOf(rows);
    assert paths[i] == rows[i].path;
    var name := NameOf(paths, disk, rows[i].path);
    var j :| 0 <= j < |paths| && paths[j] == name;
    assert CleanRow(rows[j]) && rows[i] in rows;
    FieldsClean(rows[i], seal(rows[i].path), name);
  }

  lemma SameLines(x: seq<Row>, sealX: string -> string, diskX: Disk,
                  y: seq<Row>, sealY: string -> string, diskY: Disk)
    requires Tellable(x, sealX) && Tellable(y, sealY)
    requires Lines(x, sealX, diskX) == Lines(y, sealY, diskY)
    ensures x == y
    ensures forall r :: r in x ==> sealX(r.path) == sealY(r.path)
    ensures forall p :: p in PathsOf(x) ==> NameOf(PathsOf(x), diskX, p) == NameOf(PathsOf(x), diskY, p)
  {
    assert |x| == |Lines(x, sealX, diskX)| == |y|;
    forall i | 0 <= i < |x|
      ensures x[i] == y[i] && FieldsAt(x, sealX, diskX, i) == FieldsAt(y, sealY, diskY, i)
    {
      LineClean(x, sealX, diskX, i);
      LineClean(y, sealY, diskY, i);
      assert Lines(x, sealX, diskX)[i] == Lines(y, sealY, diskY)[i];
      JoinedInjective(FieldsAt(x, sealX, diskX, i), FieldsAt(y, sealY, diskY, i), TAB);
      FieldsShape(x, sealX, diskX, i);
      FieldsShape(y, sealY, diskY, i);
    }
    assert x == y;
    forall i | 0 <= i < |x|
      ensures sealX(x[i].path) == sealY(x[i].path)
      ensures NameOf(PathsOf(x), diskX, PathsOf(x)[i]) == NameOf(PathsOf(x), diskY, PathsOf(x)[i])
    {
      FieldsShape(x, sealX, diskX, i);
      FieldsShape(y, sealY, diskY, i);
    }
  }

  /** A row can be read off its six fields. */
  lemma FieldsShape(rows: seq<Row>, seal: string -> string, disk: Disk, i: nat)
    requires Tellable(rows, seal) && i < |rows|
    ensures PathsOf(rows)[i] == rows[i].path
    ensures var f := FieldsAt(rows, seal, disk, i);
            && |f| == 6 && rows[i] == Row(f[0], f[1..4]) && seal(rows[i].path) == f[4]
            && NameOf(PathsOf(rows), disk, PathsOf(rows)[i]) == f[5]
  {
    assert rows[i] in rows && CleanRow(rows[i]);
    var f := FieldsAt(rows, seal, disk, i);
    assert f[1..4] == rows[i].stamp;
  }
}
