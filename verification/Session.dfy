/** A session saved and restored: what `pack` takes of a tree, and what `unpack` makes of
    another with it. */
module Session {
  import opened Options
  import opened Texts
  import Baseline
  import opened Selection
  import opened Trees
  import opened Unpacking
  import Identity

  const HOME := "/home/user"
  const SYSTEM_ROOTS := ["/etc", "/opt", "/srv", "/usr/local", "/root", "/var/spool/cron"]
  const SKIP_EXACT := {
    "/etc/machine-id", "/etc/adjtime", "/etc/mtab", "/etc/.pwd.lock", "/etc/ld.so.cache",
    "/etc/blkid.tab", "/etc/blkid.tab.old", "/usr/local/lib/bashtion"
  }

  predicate Skip(p: string) {
    p in SKIP_EXACT || StartsWith(p, "/usr/local/lib/bashtion/") || StartsWith(p, "/etc/ssh/ssh_host_")
  }

  predicate InRoots(p: string, roots: seq<string>) { exists r :: r in roots && Under(p, r) }

  /** Walked by a save, under the system roots or at home. */
  predicate SystemPath(p: string) { InRoots(p, SYSTEM_ROOTS) && !Skip(p) && Identity.Clean(p) }

  predicate HomePath(p: string) { Under(p, HOME) && !Skip(p) && Identity.Clean(p) }

  // ---- saving ---------------------------------------------------------------

  type Recorded = map<string, seq<string>>

  predicate Unchanged(base: Recorded, now: Tree, p: string)
    requires p in now
  {
    p in base && base[p] == now[p].stamp
  }

  method InList(s: set<string>) returns (list: seq<string>)
    ensures forall p :: p in list <==> p in s
  {
    list := [];
    var rest := s;
    while rest != {}
      invariant rest <= s && (forall p :: p in list <==> p in s - rest)
      decreases rest
    {
      var p :| p in rest;
      list := list + [p];
      rest := rest - {p};
    }
  }

  function Itself(p: string): string { p }

  /** `changed_system_paths`: of what is walked now, what the baseline does not say just so;
      of the baseline, what is not walked any more. */
  method ChangedSystemPaths(walked: seq<string>, now: Tree, base: Recorded)
    returns (keep: seq<string>, deleted: seq<string>)
    requires forall p :: p in walked ==> p in now
    ensures forall p :: p in keep <==> p in walked && !Unchanged(base, now, p)
    ensures forall p :: p in deleted <==> p in base && p !in walked
    ensures Ordered(deleted, Itself)
  {
    keep := [];
    var seen: set<string> := {};
    for i := 0 to |walked|
      invariant forall p :: p in seen <==> p in walked[..i]
      invariant forall p :: p in keep <==> p in walked[..i] && !Unchanged(base, now, p)
    {
      var p := walked[i];
      assert walked[..i + 1] == walked[..i] + [p];
      seen := seen + {p};
      if !(p in base && base[p] == now[p].stamp) {
        keep := keep + [p];
      }
    }
    assert walked[..|walked|] == walked;
    var gone := InList(base.Keys - seen);
    deleted := Sorted(gone, Itself);
    SortedOrdered(gone, Itself);
    forall p ensures p in deleted <==> p in gone {
      assert p in multiset(deleted) <==> p in multiset(gone);
    }
  }

  // ---- restoring ------------------------------------------------------------

  function Backwards(s: seq<string>): (r: seq<string>)
    ensures |r| == |s| && forall i :: 0 <= i < |s| ==> r[i] == s[|s| - 1 - i]
    ensures forall p :: p in r <==> p in s
  {
    if s == [] then []
    else
      var m := |s| - 1;
      assert s == s[..m] + [s[m]];
      [s[m]] + Backwards(s[..m])
  }

  /** sorted(…, reverse=True). */
  function DeepestFirst(deleted: seq<string>): seq<string> { Backwards(Sorted(deleted, Itself)) }

  lemma DeepestFirstDescends(deleted: seq<string>)
    ensures Descending(DeepestFirst(deleted)) && forall p :: p in DeepestFirst(deleted) <==> p in deleted
  {
    var s := Sorted(deleted, Itself);
    SortedOrdered(deleted, Itself);
    forall p ensures p in s <==> p in deleted {
      assert p in multiset(s) <==> p in multiset(deleted);
    }
    var list := DeepestFirst(deleted);
    forall i, j | 0 <= i < j < |list| ensures !Before(list[i], list[j]) {
      assert !Before(Itself(s[|s| - 1 - i]), Itself(s[|s| - 1 - j]));
    }
  }

  /** What a save recorded: the paths it packed, from `source`, those it found gone, and
      the build it did so on. */
  datatype Archive = Archive(home: seq<string>, system: seq<string>, deleted: seq<string>,
                             build: Option<string>, source: Tree)

  ghost predicate Whole(a: Archive) { forall p :: p in a.home + a.system ==> p in a.source }

  /** The members as tar names them, and what the session.json among them says. */
  function Members(a: Archive): seq<string> { PackedNames(a.home, a.system) }

  function MetaOf(a: Archive): Meta { Meta(Some(FORMAT), a.build, a.deleted) }

  /** Saved on this build, which has a name. */
  predicate Ours(a: Archive, ours: Option<string>) { SameBuild(Some(MetaOf(a)), ours) }

  ghost function Restored(t: Tree, a: Archive, full: bool, allowed: string -> bool): Tree
    requires Whole(a)
  {
    if full then Deleting(Extracting(t, a.home + a.system, a.source), DeepestFirst(a.deleted), allowed)
    else Extracting(t, a.home, a.source)
  }

  // ---- what a restore brings back -------------------------------------------

  /** Whatever the walk passes over, what lies above a path in the tree is a directory in it. */
  ghost predicate Rooted(t: Tree, walks: string -> bool) {
    forall q, d :: q in t && Below(q, d) && walks(d) ==> d in t && t[d].kind == Dir
  }

  /** Equal stamps mean equal files. */
  ghost predicate Faithful(image: Tree, saved: Tree, walks: string -> bool) {
    forall p :: p in image && p in saved && walks(p) && image[p].stamp == saved[p].stamp ==> Alike(image[p], saved[p])
  }

  /** No path is a directory in one and something else in the other: tar does not put a file
      where there is a directory with anything in it, nor a directory where there is a file. */
  ghost predicate SameShape(t: Tree, saved: Tree) {
    forall p :: p in t && p in saved ==> (t[p].kind == Dir <==> saved[p].kind == Dir)
  }

  /** The archive a save of `saved` makes on the build that shipped as `image`. */
  ghost predicate Saves(a: Archive, image: Tree, saved: Tree, walks: string -> bool, homes: string -> bool) {
    && a.source == saved
    && (forall p :: p in a.home <==> p in saved && homes(p))
    && (forall p :: p in a.system <==>
          p in saved && walks(p) && !(p in image && image[p].stamp == saved[p].stamp))
    && (forall p :: p in a.deleted <==> p in image && walks(p) && p !in saved)
  }

  /** There and alike, or in neither. */
  ghost predicate AsSaved(t: Tree, saved: Tree, p: string) {
    (p in t <==> p in saved) && (p in t && p in saved ==> Alike(t[p], saved[p]))
  }

  ghost predicate AsBefore(t: Tree, here: Tree, p: string) {
    (p in t <==> p in here) && (p in t && p in here ==> t[p] == here[p])
  }

  /** The session's file if it had one there, and else what was there before. */
  ghost predicate Overlaid(t: Tree, here: Tree, saved: Tree, p: string) {
    && (p in t <==> p in here || p in saved)
    && (p in saved && p in t ==> t[p] == saved[p])
    && (p in here && p in t && p !in saved ==> t[p] == here[p])
  }

  ghost predicate Apart(walks: string -> bool, homes: string -> bool) {
    && (forall p :: !(walks(p) && homes(p)))
    && (forall h, p :: homes(h) && walks(p) ==> !Below(h, p))
  }

  /** The rows of a build's baseline: every path walked on its image, once, with its stamp. */
  ghost predicate RowsOf(rows: seq<Identity.Row>, image: Tree, walks: string -> bool) {
    && Identity.Distinct(rows) && (forall r :: r in rows ==> Identity.CleanRow(r))
    && (forall r :: r in rows ==> r.path in image && walks(r.path) && r.stamp == image[r.path].stamp)
    && (forall p :: p in image && walks(p) ==> exists r :: r in rows && r.path == p)
  }

  lemma StampsOfImage(rows: seq<Identity.Row>, image: Tree, walks: string -> bool)
    requires RowsOf(rows, image, walks)
    ensures Baseline.Stamps(rows) == map p | p in image && walks(p) :: image[p].stamp
  {
    Baseline.StampsAreTheRows(rows);
    var stamps := Baseline.Stamps(rows);
    forall p | p in image && walks(p) ensures p in stamps && stamps[p] == image[p].stamp {
      var r :| r in rows && r.path == p;
      assert r.path in stamps.Keys;
    }
  }

  /** `cmd_pack`, given what the two walks list: read against the baseline file its build
      was made with, what it records is what the tree says against the image. */
  method Pack(file: string, saved: Tree, home: seq<string>, system: seq<string>,
              walks: string -> bool, homes: string -> bool,
              ghost image: Tree, ghost rows: seq<Identity.Row>, ghost ident: string)
    returns (a: Archive)
    requires forall p :: p in home <==> p in saved && homes(p)
    requires forall p :: p in system <==> p in saved && walks(p)
    requires RowsOf(rows, image, walks) && Baseline.ValidId(ident) && file == Baseline.File(rows, ident)
    ensures Saves(a, image, saved, walks, homes) && forall ours :: Ours(a, ours) <==> ours == Some(ident)
  {
    var base, build := Baseline.ReadBaseline(file);
    Baseline.ReadsBack(rows, ident);
    StampsOfImage(rows, image, walks);
    var keep, deleted := ChangedSystemPaths(system, saved, base);
    a := Archive(home, keep, deleted, build, saved);
  }

  // ---- what tar is told to take ---------------------------------------------

  /** Of the members at `paths`, those tar selects by their names. */
  function Selected(paths: seq<string>, names: seq<string>, select: set<string>): seq<string>
    requires |paths| <= |names|
  {
    if paths == [] then []
    else
      var m := |paths| - 1;
      Selected(paths[..m], names, select) + if Extracted(select, names[m]) then [paths[m]] else []
  }

  lemma {:induction false} SelectedAre(paths: seq<string>, names: seq<string>, select: set<string>, n: nat, full: bool)
    requires n <= |paths| <= |names|
    requires forall i :: 0 <= i < |paths| ==> (Extracted(select, names[i]) <==> full || i < n)
    ensures Selected(paths, names, select) == if full then paths else paths[..n]
    decreases |paths|
  {
    if paths != [] {
      var m := |paths| - 1;
      SelectedAre(paths[..m], names, select, if n <= m then n else m, full);
      assert paths == paths[..m] + [paths[m]];
      if n <= m {
        assert paths[..m][..n] == paths[..n];
      }
    }
  }

  /** Every path the archive packed is one a save walks, and as normpath leaves it. */
  ghost predicate Walked(a: Archive) {
    && (forall p :: p in a.home ==> HomePath(p) && CanonicalPath(p))
    && (forall p :: p in a.system ==> SystemPath(p) && CanonicalPath(p))
  }

  lemma UnderRelative(p: string, r: string)
    requires p != "" && r != "" && p[0] == r[0]
    ensures Under(p, r) <==> Under(p[1..], r[1..])
  {
    if StartsWith(p, r + "/") {
      assert p[1..][..|r|] == p[..|r| + 1][1..] == (r + "/")[1..] == r[1..] + "/";
    }
    if StartsWith(p[1..], r[1..] + "/") {
      assert p[..|r| + 1] == [p[0]] + p[1..][..|r|] == [r[0]] + (r[1..] + "/") == r + "/";
    }
  }

  lemma RelativeRoots()
    ensures HOME[1..] == HOME_REL && |SYSTEM_ROOTS| == |SYSTEM_RELS|
    ensures forall i :: 0 <= i < |SYSTEM_ROOTS| ==> SYSTEM_ROOTS[i] != "" && SYSTEM_ROOTS[i][0] == '/'
                                                    && SYSTEM_ROOTS[i][1..] == SYSTEM_RELS[i]
  {
    assert "/etc"[1..] == "etc" && "/opt"[1..] == "opt" && "/srv"[1..] == "srv";
    assert "/usr/local"[1..] == "usr/local" && "/root"[1..] == "root" && "/var/spool/cron"[1..] == "var/spool/cron";
  }

  lemma WalkedIsWalkable(p: string)
    requires CanonicalPath(p) && (HomePath(p) || SystemPath(p))
    ensures Walkable(p) && (HomePath(p) <==> Under(p[1..], HOME_REL))
  {
    RelativeRoots();
    SystemAndHomeApart();
    if HomePath(p) {
      UnderRelative(p, HOME);
      assert HOME_REL in [HOME_REL] + SYSTEM_RELS;
    } else {
      var r :| r in SYSTEM_ROOTS && Under(p, r);
      var i :| 0 <= i < |SYSTEM_ROOTS| && SYSTEM_ROOTS[i] == r;
      UnderRelative(p, r);
      UnderRelative(p, HOME);
      assert SYSTEM_RELS[i] in [HOME_REL] + SYSTEM_RELS;
    }
  }

  lemma PlanOfPacked(a: Archive, ours: Option<string>, plan: Plan)
    requires Walked(a) && Planned(Members(a), Some(MetaOf(a)), ours, plan)
    ensures plan.Apply? && (plan.full <==> Ours(a, ours)) && plan.deletions == (if plan.full then a.deleted else [])
    ensures Selected(a.home + a.system, Members(a), plan.select) == if plan.full then a.home + a.system else a.home
  {
    hide Planned, Walkable, HomePath, SystemPath;
    var paths, names := a.home + a.system, Members(a);
    forall i | 0 <= i < |paths|
      ensures Walkable(paths[i]) && (i < |a.home| <==> Under(names[i], HOME_REL))
    {
      PackedUnder(a, i);
    }
    assert forall p :: p in paths ==> Walkable(p);
    PackedPlan(a.home, a.system, MetaOf(a), ours, plan);
    SelectedAre(paths, names, plan.select, |a.home|, plan.full);
    assert paths[..|a.home|] == a.home;
  }

  lemma PackedUnder(a: Archive, i: nat)
    requires Walked(a) && i < |a.home + a.system|
    ensures Walkable((a.home + a.system)[i])
    ensures i < |a.home| <==> Under(Members(a)[i], HOME_REL)
  {
    var p := (a.home + a.system)[i];
    assert if i < |a.home| then p in a.home else p in a.system;
    SystemAndHomeApart();
    WalkedIsWalkable(p);
    WalkableIsMember(p);
  }

  /** `cmd_unpack`, of what a save wrote: what it selects, extracts and deletes - on the
      build that saved it everything, on any other the home directory alone. */
  method Unpack(disk: Disk, a: Archive, ours: Option<string>) returns (plan: Plan, refused: nat)
    requires Whole(a) && Walked(a)
    modifies disk
    ensures plan.Apply? && (plan.full <==> Ours(a, ours))
    ensures disk.tree == Restored(old(disk.tree), a, Ours(a, ours), MayDelete)
    ensures refused == if Ours(a, ours) then Refusals(DeepestFirst(a.deleted), MayDelete) else 0
  {
    plan := PlanRestore(Members(a), Some(MetaOf(a)), ours);
    PlanOfPacked(a, ours, plan);
    var paths := Selected(a.home + a.system, Members(a), plan.select);
    disk.Extract(paths, a.source);
    refused := 0;
    if plan.full {
      refused := disk.Replay(DeepestFirst(plan.deletions), MayDelete);
    }
  }

  /** Deleted, but kept where it was: it may not be deleted, or it is a directory over
      something the save never looked at or may not delete. */
  ghost predicate Stuck(image: Tree, walks: string -> bool, allowed: string -> bool, p: string)
    requires p in image
  {
    !allowed(p) || (image[p].kind == Dir && exists q :: q in image && Below(q, p) && !(walks(q) && allowed(q)))
  }

  lemma AfterExtracting(a: Archive, image: Tree, saved: Tree, walks: string -> bool, homes: string -> bool, p: string)
    requires Saves(a, image, saved, walks, homes) && Rooted(saved, walks)
    requires Faithful(image, saved, walks) && Apart(walks, homes) && walks(p)
    ensures Whole(a)
    ensures var t := Extracting(image, a.home + a.system, a.source);
            && (p in t <==> p in image || p in saved)
            && (p in saved ==> Alike(t[p], saved[p]))
            && (p in image && p !in saved ==> t[p] == image[p])
  {
    var paths := a.home + a.system;
    ExtractedHas(image, paths, a.source, p);
  }

  /** Below a path that is gone there is nothing but what the image shipped there. */
  lemma BelowGone(a: Archive, image: Tree, saved: Tree, walks: string -> bool, homes: string -> bool,
                  p: string, q: string)
    requires Saves(a, image, saved, walks, homes) && Rooted(saved, walks) && walks(p) && p !in saved && Below(q, p)
    ensures Whole(a)
    ensures q in Extracting(image, a.home + a.system, a.source) <==> q in image
    ensures q !in saved
  {
    var paths := a.home + a.system;
    ExtractedHas(image, paths, a.source, q);
    if Needs(paths, q) {
      var m :| m in paths && Below(m, q);
      BelowTransitive(m, q, p);
    }
  }

  lemma GoneIsRemovable(a: Archive, image: Tree, saved: Tree, walks: string -> bool, homes: string -> bool,
                        allowed: string -> bool, list: seq<string>, p: string)
    requires Saves(a, image, saved, walks, homes) && Rooted(saved, walks)
    requires Faithful(image, saved, walks) && Apart(walks, homes)
    requires (forall x :: x in list <==> x in a.deleted) && p in a.deleted
    ensures Whole(a)
    ensures Removable(Extracting(image, a.home + a.system, a.source), list, allowed, p)
       <==> !Stuck(image, walks, allowed, p)
  {
    AfterExtracting(a, image, saved, walks, homes, p);
    var t := Extracting(image, a.home + a.system, a.source);
    forall q | Below(q, p)
      ensures Fixed(t, list, allowed, q) <==> q in image && !(walks(q) && allowed(q))
    {
      BelowGone(a, image, saved, walks, homes, p, q);
    }
  }

  /** Restored on the build it was saved on: a path of the system that the session had is
      back just as it was, and one it had not is gone - but for those that are stuck. */
  lemma SystemComesBack(a: Archive, image: Tree, saved: Tree, walks: string -> bool, homes: string -> bool,
                        allowed: string -> bool, p: string)
    requires Saves(a, image, saved, walks, homes) && Rooted(saved, walks)
    requires Faithful(image, saved, walks) && Apart(walks, homes) && walks(p)
    ensures Whole(a)
    ensures var t := Restored(image, a, true, allowed);
            && (p in saved ==> p in t && Alike(t[p], saved[p]))
            && (p !in saved ==> (p in t <==> p in image && Stuck(image, walks, allowed, p)))
  {
    AfterExtracting(a, image, saved, walks, homes, p);
    DeepestFirstDescends(a.deleted);
    var list := DeepestFirst(a.deleted);
    DeletedAre(Extracting(image, a.home + a.system, a.source), list, allowed);
    if p in a.deleted {
      GoneIsRemovable(a, image, saved, walks, homes, allowed, list, p);
    }
  }

  /** Just when it is the session exactly: nothing the session deleted is stuck. */
  lemma ExactUnlessStuck(a: Archive, image: Tree, saved: Tree, walks: string -> bool, homes: string -> bool,
                         allowed: string -> bool)
    requires Saves(a, image, saved, walks, homes) && Rooted(saved, walks)
    requires Faithful(image, saved, walks) && Apart(walks, homes)
    ensures Whole(a)
    ensures (forall p :: walks(p) ==> AsSaved(Restored(image, a, true, allowed), saved, p))
       <==> (forall p :: p in image && walks(p) && p !in saved ==> !Stuck(image, walks, allowed, p))
  {
    assert Whole(a);
    forall p | walks(p)
      ensures var t := Restored(image, a, true, allowed);
              && (p in saved ==> p in t && Alike(t[p], saved[p]))
              && (p !in saved ==> (p in t <==> p in image && Stuck(image, walks, allowed, p)))
    {
      SystemComesBack(a, image, saved, walks, homes, allowed, p);
    }
  }

  /** Home is laid over what is there, on any build: the session's files as they were, and
      what else was at home left alone. */
  lemma HomeIsOverlaid(a: Archive, image: Tree, saved: Tree, here: Tree, walks: string -> bool, homes: string -> bool,
                       allowed: string -> bool, full: bool, p: string)
    requires Saves(a, image, saved, walks, homes) && Rooted(saved, homes) && Apart(walks, homes) && homes(p)
    requires SameShape(here, saved)
    ensures Whole(a)
    ensures Overlaid(Restored(here, a, full, allowed), here, saved, p)
  {
    if full {
      ExtractedHas(here, a.home + a.system, a.source, p);
      DeepestFirstDescends(a.deleted);
      DeletedAre(Extracting(here, a.home + a.system, a.source), DeepestFirst(a.deleted), allowed);
      assert p !in a.deleted;
    } else {
      ExtractedHas(here, a.home, a.source, p);
    }
  }

  /** On any other build, whatever it ships, nothing of the system changes. */
  lemma OtherBuildsKeepTheirSystem(a: Archive, image: Tree, saved: Tree, here: Tree, walks: string -> bool,
                                   homes: string -> bool, allowed: string -> bool, p: string)
    requires Saves(a, image, saved, walks, homes) && Apart(walks, homes) && walks(p)
    ensures Whole(a)
    ensures AsBefore(Restored(here, a, false, allowed), here, p)
  {
    ExtractedHas(here, a.home, a.source, p);
  }

  // ---- the trees and the guard as they are ------------------------------------

  /** os.path.dirname. */
  function Dirname(p: string): string
  {
    if p == "" || p[|p| - 1] == '/' then TrailingOff(p) else Dirname(p[..|p| - 1])
  }

  function TrailingOff(p: string): string {
    if p == "/" || p == "" || p[|p| - 1] != '/' then p else TrailingOff(p[..|p| - 1])
  }

  /** Absolute, and as normpath leaves it. */
  predicate CanonicalPath(p: string) {
    p == "/" || (p != "" && p[0] == '/' && Canonical(p[1..]) && ".." !in Split(p[1..], '/'))
  }

  /** `contained`, where no directory on the way is a symlink. */
  predicate Contained(p: string, roots: seq<string>) {
    CanonicalPath(p) && InRoots(p, roots) && InRoots(Dirname(p), roots)
  }

  /** The guard on each deletion replayed. */
  predicate MayDelete(p: string) { !Skip(p) && Contained(p, SYSTEM_ROOTS) }

  lemma {:induction false} DirnameOf(d: string, name: string)
    requires d != "" && d[|d| - 1] != '/' && '/' !in name
    ensures Dirname(d + "/" + name) == d
    decreases |name|
  {
    var p := d + "/" + name;
    if name == "" {
      assert p[..|p| - 1] == d && TrailingOff(d) == d;
      assert p[|p| - 1] == '/' && |p| > 1;
      assert TrailingOff(p) == d;
    } else {
      var m := name[..|name| - 1];
      assert forall c :: c in m ==> c in name;
      DirnameOf(d, m);
      assert p[..|p| - 1] == d + "/" + m;
      assert p[|p| - 1] == name[|name| - 1] && name[|name| - 1] in name;
    }
  }

  /** The directory of a path below `r` is `r` or below it. */
  lemma {:induction false} DirnameBelow(p: string, r: string)
    requires Below(p, r) && r != "" && r[|r| - 1] != '/'
    ensures Under(Dirname(p), r)
    decreases |p|
  {
    if p[|p| - 1] == '/' {
      TrailingBelow(p, r);
    } else {
      assert p[|r|] == p[..|r| + 1][|r|] == '/';
      assert p[..|p| - 1][..|r| + 1] == p[..|r| + 1];
      DirnameBelow(p[..|p| - 1], r);
    }
  }

  lemma {:induction false} TrailingBelow(p: string, r: string)
    requires Below(p, r) && r != "" && r[|r| - 1] != '/'
    ensures Under(TrailingOff(p), r)
    decreases |p|
  {
    if p[|p| - 1] == '/' {
      var m := p[..|p| - 1];
      if |p| == |r| + 1 {
        assert m == p[..|r| + 1][..|r|] == r;
      } else {
        assert m[..|r| + 1] == p[..|r| + 1];
        TrailingBelow(m, r);
      }
    }
  }

  lemma RootShapes(r: string)
    requires r in SYSTEM_ROOTS
    ensures |r| >= 4 && r[0] == '/' && r[1] in ['e', 'o', 's', 'u', 'r', 'v'] && r[|r| - 1] != '/'
    ensures r[1] == 'u' ==> r == "/usr/local"
    ensures r[1] == 'v' ==> r == "/var/spool/cron"
    ensures r[1] != 'u' && r[1] != 'v' ==> '/' !in r[1..]
  {
    assert SYSTEM_ROOTS == ["/etc", "/opt", "/srv", "/usr/local", "/root", "/var/spool/cron"];
  }

  lemma RootDirnames(r: string)
    requires r in SYSTEM_ROOTS
    ensures Dirname(r) in ["/", "/usr", "/var/spool"]
  {
    RootShapes(r);
    if r[1] == 'u' {
      assert "/usr/local" == "/usr" + "/" + "local";
      DirnameOf("/usr", "local");
    } else if r[1] == 'v' {
      assert "/var/spool/cron" == "/var/spool" + "/" + "cron";
      DirnameOf("/var/spool", "cron");
    } else {
      TopLevel(r[1..]);
      assert r == "/" + r[1..];
    }
  }

  lemma {:induction false} TopLevel(name: string)
    requires '/' !in name
    ensures Dirname("/" + name) == "/"
  {
    var p := "/" + name;
    if name != "" {
      var m := name[..|name| - 1];
      assert forall c :: c in m ==> c in name;
      TopLevel(m);
      assert p[..|p| - 1] == "/" + m;
      assert p[|p| - 1] == name[|name| - 1] && name[|name| - 1] in name;
    }
  }

  lemma UnderFrom(d: string, r: string)
    requires Under(d, r)
    ensures |d| >= |r| && forall i :: 0 <= i < |r| ==> d[i] == r[i]
  {
    if d != r {
      forall i | 0 <= i < |r| ensures d[i] == r[i] {
        assert d[..|r| + 1][i] == (r + "/")[i];
      }
    }
  }

  lemma NoRootAbove(d: string, r: string)
    requires d in ["/", "/usr", "/var/spool"] && r in SYSTEM_ROOTS
    ensures !Under(d, r)
  {
    RootShapes(r);
    if Under(d, r) {
      UnderFrom(d, r);
    }
  }

  /** Every system path may be deleted but the roots themselves. */
  lemma RootsStay(p: string)
    requires SystemPath(p) && CanonicalPath(p)
    ensures MayDelete(p) <==> p !in SYSTEM_ROOTS
  {
    if p in SYSTEM_ROOTS {
      RootDirnames(p);
      forall r | r in SYSTEM_ROOTS ensures !Under(Dirname(p), r) {
        NoRootAbove(Dirname(p), r);
      }
    } else {
      var r :| r in SYSTEM_ROOTS && Under(p, r);
      RootShapes(r);
      DirnameBelow(p, r);
    }
  }

  lemma RootApart(r: string)
    requires r in SYSTEM_ROOTS
    ensures !Under(HOME, r) && !Under(r, HOME)
  {
    RootShapes(r);
    assert HOME[1] == 'h' && |HOME| == 10;
    if Under(HOME, r) {
      UnderFrom(HOME, r);
    }
    if Under(r, HOME) {
      UnderFrom(r, HOME);
    }
  }

  /** One path in two trees puts one tree's root in the other. */
  lemma UnderBoth(p: string, r: string, s: string)
    requires Under(p, r) && Under(p, s)
    ensures Under(r, s) || Under(s, r)
  {
    if |r| < |s| {
      assert p[..|r| + 1] == r + "/" && s == p[..|s|] by {
        if p != s { assert p[..|s|] == p[..|s| + 1][..|s|] == s; }
      }
      assert s[..|r| + 1] == p[..|r| + 1];
    } else if |s| < |r| {
      assert p[..|s| + 1] == s + "/" && r == p[..|r|] by {
        if p != r { assert p[..|r|] == p[..|r| + 1][..|r|] == r; }
      }
      assert r[..|s| + 1] == p[..|s| + 1];
    } else {
      assert r == p[..|r|] by { if p != r { assert p[..|r| + 1][..|r|] == r; } }
      assert s == p[..|s|] by { if p != s { assert p[..|s| + 1][..|s|] == s; } }
    }
  }

  lemma SystemAndHomeApart()
    ensures Apart(SystemPath, HomePath)
  {
    forall p ensures !(SystemPath(p) && HomePath(p)) {
      if SystemPath(p) && HomePath(p) {
        var r :| r in SYSTEM_ROOTS && Under(p, r);
        RootApart(r);
        UnderBoth(p, r, HOME);
      }
    }
    forall h, p | HomePath(h) && SystemPath(p) ensures !Below(h, p) {
      if Below(h, p) {
        var r :| r in SYSTEM_ROOTS && Under(p, r);
        RootApart(r);
        if p != r { BelowTransitive(h, p, r); }
        UnderBoth(h, r, HOME);
      }
    }
  }

  /** Kept although the session deleted it: a root, or a directory over something that no
      save looks at. */
  ghost predicate KeptBack(image: Tree, p: string)
    requires p in image
  {
    p in SYSTEM_ROOTS
    || (image[p].kind == Dir && exists q :: q in image && Below(q, p) && (!SystemPath(q) || q in SYSTEM_ROOTS))
  }

  /** What a save packs is what it walked. */
  lemma SavesWalked(a: Archive, image: Tree, saved: Tree)
    requires Saves(a, image, saved, SystemPath, HomePath) && forall p :: p in saved ==> CanonicalPath(p)
    ensures Whole(a) && Walked(a)
  {}

  /** Same build, same session: every system path a save looks at is back as it was, and
      every one it had deleted is gone, exactly unless one of those is kept back. */
  lemma SameBuildRestoresTheSession(a: Archive, image: Tree, saved: Tree, ours: Option<string>)
    requires Saves(a, image, saved, SystemPath, HomePath) && Rooted(saved, SystemPath)
    requires Faithful(image, saved, SystemPath) && SameShape(image, saved)
    requires (forall p :: p in image ==> CanonicalPath(p)) && Ours(a, ours)
    ensures Whole(a)
    ensures (forall p :: SystemPath(p) ==> AsSaved(Restored(image, a, Ours(a, ours), MayDelete), saved, p))
       <==> (forall p :: p in image && SystemPath(p) && p !in saved ==> !KeptBack(image, p))
  {
    SystemAndHomeApart();
    ExactUnlessStuck(a, image, saved, SystemPath, HomePath, MayDelete);
    StuckIsKeptBack(image);
  }

  lemma StuckIsKeptBack(image: Tree)
    requires forall p :: p in image ==> CanonicalPath(p)
    ensures forall p :: p in image && SystemPath(p) ==> (Stuck(image, SystemPath, MayDelete, p) <==> KeptBack(image, p))
  {
    forall p | p in image && SystemPath(p)
      ensures Stuck(image, SystemPath, MayDelete, p) <==> KeptBack(image, p)
    {
      RootsStay(p);
      forall q | q in image && SystemPath(q) ensures MayDelete(q) <==> q !in SYSTEM_ROOTS {
        RootsStay(q);
      }
    }
  }

  /** And on any other build, or where either has no name, the system is left exactly as
      that build has it. */
  lemma OtherBuildRestoresHomeOnly(a: Archive, image: Tree, saved: Tree, here: Tree, ours: Option<string>)
    requires Saves(a, image, saved, SystemPath, HomePath) && Rooted(saved, HomePath)
    requires SameShape(here, saved) && !Ours(a, ours)
    ensures Whole(a)
    ensures var t := Restored(here, a, Ours(a, ours), MayDelete);
            && (forall p :: SystemPath(p) ==> AsBefore(t, here, p))
            && (forall p :: HomePath(p) ==> Overlaid(t, here, saved, p))
  {
    SystemAndHomeApart();
    assert Whole(a);
    var t := Restored(here, a, false, MayDelete);
    forall p | SystemPath(p) ensures AsBefore(t, here, p) {
      OtherBuildsKeepTheirSystem(a, image, saved, here, SystemPath, HomePath, MayDelete, p);
    }
    forall p | HomePath(p) ensures Overlaid(t, here, saved, p) {
      HomeIsOverlaid(a, image, saved, here, SystemPath, HomePath, MayDelete, false, p);
    }
  }

  /** A session saved on the build that shipped as `image`, and unpacked there or elsewhere:
      on the same build the tree is the session again - every system path a save looks at,
      and no more of them - exactly if nothing it deleted is kept back; on any other the
      system stands as it was. Home is overlaid on both. */
  method RoundTrip(file: string, saved: Tree, home: seq<string>, system: seq<string>,
                   disk: Disk, ours: Option<string>,
                   ghost image: Tree, ghost rows: seq<Identity.Row>, ghost ident: string)
    requires forall p :: p in home <==> p in saved && HomePath(p)
    requires forall p :: p in system <==> p in saved && SystemPath(p)
    requires RowsOf(rows, image, SystemPath) && Baseline.ValidId(ident) && file == Baseline.File(rows, ident)
    requires Rooted(saved, SystemPath) && Rooted(saved, HomePath) && Faithful(image, saved, SystemPath)
    requires forall p :: p in image || p in saved ==> CanonicalPath(p)
    requires SameShape(disk.tree, saved) && (ours == Some(ident) ==> disk.tree == image)
    modifies disk
    ensures ours == Some(ident) ==>
              ((forall p :: SystemPath(p) ==> AsSaved(disk.tree, saved, p)) <==>
               (forall p :: p in image && SystemPath(p) && p !in saved ==> !KeptBack(image, p)))
    ensures ours != Some(ident) ==> forall p :: SystemPath(p) ==> AsBefore(disk.tree, old(disk.tree), p)
    ensures forall p :: HomePath(p) ==> Overlaid(disk.tree, old(disk.tree), saved, p)
  {
    var a := Pack(file, saved, home, system, SystemPath, HomePath, image, rows, ident);
    SavesWalked(a, image, saved);
    ghost var here := disk.tree;
    var plan, refused := Unpack(disk, a, ours);
    if ours == Some(ident) {
      SameBuildRestoresTheSession(a, image, saved, ours);
    } else {
      OtherBuildRestoresHomeOnly(a, image, saved, here, ours);
    }
    SystemAndHomeApart();
    forall p | HomePath(p) ensures Overlaid(disk.tree, here, saved, p) {
      HomeIsOverlaid(a, image, saved, here, SystemPath, HomePath, MayDelete, Ours(a, ours), p);
    }
  }

  // ---- the exception happens ----------------------------------------------------

  const SSH := "/etc/ssh"

  /** A session that is its image but for /etc/ssh, removed with all there was in it. */
  ghost function WithoutSsh(image: Tree): Tree { map p | p in image && !Under(p, SSH) :: image[p] }

  /** The host keys below it are made anew on every machine and no save looks at them: it
      comes back with them, on the very build it was saved on. */
  lemma SshComesBack(a: Archive, image: Tree, key: string)
    requires Rooted(image, SystemPath) && (forall p :: p in image ==> CanonicalPath(p))
    requires SSH in image && image[SSH].kind == Dir && key in image && StartsWith(key, "/etc/ssh/ssh_host_")
    requires Saves(a, image, WithoutSsh(image), SystemPath, HomePath)
    ensures Rooted(WithoutSsh(image), SystemPath) && Faithful(image, WithoutSsh(image), SystemPath)
    ensures SameShape(image, WithoutSsh(image)) && Whole(a)
    ensures SSH !in WithoutSsh(image) && SSH in Restored(image, a, true, MayDelete)
  {
    hide SystemPath, HomePath, MayDelete, Under, KeptBack, Stuck;
    WithoutSshIsRooted(image);
    SshIsWalked();
    assert Under(SSH, SSH) by { UnderItself(SSH); }
    SshKeptBack(image, key);
    StuckIsKeptBack(image);
    SystemAndHomeApart();
    SystemComesBack(a, image, WithoutSsh(image), SystemPath, HomePath, MayDelete, SSH);
  }

  lemma UnderItself(r: string)
    ensures Under(r, r)
  {}

  lemma WithoutSshIsRooted(image: Tree)
    requires Rooted(image, SystemPath)
    ensures Rooted(WithoutSsh(image), SystemPath)
  {
    hide SystemPath, Under;
    var saved := WithoutSsh(image);
    forall q, d | q in saved && Below(q, d) && SystemPath(d) ensures d in saved && saved[d].kind == Dir {
      assert d in image;
      BelowUnder(q, d, SSH);
    }
  }

  lemma SshKeptBack(image: Tree, key: string)
    requires SSH in image && image[SSH].kind == Dir && key in image && StartsWith(key, "/etc/ssh/ssh_host_")
    ensures KeptBack(image, SSH)
  {
    assert key[..9] == key[..18][..9] == SSH + "/";
    assert Below(key, SSH);
    assert Skip(key) && !SystemPath(key);
  }

  lemma BelowUnder(q: string, d: string, r: string)
    requires Below(q, d)
    ensures Under(d, r) ==> Under(q, r)
  {
    if Under(d, r) && d != r {
      BelowTransitive(q, d, r);
    }
  }

  lemma SshIsWalked()
    ensures SystemPath(SSH)
  {
    assert "/etc" in SYSTEM_ROOTS && SSH[..5] == "/etc" + "/";
    assert Under(SSH, "/etc");
    assert SSH[4] == '/' && |SSH| == 8;
  }
}
