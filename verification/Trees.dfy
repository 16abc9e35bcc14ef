/** Trees of files, and what extracting and deleting do to one. */
module Trees {
  import opened Texts
  import opened Selection

  datatype Kind = Dir | File | Link

  /** What is at a path: its kind; its contents, owner, mode and attributes; its stamp. */
  datatype Inode = Inode(kind: Kind, data: string, stamp: seq<string>)

  type Tree = map<string, Inode>

  /** A directory tar makes because nothing said what it should be. */
  const MADE := Inode(Dir, "", [])

  predicate Below(q: string, p: string) { StartsWith(q, p + "/") }

  predicate Alike(a: Inode, b: Inode) { a.kind == b.kind && a.data == b.data }

  lemma BelowTransitive(r: string, q: string, p: string)
    requires Below(r, q) && Below(q, p)
    ensures Below(r, p)
  {
    assert r[..|p| + 1] == r[..|q| + 1][..|p| + 1] == q[..|p| + 1];
  }

  lemma BelowAfter(q: string, p: string)
    requires Below(q, p)
    ensures Before(p, q) && q != p
  {
    assert q == p + q[|p|..] by { assert q[..|p|] == q[..|p| + 1][..|p|] == p; }
    ExtensionAfter(p, q[|p|..]);
  }

  // ---- extracting -----------------------------------------------------------

  /** The directories a path goes through. */
  function Ancestors(p: string): (r: set<string>)
    ensures forall a :: a in r <==> Below(p, a)
  {
    var r := set i | 0 <= i < |p| && p[i] == '/' :: p[..i];
    assert forall i :: 0 <= i < |p| && p[i] == '/' ==> p[..i + 1] == p[..i] + "/";
    assert forall a :: Below(p, a) ==> p[|a|] == '/' && p[..|a|] == a by {
      forall a | Below(p, a) ensures p[|a|] == '/' && p[..|a|] == a {
        assert p[..|a| + 1][|a|] == '/' && p[..|a| + 1][..|a|] == a;
      }
    }
    r
  }

  /** One member: the directories it needs are made if they are not there. */
  function Put(t: Tree, p: string, node: Inode): Tree {
    (t + map a | a in Ancestors(p) && a !in t :: MADE)[p := node]
  }

  /** The members at `paths`, as they are in `source`, one after another. */
  function Extracting(t: Tree, paths: seq<string>, source: Tree): Tree
    requires forall p :: p in paths ==> p in source
  {
    if paths == [] then t
    else
      var m := |paths| - 1;
      Put(Extracting(t, paths[..m], source), paths[m], source[paths[m]])
  }

  ghost predicate Needs(paths: seq<string>, a: string) { exists p :: p in paths && Below(p, a) }

  lemma {:induction false} ExtractedHas(t: Tree, paths: seq<string>, source: Tree, x: string)
    requires forall p :: p in paths ==> p in source
    ensures var r := Extracting(t, paths, source);
            && (x in r <==> x in t || x in paths || Needs(paths, x))
            && (x in paths ==> r[x] == source[x])
            && (x in t && x !in paths ==> r[x] == t[x])
  {
    if paths != [] {
      var m := |paths| - 1;
      var front, last := paths[..m], paths[m];
      assert paths == front + [last];
      ExtractedHas(t, front, source, x);
      assert Needs(paths, x) <==> Needs(front, x) || Below(last, x);
    }
  }

  // ---- deleting -------------------------------------------------------------

  ghost predicate Empty(t: Tree, p: string) { forall q :: q in t ==> !Below(q, p) }

  /** unlink, or an rmdir that fails on a directory with anything in it. */
  ghost function Delete(t: Tree, p: string, allowed: string -> bool): Tree {
    if !allowed(p) || p !in t then t
    else if t[p].kind == Dir && !Empty(t, p) then t
    else t - {p}
  }

  ghost function Deleting(t: Tree, list: seq<string>, allowed: string -> bool): Tree {
    if list == [] then t
    else Delete(Deleting(t, list[..|list| - 1], allowed), list[|list| - 1], allowed)
  }

  ghost predicate Descending(list: seq<string>) {
    forall i, j :: 0 <= i < j < |list| ==> !Before(list[i], list[j])
  }

  /** There from the first and never to be deleted. */
  ghost predicate Fixed(t: Tree, list: seq<string>, allowed: string -> bool, q: string) {
    q in t && (q !in list || !allowed(q))
  }

  /** Nothing in the way of its deletion but what is deleted too. */
  ghost predicate Removable(t: Tree, list: seq<string>, allowed: string -> bool, p: string) {
    && p in t && p in list && allowed(p)
    && (t[p].kind == Dir ==> forall q :: Fixed(t, list, allowed, q) ==> !Below(q, p))
  }

  /** Children come before their directory in the list, so each rmdir finds it empty -
      unless something that stays is in it: what goes is what is removable, no more and
      no less. */
  lemma {:induction false} DeletedUpTo(t: Tree, list: seq<string>, allowed: string -> bool, k: nat)
    requires Descending(list) && k <= |list|
    ensures var r := Deleting(t, list[..k], allowed);
            && r.Keys <= t.Keys && (forall x :: x in r ==> r[x] == t[x])
            && (forall x :: x in t ==> (x in r <==> !(x in list[..k] && Removable(t, list, allowed, x))))
    decreases k
  {
    if k > 0 {
      var p := list[k - 1];
      DeletedUpTo(t, list, allowed, k - 1);
      assert list[..k] == list[..k - 1] + [p];
      assert list[..k][..k - 1] == list[..k - 1];
      var was := Deleting(t, list[..k - 1], allowed);
      if p in was && allowed(p) && t[p].kind == Dir {
        OneDeleted(t, list, allowed, k, was);
      }
    }
  }

  lemma OneDeleted(t: Tree, list: seq<string>, allowed: string -> bool, k: nat, was: Tree)
    requires Descending(list) && 0 < k <= |list|
    requires was.Keys <= t.Keys
    requires forall x :: x in t ==> (x in was <==> !(x in list[..k - 1] && Removable(t, list, allowed, x)))
    requires list[k - 1] in t && allowed(list[k - 1]) && t[list[k - 1]].kind == Dir
    ensures Empty(was, list[k - 1]) <==> Removable(t, list, allowed, list[k - 1])
  {
    var p := list[k - 1];
    if Removable(t, list, allowed, p) {
      forall q | q in was ensures !Below(q, p) {
        if Below(q, p) {
          BelowAfter(q, p);
          var j :| 0 <= j < |list| && list[j] == q;
          assert j < k - 1;
          assert list[..k - 1][j] == q;
          forall r | Fixed(t, list, allowed, r) ensures !Below(r, q) {
            if Below(r, q) { BelowTransitive(r, q, p); }
          }
          assert Removable(t, list, allowed, q);
        }
      }
    } else {
      var q :| Fixed(t, list, allowed, q) && Below(q, p);
      assert q in was;
    }
  }

  lemma DeletedAre(t: Tree, list: seq<string>, allowed: string -> bool)
    requires Descending(list)
    ensures var r := Deleting(t, list, allowed);
            && r.Keys <= t.Keys && (forall x :: x in r ==> r[x] == t[x])
            && (forall x :: x in t ==> (x in r <==> !Removable(t, list, allowed, x)))
  {
    DeletedUpTo(t, list, allowed, |list|);
    assert list[..|list|] == list;
  }

  // ---- done in place ----------------------------------------------------------

  class Disk {
    var tree: Tree

    constructor (tree: Tree)
      ensures this.tree == tree
    {
      this.tree := tree;
    }

    /** tar, extracting the members at `paths`. */
    method Extract(paths: seq<string>, source: Tree)
      requires forall p :: p in paths ==> p in source
      modifies this
      ensures tree == Extracting(old(tree), paths, source)
    {
      for i := 0 to |paths|
        invariant tree == Extracting(old(tree), paths[..i], source)
      {
        assert paths[..i + 1][..i] == paths[..i];
        tree := Put(tree, paths[i], source[paths[i]]);
      }
      assert paths[..|paths|] == paths;
    }

    /** The deletion replay: what is out of bounds is refused and counted. */
    method Replay(list: seq<string>, allowed: string -> bool) returns (refused: nat)
      modifies this
      ensures tree == Deleting(old(tree), list, allowed)
      ensures refused == Refusals(list, allowed)
    {
      refused := 0;
      for i := 0 to |list|
        invariant tree == Deleting(old(tree), list[..i], allowed)
        invariant refused == Refusals(list[..i], allowed)
      {
        var p := list[i];
        assert list[..i + 1][..i] == list[..i];
        if !allowed(p) {
          refused := refused + 1;
          continue;
        }
        if p in tree {
          if tree[p].kind != Dir {
            tree := tree - {p};
          } else if forall q :: q in tree ==> !Below(q, p) {
            tree := tree - {p};
          }
        }
      }
      assert list[..|list|] == list;
    }
  }

  function Refusals(list: seq<string>, allowed: string -> bool): nat {
    if list == [] then 0
    else Refusals(list[..|list| - 1], allowed) + if allowed(list[|list| - 1]) then 0 else 1
  }
}
