/** Which paths a restore may delete, piece by piece: what the guard on each deletion accepts,
    said of the path itself. */
module Deletions {
  import opened Texts
  import opened Selection
  import opened Names
  import opened Trees
  import Session

  /** The trees of the system a session may change: all but home and what the helpers keep. */
  const SYSTEM_TREES := [["etc"], ["opt"], ["srv"], ["usr", "local"], ["root"], ["var", "spool", "cron"]]

  /** Absolute, clean pieces only, and inside one of those trees but not that tree itself. */
  ghost predicate StrictlyIn(p: string, pieces: seq<string>) {
    AllClean(pieces) && p == "/" + Joined(pieces, '/') && exists t :: t in SYSTEM_TREES && t < pieces
  }

  lemma TreesClean()
    ensures forall t :: t in SYSTEM_TREES ==> AllClean(t)
  {}

  lemma RootsSpelled()
    ensures |Session.SYSTEM_ROOTS| == |SYSTEM_TREES|
    ensures forall i | 0 <= i < |SYSTEM_TREES| :: Session.SYSTEM_ROOTS[i] == "/" + Joined(SYSTEM_TREES[i], '/')
  {
    PairsSpelled();
    TriplesSpelled();
    assert Joined(["etc"], '/') == "etc" && Joined(["opt"], '/') == "opt" && Joined(["srv"], '/') == "srv";
    assert Joined(["root"], '/') == "root";
    assert "/" + "usr/local" == "/usr/local" && "/" + "var/spool/cron" == "/var/spool/cron";
    assert "/" + "etc" == "/etc" && "/" + "opt" == "/opt" && "/" + "srv" == "/srv" && "/" + "root" == "/root";
  }

  lemma SlashAside(key: string, root: string)
    ensures Under("/" + key, "/" + root) <==> Under(key, root)
    ensures "/" + key == "/" + root ==> key == root
  {
    var p, r := "/" + key, "/" + root;
    assert p[1..] == key && r[1..] == root;
    if StartsWith(p, r + "/") {
      assert key[..|root| + 1] == p[..|r| + 1][1..];
      assert (r + "/")[1..] == root + "/";
    }
    if StartsWith(key, root + "/") {
      assert p[..|r| + 1] == "/" + key[..|root| + 1];
    }
  }

  lemma UnderTrees(key: string)
    ensures Session.InRoots("/" + key, Session.SYSTEM_ROOTS) <==>
            exists t :: t in SYSTEM_TREES && t <= Split(key, '/')
  {
    hide Under, Joined, Session.SYSTEM_ROOTS, SYSTEM_TREES;
    RootsSpelled();
    TreesClean();
    if r :| r in Session.SYSTEM_ROOTS && Under("/" + key, r) {
      var i :| 0 <= i < |Session.SYSTEM_ROOTS| && Session.SYSTEM_ROOTS[i] == r;
      var t := SYSTEM_TREES[i];
      assert t in SYSTEM_TREES;
      SlashAside(key, Joined(t, '/'));
      UnderTree(key, t);
    }
    if t :| t in SYSTEM_TREES && t <= Split(key, '/') {
      var i :| 0 <= i < |SYSTEM_TREES| && SYSTEM_TREES[i] == t;
      SlashAside(key, Joined(t, '/'));
      UnderTree(key, t);
    }
  }

  lemma CanonicalPieces(key: string)
    ensures Canonical(key) && ".." !in Split(key, '/') <==> AllClean(Split(key, '/'))
  {
    SplitFree(key, '/');
    if AllClean(Split(key, '/')) {
      assert forall p :: p in Split(key, '/') ==> Clean(p);
    }
  }

  /** Of a path inside the trees, the directory it is in is too, unless it is a root. */
  lemma ParentInside(p: string)
    requires Session.InRoots(p, Session.SYSTEM_ROOTS)
    ensures Session.InRoots(Session.Dirname(p), Session.SYSTEM_ROOTS) <==> p !in Session.SYSTEM_ROOTS
  {
    if p in Session.SYSTEM_ROOTS {
      Session.RootDirnames(p);
      forall r | r in Session.SYSTEM_ROOTS ensures !Under(Session.Dirname(p), r) {
        Session.NoRootAbove(Session.Dirname(p), r);
      }
    } else {
      var r :| r in Session.SYSTEM_ROOTS && Under(p, r);
      Session.RootShapes(r);
      Session.DirnameBelow(p, r);
    }
  }

  lemma ProperlyIn(pieces: seq<string>, key: string)
    requires AllClean(pieces) && key == Joined(pieces, '/')
    ensures "/" + key in Session.SYSTEM_ROOTS <==> pieces in SYSTEM_TREES
  {
    hide Joined, Session.SYSTEM_ROOTS, SYSTEM_TREES;
    RootsSpelled();
    TreesClean();
    PiecesFree(pieces);
    if "/" + key in Session.SYSTEM_ROOTS {
      var i :| 0 <= i < |Session.SYSTEM_ROOTS| && Session.SYSTEM_ROOTS[i] == "/" + key;
      var t := SYSTEM_TREES[i];
      assert t in SYSTEM_TREES;
      SlashAside(key, Joined(t, '/'));
      PiecesFree(t);
    }
    if pieces in SYSTEM_TREES {
      var i :| 0 <= i < |SYSTEM_TREES| && SYSTEM_TREES[i] == pieces;
      assert Session.SYSTEM_ROOTS[i] == "/" + key;
    }
  }

  /** No tree lies inside another. */
  lemma TreesApart(t: seq<string>, u: seq<string>)
    requires t in SYSTEM_TREES && u in SYSTEM_TREES && t <= u
    ensures t == u
  {
    assert t[0][0] == u[0][0];
  }

  lemma WholeOrProper(a: seq<string>, b: seq<string>)
    requires a <= b
    ensures a == b || a < b
  {
    if |a| == |b| {
      assert a == b[..|a|];
    }
  }

  lemma InsideOrRoot(pieces: seq<string>)
    requires exists t :: t in SYSTEM_TREES && t <= pieces
    ensures pieces !in SYSTEM_TREES <==> exists t :: t in SYSTEM_TREES && t < pieces
  {
    hide SYSTEM_TREES;
    var t :| t in SYSTEM_TREES && t <= pieces;
    WholeOrProper(t, pieces);
    if pieces in SYSTEM_TREES {
      forall u | u in SYSTEM_TREES ensures !(u < pieces) {
        if u <= pieces {
          TreesApart(u, pieces);
        }
      }
    }
  }

  lemma Unslashed(p: string)
    requires p != "" && p[0] == '/'
    ensures p == "/" + p[1..]
  {}

  lemma GuardedIsIn(p: string)
    requires Session.MayDelete(p)
    ensures StrictlyIn(p, Split(p[1..], '/'))
  {
    hide Session.SYSTEM_ROOTS, SYSTEM_TREES, Session.Skip, Session.Dirname, Under, Joined, Split;
    SlashAlone();
    Unslashed(p);
    var key := p[1..];
    var pieces := Split(key, '/');
    CanonicalPieces(key);
    JoinedSplit(key, '/');
    UnderTrees(key);
    ParentInside(p);
    ProperlyIn(pieces, key);
    InsideOrRoot(pieces);
  }

  /** / itself is in no tree. */
  lemma SlashAlone()
    ensures !Session.InRoots("/", Session.SYSTEM_ROOTS)
  {
    forall r | r in Session.SYSTEM_ROOTS ensures !Under("/", r) {
      Session.NoRootAbove("/", r);
    }
  }

  lemma InIsGuarded(p: string, pieces: seq<string>)
    requires StrictlyIn(p, pieces) && !Session.Skip(p)
    ensures Session.MayDelete(p)
  {
    hide Session.SYSTEM_ROOTS, SYSTEM_TREES, Session.Skip, Session.Dirname, Under, Joined, Split;
    var key := Joined(pieces, '/');
    PiecesFree(pieces);
    assert p[1..] == key && p[0] == '/';
    CanonicalPieces(key);
    UnderTrees(key);
    InsideOrRoot(pieces);
    ProperlyIn(pieces, key);
    ParentInside(p);
  }

  /** The guard lets a path be deleted if and only if it is not one a save skips, and is
      absolute, spelled without .., ., or an empty piece, and strictly inside a system tree:
      whatever list an archive carries, no deletion leaves those trees or takes their roots. */
  lemma DeletionsStayIn(p: string)
    ensures Session.MayDelete(p) <==> !Session.Skip(p) && exists pieces :: StrictlyIn(p, pieces)
  {
    hide Session.SYSTEM_ROOTS, StrictlyIn, Session.Skip, Session.Contained;
    if Session.MayDelete(p) {
      GuardedIsIn(p);
    }
    if pieces :| StrictlyIn(p, pieces) && !Session.Skip(p) {
      InIsGuarded(p, pieces);
    }
  }

  /** Walked from /, such a path leads to those very pieces. */
  lemma DeletionsLead(p: string, pieces: seq<string>)
    requires StrictlyIn(p, pieces)
    ensures Walk(Split(p, '/')) == pieces && ".." !in Split(p, '/')
  {
    hide Joined, Split;
    var key := Joined(pieces, '/');
    assert p == "" + "/" + key;
    SplitAppend("", key, '/');
    SplitFirst("", "", '/');
    PiecesFree(pieces);
    WalkClean([""], pieces);
    assert forall q :: q in [""] + pieces <==> q == "" || q in pieces;
  }

  /** What is the machine's own - its ids, its caches, its host keys, the helpers themselves -
      is neither saved nor deleted. */
  lemma MachineFilesStand(p: string)
    requires p in {"/etc/machine-id", "/etc/adjtime", "/etc/mtab", "/etc/.pwd.lock", "/etc/ld.so.cache",
                   "/etc/blkid.tab", "/etc/blkid.tab.old", "/usr/local/lib/bashtion"}
             || "/usr/local/lib/bashtion/" <= p || "/etc/ssh/ssh_host_" <= p
    ensures !Session.SystemPath(p) && !Session.HomePath(p) && !Session.MayDelete(p)
  {}
}
