/** Which names an archive may carry, piece by piece: what the check of a listed name
    accepts, said of the name itself and not of how the check takes it apart. */
module Names {
  import opened Texts
  import opened Selection

  const HOME := ["home", "user"]

  /** Every tree a session may write in, from / down. */
  const TREES := [HOME, ["etc"], ["opt"], ["srv"], ["usr", "local"], ["root"],
                  ["var", "spool", "cron"], ["var", "lib", "bashtion"]]

  const SESSION := ["var", "lib", "bashtion", "session.json"]
  const MARKER := ["usr", "lib", "bashtion", "archive-format-2"]

  predicate Clean(piece: string) { piece != "" && piece != "." && piece != ".." && '/' !in piece }

  predicate AllClean(pieces: seq<string>) { pieces != [] && forall p :: p in pieces ==> Clean(p) }

  predicate Slashes(s: string) { forall i | 0 <= i < |s| :: s[i] == '/' }

  /** Any number of ./, the pieces with a slash between them, any number of slashes. */
  ghost predicate MadeOf(name: string, pieces: seq<string>) {
    && AllClean(pieces)
    && exists dots, slashes :: Dots(dots) && Slashes(slashes) && name == dots + Joined(pieces, '/') + slashes
  }

  ghost predicate InTree(name: string, tree: seq<string>) {
    exists pieces :: MadeOf(name, pieces) && tree <= pieces
  }

  /** The top of the archive itself, which tar lists too. */
  ghost predicate IsTop(name: string) { exists dots :: Dots(dots) && (name == dots || name == dots + ".") }

  ghost predicate InSession(name: string) { exists t :: t in TREES && InTree(name, t) }

  ghost predicate Allowed(name: string) { IsTop(name) || MadeOf(name, MARKER) || InSession(name) }

  // ---- taking a name apart ----------------------------------------------------

  lemma {:induction false} TrimmedRest(n: string)
    ensures n == Trimmed(n) + n[|Trimmed(n)|..] && Slashes(n[|Trimmed(n)|..])
    ensures Trimmed(n) != "" ==> Trimmed(n)[|Trimmed(n)| - 1] != '/'
  {
    if n != "" && n[|n| - 1] == '/' {
      var m := n[..|n| - 1];
      TrimmedRest(m);
      assert n[|Trimmed(n)|..] == m[|Trimmed(n)|..] + "/";
    }
  }

  lemma {:induction false} TrimmedBack(key: string, slashes: string)
    requires key != "" && key[|key| - 1] != '/' && Slashes(slashes)
    ensures Trimmed(key + slashes) == key
  {
    var s := key + slashes;
    if slashes == "" {
      assert s == key;
    } else {
      assert s[|s| - 1] == slashes[|slashes| - 1];
      assert s[..|s| - 1] == key + slashes[..|slashes| - 1];
      TrimmedBack(key, slashes[..|slashes| - 1]);
    }
  }

  lemma {:induction false} JoinedEnds(pieces: seq<string>)
    requires AllClean(pieces)
    ensures var key := Joined(pieces, '/');
            && key != "" && key[0] != '/' && key[|key| - 1] != '/'
            && StartsWith(key, pieces[0]) && (|key| > |pieces[0]| ==> key[|pieces[0]|] == '/')
  {
    var p := pieces[0];
    assert Clean(p);
    assert p[0] in p && p[|p| - 1] in p;
    if |pieces| > 1 {
      assert forall q :: q in pieces[1..] ==> q in pieces;
      JoinedEnds(pieces[1..]);
      var key := p + "/" + Joined(pieces[1..], '/');
      assert key == Joined(pieces, '/');
      assert key[0] == p[0];
    }
  }

  lemma NoDotSlash(pieces: seq<string>, slashes: string)
    requires AllClean(pieces) && Slashes(slashes)
    ensures var n := Joined(pieces, '/') + slashes;
            !StartsWith(n, "./") && n != "" && n != "." && n[0] != '/'
  {
    var n, p := Joined(pieces, '/') + slashes, pieces[0];
    JoinedEnds(pieces);
    assert Clean(p);
    assert n[0] == Joined(pieces, '/')[0] == p[0];
    if |p| > 1 {
      assert n[1] == Joined(pieces, '/')[1] == Joined(pieces, '/')[..|p|][1] == p[1];
      assert p[1] in p;
    } else {
      assert p == [p[0]];
    }
  }

  lemma PiecesFree(pieces: seq<string>)
    requires AllClean(pieces)
    ensures Free(pieces, '/') && Split(Joined(pieces, '/'), '/') == pieces
  {
    assert forall p :: p in pieces ==> Clean(p);
    SplitJoined(pieces, '/');
  }

  /** A name read as pieces is one the check reads as those pieces. */
  lemma NameRead(name: string, pieces: seq<string>)
    requires MadeOf(name, pieces)
    ensures var n := Stripped(name);
            && n != "" && n != "." && n[0] != '/' && Trimmed(n) == Joined(pieces, '/')
            && Split(Trimmed(n), '/') == pieces
  {
    var dots, slashes :| Dots(dots) && Slashes(slashes) && name == dots + Joined(pieces, '/') + slashes;
    var n := Joined(pieces, '/') + slashes;
    NoDotSlash(pieces, slashes);
    assert name == dots + n;
    StripDots(dots, n);
    JoinedEnds(pieces);
    TrimmedBack(Joined(pieces, '/'), slashes);
    PiecesFree(pieces);
  }

  lemma PutTogether(name: string, dots: string, pieces: seq<string>, slashes: string)
    requires AllClean(pieces) && Dots(dots) && Slashes(slashes) && name == dots + (Joined(pieces, '/') + slashes)
    ensures MadeOf(name, pieces)
  {
    assert name == dots + Joined(pieces, '/') + slashes;
  }

  lemma PiecesClean(key: string)
    requires Canonical(key) && ".." !in Split(key, '/')
    ensures AllClean(Split(key, '/'))
  {
    SplitFree(key, '/');
  }

  /** A name the check finds canonical is one read as its pieces. */
  lemma ReadName(name: string, n: string, key: string)
    requires n == Stripped(name) && key == Trimmed(n) && Canonical(key) && ".." !in Split(key, '/')
    ensures MadeOf(name, Split(key, '/'))
  {
    hide Split, Joined, Trimmed, Stripped, Canonical, Dots;
    PiecesClean(key);
    JoinedSplit(key, '/');
    TrimmedRest(n);
    PutTogether(name, name[..|name| - |n|], Split(key, '/'), n[|key|..]);
  }

  lemma TopStripped(name: string, dots: string, r: string)
    requires Dots(dots) && (r == "" || r == ".") && name == dots + r
    ensures Stripped(name) == r
  {
    StripDots(dots, r);
  }

  lemma TopSpelled(name: string, r: string)
    requires Stripped(name) == r && (r == "" || r == ".")
    ensures Dots(Spelling(name)) && name == Spelling(name) + r
  {
    hide Dots, Stripped;
    assert name == name[..|name| - |r|] + name[|name| - |r|..];
  }

  lemma TopRead(name: string)
    ensures IsTop(name) <==> Stripped(name) == "" || Stripped(name) == "."
  {
    hide Dots, Stripped;
    if IsTop(name) {
      var dots :| Dots(dots) && (name == dots || name == dots + ".");
      var r := if name == dots then "" else ".";
      assert name == dots + r;
      TopStripped(name, dots, r);
    }
    if Stripped(name) == "" || Stripped(name) == "." {
      TopSpelled(name, Stripped(name));
      assert Stripped(name) == "" ==> Spelling(name) + "" == Spelling(name);
    }
  }

  // ---- trees ------------------------------------------------------------------

  /** Under a tree by its text is under it by its pieces. */
  lemma UnderTree(key: string, tree: seq<string>)
    requires AllClean(tree)
    ensures Under(key, Joined(tree, '/')) <==> tree <= Split(key, '/')
  {
    var root, pieces := Joined(tree, '/'), Split(key, '/');
    PiecesFree(tree);
    if StartsWith(key, root + "/") {
      var rest := key[|root| + 1..];
      assert key == root + "/" + rest;
      SplitAppend(root, rest, '/');
    }
    if tree <= pieces {
      JoinedSplit(key, '/');
      var rest := pieces[|tree|..];
      assert pieces == tree + rest;
      if rest == [] {
        assert pieces == tree;
      } else {
        JoinedAppend(tree, rest, '/');
      }
    }
  }

  lemma JoinedTwo(a: string, b: string)
    ensures Joined([a, b], '/') == a + "/" + b
  {
    assert [a, b][1..] == [b];
  }

  lemma JoinedThree(a: string, b: string, c: string)
    ensures Joined([a, b, c], '/') == a + "/" + (b + "/" + c)
  {
    assert [a, b, c][1..] == [b, c];
    JoinedTwo(b, c);
  }

  lemma JoinedFour(a: string, b: string, c: string, d: string)
    ensures Joined([a, b, c, d], '/') == a + "/" + (b + "/" + (c + "/" + d))
  {
    assert [a, b, c, d][1..] == [b, c, d];
    JoinedThree(b, c, d);
  }

  lemma PairsSpelled()
    ensures Joined(HOME, '/') == HOME_REL && Joined(["usr", "local"], '/') == "usr/local"
  {
    JoinedTwo("home", "user");
    JoinedTwo("usr", "local");
    assert "home" + "/" + "user" == "home/user";
    assert "usr" + "/" + "local" == "usr/local";
  }

  lemma TriplesSpelled()
    ensures Joined(["var", "spool", "cron"], '/') == "var/spool/cron"
    ensures Joined(["var", "lib", "bashtion"], '/') == STATE_REL
  {
    JoinedThree("var", "spool", "cron");
    JoinedThree("var", "lib", "bashtion");
    assert "spool" + "/" + "cron" == "spool/cron";
    assert "var" + "/" + "spool/cron" == "var/spool/cron";
    assert "lib" + "/" + "bashtion" == "lib/bashtion";
    assert "var" + "/" + "lib/bashtion" == "var/lib/bashtion";
  }

  lemma SessionTail()
    ensures "lib" + "/" + ("bashtion" + "/" + "session.json") == "lib/bashtion/session.json"
  {
    assert "bashtion" + "/" + "session.json" == "bashtion/session.json";
  }

  lemma SessionText()
    ensures "var" + "/" + ("lib" + "/" + ("bashtion" + "/" + "session.json")) == SESSION_REL
  {
    SessionTail();
    assert "var" + "/" + "lib/bashtion/session.json" == "var/lib/bashtion/session.json";
  }

  lemma SessionSpelled()
    ensures Joined(SESSION, '/') == SESSION_REL
  {
    hide Joined, SESSION_REL;
    JoinedFour("var", "lib", "bashtion", "session.json");
    SessionText();
  }

  lemma MarkerTail()
    ensures "lib" + "/" + ("bashtion" + "/" + "archive-format-2") == "lib/bashtion/archive-format-2"
  {
    assert "bashtion" + "/" + "archive-format-2" == "bashtion/archive-format-2";
  }

  lemma MarkerText()
    ensures "usr" + "/" + ("lib" + "/" + ("bashtion" + "/" + "archive-format-2")) == MARKER_REL
  {
    MarkerTail();
    assert "usr" + "/" + "lib/bashtion/archive-format-2" == "usr/lib/bashtion/archive-format-2";
  }

  lemma MarkerSpelled()
    ensures Joined(MARKER, '/') == MARKER_REL
  {
    hide Joined, MARKER_REL;
    JoinedFour("usr", "lib", "bashtion", "archive-format-2");
    MarkerText();
  }

  lemma AreClean()
    ensures AllClean(HOME) && AllClean(SESSION) && AllClean(MARKER) && forall t :: t in TREES ==> AllClean(t)
  {
    SessionClean();
    MarkerClean();
    forall t | t in TREES ensures AllClean(t) {
      TreeClean(t);
    }
    assert HOME in TREES;
  }

  lemma SessionClean()
    ensures AllClean(SESSION)
  {}

  lemma MarkerClean()
    ensures AllClean(MARKER)
  {}

  lemma TreeClean(t: seq<string>)
    requires t in TREES
    ensures AllClean(t)
  {}

  /** The roots the check goes by are the trees. */
  lemma RootsAreTrees()
    ensures |ROOTS_REL| == |TREES| && forall i | 0 <= i < |TREES| :: ROOTS_REL[i] == Joined(TREES[i], '/')
  {
    PairsSpelled();
    TriplesSpelled();
    assert Joined(["etc"], '/') == "etc" && Joined(["opt"], '/') == "opt" && Joined(["srv"], '/') == "srv";
    assert Joined(["root"], '/') == "root";
    assert ROOTS_REL == [HOME_REL, "etc", "opt", "srv", "usr/local", "root", "var/spool/cron", STATE_REL];
  }

  lemma UnderRoots(key: string)
    ensures (exists r :: r in ROOTS_REL && Under(key, r)) <==> exists t :: t in TREES && t <= Split(key, '/')
  {
    RootsAreTrees();
    AreClean();
    if r :| r in ROOTS_REL && Under(key, r) {
      var i :| 0 <= i < |ROOTS_REL| && ROOTS_REL[i] == r;
      assert TREES[i] in TREES;
      UnderTree(key, TREES[i]);
    }
    if t :| t in TREES && t <= Split(key, '/') {
      var i :| 0 <= i < |TREES| && TREES[i] == t;
      UnderTree(key, t);
      assert ROOTS_REL[i] in ROOTS_REL;
    }
  }

  // ---- what the check says of a name -----------------------------------------

  /** Whether some name's check comes to what a name's own pieces say. */
  ghost predicate SaysOfPieces(name: string, v: Verdict) {
    && (!v.Refused? <==> Allowed(name))
    && (v.Marker? <==> MadeOf(name, MARKER))
    && (v.Member? <==> InSession(name))
    && (v.Member? ==> (v.key == SESSION_REL <==> MadeOf(name, SESSION)))
    && (v.Member? ==> (Under(v.key, HOME_REL) <==> InTree(name, HOME)))
  }

  /** What reading the name as pieces gives is all it can be read as. */
  lemma ReadOnce(name: string, pieces: seq<string>, other: seq<string>)
    requires MadeOf(name, pieces)
    ensures MadeOf(name, other) ==> other == pieces
    ensures InTree(name, other) <==> other <= pieces
  {
    NameRead(name, pieces);
    if MadeOf(name, other) {
      NameRead(name, other);
    }
    if InTree(name, other) {
      var more :| MadeOf(name, more) && other <= more;
      NameRead(name, more);
    }
  }

  lemma MadeOfKey(key: string, pieces: seq<string>, text: string)
    requires AllClean(pieces) && text == Joined(pieces, '/')
    ensures key == text <==> Split(key, '/') == pieces
  {
    PiecesFree(pieces);
    JoinedSplit(key, '/');
  }

  lemma KeySays(key: string, pieces: seq<string>)
    requires pieces == Split(key, '/')
    ensures key == MARKER_REL <==> pieces == MARKER
    ensures key == SESSION_REL <==> pieces == SESSION
    ensures Under(key, HOME_REL) <==> HOME <= pieces
    ensures (exists r :: r in ROOTS_REL && Under(key, r)) <==> exists t :: t in TREES && t <= pieces
  {
    hide Joined, Split, Under, MARKER_REL, SESSION_REL, HOME_REL, ROOTS_REL;
    AreClean();
    MarkerSpelled();
    MadeOfKey(key, MARKER, MARKER_REL);
    SessionSpelled();
    MadeOfKey(key, SESSION, SESSION_REL);
    PairsSpelled();
    UnderTree(key, HOME);
    UnderRoots(key);
  }

  lemma MarkerApart(pieces: seq<string>)
    requires pieces == MARKER
    ensures forall t :: t in TREES ==> !(t <= pieces)
  {
    forall t | t in TREES ensures !(t <= pieces) {
      assert pieces[0][0] == 'u' && pieces[1][1] == 'i';
      assert t[0][0] == 'u' ==> t[1][1] == 'o';
    }
  }

  lemma InSessionBy(name: string, pieces: seq<string>)
    requires MadeOf(name, pieces)
    ensures InSession(name) <==> exists t :: t in TREES && t <= pieces
    ensures MadeOf(name, MARKER) <==> pieces == MARKER
    ensures MadeOf(name, SESSION) <==> pieces == SESSION
    ensures InTree(name, HOME) <==> HOME <= pieces
  {
    hide MadeOf, InTree, TREES, MARKER, SESSION, HOME;
    ReadOnce(name, pieces, MARKER);
    ReadOnce(name, pieces, SESSION);
    ReadOnce(name, pieces, HOME);
    forall t ensures InTree(name, t) <==> t <= pieces {
      ReadOnce(name, pieces, t);
    }
  }

  lemma PlaceGives(key: string, roots: seq<string>, marker: string)
    ensures var v := Place(key, roots, marker);
            && !v.Nothing? && (v.Marker? <==> key == marker)
            && (v.Member? <==> key != marker && exists r :: r in roots && Under(key, r))
            && (v.Member? ==> v.key == key)
  {}

  lemma NotTop(name: string, pieces: seq<string>)
    requires MadeOf(name, pieces)
    ensures !IsTop(name)
  {
    NameRead(name, pieces);
    TopRead(name);
  }

  /** Of a name that can be read as pieces. */
  lemma ReadSays(name: string, key: string, v: Verdict)
    requires MadeOf(name, Split(key, '/')) && v == Place(key, ROOTS_REL, MARKER_REL)
    ensures SaysOfPieces(name, v)
  {
    hide Split, Place, MadeOf, InTree, InSession, IsTop, Under, TREES, MARKER, SESSION, HOME;
    hide MARKER_REL, SESSION_REL, HOME_REL, ROOTS_REL;
    var pieces := Split(key, '/');
    NotTop(name, pieces);
    KeySays(key, pieces);
    InSessionBy(name, pieces);
    PlaceGives(key, ROOTS_REL, MARKER_REL);
    if pieces == MARKER {
      MarkerApart(pieces);
    }
  }

  /** Of one that cannot. */
  lemma UnreadSays(name: string)
    requires forall pieces :: !MadeOf(name, pieces)
    ensures !InSession(name) && !MadeOf(name, MARKER) && (Allowed(name) <==> IsTop(name))
  {}

  lemma OnlyAsRead(name: string, pieces: seq<string>)
    requires MadeOf(name, pieces)
    ensures var n := Stripped(name);
            && n != "" && n != "." && n[0] != '/' && Canonical(Trimmed(n)) && ".." !in Split(Trimmed(n), '/')
            && pieces == Split(Trimmed(n), '/')
  {
    NameRead(name, pieces);
    assert forall p :: p in pieces ==> Clean(p);
  }

  /** A name is refused unless it is the top, the marker or in one of the eight trees, each
      spelled with leading ./ and trailing slashes at most: no .., no ., nothing empty and
      no leading slash anywhere in it. */
  lemma CheckSaysOfPieces(name: string)
    ensures SaysOfPieces(name, Check(name))
  {
    var n := Stripped(name);
    var key := Trimmed(n);
    TopRead(name);
    if n == "" || n == "." || n[0] == '/' || ".." in Split(key, '/') || !Canonical(key) {
      forall pieces ensures !MadeOf(name, pieces) {
        if MadeOf(name, pieces) {
          OnlyAsRead(name, pieces);
        }
      }
      UnreadSays(name);
    } else {
      ReadName(name, n, key);
      ReadSays(name, key, Check(name));
    }
  }

  // ---- where the pieces lead ----------------------------------------------------

  /** The directory the pieces lead to from /, as a system walks them. */
  function Walk(pieces: seq<string>): seq<string> {
    if pieces == [] then []
    else
      var at := Walk(pieces[..|pieces| - 1]);
      var p := pieces[|pieces| - 1];
      if p == "" || p == "." then at
      else if p == ".." then (if at == [] then [] else at[..|at| - 1])
      else at + [p]
  }

  /** Walked from /, the name leads into the tree, and on its way there and inside it never
      leaves the path to the tree or the tree. */
  ghost predicate StaysIn(name: string, tree: seq<string>) {
    var steps := Split(name, '/');
    && tree <= Walk(steps)
    && forall i | 0 <= i <= |steps| :: Walk(steps[..i]) <= tree || tree <= Walk(steps[..i])
  }

  predicate Idle(pieces: seq<string>) { forall p :: p in pieces ==> p == "" || p == "." }

  lemma {:induction false} WalkIdleAfter(a: seq<string>, b: seq<string>)
    requires Idle(b)
    ensures Walk(a + b) == Walk(a)
  {
    if b == [] {
      assert a + b == a;
    } else {
      var front := b[..|b| - 1];
      assert (a + b)[..|a + b| - 1] == a + front;
      assert b[|b| - 1] in b;
      assert forall p :: p in front ==> p in b;
      WalkIdleAfter(a, front);
    }
  }

  lemma {:induction false} WalkClean(a: seq<string>, pieces: seq<string>)
    requires Idle(a) && forall p :: p in pieces ==> Clean(p)
    ensures Walk(a + pieces) == pieces
  {
    if pieces == [] {
      WalkIdleAfter([], a);
      assert [] + a == a + pieces;
    } else {
      var front := pieces[..|pieces| - 1];
      assert (a + pieces)[..|a + pieces| - 1] == a + front;
      assert forall p :: p in front ==> p in pieces;
      WalkClean(a, front);
      assert Clean(pieces[|pieces| - 1]);
      assert pieces == front + [pieces[|pieces| - 1]];
    }
  }

  /** With no .. among them, the pieces lead only further down. */
  lemma {:induction false} OnlyDown(pieces: seq<string>, i: nat)
    requires i <= |pieces| && ".." !in pieces
    ensures Walk(pieces[..i]) <= Walk(pieces)
  {
    if i < |pieces| {
      var front := pieces[..|pieces| - 1];
      assert pieces[..i] == front[..i];
      OnlyDown(front, i);
    } else {
      assert pieces[..i] == pieces;
    }
  }

  lemma DotSlash(dots: string, n: string)
    requires StartsWith(dots, "./")
    ensures dots + n == "." + ['/'] + (dots[2..] + n)
  {
    assert dots == dots[..2] + dots[2..];
  }

  lemma {:induction false} DotsSplit(dots: string, n: string) returns (a: seq<string>)
    requires Dots(dots)
    ensures Idle(a) && Split(dots + n, '/') == a + Split(n, '/')
    decreases |dots|
  {
    if dots == "" {
      assert dots + n == n;
      a := [];
    } else {
      var more := dots[2..];
      assert dots[..2] == "./";
      DotSlash(dots, n);
      SplitFirst(".", more + n, '/');
      var b := DotsSplit(more, n);
      a := ["."] + b;
      assert ["."] + (b + Split(n, '/')) == a + Split(n, '/');
    }
  }

  lemma {:induction false} SlashesSplit(key: string, slashes: string) returns (b: seq<string>)
    requires Slashes(slashes)
    ensures Idle(b) && Split(key + slashes, '/') == Split(key, '/') + b
    decreases |slashes|
  {
    if slashes == "" {
      assert key + slashes == key;
      b := [];
    } else {
      var more := slashes[1..];
      assert slashes == "/" + more && key + slashes == key + "/" + more;
      SplitAppend(key, more, '/');
      assert "" + more == more;
      var c := SlashesSplit("", more);
      b := Split(more, '/');
      assert Split("", '/') == [""];
    }
  }

  lemma NameSplit(dots: string, pieces: seq<string>, slashes: string) returns (a: seq<string>, b: seq<string>)
    requires AllClean(pieces) && Dots(dots) && Slashes(slashes)
    ensures Idle(a) && Idle(b) && Split(dots + Joined(pieces, '/') + slashes, '/') == a + pieces + b
  {
    hide Split, Joined, Dots;
    var key := Joined(pieces, '/');
    a := DotsSplit(dots, key + slashes);
    b := SlashesSplit(key, slashes);
    assert dots + key + slashes == dots + (key + slashes);
    PiecesFree(pieces);
    assert a + (pieces + b) == a + pieces + b;
  }

  lemma NameWalks(name: string, pieces: seq<string>)
    requires MadeOf(name, pieces)
    ensures Walk(Split(name, '/')) == pieces && ".." !in Split(name, '/')
  {
    hide Split, Joined, Dots, Walk;
    var dots, slashes :| Dots(dots) && Slashes(slashes) && name == dots + Joined(pieces, '/') + slashes;
    var a, b := NameSplit(dots, pieces, slashes);
    WalkClean(a, pieces);
    WalkIdleAfter(a + pieces, b);
    assert forall p :: p in a + pieces + b <==> p in a || p in pieces || p in b;
  }

  /** Nothing under a tree ever leads out of it. */
  lemma TreeHolds(name: string, tree: seq<string>)
    requires InTree(name, tree)
    ensures StaysIn(name, tree)
  {
    var pieces :| MadeOf(name, pieces) && tree <= pieces;
    NameWalks(name, pieces);
    var steps := Split(name, '/');
    forall i | 0 <= i <= |steps| ensures Walk(steps[..i]) <= tree || tree <= Walk(steps[..i]) {
      OnlyDown(steps, i);
    }
  }
}
