/** What a restore takes out of an archive: the check of every member's name, and the
    names tar is told to extract. */
module Selection {
  import opened Sequences
  import opened Options
  import opened Texts

  const HOME_REL := "home/user"
  const SYSTEM_RELS := ["etc", "opt", "srv", "usr/local", "root", "var/spool/cron"]
  const STATE_REL := "var/lib/bashtion"
  const ROOTS_REL := [HOME_REL] + SYSTEM_RELS + [STATE_REL]
  const SESSION_REL := "var/lib/bashtion/session.json"
  const MARKER_REL := "usr/lib/bashtion/archive-format-2"

  // ---- names --------------------------------------------------------------

  predicate StartsWith(s: string, p: string) { |p| <= |s| && s[..|p|] == p }

  /** `key` is the tree's root or something in it. */
  predicate Under(key: string, root: string) { key == root || StartsWith(key, root + "/") }

  /** A leading ./ is only a way of spelling a name. */
  function Stripped(name: string): (n: string)
    ensures |n| <= |name| && name[|name| - |n|..] == n && !StartsWith(n, "./")
    ensures Dots(name[..|name| - |n|])
  {
    if StartsWith(name, "./") then
      var n := Stripped(name[2..]);
      assert name[2..][|name| - 2 - |n|..] == name[|name| - |n|..];
      assert name[..|name| - |n|][2..] == name[2..][..|name| - 2 - |n|];
      assert name[..|name| - |n|][..2] == "./";
      n
    else
      assert name[|name| - |name|..] == name;
      name
  }

  /** What was dropped from it. */
  function Spelling(name: string): string { name[..|name| - |Stripped(name)|] }

  predicate Dots(s: string) { s == "" || (StartsWith(s, "./") && Dots(s[2..])) }

  /** rstrip('/'). */
  function Trimmed(n: string): (t: string)
    ensures StartsWith(n, t)
  {
    if n != "" && n[|n| - 1] == '/' then Trimmed(n[..|n| - 1]) else n
  }

  /** normpath leaves it alone. */
  predicate Canonical(key: string) { "" !in Split(key, '/') && "." !in Split(key, '/') }

  /** What the check of one listed name comes to. */
  datatype Verdict = Nothing | Refused | Marker | Member(key: string, root: string)

  /** The first of the roots the key is under. */
  function RootOf(key: string, roots: seq<string>): (r: Option<string>)
    ensures r.Some? <==> exists k :: k in roots && Under(key, k)
    ensures r.Some? ==> r.value in roots && Under(key, r.value)
    ensures roots != [] && Under(key, roots[0]) ==> r == Some(roots[0])
  {
    if roots == [] then None
    else if Under(key, roots[0]) then Some(roots[0])
    else
      assert forall k :: k in roots <==> k == roots[0] || k in roots[1..];
      RootOf(key, roots[1..])
  }

  /** Where a canonical key belongs, if anywhere. */
  function Place(key: string, roots: seq<string>, marker: string): Verdict {
    if key == marker then Marker
    else
      var root := RootOf(key, roots);
      if root.None? then Refused else Member(key, root.value)
  }

  /** The check of a name already stripped. */
  function Judge(n: string, roots: seq<string>, marker: string): Verdict {
    if n == "" || n == "." then Nothing
    else
      var key := Trimmed(n);
      if n[0] == '/' || ".." in Split(key, '/') || !Canonical(key) then Refused
      else Place(key, roots, marker)
  }

  function Check(name: string): Verdict { Judge(Stripped(name), ROOTS_REL, MARKER_REL) }

  /** A name as listed, the ./ it is spelled with, and what its check came to. */
  datatype Entry = Entry(name: string, spelling: string, verdict: Verdict)

  function Read(name: string): Entry { Entry(name, Spelling(name), Check(name)) }

  function ReadAll(names: seq<string>, read: string -> Entry): (r: seq<Entry>)
    ensures |r| == |names|
  {
    seq(|names|, i requires 0 <= i < |names| => read(names[i]))
  }

  // ---- the scan -----------------------------------------------------------

  ghost predicate Accepted(listed: seq<Entry>) { forall e :: e in listed ==> !e.verdict.Refused? }

  /** `s` is the entry's root as the entry spells it. */
  predicate Spells(e: Entry, s: string) { e.verdict.Member? && s == e.spelling + e.verdict.root }

  predicate SpellsHome(e: Entry, s: string) { Spells(e, s) && e.verdict.root == HOME_REL }

  predicate IsSession(e: Entry) { e.verdict.Member? && e.verdict.key == SESSION_REL }

  /** The roots the entries need, each as its own entries spell it. */
  ghost predicate Gathered(listed: seq<Entry>, roots: set<string>, home: set<string>) {
    && (forall s :: s in roots <==> exists e :: e in listed && Spells(e, s))
    && (forall s :: s in home <==> exists e :: e in listed && SpellsHome(e, s))
  }

  ghost predicate Sifted(listed: seq<Entry>, marked: bool, sessions: seq<string>, roots: set<string>,
                         home: set<string>)
  {
    && Accepted(listed)
    && (marked <==> exists e :: e in listed && e.verdict.Marker?)
    && sessions == SessionNames(listed)
    && Gathered(listed, roots, home)
  }

  function SessionNames(listed: seq<Entry>): seq<string> {
    if listed == [] then []
    else
      var e := listed[|listed| - 1];
      SessionNames(listed[..|listed| - 1]) + if IsSession(e) then [e.name] else []
  }

  /** The loop over the listing: refused at the first bad name, or all it gathers. */
  method Scan(names: seq<string>, read: string -> Entry)
    returns (refused: bool, marked: bool, sessions: seq<string>, roots: set<string>, home: set<string>)
    ensures refused <==> !Accepted(ReadAll(names, read))
    ensures !refused ==> Sifted(ReadAll(names, read), marked, sessions, roots, home)
  {
    refused, marked, sessions, roots, home := false, false, [], {}, {};
    ghost var listed := ReadAll(names, read);
    for i := 0 to |names|
      invariant !refused && Sifted(listed[..i], marked, sessions, roots, home)
    {
      var e := read(names[i]);
      assert listed[i] == e && listed[..i + 1] == listed[..i] + [e];
      if e.verdict.Refused? {
        assert e in listed;
        refused := true;
        return;
      }
      SiftedOne(listed[..i], marked, sessions, roots, home, e);
      match e.verdict {
        case Nothing =>
        case Refused => assert false;
        case Marker =>
          marked := true;
        case Member(key, root) =>
          if key == SESSION_REL {
            sessions := sessions + [e.name];
          }
          roots := roots + {e.spelling + root};
          if root == HOME_REL {
            home := home + {e.spelling + root};
          }
      }
    }
    assert listed[..|names|] == listed;
  }

  lemma SiftedOne(listed: seq<Entry>, marked: bool, sessions: seq<string>, roots: set<string>, home: set<string>,
                  e: Entry)
    requires Sifted(listed, marked, sessions, roots, home) && !e.verdict.Refused?
    ensures Sifted(listed + [e], marked || e.verdict.Marker?,
                   sessions + (if IsSession(e) then [e.name] else []),
                   roots + (if e.verdict.Member? then {e.spelling + e.verdict.root} else {}),
                   home + (if e.verdict.Member? && e.verdict.root == HOME_REL
                           then {e.spelling + e.verdict.root} else {}))
  {
    var all := listed + [e];
    assert all[..|listed|] == listed;
    assert forall x :: x in all <==> x in listed || x == e;
    var s := if e.verdict.Member? then {e.spelling + e.verdict.root} else {};
    forall x ensures x in roots + s <==> exists m :: m in all && Spells(m, x) {
      SpelledIn(listed, e, x);
    }
    var h := if e.verdict.Member? && e.verdict.root == HOME_REL then s else {};
    forall x ensures x in home + h <==> exists m :: m in all && SpellsHome(m, x) {
      SpelledIn(listed, e, x);
    }
  }

  lemma SpelledIn(listed: seq<Entry>, e: Entry, x: string)
    ensures (exists m :: m in listed + [e] && Spells(m, x))
       <==> (exists m :: m in listed && Spells(m, x)) || Spells(e, x)
    ensures (exists m :: m in listed + [e] && SpellsHome(m, x))
       <==> (exists m :: m in listed && SpellsHome(m, x)) || SpellsHome(e, x)
  {
    assert forall m :: m in listed + [e] <==> m in listed || m == e;
  }

  // ---- what tar extracts ----------------------------------------------------

  /** tar takes a member named exactly so, or under a directory named so. */
  predicate Matches(name: string, s: string) { Trimmed(name) == s || StartsWith(name, s + "/") }

  predicate Extracted(select: set<string>, name: string) { exists s :: s in select && Matches(name, s) }

  lemma {:induction false} StripDots(pre: string, r: string)
    requires Dots(pre) && !StartsWith(r, "./")
    ensures Stripped(pre + r) == r
    decreases |pre|
  {
    if pre == "" {
      assert pre + r == r;
    } else {
      var s := pre + r;
      assert s[..2] == pre[..2] == "./" && s[2..] == pre[2..] + r;
      StripDots(pre[2..], r);
    }
  }

  lemma {:induction false} TrimmedAfter(pre: string, n: string)
    requires n != "" && n[0] != '/'
    ensures Trimmed(pre + n) == pre + Trimmed(n) && Trimmed(n) != ""
    decreases |n|
  {
    var s := pre + n;
    if n[|n| - 1] == '/' {
      TrimmedAfter(pre, n[..|n| - 1]);
      assert s[..|s| - 1] == pre + n[..|n| - 1];
    }
  }

  /** What trimming takes off is slashes, so a name in a tree trims to one in it. */
  lemma {:induction false} TrimmedUnder(n: string, r: string)
    requires r != "" && r[|r| - 1] != '/'
    ensures Under(Trimmed(n), r) <==> Trimmed(n) == r || StartsWith(n, r + "/")
    decreases |n|
  {
    if n != "" && n[|n| - 1] == '/' {
      var m := n[..|n| - 1];
      TrimmedUnder(m, r);
      SlashOff(n, r);
    }
  }

  lemma SlashOff(n: string, r: string)
    requires n != "" && n[|n| - 1] == '/' && r != "" && r[|r| - 1] != '/'
    ensures var m := n[..|n| - 1];
            (StartsWith(m, r + "/") ==> StartsWith(n, r + "/"))
            && (StartsWith(n, r + "/") ==> StartsWith(m, r + "/") || (m == r && Trimmed(n) == r))
  {
    var m := n[..|n| - 1];
    if StartsWith(m, r + "/") {
      assert n[..|r| + 1] == m[..|r| + 1];
    }
    if StartsWith(n, r + "/") {
      if |m| > |r| {
        assert m[..|r| + 1] == n[..|r| + 1];
      } else {
        assert m == n[..|r| + 1][..|r|] == r;
      }
    }
  }

  /** Shaped like a root: nothing a ./ could run into, no slash at either end. */
  predicate RootShaped(r: string) { r != "" && r[0] != '.' && r[0] != '/' && r[|r| - 1] != '/' }

  /** A root selected as some name spells it takes only names under it spelled so. */
  lemma SelectedUnder(name: string, pre: string, r: string)
    requires Dots(pre) && RootShaped(r) && Matches(name, pre + r)
    ensures var n := Stripped(name);
            Spelling(name) == pre && n != "" && n != "." && n[0] != '/' && Under(Trimmed(n), r)
  {
    var n := AfterSpelling(name, pre, r);
    StripDots(pre, n);
    UnderAfter(name, pre, n, r);
  }

  lemma UnderAfter(name: string, pre: string, n: string, r: string)
    requires RootShaped(r) && Matches(name, pre + r) && name == pre + n && n != "" && n[0] != '/'
    ensures Under(Trimmed(n), r)
  {
    TrimmedAfter(pre, n);
    Cancel(pre, Trimmed(n), r);
    TrimmedUnder(n, r);
    if StartsWith(name, pre + r + "/") {
      assert n[..|r| + 1] == (pre + r + "/")[|pre|..] == r + "/";
    }
  }

  lemma Cancel(pre: string, a: string, b: string)
    ensures pre + a == pre + b ==> a == b
  {
    assert (pre + a)[|pre|..] == a && (pre + b)[|pre|..] == b;
  }

  lemma AfterSpelling(name: string, pre: string, r: string) returns (n: string)
    requires RootShaped(r) && Matches(name, pre + r)
    ensures name == pre + n && StartsWith(n, r) && n != "" && n[0] == r[0] && !StartsWith(n, "./") && n != "."
  {
    if Trimmed(name) != pre + r {
      assert name[..|pre + r|] == (pre + r + "/")[..|pre + r|] == pre + r;
    }
    assert StartsWith(name, pre + r);
    n := name[|pre|..];
    assert name[..|pre|] == (pre + r)[..|pre|] == pre;
    assert n[..|r|] == (pre + r)[|pre|..] == r;
    assert n[0] == r[0];
  }

  lemma UnderMatches(name: string, pre: string, n: string, r: string)
    requires RootShaped(r) && name == pre + n && n != "" && n[0] != '/' && Under(Trimmed(n), r)
    ensures Matches(name, pre + r)
  {
    TrimmedAfter(pre, n);
    TrimmedUnder(n, r);
    if Trimmed(n) != r {
      Prefixed(pre, n, r + "/");
      Regrouped(pre, r, "/");
    }
  }

  lemma Prefixed(pre: string, n: string, q: string)
    requires StartsWith(n, q)
    ensures StartsWith(pre + n, pre + q)
  {
    assert (pre + n)[..|pre| + |q|] == pre + n[..|q|];
  }

  /** What a verdict says of the name stripped to `n`, without how it was come to. */
  ghost predicate Judged(n: string, v: Verdict, roots: seq<string>) {
    && (v.Member? ==>
          && n != "" && n[0] != '/' && v.key == Trimmed(n)
          && RootShaped(v.root) && v.root in roots && Under(v.key, v.root))
    && (!v.Refused? && !v.Member? && n != "" && n != "." && n[0] != '/' ==>
          forall r :: r in roots ==> !Under(Trimmed(n), r))
    && (v.Member? && roots != [] && Under(v.key, roots[0]) ==> v.root == roots[0])
  }

  lemma JudgeSays(n: string, roots: seq<string>, marker: string)
    requires forall r :: r in roots ==> RootShaped(r) && !Under(marker, r)
    ensures Judged(n, Judge(n, roots, marker), roots)
  {
    PlaceSays(Trimmed(n), roots, marker);
  }

  lemma PlaceSays(key: string, roots: seq<string>, marker: string)
    requires forall r :: r in roots ==> RootShaped(r) && !Under(marker, r)
    ensures var v := Place(key, roots, marker);
            && !v.Nothing?
            && (v.Member? ==> v.key == key && RootShaped(v.root) && v.root in roots && Under(key, v.root))
            && (v.Marker? ==> forall r :: r in roots ==> !Under(key, r))
            && (v.Member? && roots != [] && Under(key, roots[0]) ==> v.root == roots[0])
  {}

  ghost predicate SaysOf(e: Entry, roots: seq<string>) {
    && e.name == e.spelling + Stripped(e.name) && e.spelling == Spelling(e.name) && Dots(e.spelling)
    && Judged(Stripped(e.name), e.verdict, roots)
  }

  lemma SelectedIsMember(e: Entry, m: Entry, roots: seq<string>)
    requires SaysOf(e, roots) && SaysOf(m, roots) && m.verdict.Member? && !e.verdict.Refused?
    requires Matches(e.name, m.spelling + m.verdict.root)
    ensures e.verdict.Member? && Under(e.verdict.key, m.verdict.root)
  {
    SelectedUnder(e.name, m.spelling, m.verdict.root);
  }

  lemma MemberMatches(e: Entry, roots: seq<string>)
    requires SaysOf(e, roots) && e.verdict.Member?
    ensures Matches(e.name, e.spelling + e.verdict.root)
  {
    UnderMatches(e.name, e.spelling, Stripped(e.name), e.verdict.root);
  }

  ghost predicate Says(e: Entry) { SaysOf(e, ROOTS_REL) }

  lemma RootsShaped(r: string)
    requires r in ROOTS_REL
    ensures RootShaped(r) && !Under(MARKER_REL, r)
  {
    assert ROOTS_REL == [HOME_REL, "etc", "opt", "srv", "usr/local", "root", "var/spool/cron", STATE_REL];
    assert MARKER_REL[0] == 'u' && MARKER_REL[5] == 'i';
  }

  lemma SaysFrom(name: string, v: Verdict, roots: seq<string>)
    requires Judged(Stripped(name), v, roots)
    ensures SaysOf(Entry(name, Spelling(name), v), roots)
  {
    assert name == Spelling(name) + Stripped(name);
  }

  lemma AllShaped()
    ensures forall r :: r in ROOTS_REL ==> RootShaped(r) && !Under(MARKER_REL, r)
  {
    forall r | r in ROOTS_REL ensures RootShaped(r) && !Under(MARKER_REL, r) {
      RootsShaped(r);
    }
  }

  lemma CheckSays(name: string)
    ensures Says(Read(name))
  {
    AllShaped();
    JudgeSays(Stripped(name), ROOTS_REL, MARKER_REL);
    SaysFrom(name, Check(name), ROOTS_REL);
  }

  lemma ChosenBy(listed: seq<Entry>, roots: set<string>, home: set<string>, name: string) returns (m: Entry)
    requires Gathered(listed, roots, home) && Extracted(roots, name)
    ensures m in listed && m.verdict.Member? && Matches(name, m.spelling + m.verdict.root)
  {
    var s :| s in roots && Matches(name, s);
    m :| m in listed && Spells(m, s);
  }

  lemma ChosenByHome(listed: seq<Entry>, roots: set<string>, home: set<string>, name: string) returns (m: Entry)
    requires Gathered(listed, roots, home) && Extracted(home, name)
    ensures m in listed && m.verdict.Member? && m.verdict.root == HOME_REL
            && Matches(name, m.spelling + m.verdict.root)
  {
    var s :| s in home && Matches(name, s);
    m :| m in listed && SpellsHome(m, s);
  }

  lemma Chooses(listed: seq<Entry>, roots: set<string>, home: set<string>, e: Entry)
    requires Gathered(listed, roots, home) && e in listed && e.verdict.Member?
    requires Matches(e.name, e.spelling + e.verdict.root)
    ensures Extracted(roots, e.name) && (e.verdict.root == HOME_REL ==> Extracted(home, e.name))
  {
    var s := e.spelling + e.verdict.root;
    assert Spells(e, s);
    assert e.verdict.root == HOME_REL ==> SpellsHome(e, s);
  }

  ghost predicate AllSay(listed: seq<Entry>, all: seq<string>) { forall x :: x in listed ==> SaysOf(x, all) }

  /** On the build that saved it, an accepted archive gives up every member but the marker -
      however its names are spelled. */
  lemma FullIsEverything(all: seq<string>, listed: seq<Entry>, roots: set<string>, home: set<string>, e: Entry)
    requires AllSay(listed, all) && Accepted(listed) && Gathered(listed, roots, home) && e in listed
    ensures Extracted(roots, e.name) <==> e.verdict.Member?
  {
    if e.verdict.Member? {
      MemberMatches(e, all);
      Chooses(listed, roots, home, e);
    } else if Extracted(roots, e.name) {
      var m := ChosenBy(listed, roots, home, e.name);
      SelectedIsMember(e, m, all);
    }
  }

  /** On any other it gives up just the members of the home directory. */
  lemma HomeIsHome(all: seq<string>, listed: seq<Entry>, roots: set<string>, home: set<string>, e: Entry)
    requires all != [] && all[0] == HOME_REL
    requires AllSay(listed, all) && Accepted(listed) && Gathered(listed, roots, home) && e in listed
    ensures Extracted(home, e.name) <==> e.verdict.Member? && Under(e.verdict.key, HOME_REL)
  {
    if e.verdict.Member? && Under(e.verdict.key, HOME_REL) {
      MemberMatches(e, all);
      Chooses(listed, roots, home, e);
    } else if Extracted(home, e.name) {
      var m := ChosenByHome(listed, roots, home, e.name);
      SelectedIsMember(e, m, all);
    }
  }
}
