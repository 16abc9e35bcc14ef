/** A restore up to the point of writing: which archives it stops at, and which members
    and deletions it goes on to apply. */
module Unpacking {
  import opened Options
  import opened Texts
  import opened Baseline
  import opened Selection
  import opened Names

  const FORMAT := 2

  /** session.json, as read out of the archive. */
  datatype Meta = Meta(format: Option<int>, build: Option<string>, deleted: seq<string>)

  datatype Plan = Stop | Apply(select: set<string>, full: bool, deletions: seq<string>)

  predicate Understood(meta: Option<Meta>) {
    meta.Some? && meta.value.format.Some? && 1 <= meta.value.format.value <= FORMAT
  }

  /** A build is named by a valid id or not at all. */
  function Named(build: Option<string>): Option<string> {
    if build.Some? && ValidId(build.value) then build else None
  }

  predicate SameBuild(meta: Option<Meta>, ours: Option<string>) {
    meta.Some? && Named(meta.value.build).Some? && Named(meta.value.build) == ours
  }

  /** Nothing is written for an archive that is none of ours, damaged, or too new. */
  ghost predicate Stops(listed: seq<Entry>, content: Option<Meta>) {
    || !Accepted(listed)
    || ((exists e :: e in listed && e.verdict.Marker?) && SessionNames(listed) == [])
    || |SessionNames(listed)| > 1
    || (|SessionNames(listed)| == 1 && (EndsInSlash(SessionNames(listed)[0]) || !Understood(content)))
  }

  predicate EndsInSlash(s: string) { s != "" && s[|s| - 1] == '/' }

  /** `cmd_unpack` as far as the selection: `content` is what the one session.json holds. */
  method PlanWith(names: seq<string>, read: string -> Entry, content: Option<Meta>, ours: Option<string>)
    returns (plan: Plan)
    ensures plan.Stop? <==> Stops(ReadAll(names, read), content)
    ensures plan.Apply? ==>
      && (plan.full <==> SessionNames(ReadAll(names, read)) != [] && SameBuild(content, ours))
      && plan.deletions == (if plan.full then content.value.deleted else [])
      && exists roots, home :: Gathered(ReadAll(names, read), roots, home)
                               && plan.select == if plan.full then roots else home
  {
    var refused, marked, sessions, roots, home := Scan(names, read);
    if refused || (marked && sessions == []) || |sessions| > 1 {
      return Stop;
    }
    var meta: Option<Meta> := None;
    if |sessions| == 1 {
      if EndsInSlash(sessions[0]) || !Understood(content) {
        return Stop;
      }
      meta := content;
    }
    var theirs := if meta.Some? then Named(meta.value.build) else None;
    var full := theirs.Some? && theirs == ours;
    plan := Apply(if full then roots else home, full, if full then meta.value.deleted else []);
    assert plan.select == if plan.full then roots else home;
  }

  lemma AllRead(names: seq<string>)
    ensures AllSay(ReadAll(names, Read), ROOTS_REL)
  {
    var listed := ReadAll(names, Read);
    forall e | e in listed ensures SaysOf(e, ROOTS_REL) {
      var i :| 0 <= i < |listed| && listed[i] == e;
      CheckSays(names[i]);
    }
  }

  lemma SelectsExactly(listed: seq<Entry>, plan: Plan, roots: set<string>, home: set<string>, e: Entry)
    requires plan.Apply? && Gathered(listed, roots, home) && plan.select == (if plan.full then roots else home)
    requires AllSay(listed, ROOTS_REL) && Accepted(listed) && e in listed
    ensures Extracted(plan.select, e.name) <==>
            e.verdict.Member? && (plan.full || Under(e.verdict.key, HOME_REL))
  {
    if plan.full {
      FullIsEverything(ROOTS_REL, listed, roots, home, e);
    } else {
      assert ROOTS_REL[0] == HOME_REL;
      HomeIsHome(ROOTS_REL, listed, roots, home, e);
    }
  }

  /** What a restore decides: to stop, or to extract every member but the marker on the
      build that saved the archive, just the home directory's on any other, and to replay
      deletions only on a match. */
  ghost predicate Planned(names: seq<string>, content: Option<Meta>, ours: Option<string>, plan: Plan) {
    var listed := ReadAll(names, Read);
    && (plan.Stop? <==> Stops(listed, content))
    && (plan.Apply? ==>
          && (plan.full <==> SessionNames(listed) != [] && SameBuild(content, ours))
          && plan.deletions == (if plan.full then content.value.deleted else [])
          && forall e :: e in listed ==>
               (Extracted(plan.select, e.name) <==> e.verdict.Member? && (plan.full || Under(e.verdict.key, HOME_REL))))
  }

  /** Format 1 or format 2, written as a number: nothing else is one this reads. */
  predicate OneOrTwo(content: Option<Meta>) {
    content.Some? && (content.value.format == Some(1) || content.value.format == Some(2))
  }

  /** Both builds are named, by a well-formed id, and it is the same. */
  predicate SameId(content: Option<Meta>, ours: Option<string>) {
    content.Some? && content.value.build == ours && ours.Some? && Hex64(ours.value)
  }

  lemma OnlyTwoFormats(content: Option<Meta>, ours: Option<string>)
    ensures Understood(content) == OneOrTwo(content) && SameBuild(content, ours) == SameId(content, ours)
  {
    if ours.Some? {
      ValidIsHex(ours.value);
    }
  }

  /** Two names in the listing say they are session.json. */
  ghost predicate TwoSessions(names: seq<string>) {
    exists i, j :: 0 <= i < j < |names| && MadeOf(names[i], SESSION) && MadeOf(names[j], SESSION)
  }

  /** Which archives a restore stops at, said of the names as they are listed. */
  ghost predicate Stopped(names: seq<string>, content: Option<Meta>) {
    || (exists n :: n in names && !Allowed(n))
    || ((exists n :: n in names && MadeOf(n, MARKER)) && !(exists n :: n in names && MadeOf(n, SESSION)))
    || TwoSessions(names)
    || (exists n :: n in names && MadeOf(n, SESSION) && (EndsInSlash(n) || !OneOrTwo(content)))
  }

  /** And what it extracts of the others. */
  ghost predicate PlannedByName(names: seq<string>, content: Option<Meta>, ours: Option<string>, plan: Plan) {
    && (plan.Stop? <==> Stopped(names, content))
    && (plan.Apply? ==>
          && (plan.full <==> (exists n :: n in names && MadeOf(n, SESSION)) && SameId(content, ours))
          && plan.deletions == (if plan.full then content.value.deleted else [])
          && forall n :: n in names ==>
               (Extracted(plan.select, n) <==> if plan.full then InSession(n) else InTree(n, HOME)))
  }

  lemma InTheState(name: string)
    ensures MadeOf(name, SESSION) ==> InSession(name)
  {
    if MadeOf(name, SESSION) {
      assert TREES[7] <= SESSION;
      assert TREES[7] in TREES && InTree(name, TREES[7]);
    }
  }

  lemma SaysOfEntry(name: string)
    ensures var e := Read(name);
            && SaysOfPieces(name, e.verdict) && e.name == name
            && (IsSession(e) <==> MadeOf(name, SESSION))
  {
    hide Check, InSession, InTree, MadeOf, IsTop, SESSION_REL;
    CheckSaysOfPieces(name);
    InTheState(name);
  }

  lemma ReadAllSnoc(names: seq<string>, read: string -> Entry)
    requires names != []
    ensures var k := |names| - 1; ReadAll(names, read) == ReadAll(names[..k], read) + [read(names[k])]
  {}

  /** The names that say they are session.json, none, one or more. */
  lemma {:induction false} SessionsByName(names: seq<string>)
    ensures var s := SessionNames(ReadAll(names, Read));
            && (forall n :: n in s <==> n in names && MadeOf(n, SESSION))
            && (|s| > 1 <==> TwoSessions(names))
  {
    hide Read, IsSession, MadeOf, TwoSessions, ReadAll, SESSION;
    if names == [] {
      NoneListed();
    } else {
      var k := |names| - 1;
      SessionsByName(names[..k]);
      SaysOfEntry(names[k]);
      ReadAllSnoc(names, Read);
      SessionsAppended(ReadAll(names[..k], Read), Read(names[k]));
      OneMoreSession(names, SessionNames(ReadAll(names[..k], Read)));
    }
  }

  lemma NoneListed()
    ensures SessionNames(ReadAll([], Read)) == [] && !TwoSessions([])
  {}

  lemma OneMoreSession(names: seq<string>, s: seq<string>)
    requires names != []
    requires var front := names[..|names| - 1];
             (forall n :: n in s <==> n in front && MadeOf(n, SESSION)) && (|s| > 1 <==> TwoSessions(front))
    ensures var last := names[|names| - 1];
            var t := s + if MadeOf(last, SESSION) then [last] else [];
            (forall n :: n in t <==> n in names && MadeOf(n, SESSION)) && (|t| > 1 <==> TwoSessions(names))
  {
    hide MadeOf, SESSION;
    TwoOrMore(names, s);
    var front, last := names[..|names| - 1], names[|names| - 1];
    assert forall n :: n in names <==> n in front || n == last by {
      assert names == front + [last];
    }
  }

  lemma TwoOrMore(names: seq<string>, s: seq<string>)
    requires names != []
    requires var front := names[..|names| - 1];
             (forall n :: n in s <==> n in front && MadeOf(n, SESSION)) && (|s| > 1 <==> TwoSessions(front))
    ensures TwoSessions(names) <==> |s| + (if MadeOf(names[|names| - 1], SESSION) then 1 else 0) > 1
  {
    hide MadeOf, SESSION;
    var k := |names| - 1;
    var front := names[..k];
    if TwoSessions(front) {
      var i, j :| 0 <= i < j < k && MadeOf(front[i], SESSION) && MadeOf(front[j], SESSION);
      assert names[i] == front[i] && names[j] == front[j];
    }
    if |s| > 0 && MadeOf(names[k], SESSION) {
      assert s[0] in s;
      var i :| 0 <= i < k && front[i] == s[0];
      assert names[i] == s[0];
    }
    if i, j :| 0 <= i < j <= k && MadeOf(names[i], SESSION) && MadeOf(names[j], SESSION) {
      assert front[i] == names[i] && front[i] in front;
      assert front[i] in s;
      if j < k {
        assert front[j] == names[j];
      }
    }
  }

  lemma ListedNames(names: seq<string>, read: string -> Entry)
    ensures forall n :: n in names ==> read(n) in ReadAll(names, read)
    ensures forall e :: e in ReadAll(names, read) ==> exists n :: n in names && e == read(n)
  {
    var listed := ReadAll(names, read);
    forall n | n in names ensures read(n) in listed {
      var i :| 0 <= i < |names| && names[i] == n;
      assert listed[i] == read(n);
    }
  }

  lemma AcceptedByName(names: seq<string>)
    ensures Accepted(ReadAll(names, Read)) <==> !exists n :: n in names && !Allowed(n)
    ensures (exists e :: e in ReadAll(names, Read) && e.verdict.Marker?) <==>
            exists n :: n in names && MadeOf(n, MARKER)
  {
    hide Read, ReadAll, MadeOf, Allowed, InSession, InTree, MARKER, SESSION, HOME, SESSION_REL, HOME_REL;
    ListedNames(names, Read);
    forall n ensures SaysOfPieces(n, Read(n).verdict) {
      SaysOfEntry(n);
    }
  }

  lemma OneOrNone(s: seq<string>, p: string -> bool)
    requires |s| <= 1
    ensures (|s| == 1 && p(s[0])) <==> exists n :: n in s && p(n)
  {
    assert |s| == 1 ==> s[0] in s;
  }

  lemma StopsByName(names: seq<string>, content: Option<Meta>)
    ensures Stops(ReadAll(names, Read), content) <==> Stopped(names, content)
  {
    hide Read, ReadAll, MadeOf, Allowed, Accepted, TwoSessions, MARKER, SESSION, SessionNames;
    var s := SessionNames(ReadAll(names, Read));
    OnlyTwoFormats(content, None);
    AcceptedByName(names);
    SessionsByName(names);
    assert s != [] ==> s[0] in s;
    if !TwoSessions(names) {
      OneOrNone(s, n => EndsInSlash(n) || !Understood(content));
    }
  }

  lemma HomeInSession(n: string)
    ensures InTree(n, HOME) ==> InSession(n)
  {
    assert TREES[0] in TREES;
  }

  lemma PlansByName(names: seq<string>, content: Option<Meta>, ours: Option<string>, plan: Plan)
    requires Planned(names, content, ours, plan)
    ensures PlannedByName(names, content, ours, plan)
  {
    hide Read, ReadAll, MadeOf, Allowed, Stops, Stopped, InSession, InTree, Extracted, Under, SameBuild;
    hide MARKER, SESSION, HOME, SESSION_REL, HOME_REL, SessionNames, SameId, OneOrTwo;
    StopsByName(names, content);
    OnlyTwoFormats(content, ours);
    SessionsByName(names);
    var s := SessionNames(ReadAll(names, Read));
    assert s != [] ==> s[0] in s;
    ListedNames(names, Read);
    forall n ensures SaysOfPieces(n, Read(n).verdict) && Read(n).name == n && (InTree(n, HOME) ==> InSession(n)) {
      SaysOfEntry(n);
      HomeInSession(n);
    }
  }

  /** Nothing a restore extracts leads, walked from / piece by piece, out of the trees - or,
      on another build, out of the home directory. */
  lemma ExtractedStays(names: seq<string>, content: Option<Meta>, ours: Option<string>, plan: Plan, n: string)
    requires PlannedByName(names, content, ours, plan) && plan.Apply?
    requires n in names && Extracted(plan.select, n)
    ensures exists t :: t in TREES && StaysIn(n, t)
    ensures !plan.full ==> StaysIn(n, HOME)
  {
    hide Stopped, SameId, Extracted, StaysIn;
    if plan.full {
      var t :| t in TREES && InTree(n, t);
      TreeHolds(n, t);
    } else {
      TreeHolds(n, HOME);
      assert HOME in TREES;
    }
  }

  lemma PlansAll(names: seq<string>, content: Option<Meta>, ours: Option<string>, plan: Plan)
    requires plan.Apply? && Accepted(ReadAll(names, Read))
    requires exists roots, home :: Gathered(ReadAll(names, Read), roots, home)
                                   && plan.select == if plan.full then roots else home
    ensures forall e :: e in ReadAll(names, Read) ==>
              (Extracted(plan.select, e.name) <==> e.verdict.Member? && (plan.full || Under(e.verdict.key, HOME_REL)))
  {
    hide Read;
    var listed := ReadAll(names, Read);
    AllRead(names);
    var roots, home :| Gathered(listed, roots, home) && plan.select == if plan.full then roots else home;
    forall e | e in listed
      ensures Extracted(plan.select, e.name) <==> e.verdict.Member? && (plan.full || Under(e.verdict.key, HOME_REL))
    {
      SelectsExactly(listed, plan, roots, home, e);
    }
  }

  method PlanRestore(names: seq<string>, content: Option<Meta>, ours: Option<string>) returns (plan: Plan)
    ensures Planned(names, content, ours, plan)
    ensures PlannedByName(names, content, ours, plan)
  {
    hide Read, Gathered, Extracted, PlannedByName;
    plan := PlanWith(names, Read, content, ours);
    if plan.Apply? {
      PlansAll(names, content, ours, plan);
    }
    PlansByName(names, content, ours, plan);
  }

  // ---- the format before ------------------------------------------------------

  /** Format 1's reading of a name: every leading dot and slash is dropped. */
  function StrippedOld(name: string): string {
    if name != "" && (name[0] == '.' || name[0] == '/') then StrippedOld(name[1..]) else name
  }

  predicate RefusedOldBy(name: string, roots: seq<string>) {
    var n := StrippedOld(name);
    n != "" && (n[0] == '/' || ".." in Split(n, '/') || forall r :: r in roots ==> !Under(n, r))
  }

  predicate RefusedOld(name: string) { RefusedOldBy(name, ROOTS_REL) }

  function LeadingOff(path: string): string {
    if path != "" && path[0] == '/' then LeadingOff(path[1..]) else path
  }

  /** The members `cmd_pack` lists, as tar names them: the two it stages come last. */
  function PackedNames(home: seq<string>, system: seq<string>): seq<string> {
    seq(|home + system|, i requires 0 <= i < |home + system| => LeadingOff((home + system)[i]))
    + [SESSION_REL, MARKER_REL]
  }

  lemma OldRefusesMarker()
    ensures RefusedOld(MARKER_REL)
  {
    assert StrippedOld(MARKER_REL) == MARKER_REL;
    forall r | r in ROOTS_REL ensures !Under(MARKER_REL, r) {
      RootsShaped(r);
    }
  }

  /** An unpacker from before format 2 refuses everything a format-2 pack writes - it meets
      a name it refuses before it extracts anything. */
  lemma OldRefusesNew(home: seq<string>, system: seq<string>)
    ensures exists m :: m in PackedNames(home, system) && RefusedOld(m)
  {
    OldRefusesMarker();
    var names := PackedNames(home, system);
    assert names[|names| - 1] == MARKER_REL;
  }

  // ---- what pack writes, unpack takes -----------------------------------------

  /** Absolute, canonical, and in one of the trees a save walks. */
  ghost predicate Walkable(path: string) {
    path != "" && path[0] == '/'
    && (var key := path[1..];
        Canonical(key) && ".." !in Split(key, '/')
        && exists r :: r in [HOME_REL] + SYSTEM_RELS && Under(key, r))
  }

  /** A text ending in a slash ends in an empty piece. */
  lemma {:induction false} EndsInEmptyPiece(s: string)
    requires EndsInSlash(s)
    ensures var p := Split(s, '/'); |p| > 1 && p[|p| - 1] == ""
    decreases |s|
  {
    if |s| > 1 {
      EndsInEmptyPiece(s[1..]);
    } else {
      assert s[1..] == "";
    }
  }

  /** A canonical name is already as stripped and trimmed as it gets. */
  lemma CanonicalAsIs(key: string)
    requires Canonical(key) && key != "" && key[0] != '.' && key[0] != '/'
    ensures Stripped(key) == key && LeadingOff(key) == key && Trimmed(key) == key
  {
    if EndsInSlash(key) {
      EndsInEmptyPiece(key);
    }
  }

  lemma JudgedByPlace(key: string, roots: seq<string>, marker: string)
    requires Canonical(key) && ".." !in Split(key, '/') && key != "" && key[0] != '.' && key[0] != '/'
    requires Trimmed(key) == key
    ensures Judge(key, roots, marker) == Place(key, roots, marker)
  {}

  /** A canonical name under some root is a member, with itself for a key. */
  lemma JudgesMember(key: string, roots: seq<string>, marker: string, r: string)
    requires forall x :: x in roots ==> RootShaped(x) && !Under(marker, x)
    requires Canonical(key) && ".." !in Split(key, '/') && r in roots && Under(key, r)
    ensures Stripped(key) == key && LeadingOff(key) == key
    ensures var v := Judge(key, roots, marker); v.Member? && v.key == key
  {
    FirstOfRoot(key, r);
    CanonicalAsIs(key);
    JudgedByPlace(key, roots, marker);
    FindsRoot(key, roots, marker, r);
  }

  lemma FirstOfRoot(key: string, r: string)
    requires RootShaped(r) && Under(key, r)
    ensures key != "" && key[0] != '.' && key[0] != '/'
  {
    assert key[0] == r[0];
  }

  lemma FindsRoot(key: string, roots: seq<string>, marker: string, r: string)
    requires r in roots && Under(key, r) && !Under(marker, r)
    ensures var v := Place(key, roots, marker); v.Member? && v.key == key
  {}

  lemma SessionElsewhere(r: string)
    requires r in [HOME_REL] + SYSTEM_RELS
    ensures r in ROOTS_REL && !Under(SESSION_REL, r)
  {
    var all := [HOME_REL] + SYSTEM_RELS;
    assert ROOTS_REL == all + [STATE_REL];
    assert all == [HOME_REL, "etc", "opt", "srv", "usr/local", "root", "var/spool/cron"];
    assert SESSION_REL[0] == 'v' && SESSION_REL[4] == 'l';
  }

  lemma WalkableIsMember(path: string)
    requires Walkable(path)
    ensures LeadingOff(path) == path[1..]
    ensures var e := Read(LeadingOff(path)); e.verdict.Member? && e.verdict.key == path[1..] && !IsSession(e)
  {
    var key := path[1..];
    var r :| r in [HOME_REL] + SYSTEM_RELS && Under(key, r);
    SessionElsewhere(r);
    AllShaped();
    JudgesMember(key, ROOTS_REL, MARKER_REL, r);
  }

  lemma PiecesCanonical(pieces: seq<string>)
    requires pieces != [] && Free(pieces, '/') && "" !in pieces && "." !in pieces && ".." !in pieces
    ensures Canonical(Joined(pieces, '/')) && ".." !in Split(Joined(pieces, '/'), '/')
  {
    SplitJoined(pieces, '/');
  }

  lemma SessionCanonical()
    ensures Canonical(SESSION_REL) && ".." !in Split(SESSION_REL, '/')
  {
    SessionSpelled();
    PiecesCanonical(SESSION);
  }

  lemma MarkerCanonical()
    ensures Canonical(MARKER_REL) && ".." !in Split(MARKER_REL, '/')
  {
    MarkerSpelled();
    PiecesCanonical(MARKER);
  }

  lemma ReadAsIs(name: string)
    requires Stripped(name) == name
    ensures Read(name).verdict == Judge(name, ROOTS_REL, MARKER_REL) && Read(name).name == name
  {}

  lemma SessionInState()
    ensures STATE_REL in ROOTS_REL && Under(SESSION_REL, STATE_REL)
  {
    assert ROOTS_REL[7] == STATE_REL;
  }

  lemma SessionIsMember()
    ensures Read(SESSION_REL).verdict.Member? && IsSession(Read(SESSION_REL)) && Read(SESSION_REL).name == SESSION_REL
  {
    SessionCanonical();
    AllShaped();
    SessionInState();
    JudgesMember(SESSION_REL, ROOTS_REL, MARKER_REL, STATE_REL);
    ReadAsIs(SESSION_REL);
  }

  lemma MarkerJudged(marker: string, roots: seq<string>)
    requires Canonical(marker) && ".." !in Split(marker, '/') && marker != "" && marker[0] != '.' && marker[0] != '/'
    ensures Stripped(marker) == marker && Judge(marker, roots, marker).Marker?
  {
    CanonicalAsIs(marker);
    JudgedByPlace(marker, roots, marker);
  }

  lemma MarkerIsMarker()
    ensures Read(MARKER_REL).verdict.Marker?
  {
    MarkerCanonical();
    MarkerJudged(MARKER_REL, ROOTS_REL);
    ReadAsIs(MARKER_REL);
  }

  lemma {:induction false} NoSessions(listed: seq<Entry>)
    requires forall e :: e in listed ==> !IsSession(e)
    ensures SessionNames(listed) == []
  {
    if listed != [] {
      NoSessions(listed[..|listed| - 1]);
    }
  }

  lemma SessionsAppended(a: seq<Entry>, e: Entry)
    ensures SessionNames(a + [e]) == SessionNames(a) + if IsSession(e) then [e.name] else []
  {
    assert (a + [e])[..|a|] == a;
  }

  lemma OneSession(a: seq<Entry>, session: Entry, marker: Entry)
    requires (forall e :: e in a ==> !IsSession(e)) && IsSession(session) && marker.verdict.Marker?
    ensures SessionNames(a + [session] + [marker]) == [session.name]
  {
    NoSessions(a);
    SessionsAppended(a, session);
    SessionsAppended(a + [session], marker);
  }

  function PathNames(paths: seq<string>): seq<string> {
    seq(|paths|, i requires 0 <= i < |paths| => LeadingOff(paths[i]))
  }

  lemma PathsAreMembers(paths: seq<string>)
    requires forall p :: p in paths ==> Walkable(p)
    ensures forall e :: e in ReadAll(PathNames(paths), Read) ==> e.verdict.Member? && !IsSession(e)
  {
    var listed := ReadAll(PathNames(paths), Read);
    forall e | e in listed ensures e.verdict.Member? && !IsSession(e) {
      var i :| 0 <= i < |listed| && listed[i] == e;
      WalkableIsMember(paths[i]);
    }
  }

  /** Whatever it walked, what `cmd_pack` writes is accepted, marked, and carries one
      session.json: a restore on the build it was saved on takes every path of it. */
  lemma PackedIsTaken(home: seq<string>, system: seq<string>)
    requires forall p :: p in home + system ==> Walkable(p)
    ensures var listed := ReadAll(PackedNames(home, system), Read);
            && Accepted(listed) && SessionNames(listed) == [SESSION_REL]
            && (exists e :: e in listed && e.verdict.Marker?)
            && forall e :: e in listed ==> e.verdict.Member? || e.verdict.Marker?
  {
    var a := ReadAll(PathNames(home + system), Read);
    PathsAreMembers(home + system);
    SessionIsMember();
    MarkerIsMarker();
    PackedReads(home, system);
    TakenWhole(a, Read(SESSION_REL), Read(MARKER_REL));
  }

  lemma PackedReads(home: seq<string>, system: seq<string>)
    ensures ReadAll(PackedNames(home, system), Read)
         == ReadAll(PathNames(home + system), Read) + [Read(SESSION_REL)] + [Read(MARKER_REL)]
  {
    ReadAppended(PathNames(home + system), SESSION_REL, MARKER_REL, Read);
    assert PackedNames(home, system) == PathNames(home + system) + [SESSION_REL, MARKER_REL];
  }

  lemma ReadAppended(names: seq<string>, x: string, y: string, read: string -> Entry)
    ensures ReadAll(names + [x, y], read) == ReadAll(names, read) + [read(x)] + [read(y)]
  {}

  lemma TakenWhole(a: seq<Entry>, session: Entry, marker: Entry)
    requires forall e :: e in a ==> e.verdict.Member? && !IsSession(e)
    requires IsSession(session) && marker.verdict.Marker?
    ensures var listed := a + [session] + [marker];
            && Accepted(listed) && SessionNames(listed) == [session.name]
            && (exists e :: e in listed && e.verdict.Marker?)
            && forall e :: e in listed ==> e.verdict.Member? || e.verdict.Marker?
  {
    var listed := a + [session] + [marker];
    OneSession(a, session, marker);
    assert marker in listed;
  }

  lemma PackedGoesAhead(home: seq<string>, system: seq<string>, meta: Meta)
    requires (forall p :: p in home + system ==> Walkable(p)) && meta.format == Some(FORMAT)
    ensures var listed := ReadAll(PackedNames(home, system), Read);
            !Stops(listed, Some(meta)) && SessionNames(listed) != []
  {
    hide Read, IsSession;
    PackedIsTaken(home, system);
    assert !EndsInSlash(SESSION_REL);
  }

  lemma PackedMember(home: seq<string>, system: seq<string>, i: nat)
    requires i < |home + system| && Walkable((home + system)[i])
    ensures var names := PackedNames(home, system);
            var e := Read(names[i]);
            e in ReadAll(names, Read) && e.verdict.Member? && e.verdict.key == names[i] && e.name == names[i]
  {
    var names := PackedNames(home, system);
    assert ReadAll(names, Read)[i] == Read(names[i]);
    WalkableIsMember((home + system)[i]);
  }

  /** Of what `cmd_pack` writes, a restore extracts every walked path on the build that
      saved it, and on any other those of the home directory alone. */
  lemma PackedPlan(home: seq<string>, system: seq<string>, meta: Meta, ours: Option<string>, plan: Plan)
    requires (forall p :: p in home + system ==> Walkable(p)) && meta.format == Some(FORMAT)
    requires Planned(PackedNames(home, system), Some(meta), ours, plan)
    ensures plan.Apply? && (plan.full <==> SameBuild(Some(meta), ours))
    ensures plan.deletions == if plan.full then meta.deleted else []
    ensures var names := PackedNames(home, system);
            forall i :: 0 <= i < |home + system| ==>
              (Extracted(plan.select, names[i]) <==> plan.full || Under(names[i], HOME_REL))
  {
    hide Read, Stops;
    var names := PackedNames(home, system);
    PackedGoesAhead(home, system, meta);
    forall i | 0 <= i < |home + system|
      ensures Extracted(plan.select, names[i]) <==> plan.full || Under(names[i], HOME_REL)
    {
      assert (home + system)[i] in home + system;
      PackedMember(home, system, i);
    }
  }
}
