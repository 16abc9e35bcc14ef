/** A resize does not reflow: the line the cursor is on reads the same whatever the
    width becomes, and the cursor stays on the same row of the whole buffer. */
module Resizing {
  import opened Arithmetic
  import opened Sequences
  import opened Options
  import opened Cells
  import opened Parser
  import opened Terminal
  import opened Reading
  import opened Trimming
  import opened Typing

  /** Rows are only ever added or dropped at the bottom. */
  ghost predicate SameAbove(a: seq<Row>, b: seq<Row>) {
    (|b| <= |a| && b == a[..|b|]) || (|b| > |a| && b == a + BlankRows(|b| - |a|))
  }

  function All(b: Buffer): seq<Row> { b.scroll + b.view }

  lemma GrownAbove(scroll: seq<Row>, view: seq<Row>, at: nat, blank: seq<Row>)
    requires at <= |scroll|
    ensures scroll[..at] + (scroll[at..] + view + blank) == scroll + view + blank
  {}

  lemma ShrunkAbove(scroll: seq<Row>, view: seq<Row>, dropped: nat, m: nat)
    requires dropped <= |view| && m <= |view| - dropped
    ensures var v := view[..|view| - dropped]; var all := scroll + view;
            (scroll + v[..m]) + v[m..] == all[..|all| - dropped]
  {}

  lemma GrowKeepsRows(b: Buffer, y: nat, rows: nat)
    requires y < |b.view| <= rows
    ensures var (r, z) := FitActive(b, y, rows);
            && |r.scroll| + z == |b.scroll| + y < |All(r)| && SameAbove(All(b), All(r))
  {
    var d := rows - |b.view|;
    var k := Pull(b, y, d);
    GrownAbove(b.scroll, b.view, |b.scroll| - k, BlankRows(d - k));
  }

  lemma ShrinkKeepsRows(b: Buffer, y: nat, rows: nat)
    requires y < |b.view| && 1 <= rows < |b.view|
    ensures var (r, z) := FitActive(b, y, rows);
            && |r.scroll| + z == |b.scroll| + y < |All(r)| && SameAbove(All(b), All(r))
  {
    var dropped := Min(|b.view| - 1 - y, |b.view| - rows);
    ShrunkAbove(b.scroll, b.view, dropped, |b.view| - rows - dropped);
  }

  lemma BufferKeepsRows(b: Buffer, y: nat, rows: nat)
    requires y < |b.view| && rows >= 1
    ensures var (r, z) := FitActive(b, y, rows);
            && |r.scroll| + z == |b.scroll| + y < |All(r)| && SameAbove(All(b), All(r))
  {
    if |b.view| <= rows {
      GrowKeepsRows(b, y, rows);
    } else {
      ShrinkKeepsRows(b, y, rows);
    }
  }

  lemma FitKeepsRows(t: Term, cols: nat, rows: nat)
    requires Grid(t) && t.alt.None? && cols >= 2 && rows >= 1
    ensures var r := Fit(t, cols, rows);
            r.alt.None? && Row0(r) == Row0(t) && SameAbove(Lines(t), Lines(r)) && Row0(t) < |Lines(r)|
  {
    BufferKeepsRows(t.main, t.y, rows);
  }

  lemma {:induction false} StartSame(a: seq<Row>, b: seq<Row>, at: nat)
    requires at < |a| && at < |b| && SameAbove(a, b)
    ensures LineStart(b, at) == LineStart(a, at)
  {
    if at > 0 && a[at].wrapped {
      StartSame(a, b, at - 1);
    }
  }

  lemma {:induction false} EndSame(a: seq<Row>, b: seq<Row>, at: nat)
    requires at < |a| && SameAbove(a, b) && LineEnd(a, at) < |b|
    ensures at < |b| && LineEnd(b, at) == LineEnd(a, at)
    decreases |a| - at
  {
    if at + 1 < |a| && a[at + 1].wrapped {
      EndSame(a, b, at + 1);
    }
  }

  function Spaces(n: nat): string { seq(n, _ => ' ') }

  lemma {:induction false} TrimSpaces(s: string, n: nat)
    ensures TrimRight(s + Spaces(n)) == TrimRight(s)
  {
    if n == 0 {
      assert s + Spaces(0) == s;
    } else {
      TrimSpaces(s, n - 1);
      assert Spaces(n) == Spaces(n - 1) + " ";
      Regrouped(s, Spaces(n - 1), " ");
      TrimOne(s + Spaces(n - 1));
    }
  }

  lemma TrimOne(s: string)
    ensures TrimRight(s + " ") == TrimRight(s)
  {
    assert (s + " ")[..|s|] == s;
  }

  /** Reading past the end of a row adds spaces, and splitting it adds nothing. */
  lemma {:induction false} TextPast(c: seq<Cell>, x: nat)
    requires x >= |c|
    ensures Text(c, 0, x) == Text(c, 0, |c|) + Spaces(x - |c|)
  {
    if x > |c| {
      TextPast(c, x - 1);
      assert Spaces(x - |c|) == Spaces(x - 1 - |c|) + [' '];
    } else {
      assert Spaces(0) == "";
    }
  }

  lemma {:induction false} TextSplit(c: seq<Cell>, x: nat, hi: nat)
    requires x <= hi
    ensures Text(c, 0, x) + Text(c, x, hi) == Text(c, 0, hi)
  {
    if x < hi {
      TextSplit(c, x, hi - 1);
    }
  }

  /** Where a row is split changes only the blanks after it. */
  lemma SplitReads(c: seq<Cell>, x: nat, rest: string)
    ensures x <= |c| ==> Text(c, 0, x) + (Text(c, x, Max(x, |c|)) + rest) == Text(c, 0, |c|) + rest
    ensures x > |c| ==> Text(c, 0, x) + (Text(c, x, Max(x, |c|)) + rest) == Text(c, 0, |c|) + (Spaces(x - |c|) + rest)
  {
    if x <= |c| {
      TextSplit(c, x, |c|);
    } else {
      TextPast(c, x);
    }
  }

  /** The whole of the line through row `at`, wherever it is split. */
  function Whole(rows: seq<Row>, at: nat): string
    requires at < |rows|
  {
    Join(rows, LineStart(rows, at), at) + (RowText(rows[at]) + Join(rows, at + 1, LineEnd(rows, at) + 1))
  }

  lemma SplitWithin(head: string, c: seq<Cell>, x: nat, tail: string)
    requires x <= |c|
    ensures (head + Text(c, 0, x)) + (Text(c, x, Max(x, |c|)) + tail) == head + (Text(c, 0, |c|) + tail)
  {
    SplitReads(c, x, tail);
    Regrouped(head, Text(c, 0, x), Text(c, x, Max(x, |c|)) + tail);
  }

  lemma SplitBeyond(head: string, c: seq<Cell>, x: nat)
    requires x > |c|
    ensures (head + Text(c, 0, x)) + (Text(c, x, Max(x, |c|)) + "") == head + (Text(c, 0, |c|) + "") + Spaces(x - |c|)
  {
    TextPast(c, x);
    Regrouped(head, Text(c, 0, |c|), Spaces(x - |c|));
    assert Text(c, x, x) == "";
  }

  lemma ReadIsWhole(rows: seq<Row>, at: nat, x: nat, vouched: bool)
    requires at < |rows| && (x > |rows[at].cells| ==> LineEnd(rows, at) == at)
    ensures var line := ReadAt(rows, at, x, vouched);
            TrimRight(line.before + line.after) == TrimRight(Whole(rows, at))
  {
    var c := rows[at].cells;
    var head := Join(rows, LineStart(rows, at), at);
    var tail := Join(rows, at + 1, LineEnd(rows, at) + 1);
    if x <= |c| {
      SplitWithin(head, c, x, tail);
    } else {
      SplitBeyond(head, c, x);
      TrimSpaces(head + (Text(c, 0, |c|) + ""), x - |c|);
    }
  }

  lemma PrefixSame(a: seq<Row>, b: seq<Row>, n: nat)
    requires SameAbove(a, b) && n <= |a| && n <= |b|
    ensures a[..n] == b[..n]
  {}

  lemma SameAt(a: seq<Row>, b: seq<Row>, n: nat, i: nat)
    requires n <= |a| && n <= |b| && a[..n] == b[..n] && i < n
    ensures a[i] == b[i]
  {
    assert a[i] == a[..n][i] && b[i] == b[..n][i];
  }

  lemma WholeSame(a: seq<Row>, b: seq<Row>, at: nat)
    requires at < |a| && SameAbove(a, b) && LineEnd(a, at) < |b|
    ensures at < |b| && a[at] == b[at] && Whole(a, at) == Whole(b, at) && LineEnd(a, at) == LineEnd(b, at)
    ensures LineStart(a, at) == LineStart(b, at) && a[LineStart(a, at)] == b[LineStart(a, at)]
  {
    var s, e := LineStart(a, at), LineEnd(a, at);
    EndSame(a, b, at);
    StartSame(a, b, at);
    PrefixSame(a, b, e + 1);
    SameAt(a, b, e + 1, at);
    SameAt(a, b, e + 1, s);
    JoinSame(a, b, s, at, e);
  }

  /** Through any resize that drops none of its rows, the line still reads as it did,
      surely if it did surely, whatever the new width. */
  lemma ResizeKeepsTheLine(t: Term, cols: nat, rows: nat)
    requires Grid(t) && t.alt.None? && cols >= 2 && rows >= 1
    requires LineEnd(Lines(t), Row0(t)) < |Lines(Fit(t, cols, rows))|
    requires t.x > |Lines(t)[Row0(t)].cells| ==> LineEnd(Lines(t), Row0(t)) == Row0(t)
    ensures LastLine(Fit(t, cols, rows)) == LastLine(t)
    ensures CursorLine(Fit(t, cols, rows)).sure == CursorLine(t).sure
    ensures Row0(Fit(t, cols, rows)) == Row0(t)
  {
    var r := Fit(t, cols, rows);
    FitKeepsRows(t, cols, rows);
    WholeSame(Lines(t), Lines(r), Row0(t));
    assert r.x <= t.x && r.unsure == t.unsure;
    ReadIsWhole(Lines(t), Row0(t), t.x, !t.unsure);
    ReadIsWhole(Lines(r), Row0(t), r.x, !t.unsure);
  }

  lemma JoinSame(a: seq<Row>, b: seq<Row>, s: nat, at: nat, e: nat)
    requires s <= at <= e < |a| && e < |b| && a[..e + 1] == b[..e + 1]
    ensures Join(a, s, at) == Join(b, s, at) && Join(a, at + 1, e + 1) == Join(b, at + 1, e + 1)
  {
    assert a[..at] == a[..e + 1][..at] && b[..at] == b[..e + 1][..at];
    JoinDependsOnPrefix(a, b, s, at);
    JoinDependsOnPrefix(a, b, at + 1, e + 1);
  }

  /** Growing is the one place where trimming shows: the real screen and the ideal
      one part exactly when a resize pulls down more scrollback than is left and
      some of it was trimmed. */
  lemma OverpullParts(t: Term, lost: seq<Row>, cols: nat, rows: nat)
    requires Grid(t) && cols >= 2 && rows >= 1
    ensures (exists more :: Fit(Untrimmed(t, lost), cols, rows) == Untrimmed(Fit(t, cols, rows), more))
       <==> (Pullable(t, Resize(cols, rows)) || lost == [])
  {
    if Pullable(t, Resize(cols, rows)) {
      UntrimmedFit(t, lost, cols, rows);
    } else if lost == [] {
      UntrimmedFitNothing(t, cols, rows);
    } else {
      OverpullMoves(t, lost, cols, rows);
    }
  }

  lemma UntrimmedFitNothing(t: Term, cols: nat, rows: nat)
    requires Grid(t) && cols >= 2 && rows >= 1 && t.alt.None?
    ensures Fit(Untrimmed(t, []), cols, rows) == Untrimmed(Fit(t, cols, rows), [])
  {
    NothingBefore(t.main.scroll);
    FitIgnoresKeep(t.main, t.y, rows);
    NothingBefore(FitActive(t.main, t.y, rows).0.scroll);
  }

  lemma NothingBefore(rows: seq<Row>)
    ensures [] + rows == rows
  {}

  lemma FitIgnoresKeep(b: Buffer, y: nat, rows: nat)
    requires y < |b.view| && rows >= 1
    ensures FitActive(b.(keep := None), y, rows) == (FitActive(b, y, rows).0.(keep := None), FitActive(b, y, rows).1)
  {}

  lemma OverpullMoves(t: Term, lost: seq<Row>, cols: nat, rows: nat)
    requires Grid(t) && cols >= 2 && rows >= 1 && !Pullable(t, Resize(cols, rows)) && lost != []
    ensures Fit(Untrimmed(t, lost), cols, rows).y != Fit(t, cols, rows).y
  {
    assert Pull(t.main, t.y, rows - t.rows) == |t.main.scroll|;
    assert Pull(Untrimmed(t, lost).main, t.y, rows - t.rows) > |t.main.scroll|;
  }

  // ---- a screen that has trimmed -----------------------------------------------

  function Feeds(n: nat): seq<Action> { seq(n, _ => LineFeed) }

  /** After so many line feeds: how far down, and how many rows are held. */
  ghost predicate FedDown(t: Term, r: Term, n: nat, held: nat) {
    && Grid(r) && r.alt.None? && r.top == 0 && r.bottom == r.rows - 1 && r.cols == t.cols && r.rows == t.rows
    && r.main.keep == t.main.keep && r.y == Min(n, t.rows - 1) && |r.main.scroll| == held
  }

  lemma FeedOnce(t: Term, r: Term, n: nat, held: nat)
    requires Grid(t) && FedDown(t, r, n, held)
    ensures var q := LineFeedTerm(r);
            if n < t.rows - 1 then FedDown(t, q, n + 1, held)
            else FedDown(t, q, n + 1, |Trimmed(r.main.scroll + [BLANK_ROW], r.main.keep)|)
  {}

  lemma FeedWithRoom(t: Term, r: Term, n: nat, held: nat)
    requires Grid(t) && FedDown(t, r, n, held) && (t.main.keep.Some? ==> held < t.main.keep.value + SLACK)
    ensures FedDown(t, LineFeedTerm(r), n + 1, if n < t.rows - 1 then held else held + 1)
  {
    hide LineFeedTerm;
    FeedOnce(t, r, n, held);
  }

  lemma FeedsMore(t: Term, n: nat)
    requires Grid(t) && n > 0
    ensures ApplyAll(t, Feeds(n)) == LineFeedTerm(ApplyAll(t, Feeds(n - 1)))
  {
    var fed := Feeds(n - 1);
    assert Feeds(n) == fed + [LineFeed];
    hide Apply, LineFeedTerm;
    ApplyLast(t, fed, LineFeed);
    ApplyFeed(ApplyAll(t, fed));
  }

  lemma ApplyLast(t: Term, actions: seq<Action>, a: Action)
    requires Grid(t)
    ensures ApplyAll(t, actions + [a]) == Apply(ApplyAll(t, actions), a)
  {
    hide Apply;
    assert (actions + [a])[..|actions|] == actions;
  }

  lemma ApplyFeed(t: Term)
    requires Grid(t)
    ensures Apply(t, LineFeed) == LineFeedTerm(t)
  {
    hide LineFeedTerm;
  }

  /** With room for them all, all that left the screen are held. */
  lemma {:induction false} FeedsHeld(cols: nat, rows: nat, keep: Option<nat>, n: nat)
    requires cols >= 2 && rows >= 1 && (keep.Some? ==> n <= rows - 1 + keep.value + SLACK)
    ensures var t := InitTerm(cols, rows, keep);
            FedDown(t, ApplyAll(t, Feeds(n)), n, Max(0, n - (rows - 1)))
    decreases n
  {
    hide FedDown, LineFeedTerm, ApplyAll, InitTerm;
    var t := InitTerm(cols, rows, keep);
    if n == 0 {
      NothingFed(cols, rows, keep);
    } else {
      FeedsHeld(cols, rows, keep, n - 1);
      FeedsMore(t, n);
      InitKeeps(cols, rows, keep);
      FeedWithRoom(t, ApplyAll(t, Feeds(n - 1)), n - 1, Max(0, n - 1 - (rows - 1)));
    }
  }

  lemma NothingFed(cols: nat, rows: nat, keep: Option<nat>)
    requires cols >= 2 && rows >= 1
    ensures var t := InitTerm(cols, rows, keep); FedDown(t, ApplyAll(t, Feeds(0)), 0, 0)
  {}

  lemma InitKeeps(cols: nat, rows: nat, keep: Option<nat>)
    requires cols >= 2 && rows >= 1
    ensures var t := InitTerm(cols, rows, keep); t.rows == rows && t.main.keep == keep
  {}

  /** The feed that trims. */
  function Overfull(rows: nat): nat { rows + SCROLLBACK + SLACK }

  lemma FeedTrims(t: Term, r: Term, n: nat)
    requires Grid(t) && FedDown(t, r, n, SCROLLBACK + SLACK) && t.main.keep == Some(SCROLLBACK) && n >= t.rows - 1
    ensures FedDown(t, LineFeedTerm(r), n + 1, SCROLLBACK)
  {
    hide LineFeedTerm;
    FeedOnce(t, r, n, SCROLLBACK + SLACK);
  }

  lemma FeedsTrim(cols: nat, rows: nat)
    requires cols >= 2 && rows >= 1
    ensures var t, n := InitTerm(cols, rows, Some(SCROLLBACK)), Overfull(rows);
            FedDown(t, ApplyAll(t, Feeds(n)), n, SCROLLBACK)
  {
    hide FedDown, LineFeedTerm, ApplyAll, InitTerm;
    var t, n := InitTerm(cols, rows, Some(SCROLLBACK)), Overfull(rows);
    FeedsHeld(cols, rows, Some(SCROLLBACK), n - 1);
    InitKeeps(cols, rows, Some(SCROLLBACK));
    FeedsMore(t, n);
    FeedTrims(t, ApplyAll(t, Feeds(n - 1)), n - 1);
  }

  lemma {:induction false} FeedsPullable(t: Term, n: nat)
    requires Grid(t)
    ensures AllPullable(t, Feeds(n))
    decreases n
  {
    if n > 0 {
      FeedsPullable(t, n - 1);
      assert Feeds(n)[..n - 1] == Feeds(n - 1) && Feeds(n)[n - 1] == LineFeed;
    }
  }

  /** One is the other less rows off the top of its scrollback. */
  ghost predicate Refines(r: Term, ideal: Term) { exists lost :: ideal == Untrimmed(r, lost) }

  /** It happens: on a screen of any size, enough line feeds to trim the scrollback once,
      and a resize that asks for more rows than are left of it. */
  lemma TheyPart(cols: nat, rows: nat, more: nat)
    requires cols >= 2 && rows >= 1 && more > SCROLLBACK
    ensures var trims, ideal := InitTerm(cols, rows, Some(SCROLLBACK)), InitTerm(cols, rows, None);
            var r, u := ApplyAll(trims, Feeds(Overfull(rows))), ApplyAll(ideal, Feeds(Overfull(rows)));
            Refines(r, u) && !Refines(Fit(r, cols, rows + more), Fit(u, cols, rows + more))
  {
    var trims, n := InitTerm(cols, rows, Some(SCROLLBACK)), Overfull(rows);
    FeedsPullable(trims, n);
    var lost := TrimmedRefinesUntrimmed(trims, Feeds(n));
    NothingBefore(trims.main.scroll);
    assert Untrimmed(trims, []) == InitTerm(cols, rows, None);
    FeedsTrim(cols, rows);
    FeedsHeld(cols, rows, None, n);
    var r := ApplyAll(trims, Feeds(n));
    assert |Untrimmed(r, lost).main.scroll| == |lost| + SCROLLBACK;
    OverpullParts(r, lost, cols, rows + more);
    assert !Pullable(r, Resize(cols, rows + more));
  }
}
