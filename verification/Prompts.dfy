/** What an idle prompt looks like, said of the cells of the screen: everything left of the
    cursor on its line is a prompt, and right of it and below it there is nothing. */
module Prompts {
  import opened Arithmetic
  import opened Sequences
  import opened Options
  import opened Cells
  import opened Parser
  import opened Terminal
  import opened Reading

  // ---- blank cells ------------------------------------------------------------

  /** Nothing to be seen in it. */
  predicate White(c: Cell) { c.Glyph? ==> forall i | 0 <= i < |c.chars| :: IsSpace(c.chars[i]) }

  ghost predicate WhiteFrom(cells: seq<Cell>, lo: nat) { forall j | lo <= j < |cells| :: White(cells[j]) }

  lemma SpaceParts(a: string, b: string)
    ensures AllSpace(a + b) <==> AllSpace(a) && AllSpace(b)
  {
    if AllSpace(a + b) {
      assert forall i | 0 <= i < |a| :: (a + b)[i] == a[i];
      assert forall i | 0 <= i < |b| :: (a + b)[|a| + i] == b[i];
    }
  }

  lemma {:induction false} TextWhite(cells: seq<Cell>, lo: nat, hi: nat)
    requires lo <= hi
    ensures AllSpace(Text(cells, lo, hi)) <==> forall j | lo <= j < hi :: White(At(cells, j))
    decreases hi
  {
    if lo < hi {
      TextWhite(cells, lo, hi - 1);
      SpaceParts(Text(cells, lo, hi - 1), CellText(At(cells, hi - 1)));
    }
  }

  lemma TailWhite(cells: seq<Cell>, lo: nat)
    ensures AllSpace(Text(cells, lo, Max(lo, |cells|))) <==> WhiteFrom(cells, lo)
  {
    TextWhite(cells, lo, Max(lo, |cells|));
    if WhiteFrom(cells, lo) {
      assert forall j | lo <= j < |cells| :: At(cells, j) == cells[j];
    }
    assert forall j | lo <= j < |cells| :: White(At(cells, j)) ==> White(cells[j]);
  }

  lemma RowWhite(r: Row)
    ensures Blank(r) <==> WhiteFrom(r.cells, 0)
  {
    TailWhite(r.cells, 0);
  }

  lemma {:induction false} JoinWhite(rows: seq<Row>, lo: nat, hi: nat)
    requires lo <= hi <= |rows|
    ensures AllSpace(Join(rows, lo, hi)) <==> forall i | lo <= i < hi :: WhiteFrom(rows[i].cells, 0)
    decreases hi
  {
    if lo < hi {
      JoinWhite(rows, lo, hi - 1);
      SpaceParts(Join(rows, lo, hi - 1), RowText(rows[hi - 1]));
      RowWhite(rows[hi - 1]);
    }
  }

  // ---- the line the cursor is on -----------------------------------------------

  /** Row `first` begins the line that row `at` belongs to. */
  ghost predicate Begins(rows: seq<Row>, first: nat, at: nat) {
    first <= at < |rows| && !rows[first].wrapped && forall i | first < i <= at :: rows[i].wrapped
  }

  /** Every row back to the first is marked as wrapped: the line's start is not held. */
  ghost predicate StartLost(rows: seq<Row>, at: nat) { forall i | 0 <= i <= at < |rows| :: rows[i].wrapped }

  lemma {:induction false} StartFound(rows: seq<Row>, at: nat)
    requires at < |rows|
    ensures var s := LineStart(rows, at);
            if rows[s].wrapped then StartLost(rows, at) else Begins(rows, s, at)
  {
    if at > 0 && rows[at].wrapped {
      StartFound(rows, at - 1);
    }
  }

  lemma {:induction false} StartUnique(rows: seq<Row>, first: nat, at: nat)
    requires Begins(rows, first, at)
    ensures LineStart(rows, at) == first
  {
    if first < at {
      StartUnique(rows, first, at - 1);
    }
  }

  /** The text of the line up to the cursor, its rows joined. */
  function LeftOf(rows: seq<Row>, first: nat, at: nat, x: nat): string
    requires first <= at < |rows|
  {
    Join(rows, first, at) + Text(rows[at].cells, 0, x)
  }

  // ---- prompts ------------------------------------------------------------------

  /** Some text without white space, or user@host:dir with a free-form dir that says neither
      $ nor #, then $ or #, then a space. */
  ghost predicate Prompt(s: string) {
    exists stem :: Stem(stem) && (s == stem + "$ " || s == stem + "# ")
  }

  ghost predicate Stem(stem: string) {
    NoSpace(stem) || exists user, host, dir :: UserAtHost(stem, user, host, dir)
  }

  ghost predicate UserAtHost(stem: string, user: string, host: string, dir: string) {
    && stem == user + "@" + host + ":" + dir && user != "" && host != ""
    && (forall i | 0 <= i < |user| :: !IsSpace(user[i]) && user[i] != '@' && user[i] != '$' && user[i] != '#')
    && (forall i | 0 <= i < |host| :: !IsSpace(host[i]) && host[i] != ':' && host[i] != '$' && host[i] != '#')
    && (forall i | 0 <= i < |dir| :: dir[i] != '$' && dir[i] != '#')
  }

  /** The main screen, known and not handed to a command; a prompt left of the cursor; not a
      thing right of it on its row, or on any row below. */
  ghost predicate ShowsPrompt(s: Screen)
    requires Grid(s.term)
  {
    var t, rows, at := s.term, Lines(s.term), Row0(s.term);
    && s.parser.context != Command && t.alt.None? && !t.unsure
    && (exists first: nat :: Begins(rows, first, at) && Prompt(LeftOf(rows, first, at, t.x)))
    && WhiteFrom(rows[at].cells, t.x)
    && forall i | at < i < |rows| :: WhiteFrom(rows[i].cells, 0)
  }

  lemma SplitAt(p: string, i: nat, j: nat)
    requires HostShaped(p, i, j)
    ensures UserAtHost(p, p[..i], p[i + 1..j], p[j + 1..])
  {
    assert p == p[..i] + "@" + p[i + 1..j] + ":" + p[j + 1..];
    forall k | 0 <= k < i ensures !IsSpace(p[k]) && p[..i][k] == p[k] {
      assert p[..j][k] == p[k];
    }
    var host := p[i + 1..j];
    forall k | 0 <= k < |host| ensures !IsSpace(host[k]) {
      assert p[..j][i + 1 + k] == host[k];
    }
  }

  lemma JoinedAt(p: string, user: string, host: string, dir: string)
    requires UserAtHost(p, user, host, dir)
    ensures HostShaped(p, |user|, |user| + 1 + |host|)
  {
    var i, j := |user|, |user| + 1 + |host|;
    assert p[..i] == user && p[i + 1..j] == host && p[j + 1..] == dir;
    assert p[..j] == user + "@" + host;
    assert p[i] == '@' && p[j] == ':';
    assert !IsSpace('@');
  }

  lemma StemShape(p: string)
    ensures Stem(p) <==> NoSpace(p) || exists i, j | 0 <= i < |p| && 0 <= j < |p| :: HostShaped(p, i, j)
  {
    if i, j :| 0 <= i < |p| && 0 <= j < |p| && HostShaped(p, i, j) {
      SplitAt(p, i, j);
    }
    if user, host, dir :| UserAtHost(p, user, host, dir) {
      JoinedAt(p, user, host, dir);
    }
  }

  lemma ShapeIsPrompt(s: string)
    ensures PromptShaped(s) <==> Prompt(s)
  {
    if |s| >= 2 {
      StemShape(s[..|s| - 2]);
    }
    if PromptShaped(s) {
      assert s == s[..|s| - 2] + if s[|s| - 2] == '$' then "$ " else "# ";
    }
    if stem :| Stem(stem) && (s == stem + "$ " || s == stem + "# ") {
      assert s[..|s| - 2] == stem;
    }
  }

  lemma RestWhite(rows: seq<Row>, at: nat, e: nat, x: nat)
    requires at <= e < |rows|
    ensures var after := Text(rows[at].cells, x, Max(x, |rows[at].cells|)) + Join(rows, at + 1, e + 1);
            && (AllSpace(after) && !AnyText(rows, e + 1) <==>
                WhiteFrom(rows[at].cells, x) && forall i | at < i < |rows| :: WhiteFrom(rows[i].cells, 0))
  {
    var cells := rows[at].cells;
    SpaceParts(Text(cells, x, Max(x, |cells|)), Join(rows, at + 1, e + 1));
    TailWhite(cells, x);
    JoinWhite(rows, at + 1, e + 1);
    forall i | 0 <= i < |rows| ensures Blank(rows[i]) <==> WhiteFrom(rows[i].cells, 0) {
      RowWhite(rows[i]);
    }
  }

  /** Cell by cell and row by row: the page takes the screen for an idle prompt exactly when
      it shows one. */
  lemma IdleIsPrompt(s: Screen)
    requires Grid(s.term)
    ensures AtPrompt(s) <==> ShowsPrompt(s)
  {
    hide PromptShaped, Prompt, WhiteFrom, AnyText, AllSpace, Text, Join;
    var t, rows, at := s.term, Lines(s.term), Row0(s.term);
    StartFound(rows, at);
    RestWhite(rows, at, LineEnd(rows, at), t.x);
    ShapeIsPrompt(CursorLine(t).before);
    if first: nat :| Begins(rows, first, at) && Prompt(LeftOf(rows, first, at, t.x)) {
      StartUnique(rows, first, at);
    }
  }

  /** One visible cell below the cursor, or right of it on its row, is enough: a program that
      draws there - an editor, a pager - is not typed into. */
  lemma AnythingElseIsNoPrompt(s: Screen, i: nat, j: nat)
    requires Grid(s.term) && s.term.y <= i < s.term.rows && (i == s.term.y ==> s.term.x <= j)
    requires j < |Line(s.term, i).cells| && !White(Line(s.term, i).cells[j])
    ensures !AtPrompt(s)
  {
    hide Prompt, LeftOf;
    IdleIsPrompt(s);
    assert Lines(s.term)[|Active(s.term).scroll| + i] == Line(s.term, i);
  }

  /** A prompt with anything at all typed after it is no longer one. */
  lemma TypedIsNoPrompt(p: string, more: string)
    requires Prompt(p) && more != ""
    ensures !Prompt(p + more)
  {
    if Prompt(p + more) {
      var stem :| Stem(stem) && (p + more == stem + "$ " || p + more == stem + "# ");
      var k := |p| - 1;
      assert (p + more)[|stem|] == '$' || (p + more)[|stem|] == '#';
      assert p[k] == ' ' && (p[k - 1] == '$' || p[k - 1] == '#');
      assert (p + more)[k] == ' ' && (p + more)[k - 1] == p[k - 1];
      if k < |stem| {
        assert stem[k] == (p + more)[k] && stem[k - 1] == (p + more)[k - 1];
        var user, host, dir :| UserAtHost(stem, user, host, dir);
        MarkerInHost(stem, user, host, dir, k - 1);
      }
    }
  }

  lemma MarkerInHost(stem: string, user: string, host: string, dir: string, k: nat)
    requires UserAtHost(stem, user, host, dir) && k < |stem|
    ensures stem[k] != '$' && stem[k] != '#'
  {
    var i, j := |user|, |user| + 1 + |host|;
    if k < i {
      assert stem[k] == user[k];
    } else if i < k < j {
      assert stem[k] == host[k - i - 1];
    } else if j < k {
      assert stem[k] == dir[k - j - 1];
    }
  }
}
