/** A line read back off the screen is the text that was printed on it, however
    often it wrapped and scrolled and however wide the terminal is. */
module Typing {
  import opened Sequences
  import opened Options
  import opened Cells
  import opened Parser
  import opened Terminal
  import opened Reading
  import opened Trimming

  /** The cursor is at the start of a fresh line with nothing on or below it, and
      the terminal is in the modes a prompt is printed in. */
  ghost predicate Ready(t: Term) {
    && Grid(t) && t.alt.None? && t.wrap && !t.insert && !t.unsure
    && t.top == 0 && t.bottom == t.rows - 1 && t.x == 0
    && forall i | t.y <= i < t.rows :: t.main.view[i] == BLANK_ROW
  }

  /** The row ends in a character, perhaps a wide one, that a combining one can join. */
  ghost predicate EndsInGlyph(c: seq<Cell>) {
    var n := |c|;
    n > 0 && (IsGlyph(c[n - 1]) || (n > 1 && c[n - 1] == RightHalf && IsGlyph(c[n - 2])))
  }

  predicate IsGlyph(c: Cell) { c.Glyph? && c.chars != "" }

  /** Exactly `s` has been printed on the line starting at row `first`, on a screen
      that never trims. */
  ghost predicate Typed(t: Term, first: nat, s: string) {
    && Grid(t) && t.alt.None? && t.wrap && !t.insert && !t.unsure
    && t.top == 0 && t.bottom == t.rows - 1 && t.main.keep.None?
    && var rows := Lines(t);
       var at := Row0(t);
       && first <= at && !rows[first].wrapped
       && (forall i | first < i <= at :: rows[i].wrapped)
       && (forall i | at < i < |rows| :: rows[i] == BLANK_ROW)
       && |rows[at].cells| == t.x
       && Join(rows, first, at) + Text(rows[at].cells, 0, t.x) == s
       && (s != "" ==> EndsInGlyph(rows[at].cells))
  }

  lemma {:induction false} TextDependsOnPrefix(c: seq<Cell>, d: seq<Cell>, n: nat)
    requires n <= |c| && n <= |d| && c[..n] == d[..n]
    ensures Text(c, 0, n) == Text(d, 0, n)
  {
    if n > 0 {
      assert c[..n][n - 1] == c[n - 1] && d[..n][n - 1] == d[n - 1];
      assert c[..n - 1] == c[..n][..n - 1] && d[..n - 1] == d[..n][..n - 1];
      TextDependsOnPrefix(c, d, n - 1);
    }
  }

  lemma {:induction false} JoinDependsOnPrefix(a: seq<Row>, b: seq<Row>, lo: nat, hi: nat)
    requires lo <= hi <= |a| && hi <= |b| && a[..hi] == b[..hi]
    ensures Join(a, lo, hi) == Join(b, lo, hi)
  {
    if lo < hi {
      assert a[..hi][hi - 1] == a[hi - 1] && b[..hi][hi - 1] == b[hi - 1];
      assert a[..hi - 1] == a[..hi][..hi - 1] && b[..hi - 1] == b[..hi][..hi - 1];
      JoinDependsOnPrefix(a, b, lo, hi - 1);
    }
  }

  lemma TextSnoc(c: seq<Cell>, d: Cell)
    ensures Text(c + [d], 0, |c| + 1) == Text(c, 0, |c|) + CellText(d)
  {
    TextDependsOnPrefix(c + [d], c, |c|);
  }

  /** Written at the end of a row, a character adds itself and nothing else. */
  lemma AppendGlyph(c: seq<Cell>, ch: char, w: nat)
    requires 1 <= w <= 2
    ensures var d := WriteGlyph(c, |c|, ch, w);
            |d| == |c| + w && EndsInGlyph(d) && Text(d, 0, |d|) == Text(c, 0, |c|) + [ch]
  {
    EraseAtEnd(c, w);
    var g := c + [Glyph([ch])];
    assert Put(c, |c|, Glyph([ch])) == g;
    TextSnoc(c, Glyph([ch]));
    if w == 2 {
      assert Put(g, |g|, RightHalf) == g + [RightHalf];
      TextSnoc(g, RightHalf);
    }
  }

  lemma CombineLast(c: seq<Cell>, ch: char)
    requires EndsInGlyph(c)
    ensures var d := Combine(c, |c|, ch);
            |d| == |c| && EndsInGlyph(d) && Text(d, 0, |d|) == Text(c, 0, |c|) + [ch]
  {
    var d := Combine(c, |c|, ch);
    var i := if c[|c| - 1] == RightHalf then |c| - 2 else |c| - 1;
    assert d[i] == Glyph(c[i].chars + [ch]);
    TextDependsOnPrefix(c, d, i);
    assert Text(d, 0, i + 1) == Text(c, 0, i + 1) + [ch];
  }

  /** The cursor's row replaced, and nothing else but where the cursor is in it. */
  lemma CellsLines(t: Term, cells: seq<Cell>, x: nat)
    requires Grid(t) && t.alt.None? && x <= t.cols
    ensures var r := SetCells(t, cells).(x := x);
            && r.(main := t.main, x := t.x) == t && r.main.keep == t.main.keep && Row0(r) == Row0(t) && r.x == x
            && Grid(r) && Lines(r) == Lines(t)[Row0(t) := Lines(t)[Row0(t)].(cells := cells)]
  {
    assert Lines(t)[Row0(t)] == Line(t, t.y);
  }

  /** Replacing the last row of the line leaves the rows above it as they were. */
  lemma TypedBy(t: Term, r: Term, first: nat, s: string, cells: seq<Cell>, ch: char)
    requires Typed(t, first, s) && Grid(r) && r.(main := t.main, x := t.x) == t && r.main.keep.None?
    requires Row0(r) == Row0(t) && r.x == |cells| && EndsInGlyph(cells)
    requires Lines(r) == Lines(t)[Row0(t) := Lines(t)[Row0(t)].(cells := cells)]
    requires Text(cells, 0, |cells|) == Text(Lines(t)[Row0(t)].cells, 0, t.x) + [ch]
    ensures Typed(r, first, s + [ch])
  {
    var rows, at := Lines(t), Row0(t);
    JoinDependsOnPrefix(Lines(r), rows, first, at);
    Regrouped(Join(rows, first, at), Text(rows[at].cells, 0, t.x), [ch]);
  }

  lemma TypedRow(t: Term, first: nat, s: string, cells: seq<Cell>, x: nat, ch: char)
    requires Typed(t, first, s) && x <= t.cols && |cells| == x && EndsInGlyph(cells)
    requires Text(cells, 0, x) == Text(Line(t, t.y).cells, 0, t.x) + [ch]
    ensures Typed(SetCells(t, cells).(x := x), first, s + [ch])
  {
    hide Text, SetCells;
    CellsLines(t, cells, x);
    assert Lines(t)[Row0(t)] == Line(t, t.y);
    TypedBy(t, SetCells(t, cells).(x := x), first, s, cells, ch);
  }

  lemma TypeCombining(t: Term, first: nat, s: string, ch: char)
    requires Typed(t, first, s) && s != ""
    ensures Typed(PrintTerm(t, ch, 0), first, s + [ch])
  {
    var c := Line(t, t.y).cells;
    assert Lines(t)[Row0(t)] == Line(t, t.y);
    CombineLast(c, ch);
    TypedRow(t, first, s, Combine(c, t.x, ch), t.x, ch);
  }

  lemma LastRow(t: Term, first: nat, s: string)
    requires Typed(t, first, s)
    ensures Lines(t)[Row0(t)] == Line(t, t.y) && |Line(t, t.y).cells| == t.x
  {}

  lemma PlaceAtEnd(t: Term, ch: char, w: nat)
    requires Grid(t) && 1 <= w <= 2 && t.x + w <= t.cols && !t.insert
    ensures Place(t, ch, w) == SetCells(t, WriteGlyph(Line(t, t.y).cells, t.x, ch, w)).(x := t.x + w)
  {}

  lemma TypeInPlace(t: Term, first: nat, s: string, ch: char, w: nat)
    requires Typed(t, first, s) && 1 <= w <= 2 && t.x + w <= t.cols
    ensures Typed(Place(t, ch, w), first, s + [ch])
  {
    var c := Line(t, t.y).cells;
    LastRow(t, first, s);
    AppendGlyph(c, ch, w);
    PlaceAtEnd(t, ch, w);
    TypedRow(t, first, s, WriteGlyph(c, t.x, ch, w), t.x + w, ch);
  }

  /** One row down from the last row of the line is a blank row, scrolled in or not. */
  lemma DownFromLast(t: Term)
    requires Grid(t) && t.alt.None? && t.top == 0 && t.bottom == t.rows - 1 && t.main.keep.None?
    requires forall i | Row0(t) < i < |Lines(t)| :: Lines(t)[i] == BLANK_ROW
    ensures var d := Down(t);
            && d.(main := t.main, y := t.y, moves := t.moves) == t && d.main.keep.None?
            && Row0(d) == Row0(t) + 1
            && (Lines(d) == Lines(t) || Lines(d) == Lines(t) + [BLANK_ROW])
            && Lines(d)[Row0(d)] == BLANK_ROW
  {
    var d := Down(t);
    if t.y == t.bottom {
      assert InsertRow(t.main.view, t.rows) == t.main.view + [BLANK_ROW];
      assert Lines(d) == Lines(t) + [BLANK_ROW];
    } else {
      assert Lines(d) == Lines(t);
    }
  }

  /** Wrapping moves to a blank row below and joins it to the line: `s` is now the
      whole of the rows above, and the cursor's row is empty. */
  ghost predicate Wrapped(t: Term, first: nat, s: string) {
    && Grid(t) && t.alt.None? && t.wrap && !t.insert && !t.unsure
    && t.top == 0 && t.bottom == t.rows - 1 && t.main.keep.None? && t.x == 0
    && var rows := Lines(t);
       var at := Row0(t);
       && first < at && !rows[first].wrapped
       && (forall i | first < i <= at :: rows[i].wrapped)
       && (forall i | at < i < |rows| :: rows[i] == BLANK_ROW)
       && rows[at].cells == []
       && Join(rows, first, at) == s
  }

  lemma WrapRows(rows: seq<Row>, below: seq<Row>, first: nat, at: nat)
    requires first <= at < |rows| && at + 1 < |below| && (below == rows || below == rows + [BLANK_ROW])
    ensures var r := below[at + 1 := BLANK_ROW.(wrapped := true)];
            && (forall i | 0 <= i <= at :: r[i] == rows[i])
            && Join(r, first, at + 1) == Join(rows, first, at) + RowText(rows[at])
            && (forall i | at + 1 < i < |r| :: r[i] == below[i])
  {
    var r := below[at + 1 := BLANK_ROW.(wrapped := true)];
    JoinDependsOnPrefix(r, rows, first, at + 1);
  }

  lemma WrapLines(t: Term, w: nat)
    requires Grid(t) && t.alt.None? && t.wrap && t.top == 0 && t.bottom == t.rows - 1 && t.main.keep.None?
    requires 1 <= w <= 2 && t.x + w > t.cols
    requires forall i | Row0(t) < i < |Lines(t)| :: Lines(t)[i] == BLANK_ROW
    ensures var r := WrapFor(t, w);
            && r.(main := t.main, x := t.x, y := t.y, moves := t.moves) == t && r.main.keep.None?
            && Row0(r) == Row0(t) + 1 && r.x == 0
            && Lines(r) == Lines(Down(t))[Row0(t) + 1 := BLANK_ROW.(wrapped := true)]
  {
    DownFromLast(t);
    var d := Down(t).(x := 0);
    RowSet(d, BLANK_ROW.(wrapped := true));
    assert Line(d, d.y) == BLANK_ROW;
  }

  lemma RowSet(d: Term, row: Row)
    requires Grid(d) && d.alt.None?
    ensures Line(d, d.y) == Lines(d)[Row0(d)]
    ensures var r := SetLine(d, d.y, row);
            Lines(r) == Lines(d)[Row0(d) := row] && r.(main := d.main) == d && r.main.keep == d.main.keep
            && Row0(r) == Row0(d)
  {}

  lemma Wrapping(t: Term, first: nat, s: string, w: nat)
    requires Typed(t, first, s) && 1 <= w <= 2 && t.x + w > t.cols
    ensures Wrapped(WrapFor(t, w), first, s)
  {
    DownFromLast(t);
    WrapLines(t, w);
    WrappedFrom(t, WrapFor(t, w), Lines(Down(t)), first, s);
  }

  lemma WrappedFrom(t: Term, r: Term, below: seq<Row>, first: nat, s: string)
    requires Typed(t, first, s) && Grid(r)
    requires r.(main := t.main, x := t.x, y := t.y, moves := t.moves) == t && r.main.keep.None?
    requires below == Lines(t) || below == Lines(t) + [BLANK_ROW]
    requires Row0(r) == Row0(t) + 1 < |below| && r.x == 0
    requires Lines(r) == below[Row0(t) + 1 := BLANK_ROW.(wrapped := true)]
    ensures Wrapped(r, first, s)
  {
    WrapRows(Lines(t), below, first, Row0(t));
  }

  lemma PlaceLines(t: Term, ch: char, w: nat)
    requires Grid(t) && t.alt.None? && !t.insert && 1 <= w <= 2 && t.x + w <= t.cols
    ensures var p := Place(t, ch, w);
            && p.(main := t.main, x := t.x) == t && p.x == t.x + w && p.main.keep == t.main.keep
            && Row0(p) == Row0(t)
            && Lines(p) == Lines(t)[Row0(t) := Line(t, t.y).(cells := WriteGlyph(Line(t, t.y).cells, t.x, ch, w))]
            && Line(t, t.y) == Lines(t)[Row0(t)]
  {
  }

  lemma TypeOnNewRow(t: Term, first: nat, s: string, ch: char, w: nat)
    requires Wrapped(t, first, s) && 1 <= w <= 2
    ensures Typed(Place(t, ch, w), first, s + [ch])
  {
    PlaceLines(t, ch, w);
    AppendGlyph([], ch, w);
    TypedFrom(t, Place(t, ch, w), first, s, ch, WriteGlyph([], 0, ch, w));
  }

  lemma TypedFrom(t: Term, p: Term, first: nat, s: string, ch: char, cells: seq<Cell>)
    requires Wrapped(t, first, s) && Grid(p)
    requires p.(main := t.main, x := t.x) == t && p.x == |cells| && p.main.keep.None? && Row0(p) == Row0(t)
    requires Lines(p) == Lines(t)[Row0(t) := Lines(t)[Row0(t)].(cells := cells)]
    requires EndsInGlyph(cells) && Text(cells, 0, |cells|) == [ch]
    ensures Typed(p, first, s + [ch])
  {
    JoinDependsOnPrefix(Lines(p), Lines(t), first, Row0(t));
  }

  lemma TypeGlyph(t: Term, first: nat, s: string, ch: char, w: nat)
    requires Typed(t, first, s) && 1 <= w <= 2
    ensures Typed(PrintTerm(t, ch, w), first, s + [ch])
  {
    if t.x + w <= t.cols {
      TypeInPlace(t, first, s, ch, w);
    } else {
      Wrapping(t, first, s, w);
      TypeOnNewRow(WrapFor(t, w), first, s, ch, w);
    }
  }

  /** Text a guest prints in one go: no controls, nothing to join at its start. */
  predicate Printable(ch: char) {
    var c := ch as int;
    c >= 0x20 && c != 0x7f && (c < 0x80 || c >= 0xa0)
  }

  predicate Text1(s: string) {
    (forall i | 0 <= i < |s| :: Printable(s[i])) && (s != "" ==> Width(s[0]) > 0)
  }

  lemma TypeOne(t: Term, first: nat, s: string, ch: char)
    requires Typed(t, first, s) && (s == "" ==> Width(ch) > 0)
    ensures Typed(PrintTerm(t, ch, Width(ch)), first, s + [ch])
  {
    if Width(ch) == 0 {
      TypeCombining(t, first, s, ch);
    } else {
      TypeGlyph(t, first, s, ch, Width(ch));
    }
  }

  lemma FreshLine(t: Term)
    requires Ready(t) && t.main.keep.None?
    ensures Typed(t, Row0(t), "")
  {
    assert Lines(t)[Row0(t)] == BLANK_ROW;
  }

  lemma StepPrints(m: Screen, ch: char)
    requires Grid(m.term) && m.parser.state == Ground && Printable(ch)
    ensures StepScreen(m, ch) == Screen(PrintTerm(m.term, ch, Width(ch)), m.parser)
  {
    PrintStep(m, ch);
  }

  lemma TypeLast(t: Term, first: nat, s: string)
    requires s != "" && Typed(t, first, s[..|s| - 1]) && Text1(s)
    ensures Typed(PrintTerm(t, s[|s| - 1], Width(s[|s| - 1])), first, s)
  {
    var front, ch := s[..|s| - 1], s[|s| - 1];
    assert front + [ch] == s;
    TypeOne(t, first, front, ch);
  }

  lemma TypeNext(m: Screen, first: nat, s: string)
    requires s != "" && Typed(m.term, first, s[..|s| - 1]) && m.parser.state == Ground && Text1(s)
    ensures var r := StepScreen(m, s[|s| - 1]); Typed(r.term, first, s) && r.parser == m.parser
  {
    StepPrints(m, s[|s| - 1]);
    TypeLast(m.term, first, s);
  }

  lemma FeedLast(sc: Screen, s: string)
    requires Grid(sc.term) && s != ""
    ensures Feed(sc, s) == StepScreen(Feed(sc, s[..|s| - 1]), s[|s| - 1])
  {}

  lemma {:induction false} TypeAll(sc: Screen, s: string)
    requires Ready(sc.term) && sc.term.main.keep.None? && sc.parser.state == Ground && Text1(s)
    ensures Typed(Feed(sc, s).term, Row0(sc.term), s) && Feed(sc, s).parser == sc.parser
  {
    if s == "" {
      FreshLine(sc.term);
    } else {
      var front := s[..|s| - 1];
      TypeAll(sc, front);
      FeedLast(sc, s);
      TypeNext(Feed(sc, front), Row0(sc.term), s);
    }
  }

  lemma {:induction false} StartOfTyped(rows: seq<Row>, first: nat, at: nat)
    requires first <= at < |rows| && !rows[first].wrapped
    requires forall i | first < i <= at :: rows[i].wrapped
    ensures LineStart(rows, at) == first
  {
    if first < at {
      StartOfTyped(rows, first, at - 1);
    }
  }

  lemma ReadTyped(t: Term, first: nat, s: string)
    requires Typed(t, first, s)
    ensures CursorLine(t) == LineView(s, "", false, true)
  {
    var rows := Lines(t);
    var at := Row0(t);
    StartOfTyped(rows, first, at);
    assert LineEnd(rows, at) == at;
    assert !AnyText(rows, at + 1);
  }

  /** On a screen that never trims, the line reads back exactly and surely. */
  lemma PrintedReadsBackUntrimmed(sc: Screen, s: string)
    requires Ready(sc.term) && sc.term.main.keep.None? && sc.parser.state == Ground && Text1(s)
    ensures CursorLine(Feed(sc, s).term) == LineView(s, "", false, true)
  {
    TypeAll(sc, s);
    ReadTyped(Feed(sc, s).term, Row0(sc.term), s);
  }

  /** A text that could not scroll its own start out of the scrollback. */
  predicate Holds(t: Term, n: nat) { t.main.keep.Some? ==> |t.main.scroll| + n <= t.main.keep.value + SLACK }

  /** Wrap transparency: on any screen, of any width and height, text of narrow,
      wide and combining characters printed on a fresh line reads back as itself, or
      the model says it is not sure - and it is sure whenever the scrollback could
      hold one more row for every character. */
  lemma PrintedReadsBack(sc: Screen, s: string)
    requires Ready(sc.term) && sc.parser.state == Ground && Text1(s)
    ensures
      var c := CursorLine(Feed(sc, s).term);
      && (c.sure ==> c.before == s && c.after == "" && !c.below)
      && (Holds(sc.term, |s|) ==> c.sure)
  {
    var ideal := Screen(Untrimmed(sc.term, []), sc.parser);
    ReadyUntrimmed(sc.term);
    PrintedReadsBackUntrimmed(ideal, s);
    SureMeansUntrimmedAgrees(sc, s);
    if Holds(sc.term, |s|) {
      ShortTextIsHeld(sc, s);
      UntrimmedReads(Feed(sc, s).term);
    }
  }

  lemma ReadyUntrimmed(t: Term)
    requires Ready(t)
    ensures Ready(Untrimmed(t, []))
  {
  }

  lemma UntrimmedReads(t: Term)
    requires Grid(t)
    ensures CursorLine(Untrimmed(t, [])) == CursorLine(t)
  {
    assert Lines(Untrimmed(t, [])) == Lines(t) && Row0(Untrimmed(t, [])) == Row0(t);
  }

  /** A run too short to reach the limit trims nothing. */
  lemma {:induction false} ShortTextIsHeld(sc: Screen, s: string)
    requires Ready(sc.term) && sc.parser.state == Ground && Text1(s) && Holds(sc.term, |s|)
    ensures
      var r := Feed(sc, s);
      && r.parser == sc.parser && r.term.alt.None?
      && Feed(Screen(Untrimmed(sc.term, []), sc.parser), s) == Screen(Untrimmed(r.term, []), sc.parser)
      && |r.term.main.scroll| <= |sc.term.main.scroll| + |s| && r.term.main.keep == sc.term.main.keep
  {
    if s == "" {
    } else {
      var n := |s| - 1;
      ShortTextIsHeld(sc, s[..n]);
      var t := Feed(sc, s[..n]).term;
      PrintStep(Screen(t, sc.parser), s[n]);
      PrintStep(Screen(Untrimmed(t, []), sc.parser), s[n]);
      PrintHolds(t, s[n], Width(s[n]));
    }
  }

  /** What one printable character does to the screen. */
  lemma PrintStep(sc: Screen, ch: char)
    requires Grid(sc.term) && sc.parser.state == Ground && Printable(ch)
    ensures Step(sc.parser, ch) == (sc.parser, Print(ch))
    ensures Apply(sc.term, Print(ch)) == PrintTerm(sc.term, ch, Width(ch))
  {
  }

  lemma PrintHolds(t: Term, ch: char, w: nat)
    requires Grid(t) && t.alt.None? && w <= 2 && Holds(t, 1)
    ensures PrintTerm(Untrimmed(t, []), ch, w) == Untrimmed(PrintTerm(t, ch, w), [])
    ensures |PrintTerm(t, ch, w).main.scroll| <= |t.main.scroll| + 1
    ensures PrintTerm(t, ch, w).alt.None? && PrintTerm(t, ch, w).main.keep == t.main.keep
  {
    if w == 0 {
      UntrimmedCells(t, [], Combine(Line(t, t.y).cells, t.x, ch));
    } else {
      WrapHolds(t, w);
      UntrimmedPlace(WrapFor(t, w), [], ch, w);
    }
  }

  lemma ScrollHolds(t: Term)
    requires Grid(t) && t.alt.None? && Holds(t, 1)
    ensures ScrollUpOne(Untrimmed(t, [])) == Untrimmed(ScrollUpOne(t), [])
    ensures |ScrollUpOne(t).main.scroll| <= |t.main.scroll| + 1
  {
    if t.top == 0 {
      assert [] + t.main.scroll == t.main.scroll;
      assert [] + ScrollUpOne(t).main.scroll == ScrollUpOne(t).main.scroll;
    } else {
      UntrimmedView(t, [], InsertRow(RemoveRow(t.main.view, t.top), t.bottom));
    }
  }

  lemma DownHolds(t: Term)
    requires Grid(t) && t.alt.None? && Holds(t, 1)
    ensures Down(Untrimmed(t, [])) == Untrimmed(Down(t), [])
    ensures |Down(t).main.scroll| <= |t.main.scroll| + 1 && Down(t).alt.None?
  {
    ScrollHolds(t);
  }

  lemma WrapHolds(t: Term, w: nat)
    requires Grid(t) && t.alt.None? && 1 <= w <= 2 && Holds(t, 1)
    ensures WrapFor(Untrimmed(t, []), w) == Untrimmed(WrapFor(t, w), [])
    ensures |WrapFor(t, w).main.scroll| <= |t.main.scroll| + 1 && WrapFor(t, w).alt.None?
  {
    if t.x + w > t.cols && t.wrap {
      DownHolds(t);
      var s := Down(t).(x := 0);
      UntrimmedView(s, [], Active(s).view[s.y := Line(s, s.y).(wrapped := true)]);
    }
  }
}
