/** Where the cursor goes, in terms of what is sent: motions that undo one another, motions
    that come to the same, an address and what is then printed at it, and a line typed over
    the way a line editor redraws it. */
module Motions {
  import opened Arithmetic
  import opened Options
  import opened Decimals
  import opened Cells
  import opened Parser
  import opened Terminal
  import opened Reading
  import opened Streams

  /** At rest and on a grid. */
  predicate AtRest(sc: Screen) { Grid(sc.term) && sc.parser.state == Ground }

  const CR := 0x0d as char
  const LF := 0x0a as char
  const BS := 0x08 as char

  // ---- one motion --------------------------------------------------------------

  /** `n` columns left of where the cursor shows, and no further than the first. */
  lemma Left(sc: Screen, n: nat)
    requires AtRest(sc) && 1 <= n && Short(n)
    ensures AtRest(Feed(sc, Csi1(n, 'D')))
    ensures Feed(sc, Csi1(n, 'D')).term == sc.term.(x := Max(0, Min(sc.term.x, sc.term.cols - 1) - n))
  {
    hide Csi1, Csi2, Feed;
    FeedMotion(sc, n, 'D');
  }

  lemma Right(sc: Screen, n: nat)
    requires AtRest(sc) && 1 <= n && Short(n)
    ensures AtRest(Feed(sc, Csi1(n, 'C')))
    ensures Feed(sc, Csi1(n, 'C')).term == sc.term.(x := Min(sc.term.cols - 1, sc.term.x + n))
  {
    hide Csi1, Csi2, Feed;
    FeedMotion(sc, n, 'C');
  }

  /** Up stops at the region's top row from inside or below it, at the screen's from above. */
  lemma Up(sc: Screen, n: nat)
    requires AtRest(sc) && 1 <= n && Short(n)
    ensures AtRest(Feed(sc, Csi1(n, 'A')))
    ensures var t := sc.term; var edge := if t.y < t.top then 0 else t.top;
            Feed(sc, Csi1(n, 'A')).term == t.(x := Min(t.x, t.cols - 1), y := Max(edge, t.y - n))
  {
    hide Csi1, Csi2, Feed;
    FeedMotion(sc, n, 'A');
  }

  lemma DownBy(sc: Screen, n: nat)
    requires AtRest(sc) && 1 <= n && Short(n)
    ensures AtRest(Feed(sc, Csi1(n, 'B')))
    ensures var t := sc.term; var edge := if t.y > t.bottom then t.rows - 1 else t.bottom;
            Feed(sc, Csi1(n, 'B')).term == t.(x := Min(t.x, t.cols - 1), y := Min(edge, t.y + n))
  {
    hide Csi1, Csi2, Feed;
    FeedMotion(sc, n, 'B');
  }

  // ---- two that undo each other -------------------------------------------------

  /** Right and left come back to where they started, where no edge is met. */
  lemma ThereAndBack(sc: Screen, n: nat)
    requires AtRest(sc) && 1 <= n && Short(n) && sc.term.x < sc.term.cols
    ensures sc.term.x + n < sc.term.cols ==> Feed(sc, Csi1(n, 'C') + Csi1(n, 'D')).term == sc.term
    ensures n <= sc.term.x ==> Feed(sc, Csi1(n, 'D') + Csi1(n, 'C')).term == sc.term
  {
    hide Csi1;
    Right(sc, n);
    Left(Feed(sc, Csi1(n, 'C')), n);
    FeedConcat(sc, Csi1(n, 'C'), Csi1(n, 'D'));
    Left(sc, n);
    Right(Feed(sc, Csi1(n, 'D')), n);
    FeedConcat(sc, Csi1(n, 'D'), Csi1(n, 'C'));
  }

  /** So do down and up, inside the region or wholly above or below it. */
  lemma DownAndUp(sc: Screen, n: nat)
    requires AtRest(sc) && 1 <= n && Short(n) && sc.term.x < sc.term.cols
    ensures var t := sc.term;
            && (t.top <= t.y && t.y + n <= t.bottom ==>
                  Feed(sc, Csi1(n, 'B') + Csi1(n, 'A')).term == t)
            && (t.top + n <= t.y <= t.bottom ==>
                  Feed(sc, Csi1(n, 'A') + Csi1(n, 'B')).term == t)
  {
    hide Csi1;
    DownBy(sc, n);
    Up(Feed(sc, Csi1(n, 'B')), n);
    FeedConcat(sc, Csi1(n, 'B'), Csi1(n, 'A'));
    Up(sc, n);
    DownBy(Feed(sc, Csi1(n, 'A')), n);
    FeedConcat(sc, Csi1(n, 'A'), Csi1(n, 'B'));
  }

  // ---- two that come to the same ------------------------------------------------

  /** No number means one, and so does a nought. */
  lemma NoNumberIsOne(sc: Screen, final: char)
    requires AtRest(sc) && IsMotion(final)
    ensures Feed(sc, Sequence("", final)).term == Feed(sc, Csi1(1, final)).term == Feed(sc, Csi1(0, final)).term
  {
    hide Sequence, Csi1, Feed;
    FeedBareMotion(sc, final);
    assert Short(1) && Short(0);
    FeedMotion(sc, 1, final);
    FeedMotion(sc, 0, final);
  }

  /** HPR is CUF, VPR is CUD, HPA is CHA, and HVP is CUP. */
  lemma SameFinals(sc: Screen, n: nat, m: nat)
    requires AtRest(sc) && Short(n) && Short(m)
    ensures Feed(sc, Csi1(n, 'a')).term == Feed(sc, Csi1(n, 'C')).term
    ensures Feed(sc, Csi1(n, 'e')).term == Feed(sc, Csi1(n, 'B')).term
    ensures Feed(sc, Csi1(n, '`')).term == Feed(sc, Csi1(n, 'G')).term
    ensures Feed(sc, Csi2(n, m, 'f')).term == Feed(sc, Csi2(n, m, 'H')).term
  {
    hide Csi1, Csi2, Feed;
    SameColumns(sc, n);
    FeedMotion(sc, n, 'e');
    FeedMotion(sc, n, 'B');
    FeedMotion2(sc, n, m, 'f');
    FeedMotion2(sc, n, m, 'H');
  }

  lemma SameColumns(sc: Screen, n: nat)
    requires AtRest(sc) && Short(n)
    ensures Feed(sc, Csi1(n, 'a')).term == Feed(sc, Csi1(n, 'C')).term
    ensures Feed(sc, Csi1(n, '`')).term == Feed(sc, Csi1(n, 'G')).term
  {
    hide Csi1, Csi2, Feed;
    FeedMotion(sc, n, 'a');
    FeedMotion(sc, n, 'C');
    FeedMotion(sc, n, '`');
    FeedMotion(sc, n, 'G');
  }

  lemma FeedCr(sc: Screen)
    requires AtRest(sc)
    ensures Feed(sc, [CR]) == sc.(term := sc.term.(x := 0))
  {
    FeedControl(sc, 0x0d);
  }

  /** CNL is CUD and a carriage return, CPL is CUU and one. */
  lemma LinesAreReturns(sc: Screen, n: nat)
    requires AtRest(sc) && Short(n)
    ensures Feed(sc, Csi1(n, 'E')).term == Feed(sc, Csi1(n, 'B') + [CR]).term
    ensures Feed(sc, Csi1(n, 'F')).term == Feed(sc, Csi1(n, 'A') + [CR]).term
  {
    LineIsReturn(sc, n, 'E', 'B');
    LineIsReturn(sc, n, 'F', 'A');
  }

  lemma LineIsReturn(sc: Screen, n: nat, line: char, motion: char)
    requires AtRest(sc) && Short(n) && ((line == 'E' && motion == 'B') || (line == 'F' && motion == 'A'))
    ensures Feed(sc, Csi1(n, line)).term == Feed(sc, Csi1(n, motion) + [CR]).term
  {
    hide Csi1, Feed;
    FeedMotion(sc, n, line);
    FeedMotion(sc, n, motion);
    FeedConcat(sc, Csi1(n, motion), [CR]);
    FeedCr(Feed(sc, Csi1(n, motion)));
  }

  /** A backspace is one column left. */
  lemma BackspaceIsLeft(sc: Screen)
    requires AtRest(sc)
    ensures Feed(sc, [BS]).term == Feed(sc, Csi1(1, 'D')).term
  {
    assert Short(1);
    Left(sc, 1);
    FeedControl(sc, 8);
  }

  function Times(s: string, k: nat): string { if k == 0 then "" else Times(s, k - 1) + s }

  /** Moving left `k` times by one is moving left once by `k`. */
  lemma {:induction false} LeftRepeated(sc: Screen, k: nat)
    requires AtRest(sc)
    ensures var t := sc.term;
            var r := Feed(sc, Times(Sequence("", 'D'), k));
            AtRest(r) && r.term == (if k == 0 then t else t.(x := Max(0, Min(t.x, t.cols - 1) - k)))
  {
    hide Sequence, Feed;
    if k == 0 {
      FeedNothing(sc);
    } else {
      var q := Feed(sc, Times(Sequence("", 'D'), k - 1));
      LeftRepeated(sc, k - 1);
      FeedConcat(sc, Times(Sequence("", 'D'), k - 1), Sequence("", 'D'));
      LeftOnce(q);
    }
  }

  lemma LeftOnce(sc: Screen)
    requires AtRest(sc)
    ensures var r := Feed(sc, Sequence("", 'D'));
            AtRest(r) && r.term == sc.term.(x := Max(0, Min(sc.term.x, sc.term.cols - 1) - 1))
  {
    hide Sequence, Csi1, Feed;
    FeedBareMotion(sc, 'D');
  }

  // ---- an address ----------------------------------------------------------------

  /** The row and column an address names: counted from 1, from the region's top row in
      origin mode, and no further than the last. */
  lemma Addressed(sc: Screen, row: nat, column: nat)
    requires AtRest(sc) && 1 <= row && 1 <= column && Short(row) && Short(column)
    ensures var t := sc.term;
            var y := if t.origin then Min(t.bottom, t.top + row - 1) else Min(t.rows - 1, row - 1);
            AtRest(Feed(sc, Csi2(row, column, 'H')))
            && Feed(sc, Csi2(row, column, 'H')).term == t.(x := Min(t.cols - 1, column - 1), y := y)
  {
    hide Csi2, Feed;
    FeedMotion2(sc, row, column, 'H');
  }

  /** CUP is VPA and then CHA. */
  lemma AddressInTwo(sc: Screen, row: nat, column: nat)
    requires AtRest(sc) && 1 <= row && 1 <= column && Short(row) && Short(column)
    ensures Feed(sc, Csi2(row, column, 'H')).term == Feed(sc, Csi1(row, 'd') + Csi1(column, 'G')).term
  {
    hide Csi1, Csi2, Feed;
    Addressed(sc, row, column);
    FeedMotion(sc, row, 'd');
    FeedConcat(sc, Csi1(row, 'd'), Csi1(column, 'G'));
    FeedMotion(Feed(sc, Csi1(row, 'd')), column, 'G');
  }

  /** A narrow character written over a cell: it is there, and no half of a wide one that
      was there is left; every other cell is as it was. */
  ghost predicate WrittenAt(was: seq<Cell>, cells: seq<Cell>, x: nat, ch: char) {
    && At(cells, x) == Glyph([ch])
    && forall j | 0 <= j && j != x ::
         At(cells, j) == if (j == x - 1 && At(was, x) == RightHalf) || (j == x + 1 && At(was, j) == RightHalf)
                         then Unwritten else At(was, j)
  }

  lemma NarrowWritten(cells: seq<Cell>, x: nat, ch: char)
    ensures WrittenAt(cells, WriteGlyph(cells, x, ch, 1), x, ch)
    ensures |WriteGlyph(cells, x, ch, 1)| == Max(|cells|, x + 1)
  {
    var c := Erase(cells, x, x + 1);
    forall j | 0 <= j && j != x
      ensures At(WriteGlyph(cells, x, ch, 1), j) == At(c, j)
    {
    }
  }

  /** Only the cursor's row and column differ, and the row in its cells alone. */
  ghost predicate OnOneRow(t: Term, r: Term)
    requires Grid(t) && Grid(r)
  {
    && r == WithActive(t, Active(t).(view := Active(r).view)).(x := r.x)
    && (forall i | 0 <= i < t.rows && i != t.y :: Active(r).view[i] == Active(t).view[i])
    && Active(r).view[t.y].wrapped == Active(t).view[t.y].wrapped
  }

  lemma CellsOnly(t: Term, cells: seq<Cell>, x: nat)
    requires Grid(t) && x <= t.cols
    ensures var r := SetCells(t, cells).(x := x);
            OnOneRow(t, r) && Line(r, r.y).cells == cells && r.x == x && r.y == t.y
  {}

  lemma PlacedNarrow(t: Term, ch: char)
    requires Grid(t) && t.x < t.cols && !t.insert
    ensures PrintTerm(t, ch, 1) == SetCells(t, WriteGlyph(Line(t, t.y).cells, t.x, ch, 1)).(x := t.x + 1)
  {}

  /** An address and a character: it goes to that row and column and nowhere else. */
  lemma AddressedPrint(sc: Screen, row: nat, column: nat, ch: char)
    requires AtRest(sc) && Narrow(ch) && !sc.term.insert
    requires 1 <= row && 1 <= column && Short(row) && Short(column)
    ensures var t := sc.term;
            var y := if t.origin then Min(t.bottom, t.top + row - 1) else Min(t.rows - 1, row - 1);
            var x := Min(t.cols - 1, column - 1);
            var r := Feed(sc, Csi2(row, column, 'H') + [ch]).term;
            && OnOneRow(t.(x := x, y := y), r) && r.x == x + 1 && r.y == y
            && WrittenAt(Line(t, y).cells, Line(r, y).cells, x, ch)
  {
    hide Csi2, WriteGlyph, WrittenAt;
    Addressed(sc, row, column);
    var at := Feed(sc, Csi2(row, column, 'H'));
    FeedConcat(sc, Csi2(row, column, 'H'), [ch]);
    FeedNarrow(at, ch);
    PlacedNarrow(at.term, ch);
    NarrowWritten(Line(at.term, at.term.y).cells, at.term.x, ch);
    CellsOnly(at.term, WriteGlyph(Line(at.term, at.term.y).cells, at.term.x, ch, 1), at.term.x + 1);
  }

  // ---- a line redrawn ------------------------------------------------------------

  /** A row holding just this text, one narrow character to a cell. */
  function CellsOf(s: string): seq<Cell> { seq(|s|, i requires 0 <= i < |s| => Glyph([s[i]])) }

  /** The line is this text, all on the cursor's row, with nothing below it. */
  ghost predicate OneRow(t: Term, s: string, x: nat) {
    && Grid(t) && t.alt.None? && !t.unsure && !t.insert
    && |s| <= t.cols && t.x == x <= |s|
    && t.main.view[t.y] == Row(CellsOf(s), false)
    && forall i | t.y < i < t.rows :: t.main.view[i] == BLANK_ROW
  }

  lemma {:induction false} TextOfCells(s: string, lo: nat, hi: nat)
    requires lo <= hi <= |s|
    ensures Text(CellsOf(s), lo, hi) == s[lo..hi]
    decreases hi
  {
    if lo < hi {
      TextOfCells(s, lo, hi - 1);
      assert s[lo..hi] == s[lo..hi - 1] + [s[hi - 1]];
    }
  }

  lemma NothingBelow(rows: seq<Row>, at: nat)
    requires at < |rows| && forall i | at < i < |rows| :: rows[i] == BLANK_ROW
    ensures LineEnd(rows, at) == at && !AnyText(rows, at + 1)
  {}

  lemma OneRowReads(t: Term, s: string, x: nat)
    requires OneRow(t, s, x)
    ensures CursorLine(t) == LineView(s[..x], s[x..], false, true)
  {
    var rows, at := Lines(t), Row0(t);
    assert rows[at] == t.main.view[t.y];
    forall i | at < i < |rows| ensures rows[i] == BLANK_ROW {
      assert rows[i] == t.main.view[i - |t.main.scroll|];
    }
    NothingBelow(rows, at);
    TextOfCells(s, 0, x);
    TextOfCells(s, x, |s|);
    assert Join(rows, at, at) == "" && Join(rows, at + 1, at + 1) == "";
    assert s[0..x] == s[..x] && s[x..|s|] == s[x..];
  }

  /** `b` typed over `s` from column `x` on. */
  function Over(s: string, x: nat, b: string): string
    requires x <= |s|
  {
    s[..x] + b + s[Min(|s|, x + |b|)..]
  }

  lemma OverCells(s: string, x: nat, ch: char)
    requires x <= |s|
    ensures WriteGlyph(CellsOf(s), x, ch, 1) == CellsOf(Over(s, x, [ch]))
  {
    var cells, over := WriteGlyph(CellsOf(s), x, ch, 1), Over(s, x, [ch]);
    assert At(CellsOf(s), x) != RightHalf && At(CellsOf(s), x + 1) != RightHalf;
    NarrowWritten(CellsOf(s), x, ch);
    assert |cells| == |over|;
    forall j | 0 <= j < |cells| ensures cells[j] == Glyph([over[j]]) {
      assert At(cells, j) == cells[j];
    }
  }

  lemma OverNothing(s: string, x: nat)
    requires x <= |s|
    ensures Over(s, x, "") == s
  {}

  lemma OverTail(s: string, tail: string, b: string)
    requires |tail| <= |b|
    ensures Over(s + tail, |s|, b) == s + b
  {
    assert (s + tail)[..|s|] == s;
  }

  lemma TypeOver(t: Term, s: string, x: nat, ch: char)
    requires OneRow(t, s, x) && x < t.cols && Narrow(ch)
    ensures OneRow(PrintTerm(t, ch, 1), Over(s, x, [ch]), x + 1)
  {
    hide WriteGlyph, CellsOf;
    OverCells(s, x, ch);
    PlacedNarrow(t, ch);
    CellsOnly(t, CellsOf(Over(s, x, [ch])), x + 1);
  }

  lemma OverSnoc(s: string, x: nat, b: string, ch: char)
    requires x <= |s|
    ensures x + |b| <= |Over(s, x, b)| && Over(Over(s, x, b), x + |b|, [ch]) == Over(s, x, b + [ch])
  {
    var o := Over(s, x, b);
    assert o[..x + |b|] == s[..x] + b;
    var n := Min(|o|, x + |b| + 1);
    assert o[n..] == s[Min(|s|, x + |b| + 1)..];
    assert s[..x] + b + [ch] == s[..x] + (b + [ch]);
  }

  lemma {:induction false} TypeAllOver(sc: Screen, s: string, x: nat, b: string)
    requires AtRest(sc) && OneRow(sc.term, s, x) && x <= |s| && AllNarrow(b) && x + |b| <= sc.term.cols
    ensures var r := Feed(sc, b);
            AtRest(r) && OneRow(r.term, Over(s, x, b), x + |b|) && r.term.cols == sc.term.cols
  {
    hide OneRow, Over, Feed;
    if b == "" {
      OverNothing(s, x);
      FeedNothing(sc);
    } else {
      var front, ch := b[..|b| - 1], b[|b| - 1];
      TypeAllOver(sc, s, x, front);
      FeedConcat(sc, front, [ch]);
      assert front + [ch] == b;
      OverSnoc(s, x, front, ch);
      TypeOneMore(Feed(sc, front), Over(s, x, front), x + |front|, ch);
    }
  }

  lemma FeedNothing(sc: Screen)
    requires Grid(sc.term)
    ensures Feed(sc, "") == sc
  {}

  lemma TypeOneMore(sc: Screen, s: string, x: nat, ch: char)
    requires AtRest(sc) && OneRow(sc.term, s, x) && x <= |s| && x < sc.term.cols && Narrow(ch)
    ensures var r := Feed(sc, [ch]);
            AtRest(r) && OneRow(r.term, Over(s, x, [ch]), x + 1) && r.term.cols == sc.term.cols
  {
    hide PrintTerm, OneRow;
    FeedNarrow(sc, ch);
    TypeOver(sc.term, s, x, ch);
  }

  /** A cursor at the start of an empty line with nothing below, on the main screen. */
  ghost predicate Fresh(t: Term) { OneRow(t, "", 0) }

  /** Text, `k` columns left, more text: the line reads with its last columns typed over. */
  lemma RewritesBack(sc: Screen, a: string, k: nat, b: string)
    requires AtRest(sc) && Fresh(sc.term) && AllNarrow(a) && AllNarrow(b) && 1 <= k && Short(k)
    requires |a| <= sc.term.cols && Max(0, Min(|a|, sc.term.cols - 1) - k) + |b| <= sc.term.cols
    ensures var x := Max(0, Min(|a|, sc.term.cols - 1) - k);
            var line := CursorLine(Feed(sc, a + (Csi1(k, 'D') + b)).term);
            line == LineView(a[..x] + b, a[Min(|a|, x + |b|)..], false, true)
  {
    hide Csi1, CursorLine, Feed, OneRow, Over, AllNarrow, Short;
    var x := Max(0, Min(|a|, sc.term.cols - 1) - k);
    TypedFresh(sc, a);
    RewritesFrom(Feed(sc, a), a, k, b);
    FeedConcat(sc, a, Csi1(k, 'D') + b);
    OverReads(Feed(Feed(sc, a), Csi1(k, 'D') + b).term, a, x, b);
  }

  lemma OverReads(t: Term, a: string, x: nat, b: string)
    requires x <= |a| && OneRow(t, Over(a, x, b), x + |b|)
    ensures CursorLine(t) == LineView(a[..x] + b, a[Min(|a|, x + |b|)..], false, true)
  {
    hide CursorLine, OneRow, Over;
    OverParts(a, x, b);
    OneRowReads(t, Over(a, x, b), x + |b|);
  }

  lemma TypedFresh(sc: Screen, a: string)
    requires AtRest(sc) && Fresh(sc.term) && AllNarrow(a) && |a| <= sc.term.cols
    ensures var r := Feed(sc, a); AtRest(r) && OneRow(r.term, a, |a|) && r.term.cols == sc.term.cols
  {
    hide Feed, OneRow, Over;
    TypeAllOver(sc, "", 0, a);
    OverTail("", "", a);
    assert "" + a == a && "" + "" == "";
  }

  lemma RewritesFrom(sc: Screen, a: string, k: nat, b: string)
    requires AtRest(sc) && OneRow(sc.term, a, |a|) && AllNarrow(b) && 1 <= k && Short(k)
    requires Max(0, Min(|a|, sc.term.cols - 1) - k) + |b| <= sc.term.cols
    ensures var x := Max(0, Min(|a|, sc.term.cols - 1) - k);
            OneRow(Feed(sc, Csi1(k, 'D') + b).term, Over(a, x, b), x + |b|)
  {
    hide Csi1, Feed, OneRow, Over;
    var x := Max(0, Min(|a|, sc.term.cols - 1) - k);
    Left(sc, k);
    WentBack(sc.term, a, k);
    TypeAllOver(Feed(sc, Csi1(k, 'D')), a, x, b);
    FeedConcat(sc, Csi1(k, 'D'), b);
  }

  lemma OverParts(a: string, x: nat, b: string)
    requires x <= |a|
    ensures var o := Over(a, x, b);
            x + |b| <= |o| && o[..x + |b|] == a[..x] + b && o[x + |b|..] == a[Min(|a|, x + |b|)..]
  {}

  lemma WentBack(t: Term, s: string, k: nat)
    requires OneRow(t, s, |s|)
    ensures OneRow(t.(x := Max(0, Min(t.x, t.cols - 1) - k)), s, Max(0, Min(|s|, t.cols - 1) - k))
  {}

  /** QEMU's monitor redraws what is typed at every key: left over what is there already,
      then all of it again. */
  function Redraws(word: string, n: nat): string
    requires n <= |word|
  {
    if n == 0 then "" else Redraws(word, n - 1) + (Times(Sequence("", 'D'), n - 1) + word[..n])
  }

  lemma {:induction false} RedrawsHold(sc: Screen, prompt: string, word: string, n: nat)
    requires AtRest(sc) && OneRow(sc.term, prompt, |prompt|) && AllNarrow(word)
    requires n <= |word| && |prompt| + |word| <= sc.term.cols
    ensures var r := Feed(sc, Redraws(word, n));
            AtRest(r) && OneRow(r.term, prompt + word[..n], |prompt| + n) && r.term.cols == sc.term.cols
  {
    hide OneRow, Sequence, Over, Times, Feed;
    if n == 0 {
      assert prompt + word[..0] == prompt;
      FeedNothing(sc);
    } else {
      RedrawsHold(sc, prompt, word, n - 1);
      var q := Feed(sc, Redraws(word, n - 1));
      var lefts := Times(Sequence("", 'D'), n - 1);
      FeedConcat(sc, Redraws(word, n - 1), lefts + word[..n]);
      FeedConcat(q, lefts, word[..n]);
      LeftRepeated(q, n - 1);
      MovedBack(q.term, Feed(q, lefts).term, prompt + word[..n - 1], |prompt|, n - 1);
      TypeAllOver(Feed(q, lefts), prompt + word[..n - 1], |prompt|, word[..n]);
      OverTail(prompt, word[..n - 1], word[..n]);
    }
  }

  lemma MovedBack(t: Term, r: Term, s: string, x: nat, k: nat)
    requires OneRow(t, s, x + k) && x + k < t.cols
    requires r == if k == 0 then t else t.(x := Max(0, Min(t.x, t.cols - 1) - k))
    ensures OneRow(r, s, x)
  {}

  /** After a prompt, the monitor's redraws of any word - c, co, con, cont - read as that word
      once. */
  lemma RedrawnReadsOnce(sc: Screen, prompt: string, word: string)
    requires AtRest(sc) && Fresh(sc.term) && AllNarrow(prompt) && AllNarrow(word)
    requires |prompt| + |word| <= sc.term.cols
    ensures CursorLine(Feed(sc, prompt + Redraws(word, |word|)).term) == LineView(prompt + word, "", false, true)
  {
    hide Redraws, CursorLine;
    TypedFresh(sc, prompt);
    var at := Feed(sc, prompt);
    RedrawsHold(at, prompt, word, |word|);
    FeedConcat(sc, prompt, Redraws(word, |word|));
    var s := prompt + word;
    assert word[..|word|] == word;
    OneRowReads(Feed(at, Redraws(word, |word|)).term, s, |s|);
    assert s[..|s|] == s && s[|s|..] == "";
  }

  // ---- the right margin -----------------------------------------------------------

  lemma WrittenTwice(cells: seq<Cell>, ch: char)
    ensures var c := WriteGlyph(cells, 0, ch, 1); c != [] && WriteGlyph(c, 0, ch, 1) == c
  {
    var c := WriteGlyph(cells, 0, ch, 1);
    NarrowWritten(cells, 0, ch);
    NarrowWritten(c, 0, ch);
    assert At(c, 1) != RightHalf;
    var d := WriteGlyph(c, 0, ch, 1);
    forall j | 0 <= j < |c| ensures d[j] == c[j] {
      assert At(d, j) == d[j] && At(c, j) == c[j];
    }
  }

  lemma CellsKept(t: Term)
    requires Grid(t)
    ensures SetCells(t, Line(t, t.y).cells) == t
  {
    assert Active(t).view[t.y := Line(t, t.y)] == Active(t).view;
  }

  lemma PrintedAtStart(t: Term, ch: char)
    requires Grid(t) && t.x == 0 && !t.insert
    ensures var r := PrintTerm(t, ch, 1); PrintTerm(r.(x := 0), ch, 1) == r && r.x == 1 && !r.insert
  {
    hide WriteGlyph, SetCells;
    var cells := WriteGlyph(Line(t, t.y).cells, 0, ch, 1);
    PlacedNarrow(t, ch);
    CellsOnly(t, cells, 1);
    WrittenTwice(Line(t, t.y).cells, ch);
    var r := PrintTerm(t, ch, 1);
    PlacedNarrow(r.(x := 0), ch);
    CellsKept(r.(x := 0));
  }

  /** GNU readline, past the right margin, writes the first character of the new row, returns,
      and writes it again: the screen is as if it had been written once. */
  lemma WrittenOnceAtTheMargin(sc: Screen, ch: char)
    requires AtRest(sc) && Narrow(ch) && sc.term.wrap && !sc.term.insert && sc.term.x == sc.term.cols
    ensures Feed(sc, [ch] + [CR] + [ch]) == Feed(sc, [ch])
  {
    hide Feed, PrintTerm, WrapFor;
    FeedNarrow(sc, ch);
    WrapsFirst(sc.term, ch);
    PrintedAtStart(WrapFor(sc.term, 1), ch);
    FeedConcat(sc, [ch], [CR]);
    FeedCr(Feed(sc, [ch]));
    FeedConcat(sc, [ch] + [CR], [ch]);
    FeedNarrow(Feed(sc, [ch] + [CR]), ch);
  }

  lemma WrapsFirst(t: Term, ch: char)
    requires Grid(t) && t.wrap && !t.insert && t.x == t.cols
    ensures var w := WrapFor(t, 1); w.x == 0 && !w.insert && PrintTerm(t, ch, 1) == PrintTerm(w, ch, 1)
  {
    hide Place, ScrollUpOne, SetLine;
    StaysPut(t);
  }

  lemma StaysPut(t: Term)
    requires Grid(t)
    ensures var w := WrapFor(t, 1);
            (t.wrap && t.x == t.cols ==> w.x == 0 && w.insert == t.insert) && WrapFor(w, 1) == w
  {}
}
