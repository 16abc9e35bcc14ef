/** The page's screen as the page keeps it: two buffers of lines, each with a base
    below which its lines are scrollback, edited in place as the guest's output
    arrives. Every method is proved against the value it should leave behind. */
module SerialTap {
  import opened Arithmetic
  import opened Options
  import opened Cells
  import P = Parser
  import opened Terminal
  import opened Reading
  import Prompts

  /** A buffer of lines; those before `base` are its scrollback. */
  class LineBuffer {
    var lines: seq<Row>
    var base: nat
    const keep: nat
    var saved: Option<Saved>

    constructor (rows: nat, keep: nat)
      ensures Valid() && this.keep == keep && Value() == NewBuffer(rows, Some(keep))
    {
      this.keep := keep;
      lines, base, saved := BlankRows(rows), 0, None;
      new;
      assert lines[..0] == [] && lines[0..] == lines;
    }

    ghost predicate Valid()
      reads this
    {
      base <= |lines|
    }

    ghost function Value(): Buffer
      requires Valid()
      reads this
    {
      Buffer(lines[..base], lines[base..], Some(keep), saved)
    }

    /** Grow to `n` screen rows: while the cursor is on the bottom row the scrollback
        comes back down with it, then blank rows are added. */
    method Grow(active: bool, y0: nat, n: nat) returns (y: nat)
      requires Valid() && |lines| - base <= n && (active ==> y0 < |lines| - base)
      modifies this
      ensures Valid()
      ensures active ==> (Value(), y) == FitActive(old(Value()), y0, n)
      ensures !active ==> Value() == FitIdle(old(Value()), n) && y == y0
    {
      ghost var from, base0, n0 := lines, base, |lines| - base;
      ghost var pulled, added := 0, 0;
      y := y0;
      while |lines| - base < n
        invariant Valid() && saved == old(saved) && |lines| - base <= n
        invariant pulled + added == |lines| - base - n0 && added >= 0
        invariant lines == from + BlankRows(added) && base == base0 - pulled && y == y0 + pulled
        invariant pulled == if active && y0 + 1 == n0 then Min(base0, pulled + added) else 0
      {
        if active && base > 0 && y == |lines| - base - 1 {
          base := base - 1;
          y := y + 1;
          pulled := pulled + 1;
        } else {
          lines := lines + [BLANK_ROW];
          added := added + 1;
        }
      }
      GrownLines(from, base0, pulled, added);
      assert [] + from[base0..] == from[base0..];
    }

    /** Shrink to `n` screen rows: rows below the cursor are dropped, then rows go
        off the top into the scrollback. */
    method Shrink(active: bool, y0: nat, n: nat) returns (y: nat)
      requires Valid() && 1 <= n < |lines| - base && (active ==> y0 < |lines| - base)
      modifies this
      ensures Valid()
      ensures active ==> (Value(), y) == FitActive(old(Value()), y0, n)
      ensures !active ==> Value() == FitIdle(old(Value()), n) && y == y0
    {
      ghost var from, base0, n0 := lines, base, |lines| - base;
      ghost var dropped, pushed := 0, 0;
      y := y0;
      while |lines| - base > n
        invariant Valid() && saved == old(saved) && n <= |lines| - base
        invariant dropped + pushed == n0 - (|lines| - base) && pushed >= 0
        invariant lines == from[..|from| - dropped] && base == base0 + pushed
        invariant y == if active then y0 - pushed else y0
        invariant active ==> y < |lines| - base
        invariant dropped == if active then Min(n0 - 1 - y0, dropped + pushed) else 0
      {
        if active && y < |lines| - base - 1 {
          assert from[..|from| - dropped][..|from| - dropped - 1] == from[..|from| - (dropped + 1)];
          lines := lines[..|lines| - 1];
          dropped := dropped + 1;
        } else {
          base := base + 1;
          if active {
            y := y - 1;
          }
          pushed := pushed + 1;
        }
      }
      ShrunkIs(old(Value()), from, base0, y0, n, dropped, pushed, active);
    }

    method Refit(active: bool, y0: nat, n: nat) returns (y: nat)
      requires Valid() && 1 <= n && (active ==> y0 < |lines| - base)
      modifies this
      ensures Valid()
      ensures active ==> (Value(), y) == FitActive(old(Value()), y0, n)
      ensures !active ==> Value() == FitIdle(old(Value()), n)
    {
      if |lines| - base <= n {
        y := Grow(active, y0, n);
      } else {
        y := Shrink(active, y0, n);
      }
    }
  }

  lemma GrownLines(lines: seq<Row>, base: nat, pulled: nat, added: nat)
    requires pulled <= base <= |lines|
    ensures (lines + BlankRows(added))[..base - pulled] == lines[..base][..base - pulled]
    ensures (lines + BlankRows(added))[base - pulled..]
         == lines[..base][base - pulled..] + lines[base..] + BlankRows(added)
  {
  }

  lemma ShrunkLines(lines: seq<Row>, base: nat, dropped: nat, pushed: nat)
    requires base <= |lines| && dropped + pushed <= |lines| - base
    ensures var kept := lines[base..][..|lines| - base - dropped];
            && lines[..|lines| - dropped][..base + pushed] == lines[..base] + kept[..pushed]
            && lines[..|lines| - dropped][base + pushed..] == kept[pushed..]
  {
    var kept := lines[base..][..|lines| - base - dropped];
    assert lines[..|lines| - dropped][..base + pushed] == lines[..base + pushed];
    assert kept[..pushed] == lines[base..base + pushed];
    assert lines[..base + pushed] == lines[..base] + lines[base..base + pushed];
  }

  /** Rows dropped and pushed come to the closed form. */
  lemma ShrunkIs(b: Buffer, from: seq<Row>, base: nat, y: nat, n: nat, dropped: nat, pushed: nat, active: bool)
    requires base <= |from| && b.scroll == from[..base] && b.view == from[base..]
    requires 1 <= n < |b.view| && (active ==> y < |b.view|) && dropped + pushed == |b.view| - n
    requires dropped == if active then Min(|b.view| - 1 - y, dropped + pushed) else 0
    ensures var l := from[..|from| - dropped];
            var r := b.(scroll := l[..base + pushed], view := l[base + pushed..]);
            && (active ==> FitActive(b, y, n) == (r, y - pushed))
            && (!active ==> FitIdle(b, n) == r)
  {
    ShrunkLines(from, base, dropped, pushed);
    assert b.view[..|b.view|] == b.view;
  }

  // ---- the lines of a buffer, split at its base ---------------------------

  lemma SplitSet(lines: seq<Row>, base: nat, i: nat, row: Row)
    requires base + i < |lines|
    ensures lines[base + i := row][..base] == lines[..base]
    ensures lines[base + i := row][base..] == lines[base..][i := row]
  {
  }

  lemma SplitInsert(lines: seq<Row>, base: nat, i: nat)
    requires base + i <= |lines|
    ensures InsertRow(lines, base + i)[..base] == lines[..base]
    ensures InsertRow(lines, base + i)[base..] == InsertRow(lines[base..], i)
  {
  }

  lemma SplitRemove(lines: seq<Row>, base: nat, i: nat)
    requires base + i < |lines|
    ensures RemoveRow(lines, base + i)[..base] == lines[..base]
    ensures RemoveRow(lines, base + i)[base..] == RemoveRow(lines[base..], i)
  {
  }

  /** Moving the base down one row moves that row into the scrollback. */
  lemma SplitDown(lines: seq<Row>, base: nat)
    requires base < |lines|
    ensures lines[..base + 1] == lines[..base] + [lines[base..][0]]
    ensures lines[base + 1..] == lines[base..][1..]
  {
  }

  /** Dropping the first `d` lines drops them from the scrollback. */
  lemma SplitTrim(lines: seq<Row>, base: nat, d: nat)
    requires d <= base <= |lines|
    ensures lines[d..][..base - d] == lines[..base][d..]
    ensures lines[d..][base - d..] == lines[base..]
  {
  }

  /** A row inserted below the region, and the top row pushed off the screen. */
  lemma SplitPush(lines: seq<Row>, base: nat, bottom: nat, keep: nat)
    requires base + bottom < |lines|
    ensures
      var l := InsertRow(lines, base + bottom + 1);
      var v := InsertRow(lines[base..], bottom + 1);
      var scroll := Trimmed(lines[..base] + [v[0]], Some(keep));
      && (base + 1 > keep + SLACK ==>
            l[base + 1 - keep..][..keep] == scroll && l[base + 1 - keep..][keep..] == v[1..])
      && (base + 1 <= keep + SLACK ==> l[..base + 1] == scroll && l[base + 1..] == v[1..])
  {
    SplitInsert(lines, base, bottom + 1);
    var l := InsertRow(lines, base + bottom + 1);
    SplitDown(l, base);
    if base + 1 > keep + SLACK {
      SplitTrim(l, base + 1, base + 1 - keep);
    }
  }

  /** A row removed and a blank one inserted, within the screen. */
  lemma SplitShift(lines: seq<Row>, base: nat, i: nat, j: nat)
    requires base + i < |lines| && base + j < |lines|
    ensures var l := InsertRow(RemoveRow(lines, base + i), base + j);
            l[..base] == lines[..base] && l[base..] == InsertRow(RemoveRow(lines[base..], i), j)
  {
    SplitRemove(lines, base, i);
    SplitInsert(RemoveRow(lines, base + i), base, j);
  }

  /** A row of the screen spliced out, and a blank one in. */
  method Shifted(lines: seq<Row>, base: nat, i: nat, j: nat) returns (r: seq<Row>)
    requires base + i < |lines| && base + j < |lines|
    ensures |r| == |lines| && r[..base] == lines[..base]
    ensures r[base..] == InsertRow(RemoveRow(lines[base..], i), j)
  {
    SplitShift(lines, base, i, j);
    r := RemoveRow(lines, base + i);
    r := InsertRow(r, base + j);
  }

  /** A blank row spliced in below the region, the base moved down, and the
      scrollback cut back once it is too long. */
  method Pushed(lines: seq<Row>, base: nat, bottom: nat, keep: nat) returns (r: seq<Row>, b: nat)
    requires base + bottom < |lines|
    ensures b <= |r|
    ensures r[..b] == Trimmed(lines[..base] + [InsertRow(lines[base..], bottom + 1)[0]], Some(keep))
    ensures r[b..] == InsertRow(lines[base..], bottom + 1)[1..]
  {
    SplitPush(lines, base, bottom, keep);
    r := InsertRow(lines, base + bottom + 1);
    b := base + 1;
    if b > keep + SLACK {
      r := r[b - keep..];
      b := keep;
    }
  }

  // ---- rows and their text ------------------------------------------------

  /** Blank [lo, hi), a cell at a time, leaving no half of a wide character. */
  method EraseCells(cells: seq<Cell>, lo: nat, hi: nat) returns (r: seq<Cell>)
    requires lo <= hi
    ensures r == Erase(cells, lo, hi)
  {
    r := cells;
    if lo > 0 && At(r, lo) == RightHalf {
      r := r[lo - 1 := Unwritten];
    }
    if At(r, hi) == RightHalf {
      r := r[hi := Unwritten];
    }
    if hi >= |r| {
      if |r| > lo {
        r := r[..lo];
      }
    } else {
      ghost var edged := r;
      for i := lo to hi
        invariant |r| == |cells|
        invariant forall j | 0 <= j < |r| :: r[j] == if lo <= j < i then Unwritten else edged[j]
      {
        r := r[i := Unwritten];
      }
    }
  }

  /** The text of columns [lo, hi). */
  method TextOf(cells: seq<Cell>, lo: nat, hi: nat) returns (s: string)
    ensures s == Text(cells, lo, Max(lo, hi))
  {
    s := "";
    var i := lo;
    while i < hi
      invariant lo <= i <= Max(lo, hi)
      invariant s == Text(cells, lo, i)
    {
      s := s + CellText(At(cells, i));
      i := i + 1;
    }
  }

  /** `n` blanks spliced in at `at`, and the row cut at `cols`. */
  method InsertedCells(cells: seq<Cell>, at: nat, n: nat, cols: nat) returns (r: seq<Cell>)
    requires at < |cells|
    ensures r == InsertCells(cells, at, n, cols)
  {
    r := EraseCells(cells, at, at);
    r := r[..at] + Blanks(n) + r[at..];
    if |r| > cols {
      r := r[..cols];
    }
  }

  method GlyphCells(cells: seq<Cell>, x: nat, ch: char, w: nat) returns (r: seq<Cell>)
    requires 1 <= w <= 2
    ensures r == WriteGlyph(cells, x, ch, w)
  {
    r := EraseCells(cells, x, x + w);
    r := Put(r, x, Glyph([ch]));
    if w == 2 {
      r := Put(r, x + 1, RightHalf);
    }
  }

  /** `n` cells spliced out at `at`. */
  method DeletedCells(cells: seq<Cell>, at: nat, n: nat) returns (r: seq<Cell>)
    ensures r == DeleteCells(cells, at, n)
  {
    r := EraseCells(cells, at, at);
    r := EraseCells(r, at + n, at + n);
    if at < |r| {
      r := r[..at] + r[Min(|r|, at + n)..];
    }
  }

  /** The screen rows ED blanks, and the cursor's own row as it leaves it. */
  method ErasedLines(lines: seq<Row>, base: nat, y: nat, p: nat, row: Row) returns (r: seq<Row>)
    requires base + y < |lines|
    ensures |r| == |lines| && r[..base] == lines[..base]
    ensures forall j | base <= j < |r| ::
              r[j] == if p == 2 || (p == 0 && j > base + y) || (p == 1 && j < base + y) then BLANK_ROW
                      else if j == base + y then row else lines[j]
  {
    r := lines[base + y := row];
    for i := base to |lines|
      invariant |r| == |lines| && r[..base] == lines[..base]
      invariant forall j | base <= j < |r| ::
                  r[j] == if j < i && (p == 2 || (p == 0 && j > base + y) || (p == 1 && j < base + y))
                          then BLANK_ROW else if j == base + y then row else lines[j]
    {
      if p == 2 || (p == 0 && i > base + y) || (p == 1 && i < base + y) {
        r := r[i := BLANK_ROW];
      }
    }
  }

  /** ICH, DCH or ECH on the cells of a row. */
  method EditedCells(cells: seq<Cell>, final: char, cx: nat, n: nat, cols: nat) returns (r: seq<Cell>)
    requires final in "@PX"
    ensures r == Edited(cells, final, cx, n, cols)
  {
    r := cells;
    if final == '@' {
      if cx < |cells| {
        r := InsertedCells(cells, cx, Min(n, cols), cols);
      }
    } else if final == 'P' {
      r := DeletedCells(cells, cx, n);
    } else {
      r := EraseCells(cells, cx, cx + n);
    }
  }

  method IsBlank(r: Row) returns (b: bool)
    ensures b == Blank(r)
  {
    var s := TextOf(r.cells, 0, |r.cells|);
    b := AllSpace(s);
  }

  // ---- the screen ---------------------------------------------------------

  class Tap {
    var cols: nat
    var rows: nat
    var main: LineBuffer
    var buf: LineBuffer
    var x: nat
    var y: nat
    var top: nat
    var bottom: nat
    var wrap: bool
    var origin: bool
    var insert: bool
    var moves: nat
    var unsure: bool
    var state: P.State
    var params: string
    var inter: string
    var osc: Option<string>
    var context: P.Context

    ghost predicate Valid()
      reads this, main, buf
    {
      main.Valid() && buf.Valid() && main.keep == SCROLLBACK && (buf != main ==> buf.keep == 0) && Grid(Model())
    }

    ghost function Model(): Term
      requires main.Valid() && buf.Valid()
      reads this, main, buf
    {
      Term.Term(cols, rows, main.Value(), if buf == main then None else Some(buf.Value()),
                x, y, top, bottom, wrap, origin, insert, moves, unsure)
    }

    ghost function Parsing(): P.Parser
      reads this
    {
      P.Parser.Parser(state, params, inter, osc, context)
    }

    ghost function Value(): Screen
      requires Valid()
      reads this, main, buf
    {
      Screen(Model(), Parsing())
    }

    constructor (width: int, height: int)
      ensures Valid() && fresh(main) && fresh(buf)
      ensures Value() == Screen(InitTerm(Sized(width, 80, 2), Sized(height, 24, 1), Some(SCROLLBACK)), P.FRESH)
    {
      cols, rows := Sized(width, 80, 2), Sized(height, 24, 1);
      var b := new LineBuffer(Sized(height, 24, 1), SCROLLBACK);
      main, buf := b, b;
      x, y, top, bottom := 0, 0, 0, Sized(height, 24, 1) - 1;
      wrap, origin, insert := true, false, false;
      moves, unsure := 0, false;
      state, params, inter, osc, context := P.Ground, "", "", None, P.Unsaid;
    }

    method Reset()
      requires Valid()
      modifies this`main, this`buf, this`x, this`y, this`top, this`bottom, this`wrap, this`origin, this`insert,
               this`unsure
      ensures Valid() && fresh(main) && buf == main
      ensures Model() == ResetTerm(old(Model()))
    {
      StartOver();
      MoveTo(0, 0);
      SetMargins(0, rows - 1);
      SetFlags(true, false, false);
      unsure := false;
    }

    method MoveTo(cx: nat, cy: nat)
      requires main.Valid() && buf.Valid()
      modifies this`x, this`y
      ensures Model() == old(Model()).(x := cx, y := cy)
    {
      x, y := cx, cy;
    }

    method SetMargins(a: nat, b: nat)
      requires main.Valid() && buf.Valid()
      modifies this`top, this`bottom
      ensures Model() == old(Model()).(top := a, bottom := b)
    {
      top, bottom := a, b;
    }

    method SetFlags(w: bool, o: bool, i: bool)
      requires main.Valid() && buf.Valid()
      modifies this`wrap, this`origin, this`insert
      ensures Model() == old(Model()).(wrap := w, origin := o, insert := i)
    {
      wrap, origin, insert := w, o, i;
    }

    /** One new, blank main buffer in place of both. */
    method StartOver()
      requires Valid()
      modifies this`main, this`buf
      ensures Valid() && fresh(main) && buf == main
      ensures Model() == old(Model()).(main := NewBuffer(rows, Some(SCROLLBACK)), alt := None)
    {
      var b := new LineBuffer(rows, SCROLLBACK);
      main, buf := b, b;
    }

    // ---- scrolling --------------------------------------------------------

    method ScrollUpOnce()
      requires Valid()
      modifies this, buf
      ensures Valid() && main == old(main) && buf == old(buf)
      ensures Model() == ScrollUpOne(old(Model())) && Parsing() == old(Parsing())
    {
      if top == 0 {
        PushTop();
      } else {
        Shift(top, bottom);
      }
    }

    /** The top row goes into the scrollback, which is trimmed once it is too long. */
    method PushTop()
      requires Valid() && top == 0
      modifies this, buf
      ensures Valid() && main == old(main) && buf == old(buf)
      ensures Model() == ScrollUpOne(old(Model())) && Parsing() == old(Parsing())
    {
      PushIs(Model());
      PushLines();
      ghost var pushed := Model();
      if buf == main {
        moves := moves + 1;
        assert Model() == pushed.(moves := pushed.moves + 1);
      }
    }

    method PushLines()
      requires Valid() && top == 0
      modifies buf
      ensures Valid() && Model() == PushedOff(old(Model()))
    {
      var lines, base := Pushed(buf.lines, buf.base, bottom, buf.keep);
      StoreLines(lines, base);
    }

    /** The active buffer's lines and base replaced. */
    method StoreLines(lines: seq<Row>, base: nat)
      requires Valid() && base <= |lines| && |lines| - base == rows
      modifies buf
      ensures Valid()
      ensures Model() == WithActive(old(Model()), Active(old(Model())).(scroll := lines[..base], view := lines[base..]))
    {
      buf.lines, buf.base := lines, base;
      assert buf.Value() == old(buf.Value()).(scroll := lines[..base], view := lines[base..]);
    }

    /** Row `i` of the screen goes and a blank row comes in at `j`. */
    method Shift(i: nat, j: nat)
      requires Valid() && i < rows && j < rows
      modifies buf
      ensures Valid()
      ensures Model() == SetView(old(Model()), InsertRow(RemoveRow(Active(old(Model())).view, i), j))
    {
      ghost var v := buf.lines[buf.base..];
      assert Active(Model()).view == v;
      var lines := Shifted(buf.lines, buf.base, i, j);
      StoreScreen(lines);
    }

    /** The active buffer's lines replaced, its scrollback aside. */
    method StoreScreen(lines: seq<Row>)
      requires Valid() && |lines| == |buf.lines| && lines[..buf.base] == buf.lines[..buf.base]
      modifies buf
      ensures Valid()
      ensures Model() == SetView(old(Model()), lines[old(buf.base)..])
    {
      StoreLines(lines, buf.base);
    }

    method ScrollUpBy(n: nat)
      requires Valid()
      modifies this, buf
      ensures Valid() && main == old(main) && buf == old(buf)
      ensures Model() == ScrollUp(old(Model()), n) && Parsing() == old(Parsing())
    {
      for k := 0 to n
        invariant Valid() && main == old(main) && buf == old(buf)
        invariant Model() == ScrollUp(old(Model()), k) && Parsing() == old(Parsing())
      {
        ScrollUpOnce();
      }
    }

    method ScrollDownBy(n: nat)
      requires Valid()
      modifies buf
      ensures Valid()
      ensures Model() == ScrollDown(old(Model()), n)
    {
      for k := 0 to n
        invariant Valid()
        invariant Model() == ScrollDown(old(Model()), k)
      {
        Shift(bottom, top);
      }
    }

    // ---- the cursor -------------------------------------------------------

    method GoDown()
      requires Valid()
      modifies this, buf
      ensures Valid() && main == old(main) && buf == old(buf)
      ensures Model() == Down(old(Model())) && Parsing() == old(Parsing())
    {
      if y == bottom {
        ScrollUpOnce();
      } else if y < rows - 1 {
        y := y + 1;
      }
    }

    /** The deferred wrap given up: the cursor is in the last column. */
    method Clamp()
      requires Valid()
      modifies this
      ensures Valid() && main == old(main) && buf == old(buf)
      ensures Model() == old(Model()).(x := Column(old(Model()))) && Parsing() == old(Parsing())
    {
      if x >= cols {
        x := cols - 1;
      }
    }

    method LineFeed()
      requires Valid()
      modifies this, buf
      ensures Valid() && main == old(main) && buf == old(buf)
      ensures Model() == LineFeedTerm(old(Model())) && Parsing() == old(Parsing())
    {
      ghost var t := Model();
      Clamp();
      if x == 0 {
        unsure := false;
      }
      assert Model() == t.(x := Column(t), unsure := t.unsure && Column(t) != 0);
      GoDown();
    }

    method ReverseIndex()
      requires Valid()
      modifies this, buf
      ensures Valid() && main == old(main) && buf == old(buf)
      ensures Model() == ReverseIndexTerm(old(Model())) && Parsing() == old(Parsing())
    {
      Clamp();
      if y == top {
        ScrollDownBy(1);
      } else if y > 0 {
        y := y - 1;
      }
    }

    method Control(c: int)
      requires Valid()
      modifies this, buf
      ensures Valid() && main == old(main) && buf == old(buf)
      ensures Model() == ControlTerm(old(Model()), c) && Parsing() == old(Parsing())
    {
      hide LineFeedTerm, ReverseIndexTerm;
      if c == 0x08 {
        x := Min(x, cols - 1);
        if x > 0 {
          x := x - 1;
        }
      } else if c == 0x09 {
        x := Min(cols - 1, (Min(x, cols - 1) / 8 + 1) * 8);
      } else if c == 0x0a || c == 0x0b || c == 0x0c || c == 0x84 {
        LineFeed();
      } else if c == 0x0d {
        x := 0;
      } else if c == 0x85 {
        x := 0;
        LineFeed();
      } else if c == 0x8d {
        ReverseIndex();
      }
    }

    method SaveCursor()
      requires Valid()
      modifies buf
      ensures Valid()
      ensures Model() == SaveTerm(old(Model()))
    {
      buf.saved := Some(Saved(x, y, origin, moves));
    }

    method RestoreCursor()
      requires Valid()
      modifies this
      ensures Valid() && main == old(main) && buf == old(buf)
      ensures Model() == RestoreTerm(old(Model())) && Parsing() == old(Parsing())
    {
      var s := if buf.saved.Some? then buf.saved.value else Saved(0, 0, false, moves);
      if s.moves != moves {
        unsure := true;
      }
      x, y, origin := Min(s.x, cols - 1), Min(s.y, rows - 1), s.origin;
    }

    // ---- rows of the screen -----------------------------------------------

    method SetRow(i: nat, row: Row)
      requires Valid() && i < rows
      modifies buf
      ensures Valid()
      ensures Model() == SetLine(old(Model()), i, row)
    {
      SplitSet(buf.lines, buf.base, i, row);
      StoreScreen(buf.lines[buf.base + i := row]);
    }

    function RowAt(i: nat): Row
      requires Valid() && i < rows
      reads this, main, buf
      ensures RowAt(i) == Line(Model(), i)
    {
      buf.lines[buf.base + i]
    }

    method SetRowCells(cells: seq<Cell>)
      requires Valid()
      modifies buf
      ensures Valid()
      ensures Model() == SetCells(old(Model()), cells)
    {
      SetRow(y, RowAt(y).(cells := cells));
    }

    method SetCellsAndColumn(cells: seq<Cell>, col: nat)
      requires Valid() && col <= cols
      modifies this, buf
      ensures Valid() && main == old(main) && buf == old(buf)
      ensures Model() == SetCells(old(Model()), cells).(x := col) && Parsing() == old(Parsing())
    {
      SetRowCells(cells);
      x := col;
    }

    method PrintChar(ch: char, w: nat)
      requires Valid() && w <= 2
      modifies this, buf
      ensures Valid() && main == old(main) && buf == old(buf)
      ensures Model() == PrintTerm(old(Model()), ch, w) && Parsing() == old(Parsing())
    {
      if w == 0 {
        SetRowCells(Combine(RowAt(y).cells, x, ch));
        return;
      }
      WrapIfNeeded(w);
      PlaceChar(ch, w);
    }

    method WrapIfNeeded(w: nat)
      requires Valid() && 1 <= w <= 2
      modifies this, buf
      ensures Valid() && main == old(main) && buf == old(buf)
      ensures Model() == WrapFor(old(Model()), w) && Parsing() == old(Parsing())
    {
      if x + w > cols {
        if wrap {
          GoDown();
          x := 0;
          SetRow(y, RowAt(y).(wrapped := true));
        } else {
          x := cols - w;
        }
      }
    }

    method PlaceChar(ch: char, w: nat)
      requires Valid() && 1 <= w <= 2 && x + w <= cols
      modifies this, buf
      ensures Valid() && main == old(main) && buf == old(buf)
      ensures Model() == Place(old(Model()), ch, w) && Parsing() == old(Parsing())
    {
      var cells := RowAt(y).cells;
      if insert && x < |cells| {
        cells := InsertedCells(cells, x, w, cols);
      }
      cells := GlyphCells(cells, x, ch, w);
      SetCellsAndColumn(cells, x + w);
    }

    // ---- control sequences ------------------------------------------------

    method SetMode(p: nat, on: bool)
      requires Valid()
      modifies this, buf
      ensures Valid() && main == old(main) && (buf == old(buf) || buf == main || fresh(buf))
      ensures Model() == Mode(old(Model()), p, on) && Parsing() == old(Parsing())
    {
      if p == 7 {
        wrap := on;
      } else if p == 6 {
        origin := on;
        x := 0;
        y := if on then top else 0;
      } else if p == 47 || p == 1047 || p == 1049 {
        if on {
          EnterMode(p);
        } else {
          LeaveMode(p);
        }
      }
    }

    method EnterMode(p: nat)
      requires Valid() && p in {47, 1047, 1049}
      modifies this, buf
      ensures Valid() && main == old(main) && (buf == old(buf) || fresh(buf))
      ensures Model() == Mode(old(Model()), p, true) && Parsing() == old(Parsing())
    {
      if p == 1049 {
        SaveCursor();
      }
      EnterAlternate();
    }

    method LeaveMode(p: nat)
      requires Valid() && p in {47, 1047, 1049}
      modifies this
      ensures Valid() && main == old(main) && buf == main
      ensures Model() == Mode(old(Model()), p, false) && Parsing() == old(Parsing())
    {
      LeaveAlternate();
      if p == 1049 {
        RestoreCursor();
      }
    }

    method EnterAlternate()
      requires Valid()
      modifies this
      ensures Valid() && main == old(main) && (buf == old(buf) || fresh(buf))
      ensures Parsing() == old(Parsing())
      ensures Model() == old(Model()).(alt :=
        if old(Model()).alt.None? then Some(NewBuffer(rows, Some(0))) else old(Model()).alt)
    {
      if buf == main {
        buf := new LineBuffer(rows, 0);
      }
    }

    method LeaveAlternate()
      requires Valid()
      modifies this
      ensures Valid() && main == old(main) && buf == main
      ensures Model() == old(Model()).(alt := None) && Parsing() == old(Parsing())
    {
      buf := main;
    }

    method SetModes(ps: seq<nat>, on: bool)
      requires Valid()
      modifies this, main, buf
      ensures Valid() && main == old(main) && (buf == old(buf) || buf == main || fresh(buf))
      ensures Model() == Modes(old(Model()), ps, on) && Parsing() == old(Parsing())
    {
      for i := 0 to |ps|
        invariant Valid() && main == old(main) && (buf == old(buf) || buf == main || fresh(buf))
        invariant Model() == Modes(old(Model()), ps[..i], on) && Parsing() == old(Parsing())
      {
        SetMode(ps[i], on);
        assert ps[..i + 1][..i] == ps[..i];
      }
      assert ps[..|ps|] == ps;
    }

    method DecSoftReset()
      requires Valid()
      modifies this`top, this`bottom, this`wrap, this`origin, this`insert, buf
      ensures Valid()
      ensures Model() == SoftReset(old(Model()))
    {
      SetMargins(0, rows - 1);
      SetFlags(true, false, false);
      buf.saved := None;
    }

    method EraseInDisplay(p: nat)
      requires Valid()
      modifies this, buf
      ensures Valid() && main == old(main) && buf == old(buf)
      ensures Model() == EraseDisplay(old(Model()), p) && Parsing() == old(Parsing())
    {
      if p == 3 {
        DropScrollback();
      } else {
        EraseScreen(p);
      }
    }

    method DropScrollback()
      requires Valid()
      modifies this, buf
      ensures Valid() && main == old(main) && buf == old(buf)
      ensures Model() == EraseDisplay(old(Model()), 3) && Parsing() == old(Parsing())
    {
      if buf == main {
        var lines := main.lines[main.base..];
        StoreLines(lines, 0);
        moves := moves + 1;
      }
    }

    method EraseScreen(p: nat)
      requires Valid() && p != 3
      modifies this`unsure, buf
      ensures Valid()
      ensures Model() == EraseDisplay(old(Model()), p)
    {
      hide ErasedView;
      BlankScreen(p);
      if p == 2 || (p == 0 && x == 0 && y == 0) {
        unsure := false;
      }
    }

    method BlankScreen(p: nat)
      requires Valid()
      modifies buf
      ensures Valid()
      ensures Model() == SetView(old(Model()), ErasedView(old(Model()), p))
    {
      ghost var t := Model();
      var row := CursorRowCut(p);
      var lines := ErasedLines(buf.lines, buf.base, y, p, row);
      assert lines[buf.base..] == ErasedView(t, p);
      StoreScreen(lines);
    }

    method CursorRowCut(p: nat) returns (row: Row)
      requires Valid()
      ensures row == CutRow(Model(), p)
    {
      row := RowAt(y);
      if p == 0 && x == 0 {
        row := row.(wrapped := false);
      }
      if p == 0 {
        var cells := EraseCells(row.cells, x, Max(x, |row.cells|));
        row := row.(cells := cells);
      }
      if p == 1 {
        var cells := EraseCells(row.cells, 0, Min(x, cols - 1) + 1);
        row := row.(cells := cells);
      }
    }

    method EraseInLine(p: nat)
      requires Valid()
      modifies buf
      ensures Valid()
      ensures Model() == EraseLine(old(Model()), p)
    {
      var cells := RowAt(y).cells;
      if p == 0 {
        cells := EraseCells(cells, x, Max(x, |cells|));
      } else if p == 1 {
        cells := EraseCells(cells, 0, Min(x, cols - 1) + 1);
      } else if p == 2 {
        cells := EraseCells(cells, 0, Max(0, |cells|));
      } else {
        return;
      }
      SetRowCells(cells);
    }

    method EditRow(final: char, n: nat)
      requires Valid() && final in "@PX"
      modifies this, buf
      ensures Valid() && main == old(main) && buf == old(buf)
      ensures Model() == EditCells(old(Model()), final, n) && Parsing() == old(Parsing())
    {
      var cx := Min(x, cols - 1);
      var cells := EditedCells(RowAt(y).cells, final, cx, n, cols);
      SetCellsAndColumn(cells, cx);
    }

    method ShiftRows(insert: bool, n: nat)
      requires Valid() && top <= y <= bottom
      modifies buf
      ensures Valid()
      ensures var v := Active(old(Model())).view;
              Model() == SetView(old(Model()),
                if insert then InsertLines(v, y, bottom, n) else DeleteLines(v, y, bottom, n))
    {
      ghost var v := Active(Model()).view;
      for k := 0 to n
        invariant Valid()
        invariant Model() == SetView(old(Model()),
          if insert then InsertLines(v, y, bottom, k) else DeleteLines(v, y, bottom, k))
      {
        if insert {
          Shift(bottom, y);
        } else {
          Shift(y, bottom);
        }
      }
    }

    method EditRows(final: char, n: nat)
      requires Valid()
      modifies this`x, buf
      ensures Valid()
      ensures Model() == EditLines(old(Model()), final, n)
    {
      hide InsertLines, DeleteLines;
      if y < top || y > bottom {
        return;
      }
      ShiftRows(final == 'L', Min(n, bottom - y + 1));
      ghost var shifted := Model();
      x := 0;
      assert Model() == shifted.(x := 0);
    }

    /** Where a motion puts the cursor. */
    method FindTarget(final: char, ps: seq<nat>) returns (tx: nat, ty: nat)
      requires Valid() && |ps| > 0
      ensures (tx, ty) == Target(Model(), final, ps)
    {
      tx, ty := x, y;
      var n := Max(1, ps[0]);
      var cx := Min(x, cols - 1);
      var up := Max(if y >= top then top else 0, y - n);
      var down := Min(if y <= bottom then bottom else rows - 1, y + n);
      var row := if origin then Min(bottom, top + (n - 1)) else Min(rows - 1, n - 1);
      match final
      case 'A' => tx, ty := cx, up;
      case 'B' => tx, ty := cx, down;
      case 'e' => tx, ty := cx, down;
      case 'C' => tx := Min(cols - 1, x + n);
      case 'a' => tx := Min(cols - 1, x + n);
      case 'D' => tx := Max(0, cx - n);
      case 'E' => tx, ty := 0, down;
      case 'F' => tx, ty := 0, up;
      case 'G' => tx := Min(cols - 1, n - 1);
      case '`' => tx := Min(cols - 1, n - 1);
      case 'd' => tx, ty := cx, row;
      case 'H' => tx, ty := Min(cols - 1, Max(1, if |ps| > 1 then ps[1] else 0) - 1), row;
      case 'f' => tx, ty := Min(cols - 1, Max(1, if |ps| > 1 then ps[1] else 0) - 1), row;
      case _ =>
    }

    method MoveCursor(final: char, ps: seq<nat>)
      requires Valid() && |ps| > 0
      modifies this
      ensures Valid() && main == old(main) && buf == old(buf)
      ensures Model() == Move(old(Model()), final, ps) && Parsing() == old(Parsing())
    {
      x, y := FindTarget(final, ps);
    }

    method SetScrollRegion(ps: seq<nat>)
      requires Valid() && |ps| > 0
      modifies this`top, this`bottom, this`x, this`y
      ensures Valid()
      ensures Model() == SetRegion(old(Model()), ps)
    {
      var a := Max(1, ps[0]) - 1;
      var b := Min(rows, if |ps| > 1 && ps[1] != 0 then ps[1] else rows) - 1;
      if a < b {
        SetMargins(a, b);
        MoveTo(0, if origin then top else 0);
      }
    }

    method ChangeSetting(final: char, ps: seq<nat>, bare: bool)
      requires Valid() && |ps| > 0 && final in "rsuhl"
      modifies this, buf
      ensures Valid() && main == old(main) && buf == old(buf)
      ensures Model() == Setting(old(Model()), final, ps, bare) && Parsing() == old(Parsing())
    {
      hide SaveTerm, RestoreTerm;
      if final == 'r' {
        SetScrollRegion(ps);
      } else if final == 's' {
        if bare {
          SaveCursor();
        }
      } else if final == 'u' {
        if bare {
          RestoreCursor();
        }
      } else if 4 in ps {
        insert := final == 'h';
      }
    }

    method DispatchCsi(final: char)
      requires Valid()
      modifies this, main, buf
      ensures Valid() && main == old(main) && buf == old(buf)
      ensures Model() == CsiTerm(old(Model()), final, params) && Parsing() == old(Parsing())
    {
      var ps := P.Numbers(params);
      var n := Max(1, ps[0]);
      if final == 'J' {
        EraseInDisplay(ps[0]);
      } else if final == 'K' {
        EraseInLine(ps[0]);
      } else if final in "@PX" {
        EditRow(final, n);
      } else if final == 'L' || final == 'M' {
        EditRows(final, n);
      } else if final == 'S' {
        ScrollUpBy(Min(n, rows));
      } else if final == 'T' {
        if |ps| == 1 {
          ScrollDownBy(Min(n, rows));
        }
      } else if final in "rsuhl" {
        ChangeSetting(final, ps, params == "");
      } else {
        MoveCursor(final, ps);
      }
    }

    method Dispatch(final: char)
      requires Valid()
      modifies this, main, buf
      ensures Valid() && main == old(main) && (buf == old(buf) || buf == main || fresh(buf))
      ensures Model() == DispatchTerm(old(Model()), final, params, inter) && Parsing() == old(Parsing())
    {
      if inter == "!" && final == 'p' {
        DecSoftReset();
        return;
      }
      if inter != "" {
        return;
      }
      var priv := P.Private(params);
      if priv == Some('?') && (final == 'h' || final == 'l') {
        SetModes(P.Numbers(params), final == 'h');
        return;
      }
      if priv.Some? {
        return;
      }
      DispatchCsi(final);
    }

    // ---- the parser -------------------------------------------------------

    /** The screen is where one parser step from `sc` leaves it. */
    ghost predicate Follows(sc: Screen, step: (P.Parser, P.Action))
      requires Grid(sc.term)
      reads this, main, buf
    {
      Valid() && Parsing() == step.0 && Model() == Apply(sc.term, step.1)
    }

    /** The buffers are the ones they were, or new ones. */
    twostate predicate SameOrFresh()
      reads this
    {
      && (main == old(main) || main == old(buf) || fresh(main))
      && (buf == old(main) || buf == old(buf) || fresh(buf))
    }

    method StartString(next: P.State, body: Option<string>)
      requires Valid()
      modifies this
      ensures Valid() && main == old(main) && buf == old(buf) && Model() == old(Model())
      ensures Parsing() == old(Parsing()).(state := next, osc := body)
    {
      state, osc := next, body;
    }

    method StartSequence()
      requires Valid()
      modifies this
      ensures Valid() && main == old(main) && buf == old(buf) && Model() == old(Model())
      ensures Parsing() == P.StartCsi(old(Parsing()))
    {
      state, params, inter := P.Csi, "", "";
    }

    /** OSC 3008, once complete: whose the terminal is. */
    method Hear()
      requires Valid()
      modifies this
      ensures Valid() && main == old(main) && buf == old(buf) && Model() == old(Model())
      ensures Parsing() == P.Complete(old(Parsing()))
    {
      state := P.Ground;
      if osc.Some? {
        if P.IsStart(osc.value) {
          context := if P.SaysShell(osc.value) then P.Shell else P.Command;
        }
      }
    }

    /** The escapes that act on the screen at once. */
    method EscapeFeed(ch: char)
      requires Valid() && state == P.Ground && (ch == 'D' || ch == 'E')
      modifies this, buf
      ensures Follows(old(Value()), P.AfterEscape(old(Parsing()), ch)) && SameOrFresh()
    {
      hide LineFeedTerm, P.AfterEscape;
      EscapeMeans(Parsing(), ch);
      if ch == 'E' {
        x := 0;
      }
      LineFeed();
    }

    method EscapeUp()
      requires Valid() && state == P.Ground
      modifies this, buf
      ensures Follows(old(Value()), P.AfterEscape(old(Parsing()), 'M')) && SameOrFresh()
    {
      hide ReverseIndexTerm, P.AfterEscape;
      EscapeMeans(Parsing(), 'M');
      ReverseIndex();
    }

    method EscapeReset()
      requires Valid() && state == P.Ground
      modifies this
      ensures Follows(old(Value()), P.AfterEscape(old(Parsing()), 'c')) && SameOrFresh()
    {
      hide ResetTerm, P.AfterEscape;
      EscapeMeans(Parsing(), 'c');
      Reset();
    }

    method EscapeAction(ch: char)
      requires Valid() && state == P.Ground && (ch == 'D' || ch == 'E' || ch == 'M' || ch == 'c')
      modifies this, main, buf
      ensures Follows(old(Value()), P.AfterEscape(old(Parsing()), ch)) && SameOrFresh()
    {
      hide P.AfterEscape, Apply;
      if ch == 'M' {
        EscapeUp();
      } else if ch == 'c' {
        EscapeReset();
      } else {
        EscapeFeed(ch);
      }
    }

    method EscapeCursor(ch: char)
      requires Valid() && state == P.Ground && (ch == '7' || ch == '8')
      modifies this, buf
      ensures Follows(old(Value()), P.AfterEscape(old(Parsing()), ch)) && SameOrFresh()
    {
      hide SaveTerm, RestoreTerm;
      if ch == '7' {
        SaveCursor();
      } else {
        RestoreCursor();
      }
    }

    method EscapeChar(ch: char)
      requires Valid()
      modifies this, main, buf
      ensures Follows(old(Value()), P.AfterEscape(old(Parsing()), ch)) && SameOrFresh()
    {
      hide SaveTerm, RestoreTerm, LineFeedTerm, ReverseIndexTerm, ResetTerm;
      state := P.Ground;
      if ch == '[' {
        StartSequence();
      } else if ch == ']' {
        StartString(P.Osc, Some(""));
      } else if ch in "PX^_" {
        StartString(P.Str, None);
      } else if ch == '7' || ch == '8' {
        EscapeCursor(ch);
      } else if ch in "DEMc" {
        EscapeAction(ch);
      } else if 0x20 <= ch as int <= 0x2f {
        state := P.EscapeInter;
      }
    }

    method GroundChar(ch: char)
      requires Valid()
      modifies this, main, buf
      ensures Follows(old(Value()), P.InGround(old(Parsing()), ch)) && SameOrFresh()
    {
      var c := ch as int;
      if c >= 0x20 && c != 0x7f && (c < 0x80 || c >= 0xa0) {
        PrintChar(ch, Width(ch));
      } else if c == 0x1b {
        state := P.Escape;
      } else if c == 0x9b {
        StartSequence();
      } else if c == 0x9d {
        StartString(P.Osc, Some(""));
      } else if c == 0x90 || c == 0x98 || c == 0x9e || c == 0x9f {
        StartString(P.Str, None);
      } else {
        Control(c);
      }
    }

    method StringChar(ch: char)
      requires Valid()
      modifies this
      ensures Follows(old(Value()), P.InString(old(Parsing()), ch)) && SameOrFresh()
    {
      var c := ch as int;
      if c == 0x9c || (c == 7 && state == P.Osc) {
        Hear();
      } else if c == 0x1b {
        state := P.StrEscape;
      } else if osc.Some? && c >= 0x20 && P.Units(osc.value) < P.OSC_LIMIT {
        osc := Some(osc.value + [ch]);
      }
    }

    method StringEscapeChar(ch: char)
      requires Valid()
      modifies this, main, buf
      ensures Follows(old(Value()), P.InStrEscape(old(Parsing()), ch)) && SameOrFresh()
    {
      var c := ch as int;
      if ch == '\\' {
        Hear();
      } else if c == 0x1b {
        state := P.Escape;
      } else if c < 0x20 {
        state := P.Escape;
        Control(c);
      } else {
        EscapeChar(ch);
      }
    }

    method SequenceChar(ch: char)
      requires Valid()
      modifies this, main, buf
      ensures Follows(old(Value()), P.InCsi(old(Parsing()), ch)) && SameOrFresh()
    {
      var c := ch as int;
      if 0x30 <= c <= 0x3f && inter == "" && |params| < 64 {
        params := params + [ch];
      } else if 0x20 <= c <= 0x2f && |inter| < 8 {
        inter := inter + [ch];
      } else {
        state := P.Ground;
        if 0x40 <= c <= 0x7e {
          Dispatch(ch);
        }
      }
    }

    method WriteChar(ch: char)
      requires Valid()
      modifies this, main, buf
      ensures Follows(old(Value()), P.Step(old(Parsing()), ch)) && SameOrFresh()
    {
      var c := ch as int;
      if state == P.Ground {
        GroundChar(ch);
      } else if c == 0x18 || c == 0x1a {
        state := P.Ground;
      } else if state == P.Osc || state == P.Str {
        StringChar(ch);
      } else if state == P.StrEscape {
        StringEscapeChar(ch);
      } else if c == 0x1b {
        state := P.Escape;
      } else if c < 0x20 {
        Control(c);
      } else if state == P.Escape {
        EscapeChar(ch);
      } else if state == P.EscapeInter {
        if c > 0x2f {
          state := P.Ground;
        }
      } else {
        SequenceChar(ch);
      }
    }

    // ---- resizing and writing --------------------------------------------

    /** Both buffers refitted; the cursor's new row is the active one's. */
    method RefitBuffers(h: nat) returns (row: nat)
      requires Valid() && h >= 1
      modifies main, buf
      ensures main.Valid() && buf.Valid()
      ensures (buf.Value(), row) == FitActive(old(buf.Value()), y, h)
      ensures buf != main ==> main.Value() == FitIdle(old(main.Value()), h)
    {
      if buf != main {
        var _ := main.Refit(false, y, h);
      }
      row := buf.Refit(true, y, h);
    }

    /** Follow the terminal's geometry as the page reports it; 0 is no report. */
    method FitTo(width: int, height: int)
      requires Valid()
      modifies this`moves, this`cols, this`rows, this`top, this`bottom, this`x, this`y, main, buf
      ensures Valid()
      ensures Model() == Fit(old(Model()), Sized(width, 80, 2), Sized(height, 24, 1))
    {
      hide FitActive, FitIdle;
      var w, h := Sized(width, 80, 2), Sized(height, 24, 1);
      if w == cols && h == rows {
        return;
      }
      ghost var t := Model();
      var row := RefitBuffers(h);
      ghost var mid := Model();
      Settle(w, h, row);
      FitsTogether(t, mid, w, h, row);
    }

    /** The page's geometry and cursor after a resize. */
    method Settle(w: nat, h: nat, row: nat)
      requires main.Valid() && buf.Valid() && h >= 1 && row < h
      modifies this`moves, this`cols, this`rows, this`top, this`bottom, this`x, this`y
      ensures Model() == old(Model()).(cols := w, rows := h, x := Min(old(x), w), y := row,
                                       top := 0, bottom := h - 1, moves := old(moves) + 1)
    {
      hide LineBuffer.Value;
      moves := moves + 1;
      cols, rows := w, h;
      SetMargins(0, h - 1);
      MoveTo(Min(x, w), Max(0, Min(row, h - 1)));
    }

    /** A chunk of guest output, at the geometry of the moment it arrived. */
    method Write(s: string, width: int, height: int)
      requires Valid()
      modifies this, main, buf
      ensures Valid() && SameOrFresh()
      ensures Value() == Reading.Write(old(Value()), Sized(width, 80, 2), Sized(height, 24, 1), s)
    {
      hide Fit;
      FitTo(width, height);
      ghost var fitted := Value();
      for i := 0 to |s|
        invariant Valid() && SameOrFresh()
        invariant Value() == Feed(fitted, s[..i])
      {
        WriteChar(s[i]);
        assert s[..i + 1][..i] == s[..i];
      }
      assert s[..|s|] == s;
    }

    // ---- reading ----------------------------------------------------------

    /** The logical line the cursor is on, found by walking over its wrapped rows. */
    method ReadCursorLine() returns (r: LineView)
      requires Valid()
      ensures r == CursorLine(Model())
    {
      var rows := buf.lines;
      assert rows == Lines(Model());
      var at := buf.base + y;
      r := ReadLine(rows, at, x, buf == main && !unsure);
    }

    method PromptIsIdle() returns (idle: bool)
      requires Valid()
      ensures idle == AtPrompt(Value()) == Prompts.ShowsPrompt(Value())
    {
      var c := ReadCursorLine();
      Prompts.IdleIsPrompt(Value());
      idle := context != P.Command && c.sure && PromptShaped(c.before) && AllSpace(c.after) && !c.below;
    }
  }

  method ReadLine(rows: seq<Row>, at: nat, x: nat, vouched: bool) returns (r: LineView)
    requires at < |rows|
    ensures r == ReadAt(rows, at, x, vouched)
  {
    var s: nat, e: nat := at, at;
    while s > 0 && rows[s].wrapped
      invariant s <= at && LineStart(rows, s) == LineStart(rows, at)
    {
      s := s - 1;
    }
    while e + 1 < |rows| && rows[e + 1].wrapped
      invariant at <= e < |rows| && LineEnd(rows, e) == LineEnd(rows, at)
    {
      e := e + 1;
    }
    var before := JoinRows(rows, s, at);
    var left := TextOf(rows[at].cells, 0, x);
    var after := TextOf(rows[at].cells, x, |rows[at].cells|);
    var more := JoinRows(rows, at + 1, e + 1);
    var below := false;
    var i := e + 1;
    while i < |rows| && !below
      invariant e + 1 <= i <= |rows|
      invariant below <==> exists k: int :: e + 1 <= k < i && !Blank(rows[k])
    {
      var blank := IsBlank(rows[i]);
      below := !blank;
      i := i + 1;
    }
    r := LineView(before + left, after + more, below, vouched && !rows[s].wrapped);
  }

  /** Both buffers refitted and the rest settled is the resize. */
  lemma FitsTogether(t: Term, mid: Term, w: nat, h: nat, row: nat)
    requires Grid(t) && w >= 2 && h >= 1 && (w != t.cols || h != t.rows)
    requires mid.(main := t.main, alt := t.alt) == t && mid.alt.Some? == t.alt.Some?
    requires (Active(mid), row) == FitActive(Active(t), t.y, h)
    requires t.alt.Some? ==> mid.main == FitIdle(t.main, h)
    ensures mid.(cols := w, rows := h, x := Min(t.x, w), y := row, top := 0, bottom := h - 1, moves := t.moves + 1)
         == Fit(t, w, h)
  {}

  /** The top row pushed into the scrollback, and that trimmed. */
  ghost function PushedOff(t: Term): Term
    requires Grid(t)
  {
    var b := Active(t);
    var v := InsertRow(b.view, t.bottom + 1);
    WithActive(t, b.(scroll := Trimmed(b.scroll + [v[0]], b.keep), view := v[1..]))
  }

  /** Which is the scroll, but for the count of moves. */
  lemma PushIs(t: Term)
    requires Grid(t) && t.top == 0
    ensures ScrollUpOne(t) == if t.alt.None? then PushedOff(t).(moves := t.moves + 1) else PushedOff(t)
  {}

  /** What those escapes say. */
  lemma EscapeMeans(p: P.Parser, ch: char)
    requires p.state == P.Ground
    ensures ch == 'D' ==> P.AfterEscape(p, ch) == (p, P.LineFeed)
    ensures ch == 'E' ==> P.AfterEscape(p, ch) == (p, P.NextLine)
    ensures ch == 'M' ==> P.AfterEscape(p, ch) == (p, P.ReverseIndex)
    ensures ch == 'c' ==> P.AfterEscape(p, ch) == (p, P.Reset)
  {}

  method JoinRows(rows: seq<Row>, lo: nat, hi: nat) returns (s: string)
    requires lo <= hi <= |rows|
    ensures s == Join(rows, lo, hi)
  {
    s := "";
    for i := lo to hi
      invariant s == Join(rows, lo, i)
    {
      var t := TextOf(rows[i].cells, 0, |rows[i].cells|);
      s := s + t;
    }
  }
}
