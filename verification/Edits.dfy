/** What each editing sequence does to the screen, cell by cell and row by row: what goes,
    what stays, and where the rest moves to. */
module Edits {
  import opened Arithmetic
  import opened Options
  import opened Decimals
  import opened Cells
  import opened Parser
  import opened Terminal
  import opened Reading
  import opened Streams
  import opened Motions

  // ---- cells --------------------------------------------------------------------

  /** Columns [lo, hi) are blank. Of a wide character cut in two at either edge, the half
      left outside is blank too. Nothing else changes, but that a row blanked to its end
      becomes shorter. */
  ghost predicate Blanked(was: seq<Cell>, cells: seq<Cell>, lo: nat, hi: nat)
    requires lo <= hi
  {
    && (forall j | lo <= j < hi :: At(cells, j) == Unwritten)
    && (forall j | 0 <= j < lo - 1 || hi < j :: At(cells, j) == At(was, j))
    && (lo > 0 ==> At(cells, lo - 1) == if At(was, lo) == RightHalf then Unwritten else At(was, lo - 1))
    && At(cells, hi) == (if At(was, hi) == RightHalf then Unwritten else At(was, hi))
    && |cells| == if hi >= |was| then Min(|was|, lo) else |was|
  }

  /** `n` blank columns pushed in at `at`, the rest of the row moved right and cut off at the
      last column. */
  ghost predicate PushedRight(was: seq<Cell>, cells: seq<Cell>, at: nat, n: nat, cols: nat) {
    && (forall j | 0 <= j < at - 1 :: At(cells, j) == At(was, j))
    && (at > 0 ==> At(cells, at - 1) == if At(was, at) == RightHalf then Unwritten else At(was, at - 1))
    && (forall j | at <= j < at + n || cols <= j :: At(cells, j) == Unwritten)
    && (forall j | at + n <= j < cols ::
          At(cells, j) == if j == at + n && At(was, at) == RightHalf then Unwritten else At(was, j - n))
  }

  /** `n` columns taken out at `at`, the rest of the row moved left. */
  ghost predicate PulledLeft(was: seq<Cell>, cells: seq<Cell>, at: nat, n: nat) {
    && (forall j | 0 <= j < at - 1 :: At(cells, j) == At(was, j))
    && (at > 0 ==> At(cells, at - 1) == if At(was, at) == RightHalf then Unwritten else At(was, at - 1))
    && (forall j | at <= j ::
          At(cells, j) == if j == at && At(was, at + n) == RightHalf then Unwritten else At(was, j + n))
  }

  lemma EraseBlanks(was: seq<Cell>, lo: nat, hi: nat)
    requires lo <= hi
    ensures Blanked(was, Erase(was, lo, hi), lo, hi)
  {}

  lemma InsertPushes(was: seq<Cell>, at: nat, n: nat, cols: nat)
    requires at < |was| && at < cols && n <= cols
    ensures PushedRight(was, InsertCells(was, at, n, cols), at, n, cols)
  {
    hide Erase;
    var c := Erase(was, at, at);
    EraseBlanks(was, at, at);
    PutIn(c, at, n, cols);
  }

  lemma PutIn(c: seq<Cell>, at: nat, n: nat, cols: nat)
    requires at <= |c| && at < cols
    ensures var d := c[..at] + Blanks(n) + c[at..];
            var r := if |d| > cols then d[..cols] else d;
            forall j | 0 <= j ::
              At(r, j) == if j >= cols || at <= j < at + n then Unwritten else At(c, if j < at then j else j - n)
  {}

  lemma DeletePulls(was: seq<Cell>, at: nat, n: nat)
    requires 1 <= n
    ensures PulledLeft(was, DeleteCells(was, at, n), at, n)
  {
    hide Erase, Blanked, PulledLeft;
    var a := Erase(was, at, at);
    var c := Erase(a, at + n, at + n);
    EraseBlanks(was, at, at);
    EraseBlanks(a, at + n, at + n);
    CutOut(c, at, n);
    PullsBy(was, a, c, DeleteCells(was, at, n), at, n);
  }

  lemma PullsBy(was: seq<Cell>, a: seq<Cell>, c: seq<Cell>, r: seq<Cell>, at: nat, n: nat)
    requires 1 <= n && Blanked(was, a, at, at) && Blanked(a, c, at + n, at + n)
    requires forall j | 0 <= j :: At(r, j) == At(c, if j < at then j else j + n)
    ensures PulledLeft(was, r, at, n)
  {
    hide At;
  }

  lemma CutOut(c: seq<Cell>, at: nat, n: nat)
    ensures var r := if at >= |c| then c else c[..at] + c[Min(|c|, at + n)..];
            forall j | 0 <= j :: At(r, j) == At(c, if j < at then j else j + n)
  {}

  /** The cursor's row is all that changes, and the cursor stays in it. */
  ghost predicate RowEdited(t: Term, r: Term, x: nat)
    requires Grid(t) && Grid(r)
  {
    OnOneRow(t, r) && r.x == x && r.y == t.y
  }

  lemma EraseLineFinal(sc: Screen, p: nat)
    requires AtRest(sc) && Short(p)
    ensures Feed(sc, Csi1(p, 'K')).term == EraseLine(sc.term, p)
    ensures Feed(sc, Sequence("", 'K')).term == EraseLine(sc.term, 0)
  {
    hide EraseLine, Sequence, Numbers, Decimal;
    OneNumber(p);
    FeedCsi1(sc, p, 'K');
    NoNumber();
    FeedSequence(sc, "", 'K');
  }

  /** The cursor's row is blanked over [lo, hi) and the cursor is in column `x` of it. */
  ghost predicate BlanksRow(t: Term, r: Term, lo: nat, hi: nat, x: nat)
    requires Grid(t) && Grid(r) && lo <= hi
  {
    RowEdited(t, r, x) && Blanked(Line(t, t.y).cells, Line(r, t.y).cells, lo, hi)
  }

  /** EL: 0 from the cursor to the end, 1 from the start through the cursor, 2 all of it. */
  ghost predicate ErasesLine(t: Term, r: Term, p: nat)
    requires Grid(t) && Grid(r)
  {
    match p
    case 0 => BlanksRow(t, r, t.x, Max(t.x, |Line(t, t.y).cells|), t.x)
    case 1 => BlanksRow(t, r, 0, Min(t.x, t.cols - 1) + 1, t.x)
    case 2 => BlanksRow(t, r, 0, |Line(t, t.y).cells|, t.x)
    case _ => r == t
  }

  lemma LineErased(sc: Screen, p: nat)
    requires AtRest(sc) && Short(p)
    ensures ErasesLine(sc.term, Feed(sc, Csi1(p, 'K')).term, p)
    ensures Feed(sc, Sequence("", 'K')).term == Feed(sc, Csi1(0, 'K')).term
  {
    hide Feed, Csi1, Sequence, EraseLine, ErasesLine;
    assert Short(0);
    EraseLineFinal(sc, p);
    EraseLineFinal(sc, 0);
    LineErasedTerm(sc.term, p);
  }

  lemma SameColumn(t: Term, cells: seq<Cell>)
    requires Grid(t)
    ensures SetCells(t, cells).(x := t.x) == SetCells(t, cells)
  {}

  lemma LineErasedTerm(t: Term, p: nat)
    requires Grid(t)
    ensures ErasesLine(t, EraseLine(t, p), p)
  {
    hide BlanksRow, SetCells, Erase;
    var cells := Line(t, t.y).cells;
    var lo, hi := if p == 0 then t.x else 0, if p == 1 then Column(t) + 1 else Max(if p == 0 then t.x else 0, |cells|);
    SameColumn(t, Erase(cells, lo, hi));
    BlanksBy(t, lo, hi, t.x);
  }

  lemma BlanksBy(t: Term, lo: nat, hi: nat, x: nat)
    requires Grid(t) && lo <= hi && x <= t.cols
    ensures BlanksRow(t, SetCells(t, Erase(Line(t, t.y).cells, lo, hi)).(x := x), lo, hi, x)
  {
    hide Erase, Blanked;
    EraseBlanks(Line(t, t.y).cells, lo, hi);
    CellsOnly(t, Erase(Line(t, t.y).cells, lo, hi), x);
  }

  lemma EditFinal(sc: Screen, n: nat, final: char)
    requires AtRest(sc) && Short(n) && (final == '@' || final == 'P' || final == 'X')
    ensures Feed(sc, Csi1(n, final)).term == EditCells(sc.term, final, Max(1, n))
  {
    hide EditCells, Csi1, Feed, Numbers, Decimal, EraseDisplay, EraseLine;
    OneNumber(n);
    FeedCsi1(sc, n, final);
  }

  /** What is pushed right, if the column is inside the row. */
  ghost predicate PushesRow(t: Term, r: Term, at: nat, n: nat)
    requires Grid(t) && Grid(r)
  {
    var was := Line(t, t.y).cells;
    && RowEdited(t, r, at)
    && if at < |was| then PushedRight(was, Line(r, t.y).cells, at, n, t.cols) else Line(r, t.y).cells == was
  }

  ghost predicate PullsRow(t: Term, r: Term, at: nat, n: nat)
    requires Grid(t) && Grid(r)
  {
    RowEdited(t, r, at) && PulledLeft(Line(t, t.y).cells, Line(r, t.y).cells, at, n)
  }

  /** ECH blanks `n` columns from the cursor's, ICH pushes `n` in there, DCH takes `n` out; each
      leaves the cursor on that column. */
  lemma CellsEdited(sc: Screen, n: nat)
    requires AtRest(sc) && 1 <= n && Short(n)
    ensures var t, at := sc.term, Min(sc.term.x, sc.term.cols - 1);
            && BlanksRow(t, Feed(sc, Csi1(n, 'X')).term, at, at + n, at)
            && PushesRow(t, Feed(sc, Csi1(n, '@')).term, at, n)
            && PullsRow(t, Feed(sc, Csi1(n, 'P')).term, at, n)
  {
    hide Feed, Csi1, BlanksRow, PushesRow, PullsRow, EditCells;
    EditFinal(sc, n, 'X');
    EditFinal(sc, n, '@');
    EditFinal(sc, n, 'P');
    ErasedCells(sc.term, n);
    InsertedCells(sc.term, n);
    DeletedCells(sc.term, n);
  }

  lemma ErasedCells(t: Term, n: nat)
    requires Grid(t) && 1 <= n
    ensures BlanksRow(t, EditCells(t, 'X', n), Column(t), Column(t) + n, Column(t))
  {
    BlanksBy(t, Column(t), Column(t) + n, Column(t));
  }

  lemma InsertedCells(t: Term, n: nat)
    requires Grid(t) && 1 <= n
    ensures PushesRow(t, EditCells(t, '@', n), Column(t), n)
  {
    hide InsertCells, PushedRight;
    var was, at := Line(t, t.y).cells, Column(t);
    CellsOnly(t, Edited(was, '@', at, n, t.cols), at);
    if at < |was| {
      InsertPushes(was, at, Min(n, t.cols), t.cols);
      PushedFurther(was, InsertCells(was, at, Min(n, t.cols), t.cols), at, n, t.cols);
    }
  }

  lemma PushedFurther(was: seq<Cell>, cells: seq<Cell>, at: nat, n: nat, cols: nat)
    requires PushedRight(was, cells, at, Min(n, cols), cols)
    ensures PushedRight(was, cells, at, n, cols)
  {}

  lemma DeletedCells(t: Term, n: nat)
    requires Grid(t) && 1 <= n
    ensures PullsRow(t, EditCells(t, 'P', n), Column(t), n)
  {
    hide DeleteCells, PulledLeft;
    var was, at := Line(t, t.y).cells, Column(t);
    DeletePulls(was, at, n);
    CellsOnly(t, DeleteCells(was, at, n), at);
  }

  // ---- rows ---------------------------------------------------------------------

  /** Rows lo to hi go down by `n`, blank ones coming in above and the lowest going out. */
  ghost predicate MovedDown(was: seq<Row>, rows: seq<Row>, lo: nat, hi: nat, n: nat)
    requires |rows| == |was| && lo <= hi < |was|
  {
    && (forall i | 0 <= i < lo || hi < i < |was| :: rows[i] == was[i])
    && (forall i | lo <= i < lo + n && i <= hi :: rows[i] == BLANK_ROW)
    && (forall i | lo + n <= i <= hi :: rows[i] == was[i - n])
  }

  /** They go up, blank ones coming in below. */
  ghost predicate MovedUp(was: seq<Row>, rows: seq<Row>, lo: nat, hi: nat, n: nat)
    requires |rows| == |was| && lo <= hi < |was|
  {
    && (forall i | 0 <= i < lo || hi < i < |was| :: rows[i] == was[i])
    && (forall i | lo <= i <= hi && i > hi - n :: rows[i] == BLANK_ROW)
    && (forall i | lo <= i <= hi - n :: rows[i] == was[i + n])
  }

  lemma RowsOneDown(v: seq<Row>, lo: nat, hi: nat)
    requires lo <= hi < |v|
    ensures MovedDown(v, InsertRow(RemoveRow(v, hi), lo), lo, hi, 1)
  {}

  lemma RowsOneUp(v: seq<Row>, lo: nat, hi: nat)
    requires lo <= hi < |v|
    ensures MovedUp(v, InsertRow(RemoveRow(v, lo), hi), lo, hi, 1)
  {}

  lemma DownAgain(was: seq<Row>, v: seq<Row>, r: seq<Row>, lo: nat, hi: nat, n: nat)
    requires |r| == |v| == |was| && lo <= hi < |was| && MovedDown(was, v, lo, hi, n) && MovedDown(v, r, lo, hi, 1)
    ensures MovedDown(was, r, lo, hi, n + 1)
  {}

  lemma UpAgain(was: seq<Row>, v: seq<Row>, r: seq<Row>, lo: nat, hi: nat, n: nat)
    requires |r| == |v| == |was| && lo <= hi < |was| && MovedUp(was, v, lo, hi, n) && MovedUp(v, r, lo, hi, 1)
    ensures MovedUp(was, r, lo, hi, n + 1)
  {}

  lemma OneDown(was: seq<Row>, v: seq<Row>, lo: nat, hi: nat, n: nat)
    requires |v| == |was| && lo <= hi < |was| && MovedDown(was, v, lo, hi, n)
    ensures MovedDown(was, InsertRow(RemoveRow(v, hi), lo), lo, hi, n + 1)
  {
    hide MovedDown;
    RowsOneDown(v, lo, hi);
    DownAgain(was, v, InsertRow(RemoveRow(v, hi), lo), lo, hi, n);
  }

  lemma OneUp(was: seq<Row>, v: seq<Row>, lo: nat, hi: nat, n: nat)
    requires |v| == |was| && lo <= hi < |was| && MovedUp(was, v, lo, hi, n)
    ensures MovedUp(was, InsertRow(RemoveRow(v, lo), hi), lo, hi, n + 1)
  {
    hide MovedUp;
    RowsOneUp(v, lo, hi);
    UpAgain(was, v, InsertRow(RemoveRow(v, lo), hi), lo, hi, n);
  }

  lemma NoneMoved(v: seq<Row>, lo: nat, hi: nat)
    requires lo <= hi < |v|
    ensures MovedDown(v, v, lo, hi, 0) && MovedUp(v, v, lo, hi, 0)
  {}

  lemma {:induction false} LinesInserted(v: seq<Row>, lo: nat, hi: nat, n: nat)
    requires lo <= hi < |v|
    ensures MovedDown(v, InsertLines(v, lo, hi, n), lo, hi, n)
  {
    hide InsertRow, RemoveRow, MovedDown;
    if n == 0 {
      NoneMoved(v, lo, hi);
    } else {
      LinesInserted(v, lo, hi, n - 1);
      OneDown(v, InsertLines(v, lo, hi, n - 1), lo, hi, n - 1);
    }
  }

  lemma {:induction false} LinesDeleted(v: seq<Row>, lo: nat, hi: nat, n: nat)
    requires lo <= hi < |v|
    ensures MovedUp(v, DeleteLines(v, lo, hi, n), lo, hi, n)
  {
    hide InsertRow, RemoveRow, MovedUp;
    if n == 0 {
      NoneMoved(v, lo, hi);
    } else {
      LinesDeleted(v, lo, hi, n - 1);
      OneUp(v, DeleteLines(v, lo, hi, n - 1), lo, hi, n - 1);
    }
  }

  /** Moved by all there is or by more, no row of them is left. */
  lemma MovedOut(was: seq<Row>, rows: seq<Row>, lo: nat, hi: nat, n: nat)
    requires |rows| == |was| && lo <= hi < |was|
    ensures MovedDown(was, rows, lo, hi, Min(n, hi - lo + 1)) ==> MovedDown(was, rows, lo, hi, n)
    ensures MovedUp(was, rows, lo, hi, Min(n, hi - lo + 1)) ==> MovedUp(was, rows, lo, hi, n)
  {}

  /** Nothing but the rows of the screen changes, and the column. */
  ghost predicate ViewOnly(t: Term, r: Term)
    requires Grid(t) && Grid(r)
  {
    r == WithActive(t, Active(t).(view := Active(r).view)).(x := r.x)
  }

  lemma EditLinesFinal(sc: Screen, n: nat, final: char)
    requires AtRest(sc) && Short(n) && (final == 'L' || final == 'M')
    ensures Feed(sc, Csi1(n, final)).term == EditLines(sc.term, final, Max(1, n))
  {
    hide EditLines, Csi1, Feed, Numbers, Decimal, EraseDisplay, EraseLine, EditCells;
    OneNumber(n);
    FeedCsi1(sc, n, final);
  }

  /** The rows from the cursor's to the bottom of the region are moved, `down` or up by `n`,
      and the cursor is in the first column. */
  ghost predicate LinesMoved(t: Term, r: Term, down: bool, n: nat)
    requires Grid(t) && Grid(r) && t.y <= t.bottom
  {
    && ViewOnly(t, r) && r.x == 0
    && if down then MovedDown(Active(t).view, Active(r).view, t.y, t.bottom, n)
       else MovedUp(Active(t).view, Active(r).view, t.y, t.bottom, n)
  }

  lemma EditedLines(t: Term, n: nat)
    requires Grid(t) && t.top <= t.y <= t.bottom
    ensures LinesMoved(t, EditLines(t, 'L', n), true, n) && LinesMoved(t, EditLines(t, 'M', n), false, n)
  {
    hide InsertLines, DeleteLines, MovedUp, MovedDown;
    var v, k := Active(t).view, Min(n, t.bottom - t.y + 1);
    LinesInserted(v, t.y, t.bottom, k);
    LinesDeleted(v, t.y, t.bottom, k);
    MovedOut(v, InsertLines(v, t.y, t.bottom, k), t.y, t.bottom, n);
    MovedOut(v, DeleteLines(v, t.y, t.bottom, k), t.y, t.bottom, n);
  }

  /** IL and DL; outside the region they do nothing. */
  lemma LinesEdited(sc: Screen, n: nat)
    requires AtRest(sc) && 1 <= n && Short(n)
    ensures var t, i, d := sc.term, Feed(sc, Csi1(n, 'L')).term, Feed(sc, Csi1(n, 'M')).term;
            if t.top <= t.y <= t.bottom then LinesMoved(t, i, true, n) && LinesMoved(t, d, false, n)
            else i == t == d
  {
    hide Feed, Csi1, LinesMoved, InsertLines, DeleteLines;
    EditLinesFinal(sc, n, 'L');
    EditLinesFinal(sc, n, 'M');
    if sc.term.top <= sc.term.y <= sc.term.bottom {
      EditedLines(sc.term, n);
    }
  }

  // ---- scrolling ------------------------------------------------------------------

  /** The scrollback after `n` rows went off the top of a screen that never trims: those rows
      in order, and blank ones once the region has run out. */
  ghost predicate Pushed(was: seq<Row>, scroll: seq<Row>, view: seq<Row>, bottom: nat, n: nat)
    requires bottom < |view|
  {
    && |scroll| == |was| + n && scroll[..|was|] == was
    && forall i | |was| <= i < |was| + n ::
         scroll[i] == if i - |was| <= bottom then view[i - |was|] else BLANK_ROW
  }

  lemma OneUpFromTop(v: seq<Row>, bottom: nat)
    requires bottom < |v|
    ensures InsertRow(v, bottom + 1)[1..] == InsertRow(RemoveRow(v, 0), bottom)
    ensures InsertRow(v, bottom + 1)[0] == v[0]
  {}

  /** `n` rows up: the rows of the region, and the scrollback if it starts at the top row. */
  ghost predicate UpBy(t: Term, r: Term, n: nat)
    requires Grid(t) && Grid(r)
  {
    && r == WithActive(t, Active(t).(view := Active(r).view, scroll := Active(r).scroll)).(moves := r.moves)
    && MovedUp(Active(t).view, Active(r).view, t.top, t.bottom, n)
    && (t.top > 0 ==> Active(r).scroll == Active(t).scroll)
    && (t.top == 0 && Active(t).keep.None? ==>
          Pushed(Active(t).scroll, Active(r).scroll, Active(t).view, t.bottom, n))
    && r.moves == if t.top == 0 && t.alt.None? then t.moves + n else t.moves
  }

  ghost predicate UpByOne(s: Term, r: Term)
    requires Grid(s) && Grid(r)
  {
    && r == WithActive(s, Active(s).(view := Active(r).view, scroll := Active(r).scroll)).(moves := r.moves)
    && Active(r).view == InsertRow(RemoveRow(Active(s).view, s.top), s.bottom)
    && (s.top > 0 ==> Active(r).scroll == Active(s).scroll)
    && (s.top == 0 && Active(s).keep.None? ==> Active(r).scroll == Active(s).scroll + [Active(s).view[0]])
    && r.moves == if s.top == 0 && s.alt.None? then s.moves + 1 else s.moves
  }

  lemma OneScroll(s: Term)
    requires Grid(s)
    ensures UpByOne(s, ScrollUpOne(s))
  {
    OneUpFromTop(Active(s).view, s.bottom);
  }

  lemma UpRows(t: Term, s: Term, r: Term, n: nat)
    requires Grid(t) && Grid(s) && Grid(r) && UpBy(t, s, n) && UpByOne(s, r)
    ensures MovedUp(Active(t).view, Active(r).view, t.top, t.bottom, n + 1)
  {
    hide InsertRow, RemoveRow, MovedUp, Pushed;
    OneUp(Active(t).view, Active(s).view, t.top, t.bottom, n);
  }

  lemma UpScroll(t: Term, s: Term, r: Term, n: nat)
    requires Grid(t) && Grid(s) && Grid(r) && UpBy(t, s, n) && UpByOne(s, r)
    ensures t.top == 0 && Active(t).keep.None? ==>
              Pushed(Active(t).scroll, Active(r).scroll, Active(t).view, t.bottom, n + 1)
  {
    hide InsertRow, RemoveRow, MovedUp, Pushed;
    if t.top == 0 && Active(t).keep.None? {
      OneMorePushed(Active(t).scroll, Active(s).scroll, Active(t).view, Active(s).view, t.bottom, n);
    }
  }

  lemma UpStep(t: Term, s: Term, r: Term, n: nat)
    requires Grid(t) && Grid(s) && Grid(r) && UpBy(t, s, n) && UpByOne(s, r)
    ensures UpBy(t, r, n + 1)
  {
    hide InsertRow, RemoveRow, MovedUp, Pushed;
    UpRows(t, s, r, n);
    UpScroll(t, s, r, n);
  }

  lemma OneMorePushed(was: seq<Row>, scroll: seq<Row>, view: seq<Row>, now: seq<Row>, bottom: nat, n: nat)
    requires bottom < |view| == |now| && Pushed(was, scroll, view, bottom, n) && MovedUp(view, now, 0, bottom, n)
    ensures Pushed(was, scroll + [now[0]], view, bottom, n + 1)
  {
    var more := scroll + [now[0]];
    assert more[..|was|] == scroll[..|was|];
    assert now[0] == if n <= bottom then view[n] else BLANK_ROW;
    forall i | |was| <= i < |was| + n + 1
      ensures more[i] == if i - |was| <= bottom then view[i - |was|] else BLANK_ROW
    {
      assert more[i] == if i < |scroll| then scroll[i] else now[0];
    }
  }

  lemma {:induction false} ScrolledUp(t: Term, n: nat)
    requires Grid(t)
    ensures UpBy(t, ScrollUp(t, n), n)
  {
    hide UpBy, UpByOne, ScrollUpOne;
    if n == 0 {
      UpByNone(t);
    } else {
      ScrolledUp(t, n - 1);
      OneScroll(ScrollUp(t, n - 1));
      UpStep(t, ScrollUp(t, n - 1), ScrollUp(t, n), n - 1);
    }
  }

  lemma UpByNone(t: Term)
    requires Grid(t)
    ensures UpBy(t, t, 0) && DownwardBy(t, t, 0)
  {}

  /** `n` rows down: the rows of the region and nothing else. */
  ghost predicate DownwardBy(t: Term, r: Term, n: nat)
    requires Grid(t) && Grid(r)
  {
    ViewOnly(t, r) && r.x == t.x && MovedDown(Active(t).view, Active(r).view, t.top, t.bottom, n)
  }

  lemma {:induction false} ScrolledDown(t: Term, n: nat)
    requires Grid(t)
    ensures DownwardBy(t, ScrollDown(t, n), n)
  {
    hide DownwardBy, SetView, InsertRow, RemoveRow;
    if n == 0 {
      UpByNone(t);
    } else {
      ScrolledDown(t, n - 1);
      DownStep(t, ScrollDown(t, n - 1), n - 1);
    }
  }

  lemma DownStep(t: Term, s: Term, n: nat)
    requires Grid(t) && Grid(s) && DownwardBy(t, s, n)
    ensures DownwardBy(t, SetView(s, InsertRow(RemoveRow(Active(s).view, s.bottom), s.top)), n + 1)
  {
    hide MovedDown;
    OneDown(Active(t).view, Active(s).view, t.top, t.bottom, n);
  }

  lemma ScrollFinals(sc: Screen, n: nat)
    requires AtRest(sc) && 1 <= n && Short(n)
    ensures Feed(sc, Csi1(n, 'S')).term == ScrollUp(sc.term, Min(n, sc.term.rows))
    ensures Feed(sc, Csi1(n, 'T')).term == ScrollDown(sc.term, Min(n, sc.term.rows))
  {
    hide ScrollUp, ScrollDown, Csi1, Feed, Numbers, Decimal, EraseDisplay, EraseLine, EditCells, EditLines;
    OneNumber(n);
    FeedCsi1(sc, n, 'S');
    FeedCsi1(sc, n, 'T');
  }

  /** SU moves the region up, off the top of the screen into the scrollback; SD moves it down. */
  lemma Scrolled(sc: Screen, n: nat)
    requires AtRest(sc) && 1 <= n && Short(n)
    ensures UpBy(sc.term, Feed(sc, Csi1(n, 'S')).term, Min(n, sc.term.rows))
    ensures DownwardBy(sc.term, Feed(sc, Csi1(n, 'T')).term, Min(n, sc.term.rows))
  {
    hide UpBy, DownwardBy, ScrollUp, ScrollDown, Csi1, Feed;
    ScrollFinals(sc, n);
    ScrolledUp(sc.term, Min(n, sc.term.rows));
    ScrolledDown(sc.term, Min(n, sc.term.rows));
  }

  // ---- the display ------------------------------------------------------------------

  lemma EraseDisplayFinal(sc: Screen, p: nat)
    requires AtRest(sc) && Short(p)
    ensures Feed(sc, Csi1(p, 'J')).term == EraseDisplay(sc.term, p)
    ensures Feed(sc, Sequence("", 'J')).term == EraseDisplay(sc.term, 0)
  {
    hide EraseDisplay, Sequence, Csi1, Feed, Numbers, Decimal;
    OneNumber(p);
    FeedCsi1(sc, p, 'J');
    NoNumber();
    FeedSequence(sc, "", 'J');
  }

  /** Rows above the cursor's blank or as they were, rows below likewise. */
  ghost predicate Around(t: Term, r: Term, above: bool, below: bool)
    requires Grid(t) && Grid(r)
  {
    && r == WithActive(t, Active(t).(view := Active(r).view)).(unsure := r.unsure)
    && (forall i | 0 <= i < t.y :: Active(r).view[i] == if above then BLANK_ROW else Active(t).view[i])
    && (forall i | t.y < i < t.rows :: Active(r).view[i] == if below then BLANK_ROW else Active(t).view[i])
  }

  /** What is left of the cursor's row, and whether it still continues the row above. */
  ghost predicate RowLeft(t: Term, r: Term, lo: nat, hi: nat, wrapped: bool)
    requires Grid(t) && Grid(r) && r.rows == t.rows && lo <= hi
  {
    Blanked(Line(t, t.y).cells, Line(r, t.y).cells, lo, hi) && Line(r, t.y).wrapped == wrapped
  }

  /** ED 0 blanks from the cursor down, and a row blanked from its first column no longer
      continues the line above; ED 1 blanks down to the cursor, ED 2 everything, ED 3 the
      scrollback and nothing on the screen. */
  ghost predicate ErasesDisplay(t: Term, r: Term, p: nat)
    requires Grid(t) && Grid(r)
  {
    var row := Line(t, t.y);
    match p
    case 0 =>
      && Around(t, r, false, true)
      && RowLeft(t, r, t.x, Max(t.x, |row.cells|), row.wrapped && t.x != 0)
      && r.unsure == (t.unsure && !(t.x == 0 && t.y == 0))
    case 1 =>
      && Around(t, r, true, false)
      && RowLeft(t, r, 0, Min(t.x, t.cols - 1) + 1, row.wrapped) && r.unsure == t.unsure
    case 2 => Around(t, r, true, true) && Line(r, t.y) == BLANK_ROW && !r.unsure
    case 3 => r == if t.alt.Some? then t else t.(main := t.main.(scroll := []), moves := t.moves + 1)
    case _ => r == t
  }

  lemma DisplayErased(sc: Screen, p: nat)
    requires AtRest(sc) && Short(p)
    ensures ErasesDisplay(sc.term, Feed(sc, Csi1(p, 'J')).term, p)
    ensures Feed(sc, Sequence("", 'J')).term == Feed(sc, Csi1(0, 'J')).term
  {
    hide Feed, Csi1, Sequence, EraseDisplay, ErasesDisplay;
    assert Short(0);
    EraseDisplayFinal(sc, p);
    EraseDisplayFinal(sc, 0);
    DisplayErasedTerm(sc.term, p);
  }

  lemma DisplayErasedTerm(t: Term, p: nat)
    requires Grid(t)
    ensures ErasesDisplay(t, EraseDisplay(t, p), p)
  {
    hide ErasedView, RowLeft, CutRow;
    if p != 3 {
      ErasedRows(t, p);
      ViewErased(t, p);
    }
    if p <= 1 {
      CursorRow(t, EraseDisplay(t, p), p);
    }
  }

  lemma ViewErased(t: Term, p: nat)
    requires Grid(t) && p != 3
    ensures var r := EraseDisplay(t, p);
            && Active(r).view == ErasedView(t, p)
            && r == WithActive(t, Active(t).(view := ErasedView(t, p))).(unsure := r.unsure)
            && r.unsure == (t.unsure && !(p == 2 || (p == 0 && t.x == 0 && t.y == 0)))
  {
    hide ErasedView;
  }

  lemma ErasedRows(t: Term, p: nat)
    requires Grid(t)
    ensures var v := ErasedView(t, p);
            && (forall i | 0 <= i < t.y :: v[i] == if p == 1 || p == 2 then BLANK_ROW else Active(t).view[i])
            && (forall i | t.y < i < t.rows :: v[i] == if p == 0 || p == 2 then BLANK_ROW else Active(t).view[i])
            && v[t.y] == (if p == 2 then BLANK_ROW else CutRow(t, p))
            && (p > 2 ==> v == Active(t).view)
  {
    hide CutRow;
    if p > 2 {
      assert CutRow(t, p) == Line(t, t.y) by {
        Uncut(t, p);
      }
      assert ErasedView(t, p) == Active(t).view;
    }
  }

  lemma Uncut(t: Term, p: nat)
    requires Grid(t) && p > 2
    ensures CutRow(t, p) == Line(t, t.y)
  {}

  lemma CursorRow(t: Term, r: Term, p: nat)
    requires Grid(t) && Grid(r) && r.rows == t.rows && p <= 1 && Line(r, t.y) == CutRow(t, p)
    ensures var row := Line(t, t.y);
            if p == 0 then RowLeft(t, r, t.x, Max(t.x, |row.cells|), row.wrapped && t.x != 0)
            else RowLeft(t, r, 0, Min(t.x, t.cols - 1) + 1, row.wrapped)
  {
    hide Erase, Blanked;
    var cells := Line(t, t.y).cells;
    EraseBlanks(cells, t.x, Max(t.x, |cells|));
    EraseBlanks(cells, 0, Column(t) + 1);
  }
}
