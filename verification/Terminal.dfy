/** What every action does to the terminal, as functions on values. A buffer is
    its scrollback and its screen rows; the screen is what escape sequences see. */
module Terminal {
  import opened Arithmetic
  import opened Options
  import opened Cells
  import opened Parser

  datatype Saved = Saved(x: nat, y: nat, origin: bool, moves: nat)

  /** `keep` is how many scrollback rows survive a trim; None never trims. */
  datatype Buffer = Buffer(scroll: seq<Row>, view: seq<Row>, keep: Option<nat>, saved: Option<Saved>)

  /** `alt` is the alternate screen while a program is on it. `moves` counts the
      events that shift the main screen against its scrollback. */
  datatype Term = Term(cols: nat, rows: nat, main: Buffer, alt: Option<Buffer>,
                       x: nat, y: nat, top: nat, bottom: nat,
                       wrap: bool, origin: bool, insert: bool,
                       moves: nat, unsure: bool)

  const SCROLLBACK: nat := 1000
  const SLACK: nat := 64

  function Active(t: Term): Buffer { if t.alt.Some? then t.alt.value else t.main }

  function WithActive(t: Term, b: Buffer): Term {
    if t.alt.Some? then t.(alt := Some(b)) else t.(main := b)
  }

  /** The grid invariant: both buffers hold exactly `rows` screen rows, the cursor
      is on the screen or in the deferred wrap, and the region is on the screen. */
  predicate Grid(t: Term) {
    && t.cols >= 2 && t.rows >= 1
    && |t.main.view| == t.rows
    && (t.alt.Some? ==> |t.alt.value.view| == t.rows)
    && t.x <= t.cols && t.y < t.rows
    && t.top <= t.bottom < t.rows
  }

  /** The main scrollback is over its limit by no more than the slack. */
  predicate WithinKeep(t: Term) {
    t.main.keep.Some? ==> |t.main.scroll| <= t.main.keep.value + SLACK
  }

  /** What every action but a reset or a resize keeps. The geometry stands; while
      `moves` stands, so does the main scrollback, which stays within its limit; and
      the main screen's saved cursor is the old one, or forgotten, or one saved in between. */
  ghost predicate Steady(t: Term, r: Term) {
    && r.cols == t.cols && r.rows == t.rows && r.main.keep == t.main.keep
    && r.moves >= t.moves
    && (r.moves == t.moves ==> r.main.scroll == t.main.scroll)
    && (WithinKeep(t) ==> WithinKeep(r))
    && (r.main.saved == t.main.saved || r.main.saved.None?
        || (t.moves <= r.main.saved.value.moves <= r.moves && r.main.saved.value.y < r.rows))
  }

  function BlankRows(n: nat): seq<Row> { seq(n, _ => BLANK_ROW) }

  function NewBuffer(rows: nat, keep: Option<nat>): Buffer { Buffer([], BlankRows(rows), keep, None) }

  function InitTerm(cols: nat, rows: nat, keep: Option<nat>): (t: Term)
    requires cols >= 2 && rows >= 1
    ensures Grid(t)
  {
    Term(cols, rows, NewBuffer(rows, keep), None, 0, 0, 0, rows - 1, true, false, false, 0, false)
  }

  function ResetTerm(t: Term): (r: Term)
    requires Grid(t)
    ensures Grid(r)
  {
    InitTerm(t.cols, t.rows, t.main.keep).(moves := t.moves)
  }

  function Line(t: Term, i: nat): Row
    requires Grid(t) && i < t.rows
  {
    Active(t).view[i]
  }

  function SetView(t: Term, view: seq<Row>): (r: Term)
    requires Grid(t) && |view| == t.rows
    ensures Grid(r) && Steady(t, r)
  {
    WithActive(t, Active(t).(view := view))
  }

  function SetLine(t: Term, i: nat, row: Row): (r: Term)
    requires Grid(t) && i < t.rows
    ensures Grid(r) && Steady(t, r)
  {
    SetView(t, Active(t).view[i := row])
  }

  function SetCells(t: Term, cells: seq<Cell>): (r: Term)
    requires Grid(t)
    ensures Grid(r) && Steady(t, r)
  {
    SetLine(t, t.y, Line(t, t.y).(cells := cells))
  }

  // ---- resizing -----------------------------------------------------------

  /** A buffer nobody's cursor is in: rows are added below, or pushed off the top. */
  function FitIdle(b: Buffer, rows: nat): (r: Buffer)
    ensures |r.view| == rows
  {
    if |b.view| <= rows then b.(view := b.view + BlankRows(rows - |b.view|))
    else b.(scroll := b.scroll + b.view[..|b.view| - rows], view := b.view[|b.view| - rows..])
  }

  /** How far growing by `d` rows pulls the scrollback back down. */
  function Pull(b: Buffer, y: nat, d: nat): nat {
    if y + 1 == |b.view| then Min(|b.scroll|, d) else 0
  }

  /** The buffer the cursor is in, and the cursor's new row. Growing pulls rows
      out of the scrollback while the cursor is on the bottom row, else adds blank
      ones; shrinking drops rows below the cursor, then pushes rows off the top. */
  function FitActive(b: Buffer, y: nat, rows: nat): (r: (Buffer, nat))
    requires y < |b.view| && rows >= 1
    ensures |r.0.view| == rows && r.1 < rows
  {
    if |b.view| <= rows then
      var d := rows - |b.view|;
      var k := Pull(b, y, d);
      var at := |b.scroll| - k;
      (b.(scroll := b.scroll[..at], view := b.scroll[at..] + b.view + BlankRows(d - k)), y + k)
    else
      var d := |b.view| - rows;
      var dropped := Min(|b.view| - 1 - y, d);
      var view := b.view[..|b.view| - dropped];
      var m := d - dropped;
      (b.(scroll := b.scroll + view[..m], view := view[m..]), y - m)
  }

  function Fit(t: Term, cols: nat, rows: nat): (r: Term)
    requires Grid(t) && cols >= 2 && rows >= 1
    ensures Grid(r)
  {
    if cols == t.cols && rows == t.rows then t
    else
      var (b, y) := FitActive(Active(t), t.y, rows);
      var r := if t.alt.Some? then t.(main := FitIdle(t.main, rows), alt := Some(b)) else t.(main := b);
      r.(cols := cols, rows := rows, x := Min(t.x, cols), y := y, top := 0, bottom := rows - 1,
         moves := t.moves + 1)
  }

  // ---- scrolling ----------------------------------------------------------

  function InsertRow(v: seq<Row>, i: nat): seq<Row>
    requires i <= |v|
  {
    v[..i] + [BLANK_ROW] + v[i..]
  }

  function RemoveRow(v: seq<Row>, i: nat): seq<Row>
    requires i < |v|
  {
    v[..i] + v[i + 1..]
  }

  /** The scrollback is trimmed only once it is SLACK rows over. */
  function Trimmed(scroll: seq<Row>, keep: Option<nat>): seq<Row> {
    if keep.Some? && |scroll| > keep.value + SLACK then scroll[|scroll| - keep.value..] else scroll
  }

  /** A region that starts at the top row pushes that row into the scrollback,
      wherever the region ends; any other drops it. */
  function ScrollUpOne(t: Term): (r: Term)
    requires Grid(t)
    ensures Grid(r) && Steady(t, r)
  {
    var b := Active(t);
    if t.top == 0 then
      var v := InsertRow(b.view, t.bottom + 1);
      var r := WithActive(t, b.(scroll := Trimmed(b.scroll + [v[0]], b.keep), view := v[1..]));
      if t.alt.None? then r.(moves := t.moves + 1) else r
    else SetView(t, InsertRow(RemoveRow(b.view, t.top), t.bottom))
  }

  function ScrollUp(t: Term, n: nat): (r: Term)
    requires Grid(t)
    ensures Grid(r) && Steady(t, r)
  {
    if n == 0 then t else ScrollUpOne(ScrollUp(t, n - 1))
  }

  function ScrollDown(t: Term, n: nat): (r: Term)
    requires Grid(t)
    ensures Grid(r) && Steady(t, r)
  {
    if n == 0 then t
    else var s := ScrollDown(t, n - 1);
         SetView(s, InsertRow(RemoveRow(Active(s).view, s.bottom), s.top))
  }

  /** IL and DL: rows inserted or deleted at the cursor, within the region. */
  function InsertLines(v: seq<Row>, y: nat, bottom: nat, n: nat): (r: seq<Row>)
    requires y <= bottom < |v|
    ensures |r| == |v|
  {
    if n == 0 then v else InsertRow(RemoveRow(InsertLines(v, y, bottom, n - 1), bottom), y)
  }

  function DeleteLines(v: seq<Row>, y: nat, bottom: nat, n: nat): (r: seq<Row>)
    requires y <= bottom < |v|
    ensures |r| == |v|
  {
    if n == 0 then v else InsertRow(RemoveRow(DeleteLines(v, y, bottom, n - 1), y), bottom)
  }

  // ---- the cursor ---------------------------------------------------------

  function Column(t: Term): nat
    requires Grid(t)
  {
    Min(t.x, t.cols - 1)
  }

  /** One row down, scrolling at the bottom of the region. */
  function Down(t: Term): (r: Term)
    requires Grid(t)
    ensures Grid(r) && Steady(t, r)
  {
    if t.y == t.bottom then ScrollUpOne(t) else if t.y < t.rows - 1 then t.(y := t.y + 1) else t
  }

  /** One at column 0 starts a line whose contents are known. */
  function Fed(t: Term): (r: Term)
    requires Grid(t)
    ensures Grid(r) && Steady(t, r)
  {
    t.(x := Column(t), unsure := t.unsure && Column(t) != 0)
  }

  /** LF. */
  function LineFeedTerm(t: Term): (r: Term)
    requires Grid(t)
    ensures Grid(r) && Steady(t, r)
  {
    Down(Fed(t))
  }

  function ReverseIndexTerm(t: Term): (r: Term)
    requires Grid(t)
    ensures Grid(r) && Steady(t, r)
  {
    var s := t.(x := Column(t));
    if s.y == s.top then ScrollDown(s, 1) else if s.y > 0 then s.(y := s.y - 1) else s
  }

  function ControlTerm(t: Term, c: int): (r: Term)
    requires Grid(t)
    ensures Grid(r) && Steady(t, r)
  {
    if c == 0x08 then t.(x := Max(0, Column(t) - 1))
    else if c == 0x09 then t.(x := Min(t.cols - 1, (Column(t) / 8 + 1) * 8))
    else if c == 0x0a || c == 0x0b || c == 0x0c || c == 0x84 then LineFeedTerm(t)
    else if c == 0x0d then t.(x := 0)
    else if c == 0x85 then LineFeedTerm(t.(x := 0))
    else if c == 0x8d then ReverseIndexTerm(t)
    else t
  }

  function SaveTerm(t: Term): (r: Term)
    requires Grid(t)
    ensures Grid(r) && Steady(t, r)
  {
    WithActive(t, Active(t).(saved := Some(Saved(t.x, t.y, t.origin, t.moves))))
  }

  /** A restore across an event `moves` counts leaves the cursor's row in doubt. */
  function RestoreTerm(t: Term): (r: Term)
    requires Grid(t)
    ensures Grid(r) && Steady(t, r)
  {
    var s := if Active(t).saved.Some? then Active(t).saved.value else Saved(0, 0, false, t.moves);
    t.(unsure := t.unsure || s.moves != t.moves,
       x := Min(s.x, t.cols - 1), y := Min(s.y, t.rows - 1), origin := s.origin)
  }

  // ---- printing -----------------------------------------------------------

  /** Where a character `w` wide goes: past the last column the line wraps. */
  function WrapFor(t: Term, w: nat): (r: Term)
    requires Grid(t) && 1 <= w <= 2
    ensures Grid(r) && Steady(t, r) && r.x + w <= r.cols
  {
    if t.x + w <= t.cols then t
    else if t.wrap then
      var s := Down(t).(x := 0);
      SetLine(s, s.y, Line(s, s.y).(wrapped := true))
    else t.(x := t.cols - w)
  }

  /** A character written at the cursor, where it fits. */
  function Place(t: Term, ch: char, w: nat): (r: Term)
    requires Grid(t) && 1 <= w <= 2 && t.x + w <= t.cols
    ensures Grid(r) && Steady(t, r)
  {
    var cells := Line(t, t.y).cells;
    var room := if t.insert && t.x < |cells| then InsertCells(cells, t.x, w, t.cols) else cells;
    SetCells(t, WriteGlyph(room, t.x, ch, w)).(x := t.x + w)
  }

  function PrintTerm(t: Term, ch: char, w: nat): (r: Term)
    requires Grid(t) && w <= 2
    ensures Grid(r) && Steady(t, r)
  {
    if w == 0 then SetCells(t, Combine(Line(t, t.y).cells, t.x, ch))
    else Place(WrapFor(t, w), ch, w)
  }

  // ---- control sequences --------------------------------------------------

  /** DECSET and DECRST of one private mode. */
  function Mode(t: Term, p: nat, on: bool): (r: Term)
    requires Grid(t)
    ensures Grid(r) && Steady(t, r)
  {
    if p == 7 then t.(wrap := on)
    else if p == 6 then t.(origin := on, x := 0, y := if on then t.top else 0)
    else if p == 47 || p == 1047 || p == 1049 then
      if on then
        var s := if p == 1049 then SaveTerm(t) else t;
        if s.alt.None? then s.(alt := Some(NewBuffer(s.rows, Some(0)))) else s
      else
        var s := t.(alt := None);
        if p == 1049 then RestoreTerm(s) else s
    else t
  }

  function Modes(t: Term, ps: seq<nat>, on: bool): (r: Term)
    requires Grid(t)
    ensures Grid(r) && Steady(t, r)
  {
    if ps == [] then t else Mode(Modes(t, ps[..|ps| - 1], on), ps[|ps| - 1], on)
  }

  function UpRow(t: Term, n: nat): (y: nat)
    requires Grid(t)
    ensures y < t.rows
  {
    Max(if t.y >= t.top then t.top else 0, t.y - n)
  }

  function DownRow(t: Term, n: nat): (y: nat)
    requires Grid(t)
    ensures y < t.rows
  {
    Min(if t.y <= t.bottom then t.bottom else t.rows - 1, t.y + n)
  }

  function ToRow(t: Term, r: nat): (y: nat)
    requires Grid(t)
    ensures y < t.rows
  {
    if t.origin then Min(t.bottom, t.top + r) else Min(t.rows - 1, r)
  }

  /** The cursor's row after ED. Erased from its first column, it no longer
      continues the row above. */
  function CutRow(t: Term, p: nat): Row
    requires Grid(t)
  {
    var row := Line(t, t.y);
    var unmarked := row.(wrapped := row.wrapped && !(p == 0 && t.x == 0));
    if p == 0 then unmarked.(cells := EraseFrom(row.cells, t.x))
    else if p == 1 then unmarked.(cells := Erase(row.cells, 0, Column(t) + 1))
    else unmarked
  }

  function ErasedView(t: Term, p: nat): (r: seq<Row>)
    requires Grid(t)
    ensures |r| == t.rows
  {
    seq(t.rows, i requires 0 <= i < t.rows =>
      if p == 2 || (p == 0 && i > t.y) || (p == 1 && i < t.y) then BLANK_ROW
      else if i == t.y then CutRow(t, p) else Active(t).view[i])
  }

  /** ED; 3 drops the scrollback. */
  function EraseDisplay(t: Term, p: nat): (r: Term)
    requires Grid(t)
    ensures Grid(r) && Steady(t, r)
  {
    if p == 3 then
      if t.alt.None? then t.(main := t.main.(scroll := []), moves := t.moves + 1) else t
    else
      SetView(t, ErasedView(t, p))
        .(unsure := t.unsure && !(p == 2 || (p == 0 && t.x == 0 && t.y == 0)))
  }

  function EraseLine(t: Term, p: nat): (r: Term)
    requires Grid(t)
    ensures Grid(r) && Steady(t, r)
  {
    var cells := Line(t, t.y).cells;
    if p == 0 then SetCells(t, EraseFrom(cells, t.x))
    else if p == 1 then SetCells(t, Erase(cells, 0, Column(t) + 1))
    else if p == 2 then SetCells(t, EraseFrom(cells, 0))
    else t
  }

  function SetRegion(t: Term, ps: seq<nat>): (r: Term)
    requires Grid(t) && |ps| > 0
    ensures Grid(r) && Steady(t, r)
  {
    var a := Max(1, ps[0]) - 1;
    var b := Min(t.rows, if |ps| > 1 && ps[1] != 0 then ps[1] else t.rows) - 1;
    if a < b then t.(top := a, bottom := b, x := 0, y := if t.origin then a else 0) else t
  }

  /** Where the finals that move the cursor put it. */
  function Target(t: Term, final: char, ps: seq<nat>): (r: (nat, nat))
    requires Grid(t) && |ps| > 0
    ensures r.0 <= t.cols && r.1 < t.rows
  {
    var n := Max(1, ps[0]);
    var cx := Column(t);
    match final
    case 'A' => (cx, UpRow(t, n))
    case 'B' => (cx, DownRow(t, n))
    case 'e' => (cx, DownRow(t, n))
    case 'C' => (Min(t.cols - 1, t.x + n), t.y)
    case 'a' => (Min(t.cols - 1, t.x + n), t.y)
    case 'D' => (Max(0, cx - n), t.y)
    case 'E' => (0, DownRow(t, n))
    case 'F' => (0, UpRow(t, n))
    case 'G' => (Min(t.cols - 1, n - 1), t.y)
    case '`' => (Min(t.cols - 1, n - 1), t.y)
    case 'd' => (cx, ToRow(t, n - 1))
    case 'H' => (Min(t.cols - 1, Max(1, if |ps| > 1 then ps[1] else 0) - 1), ToRow(t, n - 1))
    case 'f' => (Min(t.cols - 1, Max(1, if |ps| > 1 then ps[1] else 0) - 1), ToRow(t, n - 1))
    case _ => (t.x, t.y)
  }

  function Move(t: Term, final: char, ps: seq<nat>): (r: Term)
    requires Grid(t) && |ps| > 0
    ensures Grid(r) && Steady(t, r)
  {
    var (x, y) := Target(t, final, ps);
    t.(x := x, y := y)
  }

  /** ICH, DCH and ECH on the cells of one row. */
  function Edited(cells: seq<Cell>, final: char, cx: nat, n: nat, cols: nat): seq<Cell> {
    match final
    case '@' => if cx < |cells| then InsertCells(cells, cx, Min(n, cols), cols) else cells
    case 'P' => DeleteCells(cells, cx, n)
    case _ => Erase(cells, cx, cx + n)
  }

  function EditCells(t: Term, final: char, n: nat): (r: Term)
    requires Grid(t)
    ensures Grid(r) && Steady(t, r)
  {
    var cx := Column(t);
    SetCells(t, Edited(Line(t, t.y).cells, final, cx, n, t.cols)).(x := cx)
  }

  /** IL and DL, which do nothing with the cursor outside the region. */
  function EditLines(t: Term, final: char, n: nat): (r: Term)
    requires Grid(t)
    ensures Grid(r) && Steady(t, r)
  {
    if t.y < t.top || t.y > t.bottom then t
    else
      var k := Min(n, t.bottom - t.y + 1);
      var v := Active(t).view;
      SetView(t, if final == 'L' then InsertLines(v, t.y, t.bottom, k) else DeleteLines(v, t.y, t.bottom, k))
        .(x := 0)
  }

  /** The finals that set a region, the saved cursor or a mode. */
  function Setting(t: Term, final: char, ps: seq<nat>, bare: bool): (r: Term)
    requires Grid(t) && |ps| > 0
    ensures Grid(r) && Steady(t, r)
  {
    if final == 'r' then SetRegion(t, ps)
    else if final == 's' then (if bare then SaveTerm(t) else t)
    else if final == 'u' then (if bare then RestoreTerm(t) else t)
    else if 4 in ps then t.(insert := final == 'h')
    else t
  }

  /** Every final of a CSI sequence without prefix or intermediates. */
  function CsiTerm(t: Term, final: char, params: string): (r: Term)
    requires Grid(t)
    ensures Grid(r) && Steady(t, r)
  {
    var ps := Numbers(params);
    var n := Max(1, ps[0]);
    if final == 'J' then EraseDisplay(t, ps[0])
    else if final == 'K' then EraseLine(t, ps[0])
    else if final in "@PX" then EditCells(t, final, n)
    else if final == 'L' || final == 'M' then EditLines(t, final, n)
    else if final == 'S' then ScrollUp(t, Min(n, t.rows))
    else if final == 'T' then (if |ps| == 1 then ScrollDown(t, Min(n, t.rows)) else t)
    else if final in "rsuhl" then Setting(t, final, ps, params == "")
    else Move(t, final, ps)
  }

  /** DECSTR: modes back to their defaults, the active buffer's saved cursor forgotten. */
  function SoftReset(t: Term): (r: Term)
    requires Grid(t)
    ensures Grid(r) && Steady(t, r)
  {
    WithActive(t, Active(t).(saved := None))
      .(top := 0, bottom := t.rows - 1, wrap := true, origin := false, insert := false)
  }

  function DispatchTerm(t: Term, final: char, params: string, inter: string): (r: Term)
    requires Grid(t)
    ensures Grid(r) && Steady(t, r)
  {
    if inter == "!" && final == 'p' then SoftReset(t)
    else if inter != "" then t
    else if Private(params) == Some('?') && (final == 'h' || final == 'l') then
      Modes(t, Numbers(params), final == 'h')
    else if Private(params).Some? then t
    else CsiTerm(t, final, params)
  }

  function Apply(t: Term, a: Action): (r: Term)
    requires Grid(t)
    ensures Grid(r)
    ensures !a.Resize? && !a.Reset? ==> Steady(t, r)
  {
    match a
    case Nothing => t
    case Print(ch) => PrintTerm(t, ch, Width(ch))
    case Control(c) => ControlTerm(t, c)
    case Dispatch(final, params, inter) => DispatchTerm(t, final, params, inter)
    case Save => SaveTerm(t)
    case Restore => RestoreTerm(t)
    case LineFeed => LineFeedTerm(t)
    case NextLine => LineFeedTerm(t.(x := 0))
    case ReverseIndex => ReverseIndexTerm(t)
    case Reset => ResetTerm(t)
    case Resize(cols, rows) => Fit(t, Max(2, cols), Max(1, rows))
  }

  function ApplyAll(t: Term, actions: seq<Action>): (r: Term)
    requires Grid(t)
    ensures Grid(r)
  {
    if actions == [] then t
    else Apply(ApplyAll(t, actions[..|actions| - 1]), actions[|actions| - 1])
  }
}
