/** The real screen, whose scrollback is trimmed, against an ideal one that never
    trims: they differ only in how much scrollback they hold, and whatever the real
    one is sure of the ideal one says too. */
module Trimming {
  import opened Arithmetic
  import opened Options
  import opened Cells
  import opened Parser
  import opened Terminal
  import opened Reading

  /** The screen that would be there had `lost` never been trimmed. */
  function Untrimmed(t: Term, lost: seq<Row>): Term {
    t.(main := t.main.(scroll := lost + t.main.scroll, keep := None))
  }

  /** A resize that asks for no more scrollback than is still held. */
  predicate Pullable(t: Term, a: Action)
    requires Grid(t)
  {
    a.Resize? && t.alt.None? && t.y + 1 == t.rows ==> Max(1, a.rows) - t.rows <= |t.main.scroll|
  }

  /** Every resize of the run is pullable when it comes. */
  predicate AllPullable(t: Term, actions: seq<Action>)
    requires Grid(t)
  {
    actions == []
    || (var before := actions[..|actions| - 1];
        AllPullable(t, before) && Pullable(ApplyAll(t, before), actions[|actions| - 1]))
  }

  lemma TrimmedFront(lost: seq<Row>, full: seq<Row>, keep: Option<nat>) returns (more: seq<Row>)
    ensures lost + full == more + Trimmed(full, keep)
  {
    var kept := Trimmed(full, keep);
    more := lost + full[..|full| - |kept|];
  }

  /** A row pushed off the top of the main screen may trim the scrollback. */
  lemma UntrimmedPush(t: Term, lost: seq<Row>) returns (more: seq<Row>)
    requires Grid(t) && t.top == 0 && t.alt.None?
    ensures ScrollUpOne(Untrimmed(t, lost)) == Untrimmed(ScrollUpOne(t), more)
  {
    var v := InsertRow(t.main.view, t.bottom + 1);
    var full := t.main.scroll + [v[0]];
    more := TrimmedFront(lost, full, t.main.keep);
    assert (lost + t.main.scroll) + [v[0]] == lost + full;
    assert ScrollUpOne(t).main.scroll == Trimmed(full, t.main.keep);
    assert ScrollUpOne(Untrimmed(t, lost)).main.scroll == lost + full;
  }

  lemma UntrimmedInside(t: Term, lost: seq<Row>)
    requires Grid(t) && !(t.top == 0 && t.alt.None?)
    ensures ScrollUpOne(Untrimmed(t, lost)) == Untrimmed(ScrollUpOne(t), lost)
  {
    if t.alt.None? {
      UntrimmedView(t, lost, InsertRow(RemoveRow(Active(t).view, t.top), t.bottom));
    }
  }

  lemma UntrimmedScrollUpOne(t: Term, lost: seq<Row>) returns (more: seq<Row>)
    requires Grid(t)
    ensures ScrollUpOne(Untrimmed(t, lost)) == Untrimmed(ScrollUpOne(t), more)
  {
    more := lost;
    if t.top == 0 && t.alt.None? {
      more := UntrimmedPush(t, lost);
    } else {
      UntrimmedInside(t, lost);
    }
  }

  lemma {:induction false} UntrimmedScrollUp(t: Term, lost: seq<Row>, n: nat) returns (more: seq<Row>)
    requires Grid(t)
    ensures ScrollUp(Untrimmed(t, lost), n) == Untrimmed(ScrollUp(t, n), more)
  {
    more := lost;
    if n > 0 {
      more := UntrimmedScrollUp(t, lost, n - 1);
      more := OneMore(ScrollUp(t, n - 1), ScrollUp(Untrimmed(t, lost), n - 1), more);
    }
  }

  lemma OneMore(s: Term, u: Term, lost: seq<Row>) returns (more: seq<Row>)
    requires Grid(s) && u == Untrimmed(s, lost)
    ensures Grid(u) && ScrollUpOne(u) == Untrimmed(ScrollUpOne(s), more)
  {
    more := UntrimmedScrollUpOne(s, lost);
  }

  /** Anything that only replaces screen rows commutes with untrimming. */
  lemma UntrimmedView(t: Term, lost: seq<Row>, view: seq<Row>)
    requires Grid(t) && |view| == t.rows
    ensures SetView(Untrimmed(t, lost), view) == Untrimmed(SetView(t, view), lost)
    ensures Active(Untrimmed(t, lost)).view == Active(t).view
  {
  }

  lemma UntrimmedCells(t: Term, lost: seq<Row>, cells: seq<Cell>)
    requires Grid(t)
    ensures SetCells(Untrimmed(t, lost), cells) == Untrimmed(SetCells(t, cells), lost)
    ensures Line(Untrimmed(t, lost), t.y) == Line(t, t.y)
  {
    UntrimmedView(t, lost, Active(t).view[t.y := Line(t, t.y).(cells := cells)]);
  }

  lemma {:induction false} UntrimmedScrollDown(t: Term, lost: seq<Row>, n: nat)
    requires Grid(t)
    ensures ScrollDown(Untrimmed(t, lost), n) == Untrimmed(ScrollDown(t, n), lost)
  {
    if n > 0 {
      UntrimmedScrollDown(t, lost, n - 1);
      OneDown(ScrollDown(t, n - 1), ScrollDown(Untrimmed(t, lost), n - 1), lost);
    }
  }

  lemma OneDown(s: Term, u: Term, lost: seq<Row>)
    requires Grid(s) && u == Untrimmed(s, lost)
    ensures Grid(u) && SetView(u, InsertRow(RemoveRow(Active(u).view, u.bottom), u.top))
                    == Untrimmed(SetView(s, InsertRow(RemoveRow(Active(s).view, s.bottom), s.top)), lost)
  {
    UntrimmedView(s, lost, InsertRow(RemoveRow(Active(s).view, s.bottom), s.top));
  }

  lemma UntrimmedDown(t: Term, lost: seq<Row>) returns (more: seq<Row>)
    requires Grid(t)
    ensures Down(Untrimmed(t, lost)) == Untrimmed(Down(t), more)
  {
    more := lost;
    if t.y == t.bottom {
      more := UntrimmedScrollUpOne(t, lost);
    }
  }

  lemma UntrimmedFed(t: Term, lost: seq<Row>)
    requires Grid(t)
    ensures Fed(Untrimmed(t, lost)) == Untrimmed(Fed(t), lost)
  {}

  lemma UntrimmedLineFeed(t: Term, lost: seq<Row>) returns (more: seq<Row>)
    requires Grid(t)
    ensures LineFeedTerm(Untrimmed(t, lost)) == Untrimmed(LineFeedTerm(t), more)
  {
    UntrimmedFed(t, lost);
    more := UntrimmedDown(Fed(t), lost);
  }

  lemma UntrimmedNextLine(t: Term, lost: seq<Row>) returns (more: seq<Row>)
    requires Grid(t)
    ensures LineFeedTerm(Untrimmed(t, lost).(x := 0)) == Untrimmed(LineFeedTerm(t.(x := 0)), more)
  {
    UntrimmedX(t, lost, 0);
    more := UntrimmedLineFeed(t.(x := 0), lost);
  }

  lemma UntrimmedReverseIndex(t: Term, lost: seq<Row>)
    requires Grid(t)
    ensures ReverseIndexTerm(Untrimmed(t, lost)) == Untrimmed(ReverseIndexTerm(t), lost)
  {
    hide ScrollDown;
    UntrimmedScrollDown(t.(x := Column(t)), lost, 1);
  }

  lemma UntrimmedX(t: Term, lost: seq<Row>, x: nat)
    ensures Untrimmed(t, lost).(x := x) == Untrimmed(t.(x := x), lost)
  {}

  /** The controls that only move along the row. */
  lemma UntrimmedAlong(t: Term, lost: seq<Row>, c: int)
    requires Grid(t) && c != 0x0a && c != 0x0b && c != 0x0c && c != 0x84 && c != 0x85 && c != 0x8d
    ensures ControlTerm(Untrimmed(t, lost), c) == Untrimmed(ControlTerm(t, c), lost)
  {
    var u := Untrimmed(t, lost);
    if c == 0x08 {
      UntrimmedX(t, lost, Max(0, Column(t) - 1));
      assert ControlTerm(u, c) == u.(x := Max(0, Column(t) - 1));
    } else if c == 0x09 {
      UntrimmedX(t, lost, Min(t.cols - 1, (Column(t) / 8 + 1) * 8));
      assert ControlTerm(u, c) == u.(x := Min(t.cols - 1, (Column(t) / 8 + 1) * 8));
    } else if c == 0x0d {
      UntrimmedX(t, lost, 0);
      assert ControlTerm(u, c) == u.(x := 0);
    } else {
      assert ControlTerm(u, c) == u;
    }
  }

  lemma UntrimmedControl(t: Term, lost: seq<Row>, c: int) returns (more: seq<Row>)
    requires Grid(t)
    ensures ControlTerm(Untrimmed(t, lost), c) == Untrimmed(ControlTerm(t, c), more)
  {
    if c == 0x0a || c == 0x0b || c == 0x0c || c == 0x84 {
      more := UntrimmedLineFeed(t, lost);
    } else if c == 0x85 {
      more := UntrimmedNextLine(t, lost);
    } else if c == 0x8d {
      more := lost;
      UntrimmedReverseIndex(t, lost);
    } else {
      more := lost;
      UntrimmedAlong(t, lost, c);
    }
  }

  lemma UntrimmedWrapFor(t: Term, lost: seq<Row>, w: nat) returns (more: seq<Row>)
    requires Grid(t) && 1 <= w <= 2
    ensures WrapFor(Untrimmed(t, lost), w) == Untrimmed(WrapFor(t, w), more)
  {
    more := lost;
    if t.x + w > t.cols && t.wrap {
      more := UntrimmedDown(t, lost);
      var s := Down(t).(x := 0);
      UntrimmedView(s, more, Active(s).view[s.y := Line(s, s.y).(wrapped := true)]);
    }
  }

  lemma UntrimmedPlace(t: Term, lost: seq<Row>, ch: char, w: nat)
    requires Grid(t) && 1 <= w <= 2 && t.x + w <= t.cols
    ensures Place(Untrimmed(t, lost), ch, w) == Untrimmed(Place(t, ch, w), lost)
  {
    var cells := Line(t, t.y).cells;
    var room := if t.insert && t.x < |cells| then InsertCells(cells, t.x, w, t.cols) else cells;
    UntrimmedCells(t, lost, WriteGlyph(room, t.x, ch, w));
  }

  lemma UntrimmedPrint(t: Term, lost: seq<Row>, ch: char, w: nat) returns (more: seq<Row>)
    requires Grid(t) && w <= 2
    ensures PrintTerm(Untrimmed(t, lost), ch, w) == Untrimmed(PrintTerm(t, ch, w), more)
  {
    more := lost;
    if w == 0 {
      UntrimmedCells(t, lost, Combine(Line(t, t.y).cells, t.x, ch));
    } else {
      more := UntrimmedWrapFor(t, lost, w);
      UntrimmedPlace(WrapFor(t, w), more, ch, w);
    }
  }

  lemma UntrimmedCursor(t: Term, lost: seq<Row>)
    requires Grid(t)
    ensures SaveTerm(Untrimmed(t, lost)) == Untrimmed(SaveTerm(t), lost)
    ensures RestoreTerm(Untrimmed(t, lost)) == Untrimmed(RestoreTerm(t), lost)
  {
  }

  lemma UntrimmedMode(t: Term, lost: seq<Row>, p: nat, on: bool)
    requires Grid(t)
    ensures Mode(Untrimmed(t, lost), p, on) == Untrimmed(Mode(t, p, on), lost)
  {
    UntrimmedCursor(t, lost);
    if p == 1049 && !on {
      UntrimmedCursor(t.(alt := None), lost);
    }
  }

  lemma {:induction false} UntrimmedModes(t: Term, lost: seq<Row>, ps: seq<nat>, on: bool)
    requires Grid(t)
    ensures Modes(Untrimmed(t, lost), ps, on) == Untrimmed(Modes(t, ps, on), lost)
  {
    if ps != [] {
      UntrimmedModes(t, lost, ps[..|ps| - 1], on);
      UntrimmedMode(Modes(t, ps[..|ps| - 1], on), lost, ps[|ps| - 1], on);
    }
  }

  lemma UntrimmedErase(t: Term, lost: seq<Row>, p: nat) returns (more: seq<Row>)
    requires Grid(t)
    ensures EraseDisplay(Untrimmed(t, lost), p) == Untrimmed(EraseDisplay(t, p), more)
  {
    more := if p == 3 && t.alt.None? then [] else lost;
    if p != 3 {
      UntrimmedView(t, lost, ErasedView(t, p));
      assert CutRow(Untrimmed(t, lost), p) == CutRow(t, p);
      assert ErasedView(Untrimmed(t, lost), p) == ErasedView(t, p);
    }
  }

  lemma UntrimmedEraseLine(t: Term, lost: seq<Row>, p: nat)
    requires Grid(t)
    ensures EraseLine(Untrimmed(t, lost), p) == Untrimmed(EraseLine(t, p), lost)
  {
    var cells := Line(t, t.y).cells;
    UntrimmedCells(t, lost, EraseFrom(cells, t.x));
    UntrimmedCells(t, lost, Erase(cells, 0, Column(t) + 1));
    UntrimmedCells(t, lost, EraseFrom(cells, 0));
  }

  lemma UntrimmedEdit(t: Term, lost: seq<Row>, final: char, n: nat)
    requires Grid(t)
    ensures EditCells(Untrimmed(t, lost), final, n) == Untrimmed(EditCells(t, final, n), lost)
  {
    UntrimmedCells(t, lost, Edited(Line(t, t.y).cells, final, Column(t), n, t.cols));
  }

  lemma UntrimmedEditLines(t: Term, lost: seq<Row>, final: char, n: nat)
    requires Grid(t)
    ensures EditLines(Untrimmed(t, lost), final, n) == Untrimmed(EditLines(t, final, n), lost)
  {
  }

  lemma UntrimmedMove(t: Term, lost: seq<Row>, final: char, ps: seq<nat>)
    requires Grid(t) && |ps| > 0
    ensures Move(Untrimmed(t, lost), final, ps) == Untrimmed(Move(t, final, ps), lost)
  {
    var u := Untrimmed(t, lost);
    var n := Max(1, ps[0]);
    assert UpRow(u, n) == UpRow(t, n) && DownRow(u, n) == DownRow(t, n);
    assert ToRow(u, n - 1) == ToRow(t, n - 1) && Column(u) == Column(t);
    assert Target(u, final, ps) == Target(t, final, ps);
  }

  lemma UntrimmedSetting(t: Term, lost: seq<Row>, final: char, ps: seq<nat>, bare: bool)
    requires Grid(t) && |ps| > 0
    ensures Setting(Untrimmed(t, lost), final, ps, bare) == Untrimmed(Setting(t, final, ps, bare), lost)
  {
    UntrimmedCursor(t, lost);
    assert SetRegion(Untrimmed(t, lost), ps) == Untrimmed(SetRegion(t, ps), lost);
  }

  lemma UntrimmedCsi(t: Term, lost: seq<Row>, final: char, params: string) returns (more: seq<Row>)
    requires Grid(t)
    ensures CsiTerm(Untrimmed(t, lost), final, params) == Untrimmed(CsiTerm(t, final, params), more)
  {
    var ps := Numbers(params);
    var n := Max(1, ps[0]);
    more := lost;
    if final == 'J' {
      more := UntrimmedErase(t, lost, ps[0]);
    } else if final == 'K' {
      UntrimmedEraseLine(t, lost, ps[0]);
    } else if final in "@PX" {
      UntrimmedEdit(t, lost, final, n);
    } else if final == 'L' || final == 'M' {
      UntrimmedEditLines(t, lost, final, n);
    } else if final == 'S' {
      more := UntrimmedScrollUp(t, lost, Min(n, t.rows));
    } else if final == 'T' {
      UntrimmedScrollDown(t, lost, Min(n, t.rows));
    } else if final in "rsuhl" {
      UntrimmedSetting(t, lost, final, ps, params == "");
    } else {
      UntrimmedMove(t, lost, final, ps);
    }
  }

  function UntrimmedBuffer(b: Buffer, lost: seq<Row>): Buffer {
    b.(scroll := lost + b.scroll, keep := None)
  }

  lemma UntrimmedFitIdle(b: Buffer, lost: seq<Row>, rows: nat)
    ensures FitIdle(UntrimmedBuffer(b, lost), rows) == UntrimmedBuffer(FitIdle(b, rows), lost)
  {
    if |b.view| > rows {
      assert (lost + b.scroll) + b.view[..|b.view| - rows] == lost + (b.scroll + b.view[..|b.view| - rows]);
    }
  }

  lemma UntrimmedGrow(b: Buffer, lost: seq<Row>, y: nat, rows: nat)
    requires y < |b.view| <= rows
    requires y + 1 == |b.view| ==> rows - |b.view| <= |b.scroll|
    ensures FitActive(UntrimmedBuffer(b, lost), y, rows)
         == (UntrimmedBuffer(FitActive(b, y, rows).0, lost), FitActive(b, y, rows).1)
  {
    var u := UntrimmedBuffer(b, lost);
    var at := |b.scroll| - Pull(b, y, rows - |b.view|);
    assert Pull(u, y, rows - |b.view|) == Pull(b, y, rows - |b.view|);
    assert u.scroll[..|lost| + at] == lost + b.scroll[..at];
    assert u.scroll[|lost| + at..] == b.scroll[at..];
  }

  lemma UntrimmedShrink(b: Buffer, lost: seq<Row>, y: nat, rows: nat)
    requires y < |b.view| && 1 <= rows < |b.view|
    ensures FitActive(UntrimmedBuffer(b, lost), y, rows)
         == (UntrimmedBuffer(FitActive(b, y, rows).0, lost), FitActive(b, y, rows).1)
  {
    var d := |b.view| - rows;
    var dropped := Min(|b.view| - 1 - y, d);
    var top := b.view[..|b.view| - dropped][..d - dropped];
    assert (lost + b.scroll) + top == lost + (b.scroll + top);
  }

  lemma UntrimmedFitActive(b: Buffer, lost: seq<Row>, y: nat, rows: nat)
    requires y < |b.view| && rows >= 1
    requires y + 1 == |b.view| ==> rows - |b.view| <= |b.scroll|
    ensures FitActive(UntrimmedBuffer(b, lost), y, rows)
         == (UntrimmedBuffer(FitActive(b, y, rows).0, lost), FitActive(b, y, rows).1)
  {
    if |b.view| <= rows {
      UntrimmedGrow(b, lost, y, rows);
    } else {
      UntrimmedShrink(b, lost, y, rows);
    }
  }

  lemma UntrimmedFit(t: Term, lost: seq<Row>, cols: nat, rows: nat)
    requires Grid(t) && cols >= 2 && rows >= 1
    requires t.alt.None? && t.y + 1 == t.rows ==> rows - t.rows <= |t.main.scroll|
    ensures Fit(Untrimmed(t, lost), cols, rows) == Untrimmed(Fit(t, cols, rows), lost)
  {
    if t.alt.Some? {
      UntrimmedFitIdle(t.main, lost, rows);
    } else {
      UntrimmedFitActive(t.main, lost, t.y, rows);
    }
  }

  lemma UntrimmedDispatch(t: Term, lost: seq<Row>, final: char, params: string, inter: string)
    returns (more: seq<Row>)
    requires Grid(t)
    ensures DispatchTerm(Untrimmed(t, lost), final, params, inter)
         == Untrimmed(DispatchTerm(t, final, params, inter), more)
  {
    more := lost;
    if inter == "" {
      if Private(params) == Some('?') && (final == 'h' || final == 'l') {
        UntrimmedModes(t, lost, Numbers(params), final == 'h');
      } else if Private(params).None? {
        more := UntrimmedCsi(t, lost, final, params);
      }
    }
  }

  lemma UntrimmedReset(t: Term, lost: seq<Row>) returns (more: seq<Row>)
    requires Grid(t)
    ensures ResetTerm(Untrimmed(t, lost)) == Untrimmed(ResetTerm(t), more)
  {
    more := [];
  }

  lemma UntrimmedApply(t: Term, lost: seq<Row>, a: Action) returns (more: seq<Row>)
    requires Grid(t) && Pullable(t, a)
    ensures Apply(Untrimmed(t, lost), a) == Untrimmed(Apply(t, a), more)
  {
    more := lost;
    match a
    case Print(ch) => more := UntrimmedPrint(t, lost, ch, Width(ch));
    case Control(c) => more := UntrimmedControl(t, lost, c);
    case Dispatch(final, params, inter) => more := UntrimmedDispatch(t, lost, final, params, inter);
    case LineFeed => more := UntrimmedLineFeed(t, lost);
    case NextLine => more := UntrimmedNextLine(t, lost);
    case ReverseIndex => UntrimmedReverseIndex(t, lost);
    case Reset => more := UntrimmedReset(t, lost);
    case Resize(cols, rows) => UntrimmedFit(t, lost, Max(2, cols), Max(1, rows));
    case Save => UntrimmedCursor(t, lost);
    case Restore => UntrimmedCursor(t, lost);
    case Nothing =>
  }

  /** Over every run, an ideal screen and the real one agree on everything but the
      rows the real one has trimmed off the top of its scrollback. */
  lemma {:induction false} TrimmedRefinesUntrimmed(t: Term, actions: seq<Action>) returns (lost: seq<Row>)
    requires Grid(t) && AllPullable(t, actions)
    ensures ApplyAll(Untrimmed(t, []), actions) == Untrimmed(ApplyAll(t, actions), lost)
  {
    lost := [];
    if actions != [] {
      var before := actions[..|actions| - 1];
      lost := TrimmedRefinesUntrimmed(t, before);
      lost := UntrimmedApply(ApplyAll(t, before), lost, actions[|actions| - 1]);
    }
  }

  /** Nothing parsed is a resize, so at fixed geometry every stream qualifies. */
  lemma {:induction false} ParsedPullable(t: Term, p: Parser, s: string)
    requires Grid(t)
    ensures AllPullable(t, Actions(p, s))
  {
    if s == "" {
    } else {
      ParsedPullable(t, p, s[..|s| - 1]);
      NeverParsed(Parse(p, s[..|s| - 1]), s[|s| - 1]);
      var before := Actions(p, s[..|s| - 1]);
      assert Actions(p, s)[..|before|] == before;
    }
  }

  // ---- the bound ----------------------------------------------------------

  /** At fixed geometry the scrollback never exceeds its limit and the slack. */
  lemma {:induction false} ScrollbackBounded(sc: Screen, s: string)
    requires Grid(sc.term) && WithinKeep(sc.term)
    ensures WithinKeep(Feed(sc, s).term)
  {
    if s == "" {
    } else {
      ScrollbackBounded(sc, s[..|s| - 1]);
      var q := Feed(sc, s[..|s| - 1]);
      ParsedKeeps(q.term, q.parser, s[|s| - 1]);
    }
  }

  // ---- reading ------------------------------------------------------------

  /** A line start found in the part still held is the ideal screen's, unless it
      was only found because the rest is gone. */
  lemma {:induction false} StartUntrimmed(lost: seq<Row>, rows: seq<Row>, at: nat)
    requires at < |rows|
    ensures var s := LineStart(rows, at);
            !rows[s].wrapped ==> LineStart(lost + rows, |lost| + at) == |lost| + s
  {
    if at > 0 && rows[at].wrapped {
      StartUntrimmed(lost, rows, at - 1);
    }
  }

  lemma {:induction false} EndUntrimmed(lost: seq<Row>, rows: seq<Row>, at: nat)
    requires at < |rows|
    ensures LineEnd(lost + rows, |lost| + at) == |lost| + LineEnd(rows, at)
    decreases |rows| - at
  {
    if at + 1 < |rows| && rows[at + 1].wrapped {
      EndUntrimmed(lost, rows, at + 1);
    }
  }

  lemma {:induction false} JoinUntrimmed(lost: seq<Row>, rows: seq<Row>, lo: nat, hi: nat)
    requires lo <= hi <= |rows|
    ensures Join(lost + rows, |lost| + lo, |lost| + hi) == Join(rows, lo, hi)
  {
    if lo < hi {
      JoinUntrimmed(lost, rows, lo, hi - 1);
    }
  }

  lemma ReadAtUntrimmed(lost: seq<Row>, rows: seq<Row>, at: nat, x: nat, vouched: bool)
    requires at < |rows|
    ensures ReadAt(rows, at, x, vouched).sure ==>
              ReadAt(lost + rows, |lost| + at, x, vouched) == ReadAt(rows, at, x, vouched)
  {
    var s := LineStart(rows, at);
    var e := LineEnd(rows, at);
    if !rows[s].wrapped {
      StartUntrimmed(lost, rows, at);
      EndUntrimmed(lost, rows, at);
      JoinUntrimmed(lost, rows, s, at);
      JoinUntrimmed(lost, rows, at + 1, e + 1);
      AnyTextUntrimmed(lost, rows, e + 1);
      assert (lost + rows)[|lost| + at] == rows[at] && (lost + rows)[|lost| + s] == rows[s];
    }
  }

  lemma ReadUntrimmed(t: Term, lost: seq<Row>)
    requires Grid(t)
    ensures CursorLine(t).sure ==> CursorLine(Untrimmed(t, lost)) == CursorLine(t)
  {
    if t.alt.None? {
      LinesUntrimmed(t, lost);
      ReadAtUntrimmed(lost, Lines(t), Row0(t), t.x, !t.unsure);
    } else {
      assert Lines(Untrimmed(t, lost)) == Lines(t);
    }
  }

  lemma LinesUntrimmed(t: Term, lost: seq<Row>)
    requires Grid(t) && t.alt.None?
    ensures Lines(Untrimmed(t, lost)) == lost + Lines(t) && Row0(Untrimmed(t, lost)) == |lost| + Row0(t)
  {
    assert (lost + t.main.scroll) + t.main.view == lost + (t.main.scroll + t.main.view);
  }

  lemma AnyTextUntrimmed(lost: seq<Row>, rows: seq<Row>, lo: nat)
    ensures AnyText(lost + rows, |lost| + lo) == AnyText(rows, lo)
  {
    if AnyText(rows, lo) {
      var i :| lo <= i < |rows| && !Blank(rows[i]);
      assert (lost + rows)[|lost| + i] == rows[i];
    }
  }

  /** For every stream at fixed geometry, what the trimmed screen is sure of is what
      the one that never trims reads; so an idle prompt on it is one there. */
  lemma SureMeansUntrimmedAgrees(sc: Screen, s: string)
    requires Grid(sc.term)
    ensures
      var held := Feed(sc, s);
      var ideal := Feed(Screen(Untrimmed(sc.term, []), sc.parser), s);
      && ideal.parser == held.parser
      && Active(ideal.term).view == Active(held.term).view
      && ideal.term.(main := held.term.main) == held.term
      && |held.term.main.scroll| <= |ideal.term.main.scroll|
      && held.term.main.scroll == ideal.term.main.scroll[|ideal.term.main.scroll| - |held.term.main.scroll|..]
      && (CursorLine(held.term).sure ==> CursorLine(ideal.term) == CursorLine(held.term))
      && (AtPrompt(held) ==> AtPrompt(ideal))
  {
    ParsedPullable(sc.term, sc.parser, s);
    var lost := TrimmedRefinesUntrimmed(sc.term, Actions(sc.parser, s));
    FeedSplits(sc, s);
    FeedSplits(Screen(Untrimmed(sc.term, []), sc.parser), s);
    ReadUntrimmed(Feed(sc, s).term, lost);
  }
}
