/** No action ever leaves the right half of a wide character without its left. */
module Orphans {
  import opened Arithmetic
  import opened Options
  import opened Cells
  import opened Parser
  import opened Terminal

  ghost predicate SoundRows(rows: seq<Row>) { forall i | 0 <= i < |rows| :: Sound(rows[i].cells) }

  ghost predicate SoundBuffer(b: Buffer) { SoundRows(b.scroll) && SoundRows(b.view) }

  ghost predicate SoundTerm(t: Term) {
    SoundBuffer(t.main) && (t.alt.Some? ==> SoundBuffer(t.alt.value))
  }

  lemma ConcatSound(a: seq<Row>, b: seq<Row>)
    requires SoundRows(a) && SoundRows(b)
    ensures SoundRows(a + b)
  {
  }

  lemma SliceSound(a: seq<Row>, i: nat, j: nat)
    requires SoundRows(a) && i <= j <= |a|
    ensures SoundRows(a[i..j])
  {
  }

  lemma BlankSound(n: nat)
    ensures SoundRows(BlankRows(n))
  {
  }

  lemma InsertRowSound(v: seq<Row>, i: nat)
    requires SoundRows(v) && i <= |v|
    ensures SoundRows(InsertRow(v, i))
  {
  }

  lemma RemoveRowSound(v: seq<Row>, i: nat)
    requires SoundRows(v) && i < |v|
    ensures SoundRows(RemoveRow(v, i))
  {
  }

  lemma FitIdleSound(b: Buffer, rows: nat)
    requires SoundBuffer(b)
    ensures SoundBuffer(FitIdle(b, rows))
  {
    if |b.view| <= rows {
      BlankSound(rows - |b.view|);
      ConcatSound(b.view, BlankRows(rows - |b.view|));
    } else {
      var d := |b.view| - rows;
      SliceSound(b.view, 0, d);
      SliceSound(b.view, d, |b.view|);
      ConcatSound(b.scroll, b.view[..d]);
    }
  }

  lemma FitActiveSound(b: Buffer, y: nat, rows: nat)
    requires SoundBuffer(b) && y < |b.view| && rows >= 1
    ensures SoundBuffer(FitActive(b, y, rows).0)
  {
    if |b.view| <= rows {
      var d := rows - |b.view|;
      var at := |b.scroll| - Pull(b, y, d);
      SliceSound(b.scroll, 0, at);
      SliceSound(b.scroll, at, |b.scroll|);
      ConcatSound(b.scroll[at..], b.view);
      BlankSound(d - Pull(b, y, d));
      ConcatSound(b.scroll[at..] + b.view, BlankRows(d - Pull(b, y, d)));
    } else {
      var d := |b.view| - rows;
      var dropped := Min(|b.view| - 1 - y, d);
      var view := b.view[..|b.view| - dropped];
      SliceSound(b.view, 0, |b.view| - dropped);
      SliceSound(view, 0, d - dropped);
      SliceSound(view, d - dropped, |view|);
      ConcatSound(b.scroll, view[..d - dropped]);
    }
  }

  lemma FitSound(t: Term, cols: nat, rows: nat)
    requires Grid(t) && SoundTerm(t) && cols >= 2 && rows >= 1
    ensures SoundTerm(Fit(t, cols, rows))
  {
    FitIdleSound(t.main, rows);
    FitActiveSound(Active(t), t.y, rows);
  }

  lemma ScrollUpOneSound(t: Term)
    requires Grid(t) && SoundTerm(t)
    ensures SoundTerm(ScrollUpOne(t))
  {
    var b := Active(t);
    if t.top == 0 {
      InsertRowSound(b.view, t.bottom + 1);
      var v := InsertRow(b.view, t.bottom + 1);
      SliceSound(v, 1, |v|);
      ConcatSound(b.scroll, [v[0]]);
      var scroll := b.scroll + [v[0]];
      SliceSound(scroll, |scroll| - |Trimmed(scroll, b.keep)|, |scroll|);
    } else {
      RemoveRowSound(b.view, t.top);
      InsertRowSound(RemoveRow(b.view, t.top), t.bottom);
    }
  }

  lemma {:induction false} ScrollUpSound(t: Term, n: nat)
    requires Grid(t) && SoundTerm(t)
    ensures SoundTerm(ScrollUp(t, n))
  {
    if n > 0 {
      ScrollUpSound(t, n - 1);
      ScrollUpOneSound(ScrollUp(t, n - 1));
    }
  }

  lemma {:induction false} ScrollDownSound(t: Term, n: nat)
    requires Grid(t) && SoundTerm(t)
    ensures SoundTerm(ScrollDown(t, n))
  {
    if n > 0 {
      ScrollDownSound(t, n - 1);
      var s := ScrollDown(t, n - 1);
      RemoveRowSound(Active(s).view, s.bottom);
      InsertRowSound(RemoveRow(Active(s).view, s.bottom), s.top);
    }
  }

  lemma {:induction false} InsertLinesSound(v: seq<Row>, y: nat, bottom: nat, n: nat)
    requires y <= bottom < |v| && SoundRows(v)
    ensures SoundRows(InsertLines(v, y, bottom, n))
  {
    if n > 0 {
      InsertLinesSound(v, y, bottom, n - 1);
      RemoveRowSound(InsertLines(v, y, bottom, n - 1), bottom);
      InsertRowSound(RemoveRow(InsertLines(v, y, bottom, n - 1), bottom), y);
    }
  }

  lemma {:induction false} DeleteLinesSound(v: seq<Row>, y: nat, bottom: nat, n: nat)
    requires y <= bottom < |v| && SoundRows(v)
    ensures SoundRows(DeleteLines(v, y, bottom, n))
  {
    if n > 0 {
      DeleteLinesSound(v, y, bottom, n - 1);
      RemoveRowSound(DeleteLines(v, y, bottom, n - 1), y);
      InsertRowSound(RemoveRow(DeleteLines(v, y, bottom, n - 1), y), bottom);
    }
  }

  lemma DownSound(t: Term)
    requires Grid(t) && SoundTerm(t)
    ensures SoundTerm(Down(t))
  {
    ScrollUpOneSound(t);
  }

  lemma ViewSound(t: Term, view: seq<Row>)
    requires Grid(t) && SoundTerm(t) && |view| == t.rows && SoundRows(view)
    ensures SoundTerm(SetView(t, view))
  {
  }

  lemma CellsSound(t: Term, cells: seq<Cell>)
    requires Grid(t) && SoundTerm(t) && Sound(cells)
    ensures SoundTerm(SetCells(t, cells))
  {
  }

  lemma PlaceSound(t: Term, ch: char, w: nat)
    requires Grid(t) && SoundTerm(t) && 1 <= w <= 2 && t.x + w <= t.cols
    ensures SoundTerm(Place(t, ch, w))
  {
    var cells := Line(t, t.y).cells;
    var room := cells;
    if t.insert && t.x < |cells| {
      InsertSound(cells, t.x, w, t.cols);
      room := InsertCells(cells, t.x, w, t.cols);
    }
    WriteSound(room, t.x, ch, w);
    CellsSound(t, WriteGlyph(room, t.x, ch, w));
  }

  lemma PrintSound(t: Term, ch: char, w: nat)
    requires Grid(t) && SoundTerm(t) && w <= 2
    ensures SoundTerm(PrintTerm(t, ch, w))
  {
    if w == 0 {
      CombineSound(Line(t, t.y).cells, t.x, ch);
      CellsSound(t, Combine(Line(t, t.y).cells, t.x, ch));
    } else {
      DownSound(t);
      PlaceSound(WrapFor(t, w), ch, w);
    }
  }

  lemma EraseLineSound(t: Term, p: nat)
    requires Grid(t) && SoundTerm(t)
    ensures SoundTerm(EraseLine(t, p))
  {
    var cells := Line(t, t.y).cells;
    EraseSound(cells, t.x, Max(t.x, |cells|));
    EraseSound(cells, 0, Max(0, |cells|));
    EraseSound(cells, 0, Column(t) + 1);
    CellsSound(t, EraseFrom(cells, t.x));
    CellsSound(t, EraseFrom(cells, 0));
    CellsSound(t, Erase(cells, 0, Column(t) + 1));
  }

  lemma EraseDisplaySound(t: Term, p: nat)
    requires Grid(t) && SoundTerm(t)
    ensures SoundTerm(EraseDisplay(t, p))
  {
    if p != 3 {
      var cut := CutRow(t, p);
      assert Sound(cut.cells) by {
        EraseSound(Line(t, t.y).cells, t.x, Max(t.x, |Line(t, t.y).cells|));
        EraseSound(Line(t, t.y).cells, 0, Column(t) + 1);
      }
      var view := ErasedView(t, p);
      forall i | 0 <= i < |view|
        ensures Sound(view[i].cells)
      {
        assert view[i] in {BLANK_ROW, cut, Active(t).view[i]};
      }
      ViewSound(t, view);
    }
  }

  lemma EditCellsSound(t: Term, final: char, n: nat)
    requires Grid(t) && SoundTerm(t)
    ensures SoundTerm(EditCells(t, final, n))
  {
    var cells := Line(t, t.y).cells;
    var cx := Column(t);
    if final == '@' && cx < |cells| {
      InsertSound(cells, cx, Min(n, t.cols), t.cols);
    }
    DeleteSound(cells, cx, n);
    EraseSound(cells, cx, cx + n);
    CellsSound(t, Edited(cells, final, cx, n, t.cols));
  }

  lemma EditLinesSound(t: Term, final: char, n: nat)
    requires Grid(t) && SoundTerm(t)
    ensures SoundTerm(EditLines(t, final, n))
  {
    if t.top <= t.y <= t.bottom {
      InsertLinesSound(Active(t).view, t.y, t.bottom, Min(n, t.bottom - t.y + 1));
      DeleteLinesSound(Active(t).view, t.y, t.bottom, Min(n, t.bottom - t.y + 1));
    }
  }

  /** Saving and restoring the cursor touch no row. */
  lemma CursorSound(t: Term)
    requires Grid(t) && SoundTerm(t)
    ensures SoundTerm(SaveTerm(t)) && SoundTerm(RestoreTerm(t))
  {
    assert Active(SaveTerm(t)).scroll == Active(t).scroll && Active(SaveTerm(t)).view == Active(t).view;
  }

  lemma ModeSound(t: Term, p: nat, on: bool)
    requires Grid(t) && SoundTerm(t)
    ensures SoundTerm(Mode(t, p, on))
  {
    CursorSound(t);
    if p == 1049 && !on {
      CursorSound(t.(alt := None));
    }
    BlankSound(t.rows);
  }

  lemma {:induction false} ModesSound(t: Term, ps: seq<nat>, on: bool)
    requires Grid(t) && SoundTerm(t)
    ensures SoundTerm(Modes(t, ps, on))
  {
    if ps != [] {
      ModesSound(t, ps[..|ps| - 1], on);
      ModeSound(Modes(t, ps[..|ps| - 1], on), ps[|ps| - 1], on);
    }
  }

  lemma LineFeedSound(t: Term)
    requires Grid(t) && SoundTerm(t)
    ensures SoundTerm(LineFeedTerm(t))
  {
    DownSound(t.(x := Column(t), unsure := t.unsure && Column(t) != 0));
  }

  lemma ReverseIndexSound(t: Term)
    requires Grid(t) && SoundTerm(t)
    ensures SoundTerm(ReverseIndexTerm(t))
  {
    ScrollDownSound(t.(x := Column(t)), 1);
  }

  lemma ControlSound(t: Term, c: int)
    requires Grid(t) && SoundTerm(t)
    ensures SoundTerm(ControlTerm(t, c))
  {
    if c == 0x85 {
      LineFeedSound(t.(x := 0));
    } else if c == 0x8d {
      ReverseIndexSound(t);
    } else if c == 0x0a || c == 0x0b || c == 0x0c || c == 0x84 {
      LineFeedSound(t);
    }
  }

  lemma MoveSound(t: Term, final: char, ps: seq<nat>)
    requires Grid(t) && SoundTerm(t) && |ps| > 0
    ensures SoundTerm(Move(t, final, ps))
  {
  }

  lemma SettingSound(t: Term, final: char, ps: seq<nat>, bare: bool)
    requires Grid(t) && SoundTerm(t) && |ps| > 0
    ensures SoundTerm(Setting(t, final, ps, bare))
  {
    CursorSound(t);
  }

  lemma CsiSound(t: Term, final: char, params: string)
    requires Grid(t) && SoundTerm(t)
    ensures SoundTerm(CsiTerm(t, final, params))
  {
    var ps := Numbers(params);
    var n := Max(1, ps[0]);
    if final == 'J' {
      EraseDisplaySound(t, ps[0]);
    } else if final == 'K' {
      EraseLineSound(t, ps[0]);
    } else if final in "@PX" {
      EditCellsSound(t, final, n);
    } else if final == 'L' || final == 'M' {
      EditLinesSound(t, final, n);
    } else if final == 'S' {
      ScrollUpSound(t, Min(n, t.rows));
    } else if final == 'T' {
      ScrollDownSound(t, Min(n, t.rows));
    } else if final in "rsuhl" {
      SettingSound(t, final, ps, params == "");
    } else {
      MoveSound(t, final, ps);
    }
  }

  lemma DispatchSound(t: Term, final: char, params: string, inter: string)
    requires Grid(t) && SoundTerm(t)
    ensures SoundTerm(DispatchTerm(t, final, params, inter))
  {
    ModesSound(t, Numbers(params), final == 'h');
    CsiSound(t, final, params);
  }

  lemma ResetSound(t: Term)
    requires Grid(t) && SoundTerm(t)
    ensures SoundTerm(ResetTerm(t))
  {
    BlankSound(t.rows);
  }

  lemma ApplySound(t: Term, a: Action)
    requires Grid(t) && SoundTerm(t)
    ensures SoundTerm(Apply(t, a))
  {
    match a
    case Print(ch) => PrintSound(t, ch, Width(ch));
    case Control(c) => ControlSound(t, c);
    case Dispatch(final, params, inter) => DispatchSound(t, final, params, inter);
    case LineFeed => LineFeedSound(t);
    case NextLine => LineFeedSound(t.(x := 0));
    case ReverseIndex => ReverseIndexSound(t);
    case Reset => ResetSound(t);
    case Resize(cols, rows) => FitSound(t, Max(2, cols), Max(1, rows));
    case Save => CursorSound(t);
    case Restore => CursorSound(t);
    case Nothing =>
  }

  /** Over every run of actions from a sound screen, every row held is sound. */
  lemma {:induction false} NoOrphanEver(t: Term, actions: seq<Action>)
    requires Grid(t) && SoundTerm(t)
    ensures SoundTerm(ApplyAll(t, actions))
  {
    if actions == [] {
    } else {
      var before := actions[..|actions| - 1];
      NoOrphanEver(t, before);
      ApplySound(ApplyAll(t, before), actions[|actions| - 1]);
    }
  }
}
