/** Line feeds, tabs, margins, saved cursors and modes, in terms of what is sent; the
    alternate screen and back; and what draws nothing. */
module Controls {
  import opened Arithmetic
  import opened Options
  import opened Decimals
  import opened Cells
  import opened Parser
  import opened Terminal
  import opened Reading
  import opened Streams
  import opened Motions
  import opened Edits
  import Texts

  // ---- one row down, one row up -------------------------------------------------

  /** VT, FF, IND and ESC D are all a line feed. */
  lemma SameFeeds(sc: Screen)
    requires AtRest(sc)
    ensures var lf := Feed(sc, [LF]);
            && Feed(sc, [0x0b as char]) == Feed(sc, [0x0c as char]) == lf
            && Feed(sc, [0x84 as char]) == Feed(sc, [ESC, 'D']) == lf
  {
    hide LineFeedTerm, Feed;
    FeedControl(sc, 0x0a);
    FeedControl(sc, 0x0b);
    FeedControl(sc, 0x0c);
    FeedControl(sc, 0x84);
    FeedEscape(sc, 'D');
  }

  /** NEL and ESC E are a return and a line feed, ESC M is RI. */
  lemma SameReturns(sc: Screen)
    requires AtRest(sc)
    ensures Feed(sc, [0x85 as char]) == Feed(sc, [ESC, 'E']) == Feed(sc, [CR] + [LF])
    ensures Feed(sc, [ESC, 'M']) == Feed(sc, [0x8d as char])
  {
    hide LineFeedTerm, ReverseIndexTerm, Feed;
    FeedControl(sc, 0x85);
    FeedControl(sc, 0x8d);
    FeedEscape(sc, 'E');
    FeedEscape(sc, 'M');
    FeedCr(sc);
    FeedConcat(sc, [CR], [LF]);
    FeedControl(Feed(sc, [CR]), 0x0a);
  }

  /** A line feed goes down a row and cancels the deferred wrap; at the bottom of the region it
      scrolls that up by one instead, and on the screen's last row below the region it stays.
      From the first column it begins a line whose contents are known. */
  lemma FeedsLine(sc: Screen)
    requires AtRest(sc)
    ensures var t, r := sc.term, Feed(sc, [LF]).term;
            var s := t.(x := Min(t.x, t.cols - 1), unsure := t.unsure && t.x != 0);
            if t.y == t.bottom then UpBy(s, r, 1) else r == s.(y := Min(t.rows - 1, t.y + 1))
  {
    hide UpBy, LineFeedTerm, Feed;
    FeedControl(sc, 0x0a);
    LineFed(sc.term);
  }

  lemma LineFed(t: Term)
    requires Grid(t)
    ensures var r, s := LineFeedTerm(t), t.(x := Min(t.x, t.cols - 1), unsure := t.unsure && t.x != 0);
            if t.y == t.bottom then UpBy(s, r, 1) else r == s.(y := Min(t.rows - 1, t.y + 1))
  {
    hide UpBy, ScrollUpOne;
    var s := Fed(t);
    ScrolledUp(s, 1);
    assert ScrollUp(s, 0) == s;
  }

  /** RI goes up a row, or at the top of the region scrolls that down by one. */
  lemma FeedsBack(sc: Screen)
    requires AtRest(sc)
    ensures var t, r := sc.term, Feed(sc, [ESC, 'M']).term;
            var s := t.(x := Min(t.x, t.cols - 1));
            if t.y == t.top then DownwardBy(s, r, 1) else r == s.(y := Max(0, t.y - 1))
  {
    hide DownwardBy, ReverseIndexTerm, Feed, ScrollDown;
    FeedEscape(sc, 'M');
    assert Feed(sc, [ESC, 'M']).term == ReverseIndexTerm(sc.term);
    LineBack(sc.term);
  }

  lemma LineBack(t: Term)
    requires Grid(t)
    ensures var r, s := ReverseIndexTerm(t), t.(x := Min(t.x, t.cols - 1));
            if t.y == t.top then DownwardBy(s, r, 1) else r == s.(y := Max(0, t.y - 1))
  {
    hide DownwardBy, ScrollDown;
    ScrolledDown(t.(x := Column(t)), 1);
  }

  /** A tab goes to the next column that is a multiple of eight, or to the last. */
  lemma Tabs(sc: Screen)
    requires AtRest(sc)
    ensures var t, r := sc.term, Feed(sc, [0x09 as char]).term;
            && r == t.(x := r.x)
            && (t.x < t.cols - 1 ==> t.x < r.x <= t.x + 8 && (r.x % 8 == 0 || r.x == t.cols - 1))
            && (t.x >= t.cols - 1 ==> r.x == t.cols - 1)
  {
    FeedControl(sc, 0x09);
  }

  // ---- margins ------------------------------------------------------------------

  lemma SettingFinal(t: Term, final: char, params: string)
    requires Grid(t) && (final == 'r' || final == 's' || final == 'u' || final == 'h' || final == 'l')
    ensures CsiTerm(t, final, params) == Setting(t, final, Numbers(params), params == "")
  {
    hide Numbers, EraseDisplay, EraseLine, EditCells, EditLines, ScrollUp, ScrollDown, Move, Setting;
  }

  /** DECSTBM: two rows in order are the new margins, and the cursor goes to the first column
      of the screen's or, in origin mode, the region's first row. Anything else does nothing. */
  lemma Margins(sc: Screen, first: nat, last: nat)
    requires AtRest(sc) && Short(first) && Short(last) && 1 <= first && 1 <= last
    ensures var t, b, r := sc.term, Min(sc.term.rows, last), Feed(sc, Csi2(first, last, 'r')).term;
            && (first >= b ==> r == t)
            && (first < b ==>
                  r == t.(top := first - 1, bottom := b - 1, x := 0, y := if t.origin then first - 1 else 0))
  {
    hide Csi2, Feed, Numbers, CsiTerm;
    FeedCsi2(sc, first, last, 'r');
    SettingFinal(sc.term, 'r', Decimal(first) + ";" + Decimal(last));
  }

  /** With no numbers the whole screen is the region again. */
  lemma NoMargins(sc: Screen)
    requires AtRest(sc) && sc.term.rows > 1
    ensures Feed(sc, Sequence("", 'r')).term == sc.term.(top := 0, bottom := sc.term.rows - 1, x := 0, y := 0)
  {
    hide Sequence, Feed, Numbers, CsiTerm;
    NoNumber();
    FeedSequence(sc, "", 'r');
    SettingFinal(sc.term, 'r', "");
  }

  // ---- the saved cursor -------------------------------------------------------------

  /** ESC 7 is CSI s and ESC 8 is CSI u. */
  lemma SameSaves(sc: Screen)
    requires AtRest(sc)
    ensures Feed(sc, [ESC, '7']).term == Feed(sc, Sequence("", 's')).term
    ensures Feed(sc, [ESC, '8']).term == Feed(sc, Sequence("", 'u')).term
  {
    hide Sequence, Feed, Numbers, CsiTerm, SaveTerm, RestoreTerm;
    NoNumber();
    FeedEscape(sc, '7');
    FeedEscape(sc, '8');
    FeedSequence(sc, "", 's');
    FeedSequence(sc, "", 'u');
    SettingFinal(sc.term, 's', "");
    SettingFinal(sc.term, 'u', "");
  }

  /** Saved, then restored once something else has been done that neither saves, scrolls the
      main screen nor changes buffers: row, column and origin mode are those saved. */
  lemma SavedComesBack(sc: Screen, s: string)
    requires AtRest(sc)
    requires var q := Feed(Feed(sc, [ESC, '7']), s);
             && q.parser.state == Ground && q.term.alt.Some? == sc.term.alt.Some?
             && q.term.moves == sc.term.moves && q.term.rows == sc.term.rows && q.term.cols == sc.term.cols
             && Active(q.term).saved == Active(Feed(sc, [ESC, '7']).term).saved
    ensures var q, r := Feed(Feed(sc, [ESC, '7']), s).term, Feed(sc, [ESC, '7'] + s + [ESC, '8']).term;
            r == q.(x := Min(sc.term.x, sc.term.cols - 1), y := sc.term.y, origin := sc.term.origin)
  {
    hide Feed, SaveTerm, RestoreTerm, AfterEscape;
    Escape7And8(sc.parser);
    FeedEscape(sc, '7');
    FeedConcat(sc, [ESC, '7'], s);
    FeedConcat(sc, [ESC, '7'] + s, [ESC, '8']);
    FeedEscape(Feed(sc, [ESC, '7'] + s), '8');
    Escape7And8(Feed(sc, [ESC, '7'] + s).parser);
    RestoresSaved(sc.term, Feed(Feed(sc, [ESC, '7']), s).term);
  }

  lemma RestoresSaved(t: Term, q: Term)
    requires Grid(t) && Grid(q) && q.alt.Some? == t.alt.Some? && q.moves == t.moves
    requires q.rows == t.rows && q.cols == t.cols && Active(q).saved == Active(SaveTerm(t)).saved
    ensures RestoreTerm(q) == q.(x := Min(t.x, t.cols - 1), y := t.y, origin := t.origin)
  {}

  // ---- modes --------------------------------------------------------------------

  function Private1(p: nat, final: char): string { Sequence("?" + Decimal(p), final) }

  lemma PrivateNumber(p: nat)
    requires Short(p)
    ensures var s := "?" + Decimal(p); Numbers(s) == [p] && Private(s) == Some('?') && IsParams(s)
  {
    hide Texts.Split, Decimal, ParseInt;
    DecimalReads(p);
    Texts.SplitFirst(Decimal(p), "", ';');
    assert ("?" + Decimal(p))[1..] == Decimal(p);
  }

  lemma FeedMode(sc: Screen, p: nat, on: bool)
    requires AtRest(sc) && Short(p)
    ensures var r := Feed(sc, Private1(p, if on then 'h' else 'l'));
            r.term == Mode(sc.term, p, on) && AtRest(r) && r.parser.context == sc.parser.context
  {
    hide Mode, Feed, Sequence, Numbers, Private, Decimal, IsParams;
    PrivateNumber(p);
    var final := if on then 'h' else 'l';
    FeedSequence(sc, "?" + Decimal(p), final);
    OneMode(sc.term, p, on);
  }

  lemma OneMode(t: Term, p: nat, on: bool)
    requires Grid(t)
    ensures Modes(t, [p], on) == Mode(t, p, on)
  {
    hide Mode;
    assert [p][..0] == [];
    assert Modes(t, [], on) == t;
  }

  /** DECAWM and DECOM: set by h, reset by l; the second also homes the cursor. */
  lemma WrapAndOrigin(sc: Screen, on: bool)
    requires AtRest(sc)
    ensures var t, final := sc.term, if on then 'h' else 'l';
            && Feed(sc, Private1(7, final)).term == t.(wrap := on)
            && Feed(sc, Private1(6, final)).term == t.(origin := on, x := 0, y := if on then t.top else 0)
  {
    hide Feed, Private1;
    assert Short(7) && Short(6);
    FeedMode(sc, 7, on);
    FeedMode(sc, 6, on);
  }

  /** Past the last column a narrow character wraps to the first of the next row, marked as
      part of the same line. */
  lemma WrapsRound(sc: Screen, ch: char)
    requires AtRest(sc) && Narrow(ch) && !sc.term.insert && sc.term.wrap && sc.term.x == sc.term.cols
    requires sc.term.y != sc.term.bottom && sc.term.y < sc.term.rows - 1
    ensures var t, r := sc.term, Feed(sc, [ch]).term;
            && r == WithActive(t, Active(t).(view := Active(r).view)).(x := 1, y := t.y + 1)
            && (forall i | 0 <= i < t.rows && i != t.y + 1 :: Line(r, i) == Line(t, i))
            && Line(r, t.y + 1).wrapped && WrittenAt(Line(t, t.y + 1).cells, Line(r, t.y + 1).cells, 0, ch)
  {
    hide WriteGlyph, WrittenAt, Feed;
    FeedNarrow(sc, ch);
    NarrowWritten(Line(sc.term, sc.term.y + 1).cells, 0, ch);
  }

  /** With autowrap off it is written over the last column. */
  lemma StaysAtTheEdge(sc: Screen, ch: char)
    requires AtRest(sc) && Narrow(ch) && !sc.term.insert && !sc.term.wrap && sc.term.x == sc.term.cols
    ensures var t, r := sc.term, Feed(sc, [ch]).term;
            && RowEdited(t, r, t.cols)
            && WrittenAt(Line(t, t.y).cells, Line(r, t.y).cells, t.cols - 1, ch)
  {
    hide WriteGlyph, WrittenAt, Feed;
    FeedNarrow(sc, ch);
    NarrowWritten(Line(sc.term, sc.term.y).cells, sc.term.cols - 1, ch);
  }

  /** IRM: printing then pushes the rest of the row right first, just as ICH does. */
  lemma InsertIsPush(sc: Screen, ch: char)
    requires AtRest(sc) && Narrow(ch) && sc.term.insert && sc.term.x < sc.term.cols
    ensures var plain := sc.(term := sc.term.(insert := false));
            Feed(plain, Csi1(1, '@') + [ch]).term.(insert := true) == Feed(sc, [ch]).term
  {
    hide EditCells, PrintTerm, Csi1, Feed;
    var plain := sc.(term := sc.term.(insert := false));
    assert Short(1);
    EditFinal(plain, 1, '@');
    FeedCsi1(plain, 1, '@');
    FeedConcat(plain, Csi1(1, '@'), [ch]);
    FeedNarrow(Feed(plain, Csi1(1, '@')), ch);
    FeedNarrow(sc, ch);
    PushedPrint(sc.term, ch);
  }

  lemma PushedPrint(t: Term, ch: char)
    requires Grid(t) && t.insert && t.x < t.cols
    ensures PrintTerm(EditCells(t.(insert := false), '@', 1), ch, 1).(insert := true) == PrintTerm(t, ch, 1)
  {
    hide InsertCells, WriteGlyph, SetCells, EditCells, PrintTerm;
    var cells := Line(t, t.y).cells;
    var pushed := if t.x < |cells| then InsertCells(cells, t.x, 1, t.cols) else cells;
    var plain := t.(insert := false);
    PushesPlain(plain, pushed);
    CellsOnly(plain, pushed, t.x);
    PlacedNarrow(SetCells(plain, pushed).(x := t.x), ch);
    SetTwice(plain, pushed, WriteGlyph(pushed, t.x, ch, 1));
    InsertedNarrow(t, pushed, ch);
  }

  lemma PushesPlain(t: Term, pushed: seq<Cell>)
    requires Grid(t) && t.x < t.cols
    requires var cells := Line(t, t.y).cells;
             pushed == if t.x < |cells| then InsertCells(cells, t.x, 1, t.cols) else cells
    ensures EditCells(t, '@', 1) == SetCells(t, pushed).(x := t.x)
  {
    hide SetCells, InsertCells;
  }

  lemma InsertedNarrow(t: Term, pushed: seq<Cell>, ch: char)
    requires Grid(t) && t.insert && t.x < t.cols
    requires var cells := Line(t, t.y).cells;
             pushed == if t.x < |cells| then InsertCells(cells, t.x, 1, t.cols) else cells
    ensures PrintTerm(t, ch, 1) == SetCells(t, WriteGlyph(pushed, t.x, ch, 1)).(x := t.x + 1)
  {
    hide SetCells, InsertCells, WriteGlyph;
  }

  lemma SetTwice(t: Term, a: seq<Cell>, b: seq<Cell>)
    requires Grid(t)
    ensures SetCells(SetCells(t, a).(x := t.x), b) == SetCells(t, b)
    ensures SetCells(t, b).(insert := true) == SetCells(t.(insert := true), b)
  {
    var v := Active(t).view;
    assert v[t.y := v[t.y].(cells := a)][t.y := v[t.y].(cells := b)] == v[t.y := v[t.y].(cells := b)];
  }

  lemma InsertMode(sc: Screen, on: bool)
    requires AtRest(sc)
    ensures Feed(sc, Csi1(4, if on then 'h' else 'l')).term == sc.term.(insert := on)
  {
    hide Csi1, Feed, Numbers, CsiTerm;
    assert Short(4);
    FeedCsi1(sc, 4, if on then 'h' else 'l');
    SettingFinal(sc.term, if on then 'h' else 'l', Decimal(4));
  }

  // ---- resets -------------------------------------------------------------------

  /** Nothing on the screen or behind it, the cursor at home, every mode at its default. */
  ghost predicate Pristine(t: Term) {
    && t.alt.None? && t.x == 0 && t.y == 0 && t.top == 0 && t.bottom == t.rows - 1
    && t.wrap && !t.origin && !t.insert && !t.unsure && t.main.scroll == [] && t.main.saved.None?
    && |t.main.view| == t.rows && forall i | 0 <= i < t.rows :: t.main.view[i] == BLANK_ROW
  }

  /** RIS: as new, at the same size; what the shell said stands. A new screen is no different. */
  lemma FullReset(sc: Screen)
    requires AtRest(sc)
    ensures var t, r := sc.term, Feed(sc, [ESC, 'c']);
            && r.parser == sc.parser && Pristine(r.term)
            && r.term.cols == t.cols && r.term.rows == t.rows && r.term.main.keep == t.main.keep
            && r.term.moves == t.moves
    ensures Pristine(InitTerm(sc.term.cols, sc.term.rows, sc.term.main.keep))
  {
    hide Feed;
    FeedEscape(sc, 'c');
  }

  /** DECSTR: the whole screen the region again, the modes at their defaults, the saved cursor
      of the screen in use forgotten; cursor and contents stay. */
  lemma SoftResets(sc: Screen)
    requires AtRest(sc)
    ensures var t, r := sc.term, Feed(sc, [ESC, '[', '!', 'p']).term;
            && r == WithActive(t, Active(t).(saved := None)).(top := 0, bottom := t.rows - 1,
                                                              wrap := true, origin := false, insert := false)
  {
    hide Feed, SoftReset;
    FeedInter(sc, "", "!", 'p');
    assert [ESC, '['] + "" + "!" + ['p'] == [ESC, '[', '!', 'p'];
    SoftResetTerm(sc.term);
  }

  lemma SoftResetTerm(t: Term)
    requires Grid(t)
    ensures SoftReset(t) == WithActive(t, Active(t).(saved := None))
                            .(top := 0, bottom := t.rows - 1, wrap := true, origin := false, insert := false)
  {}

  /** A resize makes the whole screen the region, keeps every mode and saved cursor, and the
      cursor's column as far as the new width goes. */
  lemma Resized(t: Term, cols: nat, rows: nat)
    requires Grid(t) && cols >= 2 && rows >= 1 && !(cols == t.cols && rows == t.rows)
    ensures var r := Fit(t, cols, rows);
            && r.cols == cols && r.rows == rows && r.top == 0 && r.bottom == rows - 1 && r.x == Min(t.x, cols)
            && r.wrap == t.wrap && r.origin == t.origin && r.insert == t.insert && r.unsure == t.unsure
            && r.alt.Some? == t.alt.Some? && r.main.saved == t.main.saved && Active(r).saved == Active(t).saved
            && r.moves == t.moves + 1
  {}

  /** The main screen, while another is up: resized, it loses no row and gains only blank ones
      at the bottom; what no longer fits goes off the top, into the scrollback. */
  lemma IdleResized(t: Term, cols: nat, rows: nat)
    requires Grid(t) && t.alt.Some? && cols >= 2 && rows >= 1
    ensures var was, now := t.main, Fit(t, cols, rows).main;
            now.scroll + now.view == was.scroll + was.view + BlankRows(Max(0, rows - t.rows)) && |now.view| == rows
  {
    hide FitIdle, BlankRows;
    IdleKeepsRows(t.main, rows);
    NoBlankRows();
  }

  lemma NoBlankRows()
    ensures BlankRows(0) == []
  {}

  lemma IdleKeepsRows(b: Buffer, rows: nat)
    ensures var r := FitIdle(b, rows);
            && |r.view| == rows
            && r.scroll + r.view == b.scroll + b.view + (if rows > |b.view| then BlankRows(rows - |b.view|) else [])
  {
    hide BlankRows;
    if |b.view| > rows {
      assert b.view == b.view[..|b.view| - rows] + b.view[|b.view| - rows..];
    }
  }

  /** The size a page reports, as a 32-bit number: 0 means the default, and none is too small. */
  lemma SizedSays(v: int, dflt: nat, lo: nat)
    ensures 0 < v < 0x8000_0000 ==> Sized(v, dflt, lo) == Max(lo, v)
    ensures -0x8000_0000 <= v < 0 ==> Sized(v, dflt, lo) == lo
    ensures Sized(0, dflt, lo) == Max(lo, dflt)
    ensures Sized(v + 0x1_0000_0000, dflt, lo) == Sized(v, dflt, lo)
  {}

  // ---- what does nothing ------------------------------------------------------------

  lemma {:induction false} FeedInters(sc: Screen, inter: string)
    requires Grid(sc.term) && sc.parser.state == Csi && sc.parser.inter == "" && |inter| <= 8
    requires forall i | 0 <= i < |inter| :: 0x20 <= inter[i] as int <= 0x2f
    ensures Feed(sc, inter) == sc.(parser := sc.parser.(inter := inter))
  {
    if inter == "" {
      FeedNothing(sc);
    } else {
      var front, ch := inter[..|inter| - 1], inter[|inter| - 1];
      FeedInters(sc, front);
      var p := sc.parser.(inter := front);
      assert Step(p, ch) == (p.(inter := front + [ch]), Nothing);
      assert front + [ch] == inter;
    }
  }

  lemma FeedInter(sc: Screen, params: string, inter: string, final: char)
    requires AtRest(sc) && IsParams(params) && |inter| <= 8 && 0x40 <= final as int <= 0x7e
    requires forall i | 0 <= i < |inter| :: 0x20 <= inter[i] as int <= 0x2f
    ensures var r := Feed(sc, [ESC, '['] + params + inter + [final]);
            AtRest(r) && r.term == DispatchTerm(sc.term, final, params, inter)
  {
    hide DispatchTerm, StepScreen, Feed;
    FeedTwo(sc, ESC, '[');
    OpensSequence(sc);
    var open := sc.(parser := StartCsi(sc.parser));
    assert "" + params == params;
    FeedParams(open, params);
    FeedConcat(sc, [ESC, '['], params);
    var full := open.(parser := open.parser.(params := params));
    FeedInters(full, inter);
    FeedConcat(sc, [ESC, '['] + params, inter);
    var all := full.(parser := full.parser.(inter := inter));
    FeedOne(all, final);
    InterEnds(all, final);
    FeedConcat(sc, [ESC, '['] + params + inter, [final]);
  }

  lemma InterEnds(sc: Screen, final: char)
    requires Grid(sc.term) && sc.parser.state == Csi && 0x40 <= final as int <= 0x7e
    ensures StepScreen(sc, final)
         == Screen(DispatchTerm(sc.term, final, sc.parser.params, sc.parser.inter), sc.parser.(state := Ground))
  {
    hide DispatchTerm;
    assert Step(sc.parser, final)
        == (sc.parser.(state := Ground), Dispatch(final, sc.parser.params, sc.parser.inter));
  }

  /** With intermediates nothing is done but the soft reset; with a private mark, nothing but
      setting and resetting modes. */
  lemma MarkedDoesNothing(sc: Screen, params: string, inter: string, final: char)
    requires AtRest(sc) && IsParams(params) && |inter| <= 8 && 0x40 <= final as int <= 0x7e
    requires forall i | 0 <= i < |inter| :: 0x20 <= inter[i] as int <= 0x2f
    requires (inter != "" && !(inter == "!" && final == 'p'))
             || (inter == "" && params != "" && params[0] in "<=>?" && !(params[0] == '?' && final in "hl"))
    ensures Feed(sc, [ESC, '['] + params + inter + [final]).term == sc.term
  {
    hide Feed, SoftReset, CsiTerm, Modes;
    FeedInter(sc, params, inter, final);
    if inter == "" {
      assert Private(params) == Some(params[0]);
      if params[0] == '?' {
        assert final != 'h' && final != 'l' by {
          assert 'h' in "hl" && 'l' in "hl";
        }
      }
    }
  }

  predicate IsKnown(final: char) {
    IsMotion(final) || final == 'J' || final == 'K' || final == '@' || final == 'P' || final == 'X' || final == 'L'
    || final == 'M' || final == 'S' || final == 'T' || final == 'r' || final == 's' || final == 'u' || final == 'h'
    || final == 'l'
  }

  /** Colours and whatever else is not known move nothing and draw nothing. */
  lemma OthersDoNothing(sc: Screen, params: string, final: char)
    requires AtRest(sc) && IsParams(params) && Private(params).None? && 0x40 <= final as int <= 0x7e
    requires !IsKnown(final)
    ensures Feed(sc, Sequence(params, final)).term == sc.term
  {
    hide Feed, Sequence, Numbers, EraseDisplay, EraseLine, EditCells, EditLines, Setting, ScrollUp, ScrollDown;
    FeedSequence(sc, params, final);
    assert Move(sc.term, final, Numbers(params)) == sc.term;
  }

  /** SD of more than one number is something else, and is not done. */
  lemma TrackingIsNotScrolling(sc: Screen, a: nat, b: nat)
    requires AtRest(sc) && Short(a) && Short(b)
    ensures Feed(sc, Csi2(a, b, 'T')).term == sc.term
  {
    hide Feed, Csi2, Numbers, EraseDisplay, EraseLine, EditCells, EditLines, Setting, ScrollUp, ScrollDown, Move;
    FeedCsi2(sc, a, b, 'T');
  }

  // ---- one byte or two ------------------------------------------------------------------

  /** The one-byte C1 controls open just what their ESC forms do. */
  lemma OneByteForms(sc: Screen)
    requires AtRest(sc)
    ensures Feed(sc, [0x9b as char]) == Feed(sc, [ESC, '[']) && Feed(sc, [0x9d as char]) == Feed(sc, [ESC, ']'])
    ensures Feed(sc, [0x90 as char]) == Feed(sc, [ESC, 'P']) && Feed(sc, [0x98 as char]) == Feed(sc, [ESC, 'X'])
    ensures Feed(sc, [0x9e as char]) == Feed(sc, [ESC, '^']) && Feed(sc, [0x9f as char]) == Feed(sc, [ESC, '_'])
  {
    hide Feed;
    SameForm(sc, 0x9b, '[');
    SameForm(sc, 0x9d, ']');
    SameForm(sc, 0x90, 'P');
    SameForm(sc, 0x98, 'X');
    SameForm(sc, 0x9e, '^');
    SameForm(sc, 0x9f, '_');
  }

  lemma SameForm(sc: Screen, c: int, ch: char)
    requires AtRest(sc)
    requires (c == 0x9b && ch == '[') || (c == 0x9d && ch == ']') || (c == 0x90 && ch == 'P')
             || (c == 0x98 && ch == 'X') || (c == 0x9e && ch == '^') || (c == 0x9f && ch == '_')
    ensures Feed(sc, [c as char]) == Feed(sc, [ESC, ch])
  {
    hide Feed;
    FeedOne(sc, c as char);
    FeedTwo(sc, ESC, ch);
    var p := sc.parser.(state := Escape);
    assert Step(sc.parser, ESC) == (p, Nothing);
    assert Step(p, ch) == Step(sc.parser, c as char);
  }

  /** A character set is designated without anything being drawn. */
  lemma Designates(sc: Screen, mark: char, final: char)
    requires AtRest(sc) && 0x20 <= mark as int <= 0x2f && 0x30 <= final as int < 0x7f
    ensures Feed(sc, [ESC, mark] + [final]) == sc
  {
    hide Feed;
    FeedTwo(sc, ESC, mark);
    var p, q := sc.parser.(state := Escape), sc.parser.(state := EscapeInter);
    assert Step(sc.parser, ESC) == (p, Nothing);
    assert Step(p, mark) == (q, Nothing);
    FeedOne(sc.(parser := q), final);
    assert Step(q, final) == (sc.parser, Nothing);
    FeedConcat(sc, [ESC, mark], [final]);
  }

  // ---- inside a sequence ---------------------------------------------------------------

  /** A control sent in the middle of a sequence acts at once, and the sequence goes on. */
  lemma ControlsActInside(sc: Screen, a: string, c: int, b: string, final: char)
    requires AtRest(sc) && IsParams(a + b) && 8 <= c <= 13 && 0x40 <= final as int <= 0x7e
    ensures Feed(sc, [ESC, '['] + a + [c as char] + b + [final]).term
         == Feed(Feed(sc, [c as char]), Sequence(a + b, final)).term
  {
    hide Feed, StepScreen, DispatchTerm, ControlTerm, Sequence;
    FeedControl(sc, c);
    FeedSequence(Feed(sc, [c as char]), a + b, final);
    FeedTwo(sc, ESC, '[');
    OpensSequence(sc);
    var open := sc.(parser := StartCsi(sc.parser));
    PartParams(a, b);
    assert "" + a == a;
    FeedParams(open, a);
    FeedConcat(sc, [ESC, '['], a);
    var part := open.(parser := open.parser.(params := a));
    FeedOne(part, c as char);
    ActsInside(part, c);
    FeedConcat(sc, [ESC, '['] + a, [c as char]);
    var acted := part.(term := ControlTerm(sc.term, c));
    FeedParams(acted, b);
    FeedConcat(sc, [ESC, '['] + a + [c as char], b);
    var full := acted.(parser := acted.parser.(params := a + b));
    FeedOne(full, final);
    EndsSequence(full, final);
    FeedConcat(sc, [ESC, '['] + a + [c as char] + b, [final]);
  }

  lemma PartParams(a: string, b: string)
    requires IsParams(a + b)
    ensures IsParams(a)
  {
    assert forall i | 0 <= i < |a| :: (a + b)[i] == a[i];
  }

  lemma ActsInside(sc: Screen, c: int)
    requires Grid(sc.term) && sc.parser.state == Csi && 8 <= c <= 13
    ensures StepScreen(sc, c as char) == sc.(term := ControlTerm(sc.term, c))
  {
    hide ControlTerm;
    assert Step(sc.parser, c as char) == (sc.parser, Control(c));
  }

  /** CAN or SUB abandons it, and nothing is done. */
  lemma Abandoned(sc: Screen, params: string, c: int)
    requires AtRest(sc) && IsParams(params) && (c == 0x18 || c == 0x1a)
    ensures var r := Feed(sc, [ESC, '['] + params + [c as char]); AtRest(r) && r.term == sc.term
  {
    hide Feed, StepScreen;
    FeedTwo(sc, ESC, '[');
    OpensSequence(sc);
    var open := sc.(parser := StartCsi(sc.parser));
    assert "" + params == params;
    FeedParams(open, params);
    FeedConcat(sc, [ESC, '['], params);
    var full := open.(parser := open.parser.(params := params));
    FeedOne(full, c as char);
    StepsOut(full, c);
    FeedConcat(sc, [ESC, '['] + params, [c as char]);
  }

  lemma StepsOut(sc: Screen, c: int)
    requires Grid(sc.term) && sc.parser.state == Csi && (c == 0x18 || c == 0x1a)
    ensures StepScreen(sc, c as char) == sc.(parser := sc.parser.(state := Ground))
  {
    assert Step(sc.parser, c as char) == (sc.parser.(state := Ground), Nothing);
  }

  // ---- the alternate screen ---------------------------------------------------------

  /** 47 and 1047 put up a blank screen, unless it is up already, and take it down again. */
  lemma AltScreen(sc: Screen, p: nat)
    requires AtRest(sc) && (p == 47 || p == 1047)
    ensures var t := sc.term;
            && Feed(sc, Private1(p, 'h')).term
               == (if t.alt.Some? then t else t.(alt := Some(Buffer([], BlankRows(t.rows), Some(0), None))))
            && Feed(sc, Private1(p, 'l')).term == t.(alt := None)
  {
    hide Feed, Private1;
    assert Short(47) && Short(1047);
    FeedMode(sc, p, true);
    FeedMode(sc, p, false);
  }

  /** 1049 is a saved cursor and 1047 on the way in, 1047 and a restored one on the way out. */
  lemma AltScreenAndCursor(sc: Screen)
    requires AtRest(sc)
    ensures Feed(sc, Private1(1049, 'h')).term == Feed(Feed(sc, [ESC, '7']), Private1(1047, 'h')).term
    ensures Feed(sc, Private1(1049, 'l')).term == Feed(Feed(sc, Private1(1047, 'l')), [ESC, '8']).term
  {
    hide Feed, Private1, Mode, SaveTerm, RestoreTerm, Short, AfterEscape;
    AltShort();
    Escape7And8(sc.parser);
    FeedMode(sc, 1049, true);
    FeedMode(sc, 1049, false);
    FeedEscape(sc, '7');
    FeedMode(Feed(sc, [ESC, '7']), 1047, true);
    FeedMode(sc, 1047, false);
    FeedEscape(Feed(sc, Private1(1047, 'l')), '8');
    Escape7And8(Feed(sc, Private1(1047, 'l')).parser);
    ModeInTwo(sc.term);
  }

  lemma AltShort()
    ensures Short(1047) && Short(1049)
  {}

  lemma Escape7And8(p: Parser)
    ensures AfterEscape(p, '7').1 == Save && AfterEscape(p, '8').1 == Restore
  {}

  lemma ModeInTwo(t: Term)
    requires Grid(t)
    ensures Mode(t, 1049, true) == Mode(SaveTerm(t), 1047, true)
    ensures Mode(t, 1049, false) == RestoreTerm(Mode(t, 1047, false))
  {
    hide SaveTerm, RestoreTerm;
  }

  function Private2(p: nat, q: nat, final: char): string { Sequence("?" + (Decimal(p) + ";" + Decimal(q)), final) }

  /** Two modes in one sequence are set, or reset, in turn. */
  lemma ModesInTurn(sc: Screen, p: nat, q: nat, on: bool)
    requires AtRest(sc) && Short(p) && Short(q)
    ensures var final := if on then 'h' else 'l';
            Feed(sc, Private2(p, q, final)).term
            == Feed(Feed(sc, Private1(p, final)), Private1(q, final)).term
  {
    hide Feed, Sequence, Private1, Mode, Numbers, Private, IsParams, Decimal;
    var final := if on then 'h' else 'l';
    FeedMode(sc, p, on);
    FeedMode(Feed(sc, Private1(p, final)), q, on);
    PrivateNumbers(p, q);
    FeedSequence(sc, "?" + (Decimal(p) + ";" + Decimal(q)), final);
    TwoModes(sc.term, p, q, on);
  }

  lemma PrivateNumbers(p: nat, q: nat)
    requires Short(p) && Short(q)
    ensures var s := "?" + (Decimal(p) + ";" + Decimal(q));
            Numbers(s) == [p, q] && Private(s) == Some('?') && IsParams(s)
  {
    hide Texts.Split, Decimal, ParseInt;
    TwoNumbers(p, q);
    DecimalReads(p);
    DecimalReads(q);
    var s := Decimal(p) + ";" + Decimal(q);
    assert ("?" + s)[1..] == s;
    Texts.SplitFirst(Decimal(p), Decimal(q), ';');
    Texts.SplitFirst(Decimal(q), "", ';');
    assert Texts.Split(s, ';') == [Decimal(p), Decimal(q)];
  }

  lemma TwoModes(t: Term, p: nat, q: nat, on: bool)
    requires Grid(t)
    ensures Modes(t, [p, q], on) == Mode(Mode(t, p, on), q, on)
  {
    hide Mode;
    assert [p, q][..1] == [p];
    OneMode(t, p, on);
  }

  /** The alternate screen is still up and the main one is as it was. */
  predicate Apart(t: Term, r: Term) { t.alt.Some? && r.alt.Some? && r.main == t.main && r.moves == t.moves }

  lemma ViewApart(t: Term)
    requires Grid(t) && t.alt.Some?
    ensures forall v | |v| == t.rows :: Apart(t, SetView(t, v))
    ensures forall c: seq<Cell> :: Apart(t, SetCells(t, c))
  {}

  lemma ScrollsApart(t: Term, n: nat)
    requires Grid(t) && t.alt.Some?
    ensures Apart(t, ScrollUp(t, n)) && Apart(t, ScrollDown(t, n)) && Apart(t, ScrollUpOne(t))
  {
    hide ScrollUpOne, ScrollDown, ScrollUp, MovedUp, MovedDown, Pushed;
    ScrolledUp(t, n);
    ScrolledDown(t, n);
    OneScroll(t);
  }

  lemma PrintApart(t: Term, ch: char, w: nat)
    requires Grid(t) && t.alt.Some? && w <= 2
    ensures Apart(t, PrintTerm(t, ch, w))
  {
    hide SetCells, ScrollUpOne, WriteGlyph, Combine, InsertCells;
    ViewApart(t);
    if w > 0 {
      WrapApart(t, w);
      ViewApart(WrapFor(t, w));
    }
  }

  lemma WrapApart(t: Term, w: nat)
    requires Grid(t) && t.alt.Some? && 1 <= w <= 2
    ensures Apart(t, WrapFor(t, w))
  {
    hide Down, SetView;
    DownApart(t);
    ViewApart(Down(t).(x := 0));
  }

  lemma DownApart(t: Term)
    requires Grid(t) && t.alt.Some?
    ensures Apart(t, Down(t))
  {
    hide ScrollUpOne;
    ScrollsApart(t, 1);
  }

  lemma FeedsApart(t: Term)
    requires Grid(t) && t.alt.Some?
    ensures Apart(t, LineFeedTerm(t)) && Apart(t, LineFeedTerm(t.(x := 0))) && Apart(t, ReverseIndexTerm(t))
  {
    hide ScrollUpOne, ScrollDown;
    ScrollsApart(Fed(t), 1);
    ScrollsApart(Fed(t.(x := 0)), 1);
    ScrollsApart(t.(x := Column(t)), 1);
  }

  /** On the alternate screen nothing parsed touches the main one, short of leaving. */
  lemma AltApart(t: Term, a: Action)
    requires Grid(t) && t.alt.Some? && !a.Resize? && Apply(t, a).alt.Some?
    ensures Apart(t, Apply(t, a))
  {
    hide PrintTerm, LineFeedTerm, ReverseIndexTerm, DispatchTerm;
    FeedsApart(t);
    if a.Print? {
      PrintApart(t, a.ch, Width(a.ch));
    } else if a.Dispatch? {
      DispatchApart(t, a.final, a.params, a.inter);
    }
  }

  lemma {:induction false} ModesApart(t: Term, ps: seq<nat>, on: bool)
    requires Grid(t)
    ensures var r := Modes(t, ps, on);
            && (t.alt.Some? && r.alt.Some? ==> Apart(t, r))
            && (t.alt.None? && !on ==> r.alt.None?)
            && (t.alt.Some? && on ==> r.alt.Some?)
  {
    hide Mode;
    if ps != [] {
      ModesApart(t, ps[..|ps| - 1], on);
      ModeApart(Modes(t, ps[..|ps| - 1], on), ps[|ps| - 1], on);
    }
  }

  lemma ModeApart(t: Term, p: nat, on: bool)
    requires Grid(t)
    ensures var r := Mode(t, p, on);
            && (t.alt.Some? && r.alt.Some? ==> Apart(t, r))
            && (t.alt.None? && !on ==> r.alt.None?)
            && (t.alt.Some? && on ==> r.alt.Some?)
  {}

  lemma DispatchApart(t: Term, final: char, params: string, inter: string)
    requires Grid(t) && t.alt.Some? && DispatchTerm(t, final, params, inter).alt.Some?
    ensures Apart(t, DispatchTerm(t, final, params, inter))
  {
    hide Modes, CsiTerm, Numbers;
    ModesApart(t, Numbers(params), final == 'h');
    CsiApart(t, final, params);
  }

  lemma CsiApart(t: Term, final: char, params: string)
    requires Grid(t) && t.alt.Some?
    ensures Apart(t, CsiTerm(t, final, params))
  {
    hide Numbers, ScrollUp, ScrollDown, EraseDisplay, EraseLine, EditCells, EditLines, Setting, Move;
    var ps := Numbers(params);
    ScrollsApart(t, Min(Max(1, ps[0]), t.rows));
    ErasesApart(t, ps[0]);
    EditsApart(t, final, Max(1, ps[0]));
    SettingApart(t, final, ps, params == "");
  }

  lemma ErasesApart(t: Term, p: nat)
    requires Grid(t) && t.alt.Some?
    ensures Apart(t, EraseDisplay(t, p)) && Apart(t, EraseLine(t, p))
  {
    hide SetView, SetCells, ErasedView, EraseFrom, Erase;
    ViewApart(t);
  }

  lemma EditsApart(t: Term, final: char, n: nat)
    requires Grid(t) && t.alt.Some?
    ensures Apart(t, EditCells(t, final, n)) && Apart(t, EditLines(t, final, n))
  {
    hide SetView, SetCells, Edited, InsertLines, DeleteLines;
    ViewApart(t);
  }

  lemma SettingApart(t: Term, final: char, ps: seq<nat>, bare: bool)
    requires Grid(t) && t.alt.Some? && |ps| > 0
    ensures Apart(t, Setting(t, final, ps, bare)) && Apart(t, Move(t, final, ps))
  {
    hide Target;
  }

  /** Everything the guest does on the alternate screen, up to any point before it leaves. */
  ghost predicate StaysOnAlt(sc: Screen, s: string)
    requires Grid(sc.term)
  {
    forall i | 0 <= i <= |s| :: Feed(sc, s[..i]).term.alt.Some?
  }

  lemma {:induction false} MainStands(sc: Screen, s: string)
    requires Grid(sc.term) && StaysOnAlt(sc, s)
    ensures var r := Feed(sc, s).term;
            r.alt.Some? && r.main == sc.term.main && r.moves == sc.term.moves && r.cols == sc.term.cols
            && r.rows == sc.term.rows
  {
    hide Apply;
    assert s[..|s|] == s;
    KeepsGeometry(sc, s);
    if s == "" {
      FeedNothing(sc);
    } else {
      var front := s[..|s| - 1];
      forall i | 0 <= i <= |front| ensures Feed(sc, front[..i]).term.alt.Some? {
        assert front[..i] == s[..i];
      }
      MainStands(sc, front);
      var q := Feed(sc, front);
      NeverParsed(q.parser, s[|s| - 1]);
      AltApart(q.term, Step(q.parser, s[|s| - 1]).1);
    }
  }

  /** A full-screen program that saves the screen, does what it likes on the other one, and
      comes back, leaves the shell's screen, scrollback and cursor just where they were. */
  lemma ThereAndBackAgain(sc: Screen, s: string)
    requires AtRest(sc) && sc.term.alt.None?
    requires var entered := Feed(sc, Private1(1049, 'h'));
             StaysOnAlt(entered, s) && Feed(entered, s).parser.state == Ground
    ensures var t, r := sc.term, Feed(Feed(Feed(sc, Private1(1049, 'h')), s), Private1(1049, 'l')).term;
            && r.alt.None? && Lines(r) == Lines(t) && Row0(r) == Row0(t) && r.x == Min(t.x, t.cols - 1)
            && r.origin == t.origin && (!t.unsure ==> r.unsure == Feed(Feed(sc, Private1(1049, 'h')), s).term.unsure)
  {
    hide Feed, Private1, StaysOnAlt;
    assert Short(1049);
    FeedMode(sc, 1049, true);
    var entered := Feed(sc, Private1(1049, 'h'));
    MainStands(entered, s);
    FeedMode(Feed(entered, s), 1049, false);
  }
}
