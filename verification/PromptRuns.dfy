/** Runs of the guest's that end, or do not end, at what the page takes for a prompt. */
module PromptRuns {
  import opened Arithmetic
  import opened Options
  import opened Cells
  import opened Parser
  import opened Terminal
  import opened Reading
  import opened Prompts
  import opened Streams
  import opened Motions
  import opened Edits
  import opened Controls

  /** A new terminal with nothing on it and nothing said. */
  function NewScreen(cols: nat, rows: nat): (s: Screen)
    requires cols >= 2 && rows >= 1
    ensures AtRest(s)
  {
    Screen(InitTerm(cols, rows, Some(SCROLLBACK)), FRESH)
  }

  lemma NewIsFresh(cols: nat, rows: nat)
    requires cols >= 2 && rows >= 1
    ensures Fresh(NewScreen(cols, rows).term)
  {
    assert NewScreen(cols, rows).term.main.view[0] == Row(CellsOf(""), false);
  }

  /** One line, nothing below it, nothing right of the cursor: a prompt if it reads like one. */
  lemma OneRowPrompts(s: Screen, text: string)
    requires Grid(s.term) && OneRow(s.term, text, |text|) && s.parser.context != Command
    ensures AtPrompt(s) <==> Prompt(text)
  {
    hide OneRow, CursorLine, PromptShaped;
    OneRowReads(s.term, text, |text|);
    assert text[..|text|] == text && text[|text|..] == "";
    ShapeIsPrompt(text);
  }

  lemma RootIsPrompt()
    ensures Prompt("# ") && Prompt("$ ")
  {
    assert Stem("");
    assert "" + "# " == "# " && "" + "$ " == "$ ";
  }

  // ---- something below ------------------------------------------------------------

  /** Save the cursor, go somewhere, draw a character, come back. */
  function DrawnAt(row: nat, column: nat, ch: char): string {
    [ESC, '7'] + (Csi2(row, column, 'H') + [ch]) + [ESC, '8']
  }

  lemma DrawnLeaves(sc: Screen, row: nat, column: nat, ch: char)
    requires AtRest(sc) && !sc.term.insert && !sc.term.origin && Narrow(ch) && Short(row) && Short(column)
    requires 1 <= row <= sc.term.rows && 1 <= column <= sc.term.cols
    ensures var r := Feed(sc, DrawnAt(row, column, ch)).term;
            && r.rows == sc.term.rows && r.y == sc.term.y && At(Line(r, row - 1).cells, column - 1) == Glyph([ch])
  {
    hide Feed, Csi2, SaveTerm, RestoreTerm, OnOneRow, WrittenAt, Line, Active;
    FeedEscape(sc, '7');
    var saved := Feed(sc, [ESC, '7']);
    SavedHere(sc.term);
    AddressedPrint(saved, row, column, ch);
    KeepsRest(saved, row, column, ch);
    var drawn := Feed(saved, Csi2(row, column, 'H') + [ch]);
    FeedConcat(sc, [ESC, '7'], Csi2(row, column, 'H') + [ch]);
    FeedConcat(sc, [ESC, '7'] + (Csi2(row, column, 'H') + [ch]), [ESC, '8']);
    FeedEscape(drawn, '8');
    CameBack(sc.term, SaveTerm(sc.term), drawn.term, row, column, ch);
  }

  lemma KeepsRest(sc: Screen, row: nat, column: nat, ch: char)
    requires AtRest(sc) && Narrow(ch) && 1 <= row && 1 <= column && Short(row) && Short(column)
    ensures AtRest(Feed(sc, Csi2(row, column, 'H') + [ch]))
  {
    hide Csi2, Feed, PrintTerm;
    Addressed(sc, row, column);
    FeedConcat(sc, Csi2(row, column, 'H'), [ch]);
    FeedNarrow(Feed(sc, Csi2(row, column, 'H')), ch);
  }

  lemma SavedHere(t: Term)
    requires Grid(t)
    ensures var s := SaveTerm(t);
            && s == WithActive(t, Active(s)) && Active(s).view == Active(t).view
            && s.cols == t.cols && s.rows == t.rows && s.x == t.x && s.y == t.y
            && s.insert == t.insert && s.origin == t.origin
  {}

  lemma CameBack(t: Term, s: Term, d: Term, row: nat, column: nat, ch: char)
    requires Grid(t) && Grid(s) && Grid(d) && s == SaveTerm(t)
    requires 1 <= row <= t.rows && 1 <= column <= t.cols && s.rows == t.rows && s.cols == t.cols
    requires OnOneRow(s.(x := Min(s.cols - 1, column - 1), y := Min(s.rows - 1, row - 1)), d) && d.y == row - 1
    requires WrittenAt(Line(s, row - 1).cells, Line(d, row - 1).cells, column - 1, ch)
    ensures var r := RestoreTerm(d);
            && r.rows == t.rows && r.y == t.y && At(Line(r, row - 1).cells, column - 1) == Glyph([ch])
  {}

  /** From any prompt, a visible character put anywhere on a lower row, and the cursor back
      where it was, makes it one no longer. */
  lemma DrawnBelowIsNoPrompt(sc: Screen, row: nat, column: nat, ch: char)
    requires AtRest(sc) && AtPrompt(sc) && !sc.term.insert && !sc.term.origin
    requires Narrow(ch) && !IsSpace(ch) && Short(row) && Short(column)
    requires sc.term.y + 1 < row <= sc.term.rows && 1 <= column <= sc.term.cols
    ensures !AtPrompt(Feed(sc, DrawnAt(row, column, ch)))
  {
    hide Feed, DrawnAt, AtPrompt;
    DrawnLeaves(sc, row, column, ch);
    var r := Feed(sc, DrawnAt(row, column, ch));
    assert !White(Glyph([ch])) by {
      assert [ch][0] == ch;
    }
    AnythingElseIsNoPrompt(r, row - 1, column - 1);
  }

  /** On a new terminal of any size `# ` is a prompt - until an editor draws its status line. */
  lemma EditorIsNoPrompt(cols: nat, rows: nat, row: nat, ch: char)
    requires cols >= 2 && 2 <= row <= rows && Narrow(ch) && !IsSpace(ch) && Short(row)
    ensures var prompt := Feed(NewScreen(cols, rows), "# ");
            AtPrompt(prompt) && !AtPrompt(Feed(prompt, DrawnAt(row, 1, ch)))
  {
    hide Feed, DrawnAt, AtPrompt, CursorLine;
    var sc := NewScreen(cols, rows);
    NewIsFresh(cols, rows);
    TypedFresh(sc, "# ");
    FeedSplits(sc, "# ");
    PlainContext(sc.parser);
    RootIsPrompt();
    var prompt := Feed(sc, "# ");
    OneRowPrompts(prompt, "# ");
    TypedModes(sc, "# ");
    assert Short(1);
    DrawnBelowIsNoPrompt(prompt, row, 1, ch);
  }

  lemma PlainContext(p: Parser)
    requires p.state == Ground
    ensures Parse(p, "# ") == p
  {
    assert "# "[..1] == "#" && "#"[..0] == "";
    assert Parse(p, "") == p && Parse(p, "#") == p;
  }

  /** Text typed over a row leaves the modes, the row and the screen's size as they were. */
  lemma {:induction false} TypedModes(sc: Screen, b: string)
    requires AtRest(sc) && OneRow(sc.term, "", 0) && AllNarrow(b) && |b| <= sc.term.cols
    ensures var t, r := sc.term, Feed(sc, b).term;
            r.rows == t.rows && r.cols == t.cols && r.y == t.y && r.origin == t.origin && r.insert == t.insert
  {
    hide OneRow, PrintTerm;
    if b == "" {
      FeedNothing(sc);
    } else {
      var front, ch := b[..|b| - 1], b[|b| - 1];
      TypedModes(sc, front);
      TypedFresh(sc, front);
      FeedConcat(sc, front, [ch]);
      assert front + [ch] == b;
      FeedNarrow(Feed(sc, front), ch);
      PrintedModes(Feed(sc, front).term, front, ch);
    }
  }

  lemma PrintedModes(t: Term, s: string, ch: char)
    requires OneRow(t, s, |s|) && |s| < t.cols
    ensures var r := PrintTerm(t, ch, 1);
            r.rows == t.rows && r.cols == t.cols && r.y == t.y && r.origin == t.origin && r.insert == t.insert
  {
    hide WriteGlyph;
    PlacedNarrow(t, ch);
    CellsOnly(t, WriteGlyph(Line(t, t.y).cells, t.x, ch, 1), t.x + 1);
  }

  // ---- something typed -------------------------------------------------------------

  lemma CutCells(s: string, x: nat)
    requires x <= |s|
    ensures Erase(CellsOf(s), x, Max(x, |CellsOf(s)|)) == CellsOf(s[..x])
  {
    assert At(CellsOf(s), x) != RightHalf;
    var cut := Erase(CellsOf(s), x, Max(x, |CellsOf(s)|));
    assert |cut| == x;
    forall i | 0 <= i < x ensures cut[i] == CellsOf(s[..x])[i] {}
  }

  lemma ErasedRight(t: Term, s: string, x: nat)
    requires OneRow(t, s, x)
    ensures OneRow(EraseLine(t, 0), s[..x], x)
  {
    hide Erase, CellsOf;
    var cut := CellsOf(s[..x]);
    CutCells(s, x);
    assert Line(t, t.y).cells == CellsOf(s);
    assert EraseLine(t, 0) == SetCells(t, cut);
    CellsOnly(t, cut, x);
    SameColumn(t, cut);
  }

  lemma TypedAfter(sc: Screen, prompt: string, typed: string)
    requires AtRest(sc) && OneRow(sc.term, prompt, |prompt|) && AllNarrow(typed)
    requires |prompt| + |typed| <= sc.term.cols
    ensures var r := Feed(sc, typed);
            r.parser == sc.parser && OneRow(r.term, prompt + typed, |prompt + typed|) && r.term.cols == sc.term.cols
  {
    hide Feed, OneRow, Over;
    TypeAllOver(sc, prompt, |prompt|, typed);
    OverTail(prompt, "", typed);
    assert prompt + "" == prompt;
    TypedContext(sc, typed);
  }

  lemma TakenBack(sc: Screen, prompt: string, typed: string)
    requires AtRest(sc) && OneRow(sc.term, prompt + typed, |prompt + typed|) && typed != "" && Short(|typed|)
    requires |prompt + typed| < sc.term.cols
    ensures var r := Feed(Feed(sc, Csi1(|typed|, 'D')), Csi1(0, 'K'));
            AtRest(r) && OneRow(r.term, prompt, |prompt|) && r.parser.context == sc.parser.context
  {
    hide Feed, OneRow, Csi1, EraseLine, Move, CsiTerm, Numbers;
    FeedMotion(sc, |typed|, 'D');
    Left(sc, |typed|);
    WentBack(sc.term, prompt + typed, |typed|);
    var back := Feed(sc, Csi1(|typed|, 'D'));
    assert Short(0);
    FeedCsi1(back, 0, 'K');
    EraseLineFinal(back, 0);
    ErasedRight(back.term, prompt + typed, |prompt|);
    assert (prompt + typed)[..|prompt|] == prompt;
  }

  /** At a prompt, typing anything makes it busy, and taking it back makes it idle again. */
  lemma TypedAndTakenBack(sc: Screen, prompt: string, typed: string)
    requires AtRest(sc) && OneRow(sc.term, prompt, |prompt|) && sc.parser.context != Command
    requires Prompt(prompt) && AllNarrow(typed) && typed != "" && |prompt| + |typed| < sc.term.cols && Short(|typed|)
    ensures AtPrompt(sc) && !AtPrompt(Feed(sc, typed))
    ensures AtPrompt(Feed(Feed(Feed(sc, typed), Csi1(|typed|, 'D')), Csi1(0, 'K')))
  {
    hide Feed, OneRow, Csi1, AtPrompt, Prompt;
    OneRowPrompts(sc, prompt);
    TypedAfter(sc, prompt, typed);
    TypedIsNoPrompt(prompt, typed);
    var busy := Feed(sc, typed);
    OneRowPrompts(busy, prompt + typed);
    TakenBack(busy, prompt, typed);
    OneRowPrompts(Feed(Feed(busy, Csi1(|typed|, 'D')), Csi1(0, 'K')), prompt);
  }

  lemma {:induction false} TypedContext(sc: Screen, b: string)
    requires AtRest(sc) && AllNarrow(b)
    ensures Feed(sc, b).parser == sc.parser
  {
    hide PrintTerm;
    if b == "" {
      FeedNothing(sc);
    } else {
      var front, ch := b[..|b| - 1], b[|b| - 1];
      TypedContext(sc, front);
      FeedConcat(sc, front, [ch]);
      assert front + [ch] == b;
      FeedNarrow(Feed(sc, front), ch);
    }
  }

  // ---- what draws nothing ------------------------------------------------------------

  /** What can stand inside a string without ending it. */
  predicate Inside(ch: char) {
    var c := ch as int;
    c != 0x18 && c != 0x1a && c != 0x1b && c != 0x9c
  }

  lemma {:induction false} StringIsSilent(sc: Screen, body: string)
    requires Grid(sc.term) && sc.parser.state == Str && sc.parser.osc.None?
    requires forall i | 0 <= i < |body| :: Inside(body[i])
    ensures Feed(sc, body) == sc
  {
    if body == "" {
      FeedNothing(sc);
    } else {
      StringIsSilent(sc, body[..|body| - 1]);
      assert Inside(body[|body| - 1]);
      assert Step(sc.parser, body[|body| - 1]) == (sc.parser, Nothing);
    }
  }

  lemma StringOpens(sc: Screen, kind: char)
    requires AtRest(sc) && kind in "PX^_"
    ensures Feed(sc, [ESC, kind]) == sc.(parser := sc.parser.(state := Str, osc := None))
  {
    hide Feed;
    FeedTwo(sc, ESC, kind);
    var p := sc.parser.(state := Escape);
    assert Step(sc.parser, ESC) == (p, Nothing);
    assert Step(p, kind) == (sc.parser.(state := Str, osc := None), Nothing);
  }

  lemma StringCloses(sc: Screen)
    requires Grid(sc.term) && sc.parser.state == Str && sc.parser.osc.None?
    ensures Feed(sc, [ESC, '\\']) == sc.(parser := sc.parser.(state := Ground))
  {
    hide Feed;
    FeedTwo(sc, ESC, '\\');
    var p := sc.parser.(state := StrEscape);
    assert Step(sc.parser, ESC) == (p, Nothing);
    assert Step(p, '\\') == (sc.parser.(state := Ground), Nothing);
  }

  /** A DCS, SOS, PM or APC, whatever is in it - BEL is payload there - draws nothing and says
      nothing. */
  lemma StringsDrawNothing(sc: Screen, kind: char, body: string)
    requires AtRest(sc) && kind in "PX^_" && forall i | 0 <= i < |body| :: Inside(body[i])
    ensures var r := Feed(sc, [ESC, kind] + body + [ESC, '\\']);
            r.term == sc.term && AtRest(r) && r.parser.context == sc.parser.context
  {
    hide Feed;
    StringOpens(sc, kind);
    var open := Feed(sc, [ESC, kind]);
    StringIsSilent(open, body);
    FeedConcat(sc, [ESC, kind], body);
    FeedConcat(sc, [ESC, kind] + body, [ESC, '\\']);
    StringCloses(open);
  }
}
