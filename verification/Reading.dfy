/** What the page reads off the screen: the logical line the cursor is on, and
    whether the console is at an idle shell prompt. */
module Reading {
  import opened Arithmetic
  import opened Options
  import opened Cells
  import opened Parser
  import opened Terminal

  datatype Screen = Screen(term: Term, parser: Parser)

  /** `sure` is whether the model vouches for the rest. */
  datatype LineView = LineView(before: string, after: string, below: bool, sure: bool)

  /** Every row held: the scrollback, then the screen. */
  function Lines(t: Term): seq<Row> { Active(t).scroll + Active(t).view }

  /** The cursor's row, counted from the top of the scrollback. */
  function Row0(t: Term): nat { |Active(t).scroll| + t.y }

  function LineStart(rows: seq<Row>, at: nat): (s: nat)
    requires at < |rows|
    ensures s <= at
  {
    if at > 0 && rows[at].wrapped then LineStart(rows, at - 1) else at
  }

  function LineEnd(rows: seq<Row>, at: nat): (e: nat)
    requires at < |rows|
    ensures at <= e < |rows|
    decreases |rows| - at
  {
    if at + 1 < |rows| && rows[at + 1].wrapped then LineEnd(rows, at + 1) else at
  }

  /** The text of rows [lo, hi) joined. */
  function Join(rows: seq<Row>, lo: nat, hi: nat): string
    requires lo <= hi <= |rows|
    decreases hi
  {
    if lo == hi then "" else Join(rows, lo, hi - 1) + RowText(rows[hi - 1])
  }

  predicate AnyText(rows: seq<Row>, lo: nat) { exists i | lo <= i < |rows| :: !Blank(rows[i]) }

  /** The logical line through row `at`, split at column `x`. The start of a line
      that is still marked as wrapped has been trimmed away. */
  function ReadAt(rows: seq<Row>, at: nat, x: nat, vouched: bool): LineView
    requires at < |rows|
  {
    var s := LineStart(rows, at);
    var e := LineEnd(rows, at);
    var cells := rows[at].cells;
    LineView(Join(rows, s, at) + Text(cells, 0, x),
            Text(cells, x, Max(x, |cells|)) + Join(rows, at + 1, e + 1),
            AnyText(rows, e + 1),
            vouched && !rows[s].wrapped)
  }

  function CursorLine(t: Term): LineView
    requires Grid(t)
  {
    ReadAt(Lines(t), Row0(t), t.x, t.alt.None? && !t.unsure)
  }

  function TrimRight(s: string): string {
    if s != "" && s[|s| - 1] == ' ' then TrimRight(s[..|s| - 1]) else s
  }

  /** The line the cursor is on, without trailing blanks. */
  function LastLine(t: Term): string
    requires Grid(t)
  {
    TrimRight(CursorLine(t).before + CursorLine(t).after)
  }

  predicate NoneOf(s: string, chars: string) { forall i | 0 <= i < |s| :: s[i] !in chars }

  predicate NoSpace(s: string) { forall i | 0 <= i < |s| :: !IsSpace(s[i]) }

  /** user@host:dir, split at `i` and `j`; only the directory may hold spaces. */
  predicate HostShaped(s: string, i: nat, j: nat) {
    && 0 < i && i + 1 < j < |s|
    && s[i] == '@' && s[j] == ':'
    && NoSpace(s[..j]) && NoneOf(s[..i], "@$#") && NoneOf(s[i + 1..j], ":$#")
    && NoneOf(s[j + 1..], "$#")
  }

  /** A whole prompt and nothing else: no space before the closing marker, unless
      it is Ubuntu's user@host:dir. */
  predicate PromptShaped(s: string) {
    && |s| >= 2 && s[|s| - 1] == ' ' && s[|s| - 2] in "$#"
    && var p := s[..|s| - 2];
       NoSpace(p) || exists i, j | 0 <= i < |p| && 0 <= j < |p| :: HostShaped(p, i, j)
  }

  /** May the page type at the console? A wrong no only delays it. */
  predicate AtPrompt(s: Screen)
    requires Grid(s.term)
  {
    var c := CursorLine(s.term);
    s.parser.context != Command && c.sure && PromptShaped(c.before) && AllSpace(c.after) && !c.below
  }

  /** One code point: the parser steps, and the screen does what it says. */
  function StepScreen(sc: Screen, ch: char): (r: Screen)
    requires Grid(sc.term)
    ensures Grid(r.term)
  {
    var (p, a) := Step(sc.parser, ch);
    Screen(Apply(sc.term, a), p)
  }

  function Feed(sc: Screen, s: string): (r: Screen)
    requires Grid(sc.term)
    ensures Grid(r.term)
  {
    if s == "" then sc else StepScreen(Feed(sc, s[..|s| - 1]), s[|s| - 1])
  }

  /** A chunk of guest output, applied at the geometry of the moment. */
  function Write(sc: Screen, cols: nat, rows: nat, s: string): (r: Screen)
    requires Grid(sc.term) && cols >= 2 && rows >= 1
    ensures Grid(r.term)
  {
    Feed(Screen(Fit(sc.term, cols, rows), sc.parser), s)
  }

  /** The geometry the page reports, made usable: (v | 0) || dflt, at least lo. */
  function Sized(v: int, dflt: nat, lo: nat): nat {
    var w := (v + 0x8000_0000) % 0x1_0000_0000 - 0x8000_0000;
    Max(lo, if w == 0 then dflt else w)
  }

  /** The screen splits into its parser and its terminal: each goes its own way. */
  lemma {:induction false} FeedSplits(sc: Screen, s: string)
    requires Grid(sc.term)
    ensures Feed(sc, s).parser == Parse(sc.parser, s)
    ensures Feed(sc, s).term == ApplyAll(sc.term, Actions(sc.parser, s))
  {
    if s == "" {
    } else {
      FeedSplits(sc, s[..|s| - 1]);
      var before := Actions(sc.parser, s[..|s| - 1]);
      assert Actions(sc.parser, s)[..|before|] == before;
    }
  }

  lemma {:induction false} FeedConcat(sc: Screen, a: string, b: string)
    requires Grid(sc.term)
    ensures Feed(sc, a + b) == Feed(Feed(sc, a), b)
  {
    if b == "" {
      assert a + b == a;
    } else {
      FeedConcat(sc, a, b[..|b| - 1]);
      assert (a + b)[..|a + b| - 1] == a + b[..|b| - 1];
    }
  }

  /** Where the guest's output is cut into chunks makes no difference. */
  lemma ChunkingIsInvisible(sc: Screen, cols: nat, rows: nat, a: string, b: string)
    requires Grid(sc.term) && cols >= 2 && rows >= 1
    ensures Write(Write(sc, cols, rows, a), cols, rows, b) == Write(sc, cols, rows, a + b)
  {
    var fitted := Screen(Fit(sc.term, cols, rows), sc.parser);
    FeedConcat(fitted, a, b);
    KeepsGeometry(fitted, a);
  }

  lemma NeverParsed(p: Parser, ch: char)
    ensures !Step(p, ch).1.Resize?
  {
  }

  /** Nothing parsed changes the geometry or overfills the scrollback. */
  lemma ParsedKeeps(t: Term, p: Parser, ch: char)
    requires Grid(t)
    ensures var r := Apply(t, Step(p, ch).1);
            && r.cols == t.cols && r.rows == t.rows && r.main.keep == t.main.keep
            && (WithinKeep(t) ==> WithinKeep(r))
  {
    NeverParsed(p, ch);
    ActionKeeps(t, Step(p, ch).1);
  }

  lemma ActionKeeps(t: Term, a: Action)
    requires Grid(t) && !a.Resize?
    ensures var r := Apply(t, a);
            && r.cols == t.cols && r.rows == t.rows && r.main.keep == t.main.keep
            && (WithinKeep(t) ==> WithinKeep(r))
  {
  }

  /** Only a resize changes the geometry, and nothing the limit on the scrollback. */
  lemma {:induction false} KeepsGeometry(sc: Screen, s: string)
    requires Grid(sc.term)
    ensures var r := Feed(sc, s).term;
            r.cols == sc.term.cols && r.rows == sc.term.rows && r.main.keep == sc.term.main.keep
  {
    if s == "" {
    } else {
      KeepsGeometry(sc, s[..|s| - 1]);
      var q := Feed(sc, s[..|s| - 1]);
      ParsedKeeps(q.term, q.parser, s[|s| - 1]);
    }
  }
}
