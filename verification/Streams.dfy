/** What short pieces of the guest's output come to, fed to a screen at rest: a character,
    an escape, a control sequence with its numbers written out. */
module Streams {
  import opened Options
  import opened Decimals
  import Texts
  import opened Parser
  import opened Terminal
  import opened Reading

  const ESC := 0x1b as char

  lemma FeedOne(sc: Screen, ch: char)
    requires Grid(sc.term)
    ensures Feed(sc, [ch]) == StepScreen(sc, ch)
  {
    assert [ch][..0] == "";
    assert Feed(sc, "") == sc;
  }

  lemma FeedTwo(sc: Screen, a: char, b: char)
    requires Grid(sc.term)
    ensures Feed(sc, [a, b]) == StepScreen(StepScreen(sc, a), b)
  {
    FeedOne(sc, a);
    FeedOne(StepScreen(sc, a), b);
    FeedConcat(sc, [a], [b]);
    assert [a] + [b] == [a, b];
  }

  // ---- printing ---------------------------------------------------------------

  /** A character that takes one column. */
  predicate Narrow(ch: char) {
    var c := ch as int;
    0x20 <= c < 0x300 && !(0x7f <= c < 0xa0)
  }

  predicate AllNarrow(s: string) { forall i | 0 <= i < |s| :: Narrow(s[i]) }

  lemma FeedNarrow(sc: Screen, ch: char)
    requires Grid(sc.term) && sc.parser.state == Ground && Narrow(ch)
    ensures Feed(sc, [ch]) == sc.(term := PrintTerm(sc.term, ch, 1))
  {
    FeedOne(sc, ch);
  }

  lemma FeedControl(sc: Screen, c: int)
    requires Grid(sc.term) && sc.parser.state == Ground && (8 <= c <= 13 || 0x84 <= c <= 0x85 || c == 0x8d)
    ensures Feed(sc, [c as char]) == sc.(term := ControlTerm(sc.term, c))
  {
    hide ControlTerm;
    FeedOne(sc, c as char);
    assert Step(sc.parser, c as char) == (sc.parser, Control(c));
  }

  /** ESC and one character: saved cursors, line feeds and a reset. */
  lemma FeedEscape(sc: Screen, ch: char)
    requires Grid(sc.term) && sc.parser.state == Ground && ch in "78DEMc"
    ensures Feed(sc, [ESC, ch]) == sc.(term := Apply(sc.term, AfterEscape(sc.parser, ch).1))
  {
    hide StepScreen, Apply;
    FeedTwo(sc, ESC, ch);
    Escapes(sc, ch);
  }

  lemma Escapes(sc: Screen, ch: char)
    requires Grid(sc.term) && sc.parser.state == Ground && ch in "78DEMc"
    ensures StepScreen(StepScreen(sc, ESC), ch) == sc.(term := Apply(sc.term, AfterEscape(sc.parser, ch).1))
  {
    var p := sc.parser.(state := Escape);
    assert Step(sc.parser, ESC) == (p, Nothing);
    assert Step(p, ch) == (sc.parser, AfterEscape(sc.parser, ch).1);
  }

  // ---- control sequences ----------------------------------------------------------

  function Sequence(params: string, final: char): string { [ESC, '['] + params + [final] }

  /** One number, or two. */
  function Csi1(n: nat, final: char): string { Sequence(Decimal(n), final) }

  function Csi2(a: nat, b: nat, final: char): string { Sequence(Decimal(a) + ";" + Decimal(b), final) }

  predicate IsParams(s: string) { |s| <= 64 && forall i | 0 <= i < |s| :: 0x30 <= s[i] as int <= 0x3f }

  lemma {:induction false} FeedParams(sc: Screen, params: string)
    requires Grid(sc.term) && sc.parser.state == Csi && sc.parser.inter == ""
    requires IsParams(sc.parser.params + params)
    ensures Feed(sc, params) == sc.(parser := sc.parser.(params := sc.parser.params + params))
  {
    var before := sc.parser.params;
    if params == "" {
      assert before + params == before;
    } else {
      var front, ch := params[..|params| - 1], params[|params| - 1];
      assert before + params == before + front + [ch];
      assert forall i | 0 <= i < |before + front| :: (before + front)[i] == (before + params)[i];
      FeedParams(sc, front);
      assert (before + params)[|before + front|] == ch;
      StepParam(sc.parser.(params := before + front), ch);
    }
  }

  lemma StepParam(p: Parser, ch: char)
    requires p.state == Csi && p.inter == "" && |p.params| < 64 && 0x30 <= ch as int <= 0x3f
    ensures Step(p, ch) == (p.(params := p.params + [ch]), Nothing)
  {}

  lemma FeedSequence(sc: Screen, params: string, final: char)
    requires Grid(sc.term) && sc.parser.state == Ground && IsParams(params) && 0x40 <= final as int <= 0x7e
    ensures Feed(sc, Sequence(params, final))
         == Screen(DispatchTerm(sc.term, final, params, ""), sc.parser.(params := params, inter := ""))
  {
    hide DispatchTerm, StepScreen;
    FeedTwo(sc, ESC, '[');
    var open := sc.(parser := StartCsi(sc.parser));
    OpensSequence(sc);
    assert "" + params == params;
    FeedParams(open, params);
    FeedConcat(sc, [ESC, '['], params);
    var full := open.(parser := open.parser.(params := params));
    FeedOne(full, final);
    EndsSequence(full, final);
    FeedConcat(sc, [ESC, '['] + params, [final]);
  }

  lemma EndsSequence(sc: Screen, final: char)
    requires Grid(sc.term) && sc.parser.state == Csi && sc.parser.inter == "" && 0x40 <= final as int <= 0x7e
    ensures StepScreen(sc, final)
         == Screen(DispatchTerm(sc.term, final, sc.parser.params, ""), sc.parser.(state := Ground))
  {
    hide DispatchTerm;
    assert Step(sc.parser, final) == (sc.parser.(state := Ground), Dispatch(final, sc.parser.params, ""));
  }

  lemma OpensSequence(sc: Screen)
    requires Grid(sc.term) && sc.parser.state == Ground
    ensures StepScreen(StepScreen(sc, ESC), '[') == sc.(parser := StartCsi(sc.parser))
  {
    var p := sc.parser.(state := Escape);
    assert Step(sc.parser, ESC) == (p, Nothing);
    assert Step(p, '[') == (StartCsi(sc.parser), Nothing);
  }

  // ---- numbers -----------------------------------------------------------------

  predicate Digits(s: string) { s != "" && forall i | 0 <= i < |s| :: '0' <= s[i] <= '9' }

  lemma {:induction false} LeadingSnoc(s: string, d: char, acc: nat)
    requires (forall i | 0 <= i < |s| :: '0' <= s[i] <= '9') && '0' <= d <= '9'
    ensures LeadingValue(s + [d], acc) == 10 * LeadingValue(s, acc) + (d as int - '0' as int)
    decreases |s|
  {
    if s == "" {
      assert s + [d] == [d] && [d][1..] == "";
    } else {
      assert (s + [d])[1..] == s[1..] + [d];
      LeadingSnoc(s[1..], d, 10 * acc + (s[0] as int - '0' as int));
    }
  }

  lemma {:induction false} DecimalReads(n: nat)
    ensures Digits(Decimal(n)) && ParseInt(Decimal(n)) == n
  {
    if n < 10 {
      var d := ('0' as int + n) as char;
      LeadingSnoc("", d, 0);
      assert "" + [d] == Decimal(n);
    } else {
      DecimalReads(n / 10);
      LeadingSnoc(Decimal(n / 10), ('0' as int + n % 10) as char, 0);
    }
  }

  lemma OneNumber(n: nat)
    ensures Numbers(Decimal(n)) == [n] && Private(Decimal(n)).None?
    ensures |Decimal(n)| <= 64 ==> IsParams(Decimal(n))
  {
    hide Texts.Split, Decimal, ParseInt;
    DecimalReads(n);
    Texts.SplitFirst(Decimal(n), "", ';');
  }

  lemma TwoNumbers(a: nat, b: nat)
    ensures var s := Decimal(a) + ";" + Decimal(b);
            Numbers(s) == [a, b] && Private(s).None? && (|s| <= 64 ==> IsParams(s))
  {
    hide Texts.Split, Decimal, ParseInt;
    DecimalReads(a);
    DecimalReads(b);
    var s := Decimal(a) + ";" + Decimal(b);
    assert s[0] == Decimal(a)[0];
    Texts.SplitFirst(Decimal(a), Decimal(b), ';');
    Texts.SplitFirst(Decimal(b), "", ';');
    assert Texts.Split(s, ';') == [Decimal(a), Decimal(b)];
  }

  lemma NoNumber()
    ensures Numbers("") == [0] && Private("").None? && IsParams("")
  {
    assert Texts.Split("", ';') == [""];
    assert ParseInt("") == 0;
  }

  /** The number is short enough to be read whole. */
  predicate Short(n: nat) { |Decimal(n)| <= 31 }

  /** A sequence of one number does what its final does with it. */
  lemma FeedCsi1(sc: Screen, n: nat, final: char)
    requires Grid(sc.term) && sc.parser.state == Ground && Short(n) && 0x40 <= final as int <= 0x7e
    ensures var r := Feed(sc, Csi1(n, final));
            && r.term == CsiTerm(sc.term, final, Decimal(n)) && Numbers(Decimal(n)) == [n]
            && r.parser.state == Ground && r.parser.context == sc.parser.context
  {
    hide CsiTerm;
    OneNumber(n);
    FeedSequence(sc, Decimal(n), final);
  }

  lemma FeedCsi2(sc: Screen, a: nat, b: nat, final: char)
    requires Grid(sc.term) && sc.parser.state == Ground && Short(a) && Short(b) && 0x40 <= final as int <= 0x7e
    ensures var r := Feed(sc, Csi2(a, b, final));
            var s := Decimal(a) + ";" + Decimal(b);
            && r.term == CsiTerm(sc.term, final, s) && Numbers(s) == [a, b]
            && r.parser.state == Ground && r.parser.context == sc.parser.context
  {
    hide CsiTerm;
    TwoNumbers(a, b);
    FeedSequence(sc, Decimal(a) + ";" + Decimal(b), final);
  }

  /** The finals that move the cursor. */
  predicate IsMotion(final: char) {
    || final == 'A' || final == 'B' || final == 'C' || final == 'D' || final == 'E' || final == 'F' || final == 'G'
    || final == 'H' || final == 'a' || final == 'd' || final == 'e' || final == 'f' || final == '`'
  }

  lemma MotionMoves(t: Term, final: char, params: string)
    requires Grid(t) && IsMotion(final)
    ensures CsiTerm(t, final, params) == Move(t, final, Numbers(params))
  {
    hide Move, Numbers, EraseDisplay, EraseLine, EditCells, EditLines, ScrollUp, ScrollDown, Setting;
  }

  lemma FeedMotion(sc: Screen, n: nat, final: char)
    requires Grid(sc.term) && sc.parser.state == Ground && Short(n) && IsMotion(final)
    ensures var r := Feed(sc, Csi1(n, final));
            && r.term == Move(sc.term, final, [n]) && r.parser.state == Ground
            && r.parser.context == sc.parser.context
  {
    hide CsiTerm, Move, Csi1, Numbers;
    FeedCsi1(sc, n, final);
    MotionMoves(sc.term, final, Decimal(n));
  }

  lemma FeedMotion2(sc: Screen, a: nat, b: nat, final: char)
    requires Grid(sc.term) && sc.parser.state == Ground && Short(a) && Short(b) && IsMotion(final)
    ensures var r := Feed(sc, Csi2(a, b, final));
            && r.term == Move(sc.term, final, [a, b]) && r.parser.state == Ground
            && r.parser.context == sc.parser.context
  {
    hide CsiTerm, Move, Csi2, Numbers;
    FeedCsi2(sc, a, b, final);
    MotionMoves(sc.term, final, Decimal(a) + ";" + Decimal(b));
  }

  lemma FeedBareMotion(sc: Screen, final: char)
    requires Grid(sc.term) && sc.parser.state == Ground && IsMotion(final)
    ensures var r := Feed(sc, Sequence("", final));
            && r.term == Move(sc.term, final, [0]) && r.parser.state == Ground
            && r.parser.context == sc.parser.context
  {
    hide CsiTerm, Move, Sequence, Numbers;
    NoNumber();
    FeedSequence(sc, "", final);
    MotionMoves(sc.term, final, "");
  }
}
