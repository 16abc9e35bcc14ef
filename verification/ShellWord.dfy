/** What the shell says (OSC 3008) reaches the page exactly as it was framed, its
    last word stands, and while that word is not the shell's own no screen, however
    prompt-shaped, counts as an idle prompt. */
module ShellWord {
  import opened Options
  import opened Parser
  import opened Terminal
  import opened Reading

  /** What ends or abandons an OSC: BEL, CAN, SUB, ESC and ST. */
  predicate Ends(ch: char) {
    var c := ch as int;
    c == 0x07 || c == 0x18 || c == 0x1a || c == 0x1b || c == 0x9c
  }

  predicate IsBody(s: string) { forall i | 0 <= i < |s| :: !Ends(s[i]) }

  /** The part of a body the parser keeps: no controls, and no more than the limit. */
  function Collected(body: string): string {
    if body == "" then ""
    else
      var q := Collected(body[..|body| - 1]);
      var ch := body[|body| - 1];
      if ch as int >= 0x20 && Units(q) < OSC_LIMIT then q + [ch] else q
  }

  const ESC := 0x1b as char

  /** ESC ] with C0 controls allowed between, or the one-byte form. */
  predicate IsIntro(s: string) {
    s == [0x9d as char] || (|s| >= 2 && s[|s| - 1] == ']' && IsEscape(s[..|s| - 1]))
  }

  /** An ESC, and the C0 controls that act without ending the sequence. */
  predicate IsEscape(s: string) {
    |s| >= 1 && s[0] == ESC && forall i | 1 <= i < |s| :: Acts(s[i])
  }

  predicate Acts(ch: char) {
    var c := ch as int;
    c < 0x20 && c != 0x18 && c != 0x1a && c != 0x1b
  }

  predicate IsEnd(s: string) { s == [0x07 as char] || s == [0x9c as char] || s == [ESC, '\\'] }

  // ---- concatenation ------------------------------------------------------

  lemma {:induction false} ParseConcat(p: Parser, a: string, b: string)
    ensures Parse(p, a + b) == Parse(Parse(p, a), b)
  {
    if b == "" {
      assert a + b == a;
    } else {
      ParseConcat(p, a, b[..|b| - 1]);
      assert (a + b)[..|a + b| - 1] == a + b[..|b| - 1];
    }
  }

  lemma ParseOne(p: Parser, ch: char)
    ensures Parse(p, [ch]) == Step(p, ch).0
  {
    assert [ch][..0] == "";
    assert Parse(p, "") == p;
  }

  // ---- a framed message is heard -----------------------------------------

  lemma {:induction false} BodyCollects(p: Parser, body: string)
    requires p.state == Osc && p.osc == Some("") && IsBody(body)
    ensures Parse(p, body) == p.(osc := Some(Collected(body)))
  {
    if body == "" {
    } else {
      BodyCollects(p, body[..|body| - 1]);
      assert !Ends(body[|body| - 1]);
    }
  }

  lemma {:induction false} EscapeWaits(p: Parser, s: string)
    requires p.state == Ground && IsEscape(s)
    ensures Parse(p, s) == p.(state := Escape)
  {
    if |s| == 1 {
      assert s == [ESC];
      ParseOne(p, ESC);
    } else {
      EscapeWaits(p, s[..|s| - 1]);
      assert Acts(s[|s| - 1]);
    }
  }

  lemma IntroOpens(p: Parser, intro: string)
    requires p.state == Ground && IsIntro(intro)
    ensures Parse(p, intro) == p.(state := Osc, osc := Some(""))
  {
    if intro == [0x9d as char] {
      ParseOne(p, 0x9d as char);
    } else {
      EscapeWaits(p, intro[..|intro| - 1]);
    }
  }

  lemma EndCompletes(p: Parser, end: string)
    requires p.state == Osc && p.osc.Some? && IsEnd(end)
    ensures Parse(p, end) == Complete(p)
  {
    if |end| == 1 {
      assert end == [end[0]];
      ParseOne(p, end[0]);
    } else {
      assert end == [ESC] + ['\\'];
      ParseOne(p, ESC);
      ParseConcat(p, [ESC], ['\\']);
      ParseOne(p.(state := StrEscape), '\\');
    }
  }

  /** Every framing of a message says the same thing, and leaves the parser where
      it was. */
  lemma FramedIsHeard(p: Parser, intro: string, body: string, end: string)
    requires p.state == Ground && IsIntro(intro) && IsBody(body) && IsEnd(end)
    ensures Parse(p, intro + body + end)
         == p.(osc := Some(Collected(body)), context := Said(Collected(body), p.context))
  {
    IntroOpens(p, intro);
    ParseConcat(p, intro, body);
    var q := p.(state := Osc, osc := Some(""));
    BodyCollects(q, body);
    ParseConcat(p, intro + body, end);
    EndCompletes(q.(osc := Some(Collected(body))), end);
  }

  // ---- and nothing else is -----------------------------------------------

  /** The message completed by `ch`, if it completes one. */
  function Completes(p: Parser, ch: char): Option<string> {
    var c := ch as int;
    if p.state == Osc && (c == 0x9c || c == 0x07) then p.osc
    else if p.state == Str && c == 0x9c then p.osc
    else if p.state == StrEscape && ch == '\\' then p.osc
    else None
  }

  /** Every message heard in `s`, in order. */
  function Heard(p: Parser, s: string): seq<string> {
    if s == "" then []
    else
      var before := s[..|s| - 1];
      var done := Completes(Parse(p, before), s[|s| - 1]);
      Heard(p, before) + if done.Some? then [done.value] else []
  }

  /** An OSC being read is an introducer followed by its body so far. */
  ghost predicate Opened(s: string, i: nat, j: nat, said: string) {
    i <= j <= |s| && IsIntro(s[i..j]) && IsBody(s[j..]) && Collected(s[j..]) == said
  }

  ghost predicate EndsOpened(s: string, said: string) { exists i: nat, j: nat :: Opened(s, i, j, said) }

  ghost predicate EndsInEscape(s: string) { exists i: nat :: EscapeFrom(s, i) }

  predicate EscapeFrom(s: string, i: nat) { i <= |s| && IsEscape(s[i..]) }

  ghost predicate Traced(s: string, p: Parser) {
    && (p.state == Escape ==> EndsInEscape(s))
    && (p.state == Str ==> p.osc.None?)
    && (p.state == Osc ==> p.osc.Some? && EndsOpened(s, p.osc.value))
    && (p.state == StrEscape ==> s != "" && s[|s| - 1] == ESC)
    && (p.state == StrEscape && p.osc.Some? ==> EndsOpened(s[..|s| - 1], p.osc.value))
  }

  lemma {:induction false} TracedAlways(p: Parser, s: string)
    requires p.state == Ground
    ensures Traced(s, Parse(p, s))
  {
    if s == "" {
    } else {
      var before := s[..|s| - 1];
      TracedAlways(p, before);
      TracedStep(before, Parse(p, before), s[|s| - 1]);
      assert before + [s[|s| - 1]] == s;
    }
  }

  lemma TracedStep(s: string, p: Parser, ch: char)
    requires Traced(s, p)
    ensures Traced(s + [ch], Step(p, ch).0)
  {
    var q := Step(p, ch).0;
    var t := s + [ch];
    assert t[..|t| - 1] == s;
    if q.state == Escape {
      EscapeStep(s, p, ch);
    } else if q.state == Osc {
      OscStep(s, p, ch);
    }
  }

  lemma EscapeStep(s: string, p: Parser, ch: char)
    requires Traced(s, p) && Step(p, ch).0.state == Escape
    ensures EndsInEscape(s + [ch])
  {
    var t := s + [ch];
    if ch == ESC {
      assert EscapeFrom(t, |s|);
    } else if p.state == StrEscape {
      assert t[|s| - 1..] == [ESC, ch];
      assert EscapeFrom(t, |s| - 1);
    } else {
      var i: nat :| EscapeFrom(s, i);
      assert t[i..] == s[i..] + [ch];
      assert EscapeFrom(t, i);
    }
  }

  lemma OscStep(s: string, p: Parser, ch: char)
    requires Traced(s, p) && Step(p, ch).0.state == Osc
    ensures Step(p, ch).0.osc.Some? && EndsOpened(s + [ch], Step(p, ch).0.osc.value)
  {
    if p.state == Osc {
      OscGrows(s, p, ch);
    } else if p.state == Ground {
      OpensAlone(s, ch);
    } else if p.state == StrEscape {
      OpensAgain(s, ch);
    } else {
      OpensAfterEscape(s, ch);
    }
  }

  lemma OscGrows(s: string, p: Parser, ch: char)
    requires Traced(s, p) && p.state == Osc && Step(p, ch).0.state == Osc
    ensures Step(p, ch).0.osc.Some? && EndsOpened(s + [ch], Step(p, ch).0.osc.value)
  {
    var t := s + [ch];
    var i: nat, j: nat :| Opened(s, i, j, p.osc.value);
    assert t[i..j] == s[i..j] && t[j..] == s[j..] + [ch] && t[j..][..|t[j..]| - 1] == s[j..];
    assert Opened(t, i, j, Step(p, ch).0.osc.value);
  }

  lemma NothingYet(t: string)
    ensures t[|t|..] == "" && IsBody(t[|t|..]) && Collected(t[|t|..]) == ""
  {}

  lemma OpensAlone(s: string, ch: char)
    requires ch == 0x9d as char
    ensures EndsOpened(s + [ch], "")
  {
    var t := s + [ch];
    NothingYet(t);
    assert t[|s|..|t|] == [0x9d as char];
    assert Opened(t, |s|, |t|, "");
  }

  lemma OpensAgain(s: string, ch: char)
    requires s != "" && s[|s| - 1] == ESC && ch == ']'
    ensures EndsOpened(s + [ch], "")
  {
    var t := s + [ch];
    NothingYet(t);
    assert t[|s| - 1..|t|] == [ESC, ']'] && [ESC, ']'][..1] == [ESC];
    assert Opened(t, |s| - 1, |t|, "");
  }

  lemma OpensAfterEscape(s: string, ch: char)
    requires EndsInEscape(s) && ch == ']'
    ensures EndsOpened(s + [ch], "")
  {
    var t := s + [ch];
    var i: nat :| EscapeFrom(s, i);
    NothingYet(t);
    assert t[i..|t|][..|t[i..|t|]| - 1] == s[i..];
    assert Opened(t, i, |t|, "");
  }

  /** An introducer at i, a body from j to k, and an end from k that `ch` completes. */
  ghost predicate Framed(s: string, ch: char, i: nat, j: nat, k: nat, said: string) {
    && i <= j <= k <= |s| && IsIntro(s[i..j]) && IsBody(s[j..k]) && IsEnd(s[k..] + [ch])
    && Collected(s[j..k]) == said
  }

  /** A message is heard only if the guest wrote it, framed, ending right there. */
  lemma HeardWasFramed(p: Parser, s: string, ch: char)
    requires p.state == Ground && Completes(Parse(p, s), ch).Some?
    ensures exists i: nat, j: nat, k: nat :: Framed(s, ch, i, j, k, Completes(Parse(p, s), ch).value)
  {
    TracedAlways(p, s);
    var q := Parse(p, s);
    var n := if q.state == Osc then |s| else |s| - 1;
    assert s[..|s|] == s;
    var i: nat, j: nat :| Opened(s[..n], i, j, q.osc.value);
    assert s[..n][i..j] == s[i..j] && s[..n][j..] == s[j..n];
    assert s[n..] + [ch] == if q.state == Osc then [ch] else [ESC, '\\'];
    assert Framed(s, ch, i, j, n, q.osc.value);
  }

  // ---- the last word ------------------------------------------------------

  /** The context after a list of messages: that of the last start among them. */
  function LastWord(context: Context, heard: seq<string>): Context {
    if heard == [] then context
    else if IsStart(heard[|heard| - 1]) then (if SaysShell(heard[|heard| - 1]) then Shell else Command)
    else LastWord(context, heard[..|heard| - 1])
  }

  lemma {:induction false} ContextIsLastWord(p: Parser, s: string)
    ensures Parse(p, s).context == LastWord(p.context, Heard(p, s))
  {
    if s == "" {
    } else {
      var before := s[..|s| - 1];
      ContextIsLastWord(p, before);
      var h := Heard(p, s);
      assert Heard(p, before) == if Completes(Parse(p, before), s[|s| - 1]).Some? then h[..|h| - 1] else h;
    }
  }

  lemma {:induction false} NoShellSince(heard: seq<string>)
    requires forall i | 0 <= i < |heard| :: IsStart(heard[i]) ==> !SaysShell(heard[i])
    ensures LastWord(Command, heard) == Command
  {
    if heard != [] {
      NoShellSince(heard[..|heard| - 1]);
    }
  }

  /** From the moment something other than the shell is said to have the terminal
      until the shell says it is back, nothing on the screen is a prompt: not after a
      reset, a clear, a full-screen program, or whatever else the guest prints. */
  lemma NoPromptUntilTheShellReturns(sc: Screen, said: string, since: string)
    requires Grid(sc.term)
    requires Feed(sc, said).parser.context == Command
    requires var heard := Heard(Feed(sc, said).parser, since);
             forall i | 0 <= i < |heard| :: IsStart(heard[i]) ==> !SaysShell(heard[i])
    ensures !AtPrompt(Feed(sc, said + since))
  {
    FeedConcat(sc, said, since);
    var mid := Feed(sc, said);
    FeedSplits(mid, since);
    ContextIsLastWord(mid.parser, since);
    NoShellSince(Heard(mid.parser, since));
  }
}
