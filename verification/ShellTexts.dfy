/** The shell's messages with their texts written out: which bytes of the guest's give the
    terminal to a command, which give it back, and that nothing else does either. */
module ShellTexts {
  import opened Options
  import opened Texts
  import opened Parser
  import opened Terminal
  import opened Reading
  import opened ShellWord

  const START := "3008;start="
  const TYPE_SHELL := "type=shell"

  /** A start message that says the shell has the terminal: one of its fields is exactly that. */
  predicate FromShell(m: string) { START <= m && TYPE_SHELL in Split(m, ';') }

  /** A start message that says something else has. */
  predicate FromOther(m: string) { START <= m && TYPE_SHELL !in Split(m, ';') }

  // ---- finding the field ------------------------------------------------------

  lemma TypedAt(p: string, i: nat)
    requires SaysShellAt(p, i)
    ensures TYPE_SHELL in Split(p, ';')
  {
    var rest := p[i + 1..];
    assert p[i] == p[i..i + 11][0] == ';';
    assert p == p[..i] + [';'] + rest;
    SplitAppend(p[..i], rest, ';');
    assert rest[..10] == p[i..i + 11][1..] == TYPE_SHELL;
    assert ';' !in TYPE_SHELL;
    if |rest| > 10 {
      assert rest[10] == p[i + 11] == ';';
      assert rest == TYPE_SHELL + [';'] + rest[11..];
      SplitFirst(TYPE_SHELL, rest[11..], ';');
    } else {
      assert rest == TYPE_SHELL;
      SplitFirst(TYPE_SHELL, "", ';');
    }
    assert Split(rest, ';')[0] == TYPE_SHELL;
    assert Split(p, ';')[|Split(p[..i], ';')|] == TYPE_SHELL;
  }

  lemma FieldAt(a: string, rest: string)
    requires rest == TYPE_SHELL || TYPE_SHELL + [';'] <= rest
    ensures var p := a + [';'] + rest; |a| < |p| && SaysShellAt(p, |a|)
  {
    var p := a + [';'] + rest;
    assert rest[..10] == TYPE_SHELL;
    assert p[|a|..|a| + 11] == [';'] + rest[..10] == ";type=shell";
    assert |rest| > 10 ==> rest[10] == (TYPE_SHELL + [';'])[10] == ';';
  }

  /** Looked for as the page does, after a semicolon and up to one or the end, the type is
      found exactly where it is a field of its own. */
  lemma FoundIsField(p: string)
    requires START <= p
    ensures SaysShell(p) <==> TYPE_SHELL in Split(p, ';')
  {
    if SaysShell(p) {
      var i :| 0 <= i < |p| && SaysShellAt(p, i);
      TypedAt(p, i);
    }
    var pieces := Split(p, ';');
    if TYPE_SHELL in pieces {
      var k :| 0 <= k < |pieces| && pieces[k] == TYPE_SHELL;
      JoinedSplit(p, ';');
      var rest := Joined(pieces[k..], ';');
      FieldHeads(pieces[k..]);
      FirstPiece(p);
      assert pieces == pieces[..k] + pieces[k..];
      JoinedAppend(pieces[..k], pieces[k..], ';');
      FieldAt(Joined(pieces[..k], ';'), rest);
    }
  }

  lemma FirstPiece(p: string)
    requires START <= p
    ensures Split(p, ';')[0] == "3008" != TYPE_SHELL
  {
    assert p[..4] == START[..4] == "3008" && p[4] == START[4];
    assert p == "3008" + [';'] + p[5..];
    SplitFirst("3008", p[5..], ';');
    assert "3008"[0] != TYPE_SHELL[0];
  }

  lemma FieldHeads(fields: seq<string>)
    requires fields != []
    ensures Joined(fields, ';') == fields[0] || fields[0] + [';'] <= Joined(fields, ';')
  {}

  /** What a message does to the context, by its fields. */
  lemma SaidByFields(m: string, context: Context)
    ensures FromShell(m) ==> Said(m, context) == Shell
    ensures FromOther(m) ==> Said(m, context) == Command
    ensures !(START <= m) ==> Said(m, context) == context
  {
    if START <= m {
      FoundIsField(m);
    }
  }

  // ---- a message as it is written -----------------------------------------------

  /** Text with no controls in it, no longer than the page reads. */
  predicate Fits(body: string) {
    IsBody(body) && (forall i | 0 <= i < |body| :: body[i] as int >= 0x20) && Units(body) <= OSC_LIMIT
  }

  lemma UnitsGrow(body: string)
    requires body != ""
    ensures Units(body[..|body| - 1]) < Units(body)
  {}

  lemma {:induction false} FitsWhole(body: string)
    requires Fits(body)
    ensures Collected(body) == body
  {
    if body != "" {
      UnitsGrow(body);
      FitsWhole(body[..|body| - 1]);
    }
  }

  /** The id and the further fields of a start, as they are sent. */
  function StartText(id: string, fields: seq<string>): string { Joined([START + id] + fields, ';') }

  lemma StartFields(id: string, fields: seq<string>)
    requires ';' !in id && Free(fields, ';')
    ensures var m := StartText(id, fields);
            START <= m && (TYPE_SHELL in Split(m, ';') <==> TYPE_SHELL in fields)
  {
    var all := [START + id] + fields;
    var m := StartText(id, fields);
    FieldHeads(all);
    assert START <= START + id <= m;
    StartSplit(id);
    if fields == [] {
      assert all == [START + id];
    } else {
      JoinedAppend([START + id], fields, ';');
      SplitAppend(START + id, Joined(fields, ';'), ';');
      SplitJoined(fields, ';');
    }
  }

  /** The start's own two pieces are not the type. */
  lemma StartSplit(id: string)
    requires ';' !in id
    ensures TYPE_SHELL !in Split(START + id, ';')
  {
    var head, tail := "3008", "start=" + id;
    assert START + id == head + [';'] + tail;
    assert ';' !in head && ';' !in tail;
    SplitFirst(head, tail, ';');
    SplitFirst(tail, "", ';');
    assert head[0] != TYPE_SHELL[0] && tail[0] != TYPE_SHELL[0];
  }

  // ---- and as it is heard -------------------------------------------------------

  /** Any framing of any message, by what the page keeps of it. */
  lemma FramedTells(p: Parser, intro: string, body: string, end: string)
    requires p.state == Ground && IsIntro(intro) && IsBody(body) && IsEnd(end)
    ensures var q := Parse(p, intro + body + end);
            var m := Collected(body);
            && q.state == Ground
            && (FromShell(m) ==> q.context == Shell)
            && (FromOther(m) ==> q.context == Command)
            && (!(START <= m) ==> q.context == p.context)
  {
    FramedIsHeard(p, intro, body, end);
    SaidByFields(Collected(body), p.context);
  }

  /** However it is framed, a start with type=shell among its fields gives the terminal back
      to the shell, and one without takes it away. */
  lemma StartIsHeard(p: Parser, intro: string, id: string, fields: seq<string>, end: string)
    requires p.state == Ground && IsIntro(intro) && IsEnd(end)
    requires ';' !in id && Free(fields, ';') && Fits(StartText(id, fields))
    ensures Parse(p, intro + StartText(id, fields) + end).context
         == if "type=shell" in fields then Shell else Command
    ensures Parse(p, intro + StartText(id, fields) + end).state == Ground
  {
    StartFields(id, fields);
    FitsWhole(StartText(id, fields));
    FramedTells(p, intro, StartText(id, fields), end);
  }

  /** Anything else, an end included, changes nothing. */
  lemma OthersSayNothing(p: Parser, intro: string, body: string, end: string)
    requires p.state == Ground && IsIntro(intro) && IsEnd(end) && Fits(body)
    requires !("3008;start=" <= body)
    ensures Parse(p, intro + body + end).context == p.context
  {
    FitsWhole(body);
    FramedTells(p, intro, body, end);
  }

  // ---- whole streams --------------------------------------------------------------

  /** The guest wrote this message in `s`: introducer, body, end, and nothing between. */
  ghost predicate Wrote(s: string, i: nat, j: nat, k: nat, n: nat, m: string) {
    && i <= j <= k <= n <= |s|
    && IsIntro(s[i..j]) && IsBody(s[j..k]) && IsEnd(s[k..n]) && Collected(s[j..k]) == m
  }

  ghost predicate WroteShell(s: string) { exists i, j, k, n, m :: Wrote(s, i, j, k, n, m) && FromShell(m) }

  ghost predicate WroteOther(s: string) { exists i, j, k, n, m :: Wrote(s, i, j, k, n, m) && FromOther(m) }

  lemma WroteMore(s: string, t: string, i: nat, j: nat, k: nat, n: nat, m: string)
    requires Wrote(s, i, j, k, n, m) && s <= t
    ensures Wrote(t, i, j, k, n, m)
  {
    assert t[i..j] == s[i..j] && t[j..k] == s[j..k] && t[k..n] == s[k..n];
  }

  lemma CompletedWasWritten(p: Parser, s: string, ch: char)
    requires p.state == Ground && Completes(Parse(p, s), ch).Some?
    ensures exists i, j, k, n :: Wrote(s + [ch], i, j, k, n, Completes(Parse(p, s), ch).value)
  {
    HeardWasFramed(p, s, ch);
    var m := Completes(Parse(p, s), ch).value;
    var i: nat, j: nat, k: nat :| Framed(s, ch, i, j, k, m);
    var t := s + [ch];
    assert t[i..j] == s[i..j] && t[j..k] == s[j..k] && t[k..|t|] == s[k..] + [ch];
    assert Wrote(t, i, j, k, |t|, m);
  }

  /** One code point changes the context only by completing a start. */
  lemma ContextStep(p: Parser, ch: char)
    ensures var done := Completes(p, ch);
            Step(p, ch).0.context == if done.Some? then Said(done.value, p.context) else p.context
  {}

  /** The context moves only to what some start in the stream says. */
  lemma {:induction false} ContextNeedsAWord(p: Parser, s: string)
    requires p.state == Ground
    ensures Parse(p, s).context != p.context ==>
              (Parse(p, s).context == Shell && WroteShell(s)) || (Parse(p, s).context == Command && WroteOther(s))
    ensures !WroteShell(s) && p.context == Command ==> Parse(p, s).context == Command
  {
    if s == "" {
    } else {
      var front, ch := s[..|s| - 1], s[|s| - 1];
      ContextNeedsAWord(p, front);
      assert front + [ch] == s && front <= s;
      ContextStep(Parse(p, front), ch);
      WroteStill(front, s);
      var done := Completes(Parse(p, front), ch);
      if done.Some? {
        SaidByFields(done.value, Parse(p, front).context);
        CompletedWasWritten(p, front, ch);
      }
    }
  }

  lemma WroteStill(s: string, t: string)
    requires s <= t
    ensures WroteShell(s) ==> WroteShell(t)
    ensures WroteOther(s) ==> WroteOther(t)
  {
    if i, j, k, n, m :| Wrote(s, i, j, k, n, m) && FromShell(m) {
      WroteMore(s, t, i, j, k, n, m);
    }
    if i, j, k, n, m :| Wrote(s, i, j, k, n, m) && FromOther(m) {
      WroteMore(s, t, i, j, k, n, m);
    }
  }

  /** From a start that does not say type=shell until the guest writes one that does, no
      screen is a prompt, whatever else it prints. */
  lemma NoPromptBetween(sc: Screen, intro: string, id: string, fields: seq<string>, end: string, since: string)
    requires Grid(sc.term) && sc.parser.state == Ground && IsIntro(intro) && IsEnd(end)
    requires ';' !in id && Free(fields, ';') && Fits(StartText(id, fields)) && "type=shell" !in fields
    requires !WroteShell(since)
    ensures !AtPrompt(Feed(sc, intro + StartText(id, fields) + end + since))
  {
    hide StartText, WroteShell, IsIntro, IsEnd, Fits, CursorLine;
    var said := intro + StartText(id, fields) + end;
    StartIsHeard(sc.parser, intro, id, fields, end);
    FeedConcat(sc, said, since);
    FeedSplits(sc, said);
    FeedSplits(Feed(sc, said), since);
    ContextNeedsAWord(Feed(sc, said).parser, since);
  }

  /** With nothing ever said but by the shell, the context never stands in the way. */
  lemma NeverHandedOver(sc: Screen, s: string)
    requires Grid(sc.term) && sc.parser.state == Ground && sc.parser.context != Command && !WroteOther(s)
    ensures Feed(sc, s).parser.context != Command
  {
    FeedSplits(sc, s);
    ContextNeedsAWord(sc.parser, s);
  }
}
